# Intake API verification model

A Dafny model of the intake service: an HTTP API that writes every submission to a primary
PostgreSQL database and to a Supabase mirror, keeps an outbox of mirror work in the primary, and
admits applications only against uploads that were verified in storage. The model follows the code;
what its documentation says differently is listed below.

## How it is built

- **Values.** `Persistence` describes one database as a map from (table, idempotency key) to a row,
  plus a sequence of outbox rows, and every named transaction as a function from the contents before
  it to the contents after it and its result. `Settle` adds the three ways a transaction can go: it
  succeeds, it fails before its commit, or it fails after its commit so that the caller hears an
  error for a change that stands. `SettleStatement` does so for the single statement of
  `verify_upload`, whose row count is lost with its answer.
- **Objects.** `WriteContexts.WriteContext` is the database capability with mutable tables; each of
  its methods is proved equal to its transaction. `AppStates.AppState` is the API with its two
  databases; each of its five handlers is proved to end exactly as the protocol says.
- **Protocol.** `Protocol.Advance` is one step of one request: a stage, an event chosen by the
  environment, the databases before and after, and a note for the history. `IntakeSystem` interleaves
  any number of requests, in any order, over one pair of databases; any request may die at any stage.
  `SoloRuns` ties the handlers to it: a handler run alone is a run of the system, so what holds of
  every reachable state holds after every handler.
- **Promises, column by column.** `TransactionLaws` says what every transaction reads, changes and
  answers in each case, and `ClientAnswers`, `CompletionAnswers` and `Replays` what the client is told,
  in terms of the columns, statuses and constants of the source rather than of the model's functions.
- **Proofs.** `Invariants` states what holds in every reachable state; `Transactions`,
  `OutboxProofs`, `Preservation`, `CompletionProofs` and `Safety` prove that every step keeps it.
  `Theorems`, `CompletionFrame`, `SubjectAgreement`, `MirrorStatus`, `Identification`, `Convergence`,
  `Replays`, `CompletionConvergence` and `QuintRefinement` draw the conclusions; `Witnesses` and `SampleRuns` give the reachable states that
  show where an expectation fails.
- **Small components.** `Hex`, `ObjectKeys`, `Authorization`, `ObjectVerification`, `Reservations`
  and `Backoff` relate the fast forms in the code to simple specifications.

## Main results

1. The invariant holds in every reachable state, under any interleaving, crash and ambiguous commit
   (`Safety.RunKeepsInv`, `Safety.ReachableInv`).
2. Every mirror row repeats a primary row under the same key, identifier and digest; a mirror call
   never meets a conflict, a foreign identifier or a taken identifier.
3. Primary rows and outbox entries correspond one to one although no uniqueness of the outbox is
   assumed; so each acknowledgement reaches one row, and each failure record too until the budget of
   100 attempts is spent.
4. Receipts stay true in every later state, and two receipts for one key name one submission.
5. A repeated request converges to the original receipt, from every reachable state, however many
   attempts failed before and whatever other attempts do in between; a completion in time converges
   to success in the same sense.
6. Every answer is characterized: who is identified and why others are refused, which submissions are
   stored, replayed, in conflict or refused, how each completion ends, and when a receipt is issued.
7. A verified primary upload was seen in storage and is verified in the mirror; every stored
   application rests on two distinct verified uploads of its own subject, in each database separately.
8. Each attempt simulates the Quint model of the service, so the Quint safety invariant holds for
   every one of unboundedly many concurrent attempts, and the model's flags are true of the databases.

## What turned out false, and when it holds

- *A final error changed nothing.* True of the four create handlers (`Theorems.FailureFrame`), not of
  `complete_upload`. A completion answers with a final error after having changed a database if and only
  if its mirror call changed the mirror row and its last call, executed after the primary row's expiry,
  is answered (`CompletionFrame.FinalErrorAfterChangeExactly`); if that answer is lost the error is a
  retryable 503. The mirror call changes the row exactly when it was not verified before
  (`CompletionFrame.MirrorCallChangesExactly`), so a repeated completion that meets an elapsed expiry
  changes nothing. `Witnesses.FinalErrorAfterChange` is a run that reaches the failing case.
- *Both databases get the same subject* (docs/architecture.md, line 29). The digest does not cover the
  subject, so another subject's replay can write the mirror row (`SubjectAgreement.SubjectsCanDiffer`).
  Whichever call brings the mirror row, from then on the two rows agree on the subject if and only if the
  attempt making that call belongs to the subject of the primary row
  (`SubjectAgreement.SubjectsAgreeExactly`).
- *Mirrored is final.* `record_mirror_failure` has no status guard. A step of the system takes the
  mirrored status from an entry if and only if it is an executed failure record about that entry, in an
  attempt whose mirror call was refused or failed, and the entry has attempts left
  (`MirrorStatus.MirroredIsUndoneExactly`); `Witnesses.MirroredIsNotFinal` is a run that does so. Proved
  instead: mirrored implies that the mirror row exists.
- *An exact replay always succeeds.* Applications check their uploads before the replay, in both
  databases. With no call failing, a replay ends in the original receipt if and only if, for an
  application, both uploads are live for the subject that repeats it in both databases, each by its own
  expiry and clock (`Replays.ReplayEndsExactly`); otherwise the primary answers a conflict, or, if only
  the mirror refuses, the answer is a 503. `Witnesses.ApplicationReplayRefused` and
  `Witnesses.ApplicationReplayRefusedByMirror` are stored applications whose own subject is refused in
  either way. Every other kind can always be repeated.
- *Interval admission equals slot occupancy.* The two part exactly when the slots are free and an
  empty interval lies inside the proposal (`Reservations.DisagreementIsExactlyAnEmptyInterval`); a
  ledger grown by admissions alone never holds one.
- *The Quint invariant is inductive.* It holds in every run, but a step can leave it from a state no run
  reaches (`QuintModel.SafetyAloneIsNotInductive`), exactly when it issues a receipt for an upload that
  is not verified (`QuintModel.SafetyIsLostExactly`); with one more clause it is inductive.

## Assumptions

- The schema is not in the repository. Assumed of it: the idempotency key is unique in each table; the
  identifier is the primary key of its table, so inserting a taken one is an error; a new outbox row
  starts pending with 0 attempts; rows are never deleted.
- Each `WriteContext` method is one atomic transaction. Its clock readings (the service's and the
  database's) are arbitrary integers, unrelated between calls.
- Rows that cannot be decoded fail like any other call that did not commit.
- SHA-256 and JSON serialization are any two functions. Nothing is assumed injective: where payloads
  are compared, the statement reads "equal, or a collision of the digest".
- Contract validation lives in the `hhm-interfaces` crate, which is not part of this model. Its verdict
  is an arbitrary choice, restricted by two facts the code relies on: an upload digest is 64 lower-case
  hexadecimal digits (the code slices its first 16), and a referral carries no Turnstile token.
- The outcomes of token introspection, Turnstile, storage downloads and URL signing are arbitrary.
- `Withdrawn` stands for any upload status outside the list the queries accept; `fields` stands for
  the columns no decision depends on.

## Model

| member | source | states |
|---|---|---|
| Safety.AdvanceKeeps | src/api.rs:129-444 | every step of a request, with any outcome of its call, keeps what holds of both databases, the history and its own stage, and only extends rows and history |
| Safety.RunKeepsInv | src/api.rs:129-444 | every run of any number of interleaved requests keeps the invariant; no row loses its identifier, digest, payload or time, and no history is rewritten |
| Safety.ReachableInv | src/api.rs:129-444 | the invariant holds in every reachable state |
| Preservation.StageStable | src/api.rs:129-164 | what one request has learnt from its calls survives whatever other requests do before its next call |
| Theorems.CrossStoreAgreement | src/persistence.rs:716-743 | every mirror row has a primary row of the same kind and key with the same identifier and digest, and the same payload unless the digest collides |
| Theorems.MirrorGuardNeverFails | src/api.rs:142-155 | the mirror call succeeds exactly when the mirror's own admission check passes; then it reports the primary's identifier, and a conflict is impossible |
| Preservation.StoreMirrorResult | src/persistence.rs:716-743 | the same for one store call: every submission the primary holds is inserted or replayed under the primary's identifier |
| Preservation.MirrorIdIsFree | src/persistence.rs:716-743 | the identifier given by the primary is free in the mirror's table or held there by the same key, so the insert never breaks the primary key |
| Theorems.OutboxBijection | src/persistence.rs:691-714 | each primary row has exactly one outbox entry and each entry exactly one row, by kind, identifier and digest; the counts are equal; the mirror's outbox stays empty |
| Theorems.StatusCoupling | src/persistence.rs:601-687 | a submission's mirror status is always the image of its outbox status, and mirrored implies that the mirror row exists |
| Theorems.AcknowledgementReachesOneRow | src/persistence.rs:595-636 | after an accepted mirror call, exactly one row and one outbox entry match the acknowledgement, and it succeeds |
| Theorems.FailureRecordedWithinBudget | src/persistence.rs:638-688 | a failure is recorded exactly while the entry has fewer than 100 attempts, whatever its status; beyond that nothing is changed |
| MirrorStatus.EntriesChangeExactly | src/persistence.rs:595-688 | what every step of the system, under every fault, makes of every column of every outbox entry: an executed acknowledgement sets it mirrored and clears its error; an executed failure record, while under 100 attempts, counts one more, makes it due 2^min(attempts, 11) seconds after the database's clock, sets the error code and is terminal at the hundredth; nothing else changes it |
| MirrorStatus.NotedDelayIsImposed | src/persistence.rs:676-677 | the delay the history counts for a failure is the one its entry is made to wait |
| MirrorStatus.MirroredIsUndoneExactly | src/persistence.rs:655-687 | a step takes the mirrored status from an entry if and only if it is an executed failure record about that entry with attempts left |
| Theorems.RetryBudget | src/persistence.rs:669-685 | attempts equal the committed failure records and never exceed 100; terminal implies 100; 100 implies terminal or mirrored; a due time exists from the first attempt on and an error code exactly for the failure statuses; the delays add up to the schedule, at most 184319 seconds |
| Theorems.UploadOrder | src/api.rs:220-267 | a verified primary upload has a verified mirror twin with the same subject, key, digest, type and size, and an earlier step saw a stored object matching them |
| Theorems.UploadIdentityAgrees | src/api.rs:269-278 | two upload rows sharing an identifier, one in each database, lie under one key and pass the identity check of a completion, unless their payloads collide |
| Theorems.IdentityCheckNeverFails | src/api.rs:237-248 | in the handler, once the primary row is read and the mirror call finds an open row, the comparison passes and the completion goes on, unless those two rows collide |
| Theorems.ApplicationAdmission | src/persistence.rs:753-782 | in each database, every stored application points to two distinct verified uploads there, a resume and a photo ID, both of its subject |
| Theorems.MirrorCheckFollowsPrimary | src/persistence.rs:474-475 | once the primary admits an application's uploads, the mirror admits them at any later state, whatever others did in between, if and only if neither upload's mirror expiry has elapsed by then |
| Theorems.ReceiptsAreDurable | src/api.rs:396-418 | after a receipt, the primary row, the mirror row and the outbox entry with its identifier and digest exist in every later state, with the receipt's time |
| Theorems.ReceiptsAreUnique | src/persistence.rs:716-751 | two receipts for one kind and key carry one identifier and one time, and come from equal payloads unless the digest collides |
| Theorems.FailureFrame | src/api.rs:539-648 | retryable means 503; a create handler's final error changed neither database; an error naming a submission leaves its row and outbox entry |
| Theorems.NoWriteBeforeIdentity | src/api.rs:359-394 | no request changes a table before its context is bound, and it is identified only by an accepted bearer token or, without one, by a verified public proof |
| Identification.WritersAreIdentified | src/api.rs:359-378 | in every run, an attempt that has changed a database had, earlier in that run, a bearer token accepted or, with no token, a public proof verified, and it acts for the subject so identified |
| ClientAnswers.IdentityExactly | src/api.rs:359-378 | the caller is a subject exactly when a bearer token was accepted for it, and anonymous exactly when no token came, the request is not a referral and its public proof was verified |
| ClientAnswers.IdentityDecides | src/api.rs:135-136 | the step that identifies the caller writes nothing and goes on, or ends with the refusal |
| ClientAnswers.RefusedIdentityExactly | src/api.rs:605-648 | which refused identity gives 401, 403, 409, 422 or which 503 |
| ClientAnswers.ContractDecides | src/api.rs:134 | a body the contract rejects ends in 422, and only such a body ends there |
| ClientAnswers.ContextExactly | src/persistence.rs:71-112 | which fields a context accepts, which one a refusal names, and the host kept in lower case |
| ClientAnswers.HeaderKeyExactly | src/api.rs:453-466 | which idempotency headers are accepted: 16 to 128 visible characters; else 422 |
| ClientAnswers.BindingExactly | src/api.rs:380-490 | a request is bound exactly when its key has 16 to 128 allowed characters and its origin is one of the four hosts; to that key, host and caller and to the digest of its payload without the proof; else 422 |
| ClientAnswers.PrimaryRefusalExactly | src/api.rs:587-604 | which primary store ends in 401, 409 or 503 and which is stored; a refusal changes nothing |
| ClientAnswers.UnansweredStore | src/api.rs:598-603 | a store without an answer is a retryable 503, whether or not it was committed |
| ClientAnswers.MirrorGuardRefuses | src/api.rs:152-155 | a mirror row under the same key but another identifier is refused, whatever its digest |
| ClientAnswers.RefusedMirrorAnswers | src/api.rs:152-155 | after a refused mirror call the answer is a retryable 503 naming the submission, whatever becomes of the failure record |
| ClientAnswers.AcknowledgementAnswers | src/api.rs:403-407 | from every reachable state, an answered acknowledgement is accepted and an unanswered one leaves a retryable 503 naming the submission |
| ClientAnswers.PersistenceErrorsExactly | src/api.rs:587-604 | which persistence error gives 401, 409, 422 and 503 |
| ClientAnswers.ReceiptExactly | src/api.rs:202-217 | from every reachable state, the last step of a create handler issues a receipt exactly if no URL was to be signed or it was; else a retryable 503 without identifier, and no receipt |
| ClientAnswers.LastAnswer | src/api.rs:202-217 | for any stored upload, a receipt exactly if its key is valid and the URL was signed |
| ClientAnswers.OnlyRespondAccepts | src/api.rs:407-417 | no other step answers with a receipt, and every receipt is recorded |
| Theorems.CompletionConflictsAfterExpiry | src/api.rs:253-262 | the last call of a completion, for every fault: unanswered it gives a retryable 503; answered, a final conflict if executed after the primary row's expiry and success otherwise |
| CompletionFrame.FinalErrorAfterChangeExactly | src/api.rs:220-267 | a completion answers with a final error after having changed a database if and only if an earlier call of it changed the mirror and its last call, executed after the primary row's expiry, is answered; every step, every fault |
| CompletionFrame.MirrorCallChangesExactly | src/persistence.rs:422-462 | the mirror call of a completion changes the mirror exactly when its row was not verified before |
| CompletionAnswers.UnavailableUploadEnds | src/api.rs:229-234 | a completion of an upload that is unknown, expired, withdrawn or somebody else's ends in a final 409 and changes nothing |
| CompletionAnswers.ExpiredUploadEnds | src/persistence.rs:397-398 | in particular from every reachable state once the primary row has expired, whatever was uploaded |
| CompletionAnswers.UnmirroredUploadEnds | src/api.rs:237-241 | likewise when the mirror holds no such row |
| CompletionAnswers.DifferentUploadEnds | src/api.rs:235-248 | likewise when the digest or one of the five identity columns differs |
| CompletionAnswers.UnansweredCallEnds | src/api.rs:229-262 | any of the four database calls without an answer ends the completion with a retryable 503 |
| CompletionAnswers.RefusedObjectEnds | src/api.rs:249-252 | an object that is not the declared one ends in 409, a failing storage service in a retryable 503; nothing is changed |
| CompletionAnswers.MatchedUploadEnds | src/api.rs:253-266 | with the declared object, the two expiries decide between 409 with nothing changed, 409 with the mirror row verified, and success with both verified |
| CompletionAnswers.KeysAreValid | src/external.rs:168-169 | the object key of every reachable row is valid, so storage is always asked |
| Witnesses.FinalErrorAfterChange | src/api.rs:253-262 | a run in which a completion ends with a final error after changing the mirror |
| CompletionConvergence.CompletionConverges | src/api.rs:220-267 | from every reachable state with the upload in both databases under one subject, that subject's completion, in time and over the declared object, ends in success with both rows verified and nothing else changed |
| CompletionConvergence.CompletionConvergesAmongOthers | src/api.rs:220-267 | the same among any other attempts: a completion whose seven own steps are undisturbed and in time ends in success with both rows verified |
| CompletionConvergence.LateCompletionLeavesMirrorVerified | src/api.rs:253-262 | from every such state with the mirror row not verified, the same completion with a late last call ends in a final conflict and leaves the mirror row verified |
| SubjectAgreement.SubjectsAgreeExactly | src/api.rs:142-150 | whichever step brings a mirror row, acknowledged or not, it is a mirror call, and in every later state the two rows agree on the subject if and only if the attempt taking it belongs to the primary row's subject |
| SubjectAgreement.MirrorRowAppears | src/api.rs:142-150 | a mirror call on a fresh key brings the row if and only if it is executed and admitted |
| SubjectAgreement.SubjectsCanDiffer | src/api.rs:431-444 | a reachable state holds one submission with different subjects in the two databases |
| Convergence.TokenIsNotDigested | src/api.rs:431-444 | replacing the Turnstile token leaves the digest of a request unchanged |
| Convergence.AdmittedExactly | src/persistence.rs:464-475 | a store admits a submission exactly when its columns fit, an application's uploads are live for the caller, and a referral has a subject |
| Convergence.RepeatedRequestBinds | src/api.rs:380-394 | a request repeating a stored submission binds to the stored key and digest |
| Convergence.SmoothRunsAdvance | src/api.rs:129-164 | along any interleaving, each undisturbed step of a repeated request brings it one step nearer to the original receipt, and nothing others do sets it back |
| Convergence.RetryConverges | src/api.rs:396-418 | from every reachable state, terminal outbox entries included, a repeated request whose seven own calls succeed ends in the original receipt, whatever others do |
| Convergence.FaultFreeRetryConverges | src/api.rs:129-218 | for every kind but applications, it is enough that the environment fails none of those seven calls |
| Convergence.RetryCanAlwaysSucceed | src/api.rs:129-357 | from every reachable state a stored submission of any kind can be repeated to its original receipt, by any caller who can be identified, anonymous ones with a public proof included, and at any time for which an application's uploads are live: a run doing so exists |
| QuintModel.StepKeepsInvariant | formal/intake_api.qnt:191-266 | every action of the Quint model keeps the strengthened safety invariant from every state satisfying it |
| QuintModel.SafetyAloneIsNotInductive | formal/intake_api.qnt:173-265 | one action leads out of the unstrengthened invariant, from a state no run reaches |
| QuintModel.SafetyIsLostExactly | formal/intake_api.qnt:178-265 | a step leaves the unstrengthened invariant if and only if it issues an upload receipt while the upload is not verified |
| QuintModel.RunsAreSafe | formal/intake_api.qnt:215-266 | every state of every run of the Quint model satisfies its safety invariant |
| QuintRefinement.StepSimulates | formal/intake_api.qnt:56-189 | each step of an attempt is answered by two steps of the Quint model, stutters included, and the model's failure flag is set exactly when the attempt heard its failure recorded |
| QuintRefinement.EveryAttemptRefinesQuint | formal/intake_api.qnt:191-266 | for every run of the service and every attempt in it, a run of the Quint model follows that attempt step by step, is safe throughout, and its storage and verification flags are true of the databases after every action |
| Transactions.StoreEffect | src/persistence.rs:716-743 | a store inserts its row, with an outbox entry in the primary only, or changes nothing; it succeeds exactly when admitted and the key is held with the same digest or is fresh with a free identifier |
| TransactionLaws.RefusedStore | src/persistence.rs:464-475 | a referral without subject, a column out of range and an application without its two uploads each have their error, in this order, and leave no trace |
| TransactionLaws.ConflictingStore | src/persistence.rs:784-790 | a held key with another digest is an idempotency conflict and changes nothing |
| TransactionLaws.ReplayedStore | src/persistence.rs:732-751 | a held key with the same digest answers with the stored identifier, time and object key, and changes nothing |
| TransactionLaws.CollidingStore | src/persistence.rs:716-731 | a fresh key under an identifier that is taken is a database error |
| TransactionLaws.InsertedStore | src/persistence.rs:297-382 | every column of a new row, its answer, and the pending outbox entry that goes with it in the primary only; an upload lives for 7200 seconds |
| TransactionLaws.PendingUploadExactly | src/persistence.rs:384-420 | the read reports the columns of a row with this identifier and owner, unexpired and not withdrawn, and unavailability exactly when there is none |
| TransactionLaws.VerifyUploadExactly | src/persistence.rs:435-461 | which rows the update reaches and every column it leaves in them: times already set are kept; it succeeds exactly on one row |
| TransactionLaws.VerifyCallExactly | src/persistence.rs:428-457 | a malformed digest is refused before the call; an unanswered call is a database error |
| TransactionLaws.MarksOneRow | src/persistence.rs:595-636 | with one matching row and one matching entry, exactly their statuses and the entry's error change |
| TransactionLaws.MarksNothing | src/persistence.rs:595-636 | otherwise nothing changes |
| TransactionLaws.ChargesOneRow | src/persistence.rs:652-687 | with one matching row and one entry under 100 attempts, exactly the row's status and the entry's status, attempts, due time and error change |
| TransactionLaws.ChargesNothing | src/persistence.rs:652-687 | otherwise nothing changes, the row's status included |
| TransactionLaws.RefusedErrorCode | src/persistence.rs:644-651 | which error codes are refused |
| Transactions.CountIsTwoExactly | src/persistence.rs:753-782 | the count of matching uploads is 2 exactly when the two identifiers name a live verified resume and a live verified photo ID of the subject; no upload fills both roles |
| Transactions.ApplicationReplayNeedsLiveUploads | src/persistence.rs:464-475 | in one database, a stored application is replayed exactly while both of its uploads are live there for the replaying subject, and changes nothing either way |
| Replays.ReplayEndsExactly | src/api.rs:280-315 | the handler's answer to a replay with no call failing, for every kind, caller and clock: the original receipt if and only if an application's uploads are live for the caller in both databases, a conflict if and only if not in the primary, a 503 if and only if only not in the mirror |
| Replays.ConflictEnds | src/api.rs:590-604 | from every reachable state, a request under a held key with another digest ends in a final 409 with both databases unchanged |
| Replays.NewSubmissionEnds | src/api.rs:129-164 | from every reachable state, a first submission under a fresh key and identifier that the primary admits ends in a receipt for that identifier, unless the mirror does not count its uploads |
| Witnesses.ApplicationReplayRefused | src/persistence.rs:464-475 | a reachable stored application whose exact replay by its own subject, with no call failing, ends in a final conflict |
| Witnesses.ApplicationReplayRefusedByMirror | src/api.rs:292-304 | a reachable stored application whose exact replay, live in the primary and with no call failing, gets no receipt because the mirror's expiry has elapsed |
| Witnesses.MirroredIsNotFinal | src/persistence.rs:669-685 | a reachable state with a mirrored entry and row, and a later one in which both record a failure |
| WriteContexts.WriteContext.StorePreInterest | src/persistence.rs:250-295 | the object's tables and answer after the call are those of the transaction under the given fault |
| WriteContexts.WriteContext.StoreUploadIntent | src/persistence.rs:297-382 | tables and answer are those of the transaction under the given fault, with the object key printed from the canonical identifier and the size bounded by 64-bit range |
| WriteContexts.WriteContext.PendingUploadOf | src/persistence.rs:384-420 | the answer describes an open unexpired upload of this subject, or is unavailability when there is none |
| WriteContexts.WriteContext.MarkUploadVerified | src/persistence.rs:422-462 | every matching open row becomes verified, keeping earlier times; the answer says whether it was exactly one, and is a database error when it is lost, whatever was changed |
| WriteContexts.WriteContext.StoreApplication | src/persistence.rs:464-544 | tables and answer are those of the transaction under the given fault: refused unless exactly two uploads match, before any insert or replay |
| WriteContexts.WriteContext.StoreReferral | src/persistence.rs:546-593 | tables and answer are those of the transaction under the given fault: refused without a subject |
| WriteContexts.WriteContext.InsertSubmission | src/persistence.rs:691-743 | insert or replay, then the outbox entry: an error leaves both tables as they were |
| WriteContexts.WriteContext.AcknowledgeMirror | src/persistence.rs:595-636 | one row and one entry become mirrored together, or the update of the row is rolled back |
| WriteContexts.WriteContext.ChargeMirrorFailure | src/persistence.rs:638-688 | one attempt is charged and the row marked together, or both are rolled back |
| AppStates.AppState.Admit | src/api.rs:359-394 | contract, identity and context are decided as in the protocol, and a refusal ends the request without touching a database |
| AppStates.AppState.CreatePreInterest | src/api.rs:129-164 | from any contents of the two databases, the handler ends with the databases and the answer of the protocol run alone |
| AppStates.AppState.CreateUploadIntent | src/api.rs:166-218 | from any contents, the handler ends with the databases and the answer of the protocol run alone, with acknowledgement and URL signing after the mirror call |
| AppStates.AppState.CreateApplication | src/api.rs:280-315 | from any contents, the handler ends with the databases and the answer of the protocol run alone; each store checks the uploads of its own database |
| AppStates.AppState.CreateReferral | src/api.rs:317-357 | from any contents, the handler ends with the databases and the answer of the protocol run alone; without a bearer token it ends before any store |
| AppStates.AppState.CheckUpload | src/api.rs:220-252 | the part of a completion before its first write: digest, identity of the two rows and the stored object are decided as in the protocol |
| AppStates.AppState.CompleteUpload | src/api.rs:220-267 | the whole completion ends with the databases and the answer of the protocol run alone: it verifies the mirror row first, then the primary row, and stops at the first refusal |
| AppStates.AppState.FinishSubmission | src/api.rs:396-418 | acknowledgement and receipt end as in the protocol |
| AppStates.AppState.RecordFailureOf | src/api.rs:420-429 | the client is told of the incomplete persistence whether or not the failure could be recorded |
| AppStates.PendingUploadIsUnique | src/persistence.rs:384-420 | with unique identifiers there is one possible answer to the read of a pending upload |
| SoloRuns.SoloIsARun | src/api.rs:129-357 | a handler left alone is a run of the interleaved system with the same databases and answer |
| SoloRuns.EndingIsReachable | src/api.rs:129-357 | run alone from a reachable state, a handler leaves the databases in a reachable state |
| ObjectVerification.VerifyObject | src/external.rs:168-229 | the chunked check accepts exactly when headers match, no chunk failed and the whole body has the declared size, within 10 MiB, and digest; each error is characterized too |
| ObjectVerification.VerdictExactly | src/external.rs:168-229 | the verdict by what came over the wire, one error per cause |
| Streams.BodyConcatenates | src/auth.rs:202-217 | the body is the chunks end to end |
| ObjectVerification.ChunkingIsIrrelevant | src/external.rs:196-217 | two ways of chunking one complete body get one verdict |
| ObjectKeys.PrintedKeySplits | src/persistence.rs:306-311 | splitting a printed key gives intake, the name of the kind, the identifier and the digest prefix |
| ObjectKeys.PrintedKeyIsValid | src/external.rs:232-248 | every printed key passes the validator |
| ObjectKeys.PrintedKeyInjective | src/persistence.rs:306-311 | a key determines upload kind, identifier and digest prefix, so different uploads never share one |
| ObjectKeys.ValidKeysAreJoinedSegments | src/external.rs:232-248 | the accepted keys are exactly the bounded joins of non-empty segments of letters, digits, hyphen and underscore |
| ObjectKeys.ValidKeysExactly | src/external.rs:232-248 | character by character: letters, digits, hyphens and underscores parted by single slashes, at most 1024 of them |
| Authorization.HasScopeExactly | src/auth.rs:74-83 | a scope is granted exactly when it stands in the scope text between ASCII whitespace or ends, on an active token |
| Authorization.AuthorizationExactly | src/auth.rs:237-245 | authorized exactly when active, for this audience and with the write scope; which error otherwise |
| Authorization.BearerTokenExactly | src/auth.rs:247-261 | a token is returned exactly for headers made of the scheme, one space and that bounded token |
| Authorization.RefusedHeaderExactly | src/auth.rs:247-261 | only an absent header is no token; every other header is an invalid credential |
| Authorization.BearerDecompositionUnique | src/auth.rs:247-261 | an accepted header has one such decomposition |
| Authorization.BoundedResponse | src/auth.rs:202-217 | the concatenated body is returned exactly when no chunk failed and it is within 1 MiB; unavailability exactly when a chunk failed before the bound was passed |
| Backoff.CapNeverBinds | src/persistence.rs:676-677 | each delay is two to the power of the attempts, at most 11, and the one-hour cap is never reached |
| Backoff.DelayNondecreasing | src/persistence.rs:676-677 | delays never shrink |
| Backoff.TotalDelayClosedForm | src/persistence.rs:669-685 | the first n delays add up to two to the n, less one, and after the eleventh to 2047 + 2048 (n - 11) |
| Backoff.WholeBudget | src/persistence.rs:669-685 | the whole budget adds up to 184319 seconds |
| Hex.LowerHex | src/hex.rs:12-19 | the digit-by-digit loop computes the recursive encoding |
| Hex.EncodeExactly | src/hex.rs:12-19 | each byte gives its two digits, the high one first |
| Hex.RoundTrip | src/hex.rs:12-19 | decoding an encoded digest gives its bytes back |
| Hex.DecodedTextIsCanonical | src/hex.rs:12-19 | encoding decoded text gives the text back: no digest has a second spelling |
| Hex.DigestTextAccepted | src/persistence.rs:87-93 | every 32-byte digest is printed in the format the persistence layer demands |
| Reservations.OccupancyOracle | tests/formal_wave5_model.rs:20-37 | the slot loop answers whether every slot of a non-empty proposal is free |
| Reservations.AdmissibleImpliesAllSlotsFree | tests/formal_wave5_model.rs:9-18 | an admissible proposal has all slots free |
| Reservations.DisagreementIsExactlyAnEmptyInterval | tests/formal_wave5_model.rs:5-37 | admission is freedom of all slots plus the absence of an empty interval inside the proposal |
| Reservations.AgreementOnNonEmptyLedgers | tests/formal_wave5_model.rs:5-37 | without empty intervals the two tests agree |
| Reservations.DisagreementExample | tests/formal_wave5_model.rs:5-37 | with one they can differ |
| Reservations.GrownLedgersConserveSlots | tests/formal_wave5_model.rs:9-18 | a ledger grown by admissions holds non-empty, pairwise disjoint intervals, and its occupied slots number the sum of their lengths |
| Reservations.GrownLedgersAgreeWithOracle | tests/formal_wave5_model.rs:50-63 | on such a ledger the two tests agree for every proposal |

## Left out

- Theorems.CrossStoreAgreement: payloads are compared up to a collision of the digest, because the digest is any function here.
- Theorems.UploadIdentityAgrees: likewise up to a collision.
- Theorems.ReceiptsAreUnique: likewise up to a collision.
- Theorems.IdentityCheckNeverFails: likewise up to a collision.
- CompletionConvergence.CompletionConverges: the two payloads must not collide, and both rows must belong to one subject, which the code does not guarantee.
- CompletionConvergence.CompletionConvergesAmongOthers: likewise.
- ClientAnswers.BindingExactly: the hash is taken to give 32 bytes, as SHA-256 does.
- Replays.ConflictEnds: likewise, and the columns are taken to fit the database's integers.
- Replays.NewSubmissionEnds: likewise; an identifier already taken is the case of TransactionLaws.CollidingStore.
- Replays.ReplayEndsExactly: columns beyond the database's integers are excluded, because the store refuses them.
- Convergence.FaultFreeRetryConverges: a declared size beyond the 64-bit column is excluded, because the store refuses it; input contracts bound sizes far below.
- AppStates.AppState.CompleteUpload: requires that identifiers are unique in both tables, which is the schema's primary key and an invariant of every reachable state.
- Authorization.BoundedResponse: a single chunk is taken to be smaller than the machine word, so the overflow check concerns the running sum only.
- Transaction isolation: each transaction is one atomic step; blocking, deadlocks and serialization failures appear only as failed calls.
- Column-by-column copying inside the four store methods, trimming of text columns, and the enum-to-text maps other than the upload kind.
- Parsing of the Origin URL and of the Content-Type header, and the checks on a verified subject's text: their outcomes are inputs.
- Building and checking signed URLs, the Turnstile request and the introspection endpoint: their outcomes are inputs.
- Routing, CORS, configuration, feature flags, middleware, health and readiness: one-branch checks or library code.
- The receipt's constant fields and the lists of allowed content types.
- The outbox repair worker: it is not in the repository, so retries come from clients alone.
- formal/check_refinement.py: a text-ordering check on the sources.
- In-flight order inside one database call: a call either takes effect at its step or not at all.
