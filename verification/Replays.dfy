/**
 How the replay of a stored submission ends when none of its own calls fails: at its receipt, unless
 it is an application whose uploads have expired in one of the two databases.
 */
module Replays {
  import opened Results
  import opened Hex
  import opened ObjectKeys
  import opened Persistence
  import opened Protocol
  import opened IntakeSystem
  import opened Invariants
  import opened Transactions
  import opened Preservation
  import opened Safety
  import opened Convergence
  import opened TransactionLaws
  import opened ClientAnswers
  import opened SoloRuns

  /** The caller is identified as `subject`, and every call of the request is answered. */
  predicate Answers(env: Environment, request: Request, subject: Option<string>) {
    && env.contractAccepts
    && Authenticate(request, env.bearer, env.proof) == Ok(subject)
    && env.storePrimary.fault == env.storeMirror.fault == env.updateOutbox.fault == NoFault
    && env.signing.Ok?
  }

  lemma ReplayIsBound(
      c: Crypto, p: Database, m: Database, k: RowKey, request: Request, subject: Option<string>, env: Environment)
    returns (context: SubmissionContext)
    requires k in p.rows && RowOk(c, k, p.rows[k]) && Repeats(c, request, k, p.rows[k].payloadSha256)
    requires Answers(env, request, subject)
    ensures ContextOk(c, request, context) && context.subject == subject
    ensures Carries(request, k, context, p.rows[k].payloadSha256)
    ensures Solo(c, p, m, request, Received, env) == Solo(c, p, m, request, Bound(context), env)
  {
    hide Solo, BindContext, Authenticate, ContextOk, RowOk, RequestDigest, Conforms;
    IdentityIsOk(request, env.bearer, env.proof);
    RepeatedRequestBinds(c, request, k, p.rows[k], subject, env.freshId);
    BoundContextIsOk(c, request, subject, env.freshId);
    context := BindContext(c, request, subject, env.freshId).value;
    SoloStep(c, p, m, request, Received, env);
    SoloStep(c, p, m, request, Validated, env);
    SoloStep(c, p, m, request, Identified(subject), env);
  }

  /** The only refusal left within the limits: an application's uploads. */
  lemma RefusedForItsUploads(rows: Tables, context: SubmissionContext, payload: Payload, now: int)
    requires WithinLimits(payload) && (payload.ReferralCreate? ==> context.subject.Some?)
    ensures Admission(rows, context, payload, now) in {Ok(()), Err(IntakeObjectUnavailable)}
  {
    hide MatchingUploads;
  }

  lemma PrimaryCallEnds(
      c: Crypto, p: Database, m: Database, k: RowKey, request: Request, context: SubmissionContext, env: Environment)
    requires UniqueIds(p.rows) && ContextOk(c, request, context) && WithinLimits(request.input.payload)
    requires k in p.rows && k == KeyOf(request, context) && Carries(request, k, context, p.rows[k].payloadSha256)
    requires env.signing.Ok? && env.storePrimary.fault == NoFault
    ensures Solo(c, p, m, request, Bound(context), env)
         == if UploadsLive(p.rows, context.subject, request.input.payload, env.storePrimary.databaseNow)
            then Solo(c, p, m, request, PrimaryStored(context, StoredFrom(p.rows[k], true)), env)
            else Ending(p, m, Failed(CONFLICT))
  {
    hide Solo, Admission, UniqueIds, UploadsLive, WithinLimits, PayloadDigest;
    var payload, now := request.input.payload, env.storePrimary.databaseNow;
    AdmittedExactly(p.rows, context, payload, now);
    RefusedForItsUploads(p.rows, context, payload, now);
    SoloStep(c, p, m, request, Bound(context), env);
    if UploadsLive(p.rows, context.subject, payload, now) {
      PrimaryReplays(p, request, context, k, env.storePrimary);
    } else {
      AnswerEnds(c, p, m, request, Failed(CONFLICT), env);
    }
  }

  /** An accepted mirror call is acknowledged and answered with the receipt of the stored row. */
  lemma AcceptedCallEnds(
      c: Crypto, p: Database, m: Database, log: seq<Note>, request: Request, context: SubmissionContext, stored: Stored,
      env: Environment)
    requires StoresOk(c, p, m, log) && StoredOk(c, p, request, context, stored) && KeyOf(request, context) in m.rows
    requires env.signing.Ok? && env.updateOutbox.fault == NoFault
    ensures Solo(c, p, m, request, MirrorAccepted(context, stored), env).response
         == Accepted(stored.id, request.input.payload.Kind(), stored.stamp)
  {
    hide Solo, StoresOk, Acknowledge, RowsGrow, StoredOk, FailureOk, Conforms;
    StoredRequestCreates(c, p, request, context, stored);
    MirrorAcceptedStores(c, p, m, log, request, context, stored, env.updateOutbox);
    var p' := Acknowledge(p, request.input.payload.Kind(), context, stored, env.updateOutbox).0;
    PrimaryGrows(p, m, log, p', m, log);
    SubmissionSurvives(c, p, p', request, context, stored, true);
    SoloStep(c, p, m, request, MirrorAccepted(context, stored), env);
    AcknowledgedCallEnds(c, p', m, log, request, context, stored, env);
  }

  lemma AcknowledgedCallEnds(
      c: Crypto, p: Database, m: Database, log: seq<Note>, request: Request, context: SubmissionContext, stored: Stored,
      env: Environment)
    requires StoresOk(c, p, m, log) && StoredOk(c, p, request, context, stored) && env.signing.Ok?
    requires request.CreateRequest? && Conforms(request)
    ensures Solo(c, p, m, request, Acknowledged(context, stored), env).response
         == Accepted(stored.id, request.input.payload.Kind(), stored.stamp)
  {
    hide Solo, StoresOk, FinalResponse, TablesOk, UniqueIds, OutboxOk, MirrorAgrees, RowsOk, StoredOk, Conforms;
    var kind := request.input.payload.Kind();
    StoresParts(c, p, m, log);
    RowsOfTables(c, p.rows);
    SoloStep(c, p, m, request, Acknowledged(context, stored), env);
    StoredUploadAnswers(c, p, request, context, stored, env.signing);
    AnswerEnds(c, p, m, request, Accepted(stored.id, kind, stored.stamp), env);
  }

  lemma RowsOfTables(c: Crypto, rows: Tables)
    requires TablesOk(c, rows)
    ensures RowsOk(c, rows)
  {
  }

  lemma RefusedCallEnds(
      c: Crypto, p: Database, m: Database, request: Request, context: SubmissionContext, stored: Stored,
      env: Environment)
    requires request.CreateRequest? && Conforms(request) && env.signing.Ok?
    ensures Solo(c, p, m, request, MirrorRefused(context, stored), env).response == Failed(MirrorUnavailable(stored.id))
  {
    hide Solo, RecordMirrorFailure, ChargeNote, Conforms;
    SoloStep(c, p, m, request, MirrorRefused(context, stored), env);
    var p' := RecordFailure(p, request.input.payload.Kind(), stored, env.updateOutbox).0;
    AnswerEnds(c, p', m, request, Failed(MirrorUnavailable(stored.id)), env);
  }

  lemma MirrorCallEnds(
      c: Crypto, p: Database, m: Database, log: seq<Note>, request: Request, context: SubmissionContext, stored: Stored,
      env: Environment)
    requires StoresOk(c, p, m, log) && StoredOk(c, p, request, context, stored) && WithinLimits(request.input.payload)
    requires env.signing.Ok? && env.storeMirror.fault == env.updateOutbox.fault == NoFault
    ensures var payload := request.input.payload;
            var live := UploadsLive(m.rows, context.subject, payload, env.storeMirror.databaseNow);
            && Solo(c, p, m, request, PrimaryStored(context, stored), env).response
               == if live then Accepted(stored.id, payload.Kind(), stored.stamp)
                  else Failed(MirrorUnavailable(stored.id))
  {
    hide Solo, StoresOk, TablesOk, UniqueIds, OutboxOk, MirrorAgrees, RowsGrow, Admission, UploadsLive, WithinLimits,
         Store, HoldsStored, PayloadDigest;
    StoresParts(c, p, m, log);
    AdmittedExactly(m.rows, context, request.input.payload, env.storeMirror.databaseNow);
    StoreMirrorResult(c, p, m, request, context, stored, env.storeMirror);
    PrimaryStoredStores(c, p, m, log, request, context, stored, env.storeMirror);
    SoloStep(c, p, m, request, PrimaryStored(context, stored), env);
    var (m', next) := StoreMirror(m, request, context, stored, env.storeMirror);
    if next.MirrorAccepted? {
      AcceptedCallEnds(c, p, m', log, request, context, stored, env);
    } else {
      RefusedCallEnds(c, p, m', request, context, stored, env);
    }
  }

  lemma ReplayEnds(
      c: Crypto, p: Database, m: Database, log: seq<Note>, k: RowKey, request: Request, subject: Option<string>,
      env: Environment)
    requires StoresOk(c, p, m, log) && k in p.rows && Repeats(c, request, k, p.rows[k].payloadSha256)
    requires WithinLimits(request.input.payload) && Answers(env, request, subject)
    ensures var row, payload := p.rows[k], request.input.payload;
            && Solo(c, p, m, request, Received, env).response
               == if !UploadsLive(p.rows, subject, payload, env.storePrimary.databaseNow) then Failed(CONFLICT)
                  else if !UploadsLive(m.rows, subject, payload, env.storeMirror.databaseNow)
                  then Failed(MirrorUnavailable(row.id))
                  else Accepted(row.id, k.kind, row.stamp)
  {
    StoresParts(c, p, m, log);
    RowAt(c, p.rows, k);
    hide Solo, StoresOk, TablesOk, UniqueIds, OutboxOk, MirrorAgrees, RowsOk, RowOk, WithinLimits, UploadsLive,
         PayloadDigest;
    var context := ReplayIsBound(c, p, m, k, request, subject, env);
    PrimaryCallEnds(c, p, m, k, request, context, env);
    if UploadsLive(p.rows, subject, request.input.payload, env.storePrimary.databaseNow) {
      MirrorCallEnds(c, p, m, log, request, context, StoredFrom(p.rows[k], true), env);
    }
  }

  /**
   The answer to an exact replay of a stored submission, for any caller and any clocks, when none of
   its own calls fails. Only an application can be refused: by the primary when its uploads are not
   live there for this caller, by the mirror when they are not live there.
   */
  lemma ReplayEndsExactly(s: System, k: RowKey, request: Request, subject: Option<string>, env: Environment)
    requires Reachable(s) && k in s.primary.rows
    requires Repeats(s.crypto, request, k, s.primary.rows[k].payloadSha256) && WithinLimits(request.input.payload)
    requires Answers(env, request, subject)
    ensures var row, payload := s.primary.rows[k], request.input.payload;
            var liveInPrimary := UploadsLive(s.primary.rows, subject, payload, env.storePrimary.databaseNow);
            var liveInMirror := UploadsLive(s.mirror.rows, subject, payload, env.storeMirror.databaseNow);
            var response := Solo(s.crypto, s.primary, s.mirror, request, Received, env).response;
            && (response == Accepted(row.id, k.kind, row.stamp) <==> liveInPrimary && liveInMirror)
            && (response == Failed(CONFLICT) <==> !liveInPrimary)
            && (response == Failed(MirrorUnavailable(row.id)) <==> liveInPrimary && !liveInMirror)
  {
    ReachableInv(s);
    hide Inv, Solo, StoresOk, UploadsLive, WithinLimits, Repeats, Answers;
    ReplayEnds(s.crypto, s.primary, s.mirror, s.log, k, request, subject, env);
  }

  // ----- other digests and new submissions ----------------------------------------------------------

  /** A well-formed request under this key: usable key and origin, and a digest of 32 bytes. */
  predicate IsSentUnder(c: Crypto, request: Request, k: RowKey) {
    && request.CreateRequest? && Conforms(request) && request.input.payload.Kind() == k.kind
    && request.idempotencyHeader == Some(k.key) && IsUsableKey(k.key)
    && request.originHost.Some? && IsUsableHost(request.originHost.value)
    && |DigestBytes(c, request.input.payload)| == 32
  }

  function ContextUnder(c: Crypto, request: Request, k: RowKey, subject: Option<string>, id: Uuid): SubmissionContext
    requires IsSentUnder(c, request, k)
  {
    SubmissionContext(id, subject, k.key, Encode(DigestBytes(c, request.input.payload)), request.originHost.value)
  }

  lemma RequestIsBound(
      c: Crypto, p: Database, m: Database, k: RowKey, request: Request, subject: Option<string>, env: Environment)
    requires IsSentUnder(c, request, k) && Answers(env, request, subject)
    ensures ContextOk(c, request, ContextUnder(c, request, k, subject, env.freshId))
    ensures Solo(c, p, m, request, Received, env)
         == Solo(c, p, m, request, Bound(ContextUnder(c, request, k, subject, env.freshId)), env)
  {
    hide Solo, BindContext, Authenticate, ContextOk, Conforms, IsUsableKey, IsUsableHost, DigestBytes, Encode;
    IdentityIsOk(request, env.bearer, env.proof);
    BindingExactly(c, request, subject, env.freshId);
    BoundContextIsOk(c, request, subject, env.freshId);
    SoloStep(c, p, m, request, Received, env);
    SoloStep(c, p, m, request, Validated, env);
    SoloStep(c, p, m, request, Identified(subject), env);
  }

  lemma ConflictEndsIn(
      c: Crypto, p: Database, m: Database, k: RowKey, request: Request, subject: Option<string>, env: Environment)
    requires UniqueIds(p.rows) && k in p.rows && IsSentUnder(c, request, k)
    requires Encode(DigestBytes(c, request.input.payload)) != p.rows[k].payloadSha256
    requires Answers(env, request, subject) && FitsColumns(request.input.payload)
    requires UploadsLive(p.rows, subject, request.input.payload, env.storePrimary.databaseNow)
    ensures Solo(c, p, m, request, Received, env) == Ending(p, m, CONFLICTING)
  {
    hide Solo, UniqueIds, UploadsLive, Encode, DigestBytes, Store, Admits, FitsColumns, IsUsableKey, IsUsableHost,
         PayloadDigest;
    var context := ContextUnder(c, request, k, subject, env.freshId);
    RequestIsBound(c, p, m, k, request, subject, env);
    LiveUploadsAdmit(p.rows, context, request.input.payload, env.storePrimary.databaseNow);
    ConflictingStore(p, Primary, context, request.input.payload, env.storePrimary);
    SoloStep(c, p, m, request, Bound(context), env);
    AnswerEnds(c, p, m, request, CONFLICTING, env);
  }

  /**
   A key that is taken by another payload: the client is told so for good, and nothing is changed,
   whatever the mirror would have answered.
   */
  lemma ConflictEnds(s: System, k: RowKey, request: Request, subject: Option<string>, env: Environment)
    requires Reachable(s) && k in s.primary.rows && IsSentUnder(s.crypto, request, k)
    requires Encode(DigestBytes(s.crypto, request.input.payload)) != s.primary.rows[k].payloadSha256
    requires Answers(env, request, subject) && FitsColumns(request.input.payload)
    requires UploadsLive(s.primary.rows, subject, request.input.payload, env.storePrimary.databaseNow)
    ensures Solo(s.crypto, s.primary, s.mirror, request, Received, env) == Ending(s.primary, s.mirror, CONFLICTING)
  {
    ReachableInv(s);
    StoresParts(s.crypto, s.primary, s.mirror, s.log);
    hide Inv, Reachable, Solo, StoresOk, TablesOk, UniqueIds, OutboxOk, MirrorAgrees, UploadsLive, IsSentUnder, Answers,
         FitsColumns, DigestBytes, Encode;
    ConflictEndsIn(s.crypto, s.primary, s.mirror, k, request, subject, env);
  }

  lemma LiveUploadsAdmit(rows: Tables, context: SubmissionContext, payload: Payload, now: int)
    requires FitsColumns(payload) && UploadsLive(rows, context.subject, payload, now)
    requires payload.ReferralCreate? ==> context.subject.Some?
    ensures Admits(rows, context, payload, now)
  {
    hide CountsAs, NamesLive;
    if payload.ApplicationCreate? {
      CountsAsIsNamesLive(rows, context.subject, payload.resumeUploadId, Resume, now);
      CountsAsIsNamesLive(rows, context.subject, payload.photoIdUploadId, PhotoId, now);
    }
  }

  lemma NewSubmissionStores(
      c: Crypto, p: Database, m: Database, log: seq<Note>, request: Request, context: SubmissionContext, call: Call)
    requires StoresOk(c, p, m, log) && ContextOk(c, request, context) && FitsColumns(request.input.payload)
    requires UploadsLive(p.rows, context.subject, request.input.payload, call.databaseNow) && call.fault == NoFault
    requires KeyOf(request, context) !in p.rows && !HoldsId(p.rows, request.input.payload.Kind(), context.canonicalId)
    ensures var stored := StorePrimary(p, request, context, call);
            && stored.1.PrimaryStored? && stored.1.context == context
            && stored.1.stored.id == context.canonicalId
            && stored.1.stored.stamp == StampOf(request.input.payload, call)
            && StoresOk(c, stored.0, m, log) && StoredOk(c, stored.0, request, context, stored.1.stored)
  {
    StoresParts(c, p, m, log);
    hide StoresOk, TablesOk, UniqueIds, OutboxOk, MirrorAgrees, UploadsLive, Store, Admits, FitsColumns, HoldsId,
         HoldsStored, RowsGrow, PayloadDigest;
    LiveUploadsAdmit(p.rows, context, request.input.payload, call.databaseNow);
    InsertedStore(p, Primary, context, request.input.payload, call);
    BoundStores(c, p, m, log, request, context, call);
    BoundStage(c, p, m, log, request, context, call);
  }

  lemma NewSubmissionEndsIn(
      c: Crypto, p: Database, m: Database, log: seq<Note>, k: RowKey, request: Request, subject: Option<string>,
      env: Environment)
    requires StoresOk(c, p, m, log) && k !in p.rows && IsSentUnder(c, request, k)
    requires !HoldsId(p.rows, k.kind, env.freshId)
    requires Answers(env, request, subject) && FitsColumns(request.input.payload)
    requires UploadsLive(p.rows, subject, request.input.payload, env.storePrimary.databaseNow)
    ensures var payload := request.input.payload;
            var liveInMirror := UploadsLive(m.rows, subject, payload, env.storeMirror.databaseNow);
            && Solo(c, p, m, request, Received, env).response
               == if liveInMirror then Accepted(env.freshId, k.kind, StampOf(payload, env.storePrimary))
                  else Failed(MirrorUnavailable(env.freshId))
  {
    hide Solo, StoresOk, UploadsLive, Encode, DigestBytes, FitsColumns, IsUsableKey, IsUsableHost, HoldsId, ContextOk,
         StoredOk, StorePrimary, RowsGrow, Conforms, WithinLimits;
    var context := ContextUnder(c, request, k, subject, env.freshId);
    RequestIsBound(c, p, m, k, request, subject, env);
    NewSubmissionStores(c, p, m, log, request, context, env.storePrimary);
    SoloStep(c, p, m, request, Bound(context), env);
    var (p', next) := StorePrimary(p, request, context, env.storePrimary);
    ColumnsWithinLimits(request.input.payload);
    MirrorCallEnds(c, p', m, log, request, context, next.stored, env);
  }

  /**
   A first submission under a fresh key and identifier, admitted by the primary and with no call
   failing: it ends with a receipt for that identifier, unless it is an application whose uploads the
   mirror does not count.
   */
  lemma NewSubmissionEnds(s: System, k: RowKey, request: Request, subject: Option<string>, env: Environment)
    requires Reachable(s) && k !in s.primary.rows && IsSentUnder(s.crypto, request, k)
    requires !HoldsId(s.primary.rows, k.kind, env.freshId)
    requires Answers(env, request, subject) && FitsColumns(request.input.payload)
    requires UploadsLive(s.primary.rows, subject, request.input.payload, env.storePrimary.databaseNow)
    ensures var payload := request.input.payload;
            var liveInMirror := UploadsLive(s.mirror.rows, subject, payload, env.storeMirror.databaseNow);
            && Solo(s.crypto, s.primary, s.mirror, request, Received, env).response
               == if liveInMirror then Accepted(env.freshId, k.kind, StampOf(payload, env.storePrimary))
                  else Failed(MirrorUnavailable(env.freshId))
  {
    ReachableInv(s);
    hide Inv, Reachable, Solo, StoresOk, UploadsLive, IsSentUnder, Answers, FitsColumns, HoldsId;
    NewSubmissionEndsIn(s.crypto, s.primary, s.mirror, s.log, k, request, subject, env);
  }

  lemma ColumnsWithinLimits(payload: Payload)
    ensures FitsColumns(payload) <==> WithinLimits(payload)
  {
  }
}
