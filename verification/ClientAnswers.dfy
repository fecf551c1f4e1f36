/**
 What the client is told: for each stage of a request, the answers it can get and exactly when, with
 status, code and retry advice spelled out.
 */
module ClientAnswers {
  import opened Results
  import opened Hex
  import opened Text
  import opened ObjectKeys
  import opened ObjectVerification
  import opened Persistence
  import opened Protocol
  import opened IntakeSystem
  import opened Invariants
  import opened Transactions
  import opened Preservation
  import opened Safety
  import opened TransactionLaws
  import Auth = Authorization
  import Convergence

  const UNPROCESSABLE: Response := Failed(ApiFailure(422, "invalid_request", false, None))
  const CONFLICTING: Response := Failed(ApiFailure(409, "intake_conflict", false, None))
  const UNAUTHENTICATED: Response := Failed(ApiFailure(401, "authentication_required", false, None))
  const FORBIDDEN: Response := Failed(ApiFailure(403, "authorization_denied", false, None))
  const UNDECIDED: Response := Failed(ApiFailure(503, "authentication_unavailable", true, None))
  const UNVERIFIED: Response := Failed(ApiFailure(503, "external_verification_unavailable", true, None))
  const UNSTORED: Response := Failed(ApiFailure(503, "persistence_unavailable", true, None))

  /** The submission is stored but not mirrored yet: the client may retry, and knows its identifier. */
  function Incomplete(id: Uuid): Response {
    Failed(ApiFailure(503, "dual_persistence_incomplete", true, Some(id)))
  }

  // ----- contract and identity ------------------------------------------------------------------

  /** A body the contract rejects, and only such a body, ends here; nothing is written. */
  lemma ContractDecides(c: Crypto, p: Database, m: Database, request: Request, accepts: bool)
    ensures var next := if accepts && Conforms(request) then Validated else Done(UNPROCESSABLE);
            Advance(c, p, m, request, Received, ContractVerdict(accepts)) == Move(p, m, next, None)
  {
  }

  predicate IsReferral(request: Request) {
    request.CreateRequest? && request.input.payload.ReferralCreate?
  }

  /** The single-use public proof that came with the body. */
  function PublicProof(request: Request): Option<string> {
    if request.CreateRequest? then request.input.turnstileToken else request.proofToken
  }

  /**
   Who the caller is: the subject of a bearer token that was accepted, or nobody in particular if no
   token came, the request is not a referral and its public proof was verified. A token that was
   refused is never replaced by a proof, and a proof that was refused identifies nobody.
   */
  lemma IdentityExactly(
      request: Request, bearer: Result<Option<string>, Auth.AuthError>, proof: Result<(), ExternalError>)
    ensures var r := Authenticate(request, bearer, proof);
            && (forall subject :: r == Ok(Some(subject)) <==> bearer == Ok(Some(subject)))
            && (r == Ok(None) <==>
                  bearer == Ok(None) && !IsReferral(request) && PublicProof(request).Some? && proof.Ok?)
  {
  }

  /** Why a caller is refused: one answer per cause. */
  lemma RefusedIdentityExactly(
      request: Request, bearer: Result<Option<string>, Auth.AuthError>, proof: Result<(), ExternalError>)
    requires Authenticate(request, bearer, proof).Err?
    ensures var response, noToken := Failed(Authenticate(request, bearer, proof).error), bearer == Ok(None);
            var checked := noToken && !IsReferral(request) && PublicProof(request).Some?;
            && (response == UNAUTHENTICATED <==>
                  bearer in {Err(Auth.Missing), Err(Auth.Invalid)} || (noToken && IsReferral(request)))
            && (response == FORBIDDEN <==> bearer == Err(Auth.Forbidden))
            && (response == UNDECIDED <==> bearer == Err(Auth.Unavailable))
            && (response == UNPROCESSABLE <==>
                  || (noToken && !IsReferral(request) && PublicProof(request).None?)
                  || (checked && proof == Err(Rejected)))
            && (response == CONFLICTING <==> checked && proof == Err(ObjectMismatch))
            && (response == UNVERIFIED <==> checked && proof in {Err(Unavailable), Err(InvalidResponse)})
  {
  }

  /** The step that decides it writes nothing and goes on or ends with that answer. */
  lemma IdentityDecides(c: Crypto, p: Database, m: Database, request: Request, event: Event)
    requires Conforms(request) && event.Identity?
    ensures var r := Authenticate(request, event.bearer, event.proof);
            var next := if r.Ok? then Identified(r.value) else Done(Failed(r.error));
            Advance(c, p, m, request, Validated, event) == Move(p, m, next, None)
  {
    hide Authenticate, Conforms;
  }

  // ----- the context ----------------------------------------------------------------------------

  /** Letters, digits and four marks, 16 to 128 of them. */
  predicate IsUsableKey(key: string) {
    && 16 <= |key| <= 128
    && forall i :: 0 <= i < |key| ==>
         || 'a' <= key[i] <= 'z' || 'A' <= key[i] <= 'Z' || '0' <= key[i] <= '9'
         || key[i] == '-' || key[i] == '_' || key[i] == ':' || key[i] == '.'
  }

  predicate IsUsableHost(host: string) {
    host == "hhaus.org" || host == "www.hhaus.org" || host == "user.hhaus.org" || host == "medellin.hhaus.org"
  }

  /** The hash of the serialized body, its Turnstile token removed. */
  function DigestBytes(c: Crypto, payload: Payload): seq<byte> {
    c.sha256(c.serialize(Input(payload, None)))
  }

  /** The header check: 16 to 128 visible characters. Those the context refuses too are refused there. */
  lemma HeaderKeyExactly(header: Option<string>)
    ensures var usable := && header.Some? && 16 <= |header.value| <= 128
                          && forall i :: 0 <= i < |header.value| ==> '!' <= header.value[i] <= '~';
            && IdempotencyKeyOf(header).Ok? == usable
            && (usable ==> IdempotencyKeyOf(header).value == header.value)
            && (!usable ==> Failed(IdempotencyKeyOf(header).error) == UNPROCESSABLE)
  {
    if header.Some? {
      forall i | 0 <= i < |header.value|
        ensures '!' <= header.value[i] <= '~' <==>
                (' ' <= header.value[i] <= '~' || header.value[i] == '\t') && IsHeaderKeyCharacter(header.value[i])
      {
      }
    }
  }

  lemma KeyCharacters(key: string)
    ensures IsUsableKey(key) <==> IsContextKey(key)
  {
  }

  /**
   `SubmissionContext::new` accepts exactly well-formed fields, names the first one that is not, and
   keeps the host in lower case.
   */
  lemma ContextExactly(id: Uuid, subject: Option<string>, key: string, digest: string, sourceHost: string)
    ensures var host := AsciiLowercase(sourceHost);
            var known := host == "localhost" || host == "127.0.0.1" || IsUsableHost(host);
            var hex := |digest| == 64 && forall i :: 0 <= i < 64 ==> '0' <= digest[i] <= '9' || 'a' <= digest[i] <= 'f';
            && NewContext(id, subject, key, digest, sourceHost)
               == if !IsUsableKey(key) then Err(InvalidContext("idempotency_key"))
                  else if !hex then Err(InvalidContext("payload_sha256"))
                  else if !known then Err(InvalidContext("source_host"))
                  else Ok(SubmissionContext(id, subject, key, digest, host))
  {
    hide IsUsableKey, IsContextKey;
    KeyCharacters(key);
  }

  lemma DigestFormat(bytes: seq<byte>)
    ensures IsDigestText(Encode(bytes)) <==> |bytes| == 32
  {
    hide Encode;
    EncodeIsLowerHex(bytes);
  }

  lemma DigestOfRequest(c: Crypto, request: Request)
    requires request.CreateRequest? && Conforms(request)
    ensures RequestDigest(c, request.input) == Encode(DigestBytes(c, request.input.payload))
  {
    hide Encode;
    if request.input.payload.ReferralCreate? {
      assert request.input == Input(request.input.payload, None);
    } else {
      assert request.input.(turnstileToken := None) == Input(request.input.payload, None);
    }
  }

  lemma HostsAreLowerCase(host: string)
    requires IsUsableHost(host)
    ensures AsciiLowercase(host) == host && host in CONTEXT_HOSTS && host in SOURCE_HOSTS
  {
    assert forall i :: 0 <= i < |host| ==> AsciiLower(host[i]) == host[i];
  }

  /**
   A request is bound exactly when its key and origin are usable; it is bound to that key, that host,
   its caller and the digest of its payload, and is otherwise refused as malformed.
   */
  lemma BindingExactly(c: Crypto, request: Request, subject: Option<string>, id: Uuid)
    requires request.CreateRequest? && Conforms(request) && |DigestBytes(c, request.input.payload)| == 32
    ensures var key, host := request.idempotencyHeader, request.originHost;
            var usable := key.Some? && IsUsableKey(key.value) && host.Some? && IsUsableHost(host.value);
            && (usable ==>
                  BindContext(c, request, subject, id)
                  == Ok(SubmissionContext(id, subject, key.value, Encode(DigestBytes(c, request.input.payload)),
                                          host.value)))
            && (!usable ==>
                  && BindContext(c, request, subject, id).Err?
                  && Failed(BindContext(c, request, subject, id).error) == UNPROCESSABLE)
  {
    hide Encode, RequestDigest, IsDigestText, IsUsableKey, IsContextKey, DigestBytes;
    var key, host := request.idempotencyHeader, request.originHost;
    DigestOfRequest(c, request);
    DigestFormat(DigestBytes(c, request.input.payload));
    if key.Some? {
      KeyCharacters(key.value);
      if IsContextKey(key.value) {
        Convergence.ContextKeysAreHeaderKeys(key.value);
      }
    }
    if host.Some? && IsUsableHost(host.value) {
      HostsAreLowerCase(host.value);
    }
  }

  // ----- the stores -------------------------------------------------------------------------------

  /** The failures of a primary store, one answer per cause; only a lost commit leaves a change. */
  lemma PrimaryRefusalExactly(p: Database, request: Request, context: SubmissionContext, call: Call)
    requires UniqueIds(p.rows) && request.CreateRequest? && Conforms(request) && call.fault == NoFault
    ensures var payload, k := request.input.payload, KeyOf(request, context);
            var (p', next) := StorePrimary(p, request, context, call);
            var admitted := Admits(p.rows, context, payload, call.databaseNow);
            && (next == Done(UNAUTHENTICATED) <==> payload.ReferralCreate? && context.subject.None?)
            && (next == Done(CONFLICTING) <==>
                  || (admitted && k in p.rows && p.rows[k].payloadSha256 != context.payloadSha256)
                  || (FitsColumns(payload) && !HasItsUploads(p.rows, context, payload, call.databaseNow)))
            && (next == Done(UNSTORED) <==>
                  || ((payload.ReferralCreate? ==> context.subject.Some?) && !FitsColumns(payload))
                  || (admitted && k !in p.rows && HoldsId(p.rows, k.kind, context.canonicalId)))
            && (next.PrimaryStored? <==>
                  && admitted
                  && (if k in p.rows then p.rows[k].payloadSha256 == context.payloadSha256
                      else !HoldsId(p.rows, k.kind, context.canonicalId)))
            && (next.Done? ==> p' == p)
  {
    hide UniqueIds, Admission, Admits, HasItsUploads, FitsColumns, Store, HoldsId;
    var payload, k := request.input.payload, KeyOf(request, context);
    AdmitsParts(p.rows, context, payload, call.databaseNow);
    if !Admits(p.rows, context, payload, call.databaseNow) {
      RefusedStore(p, Primary, context, payload, call);
    } else if k in p.rows && p.rows[k].payloadSha256 != context.payloadSha256 {
      ConflictingStore(p, Primary, context, payload, call);
    } else if k in p.rows {
      ReplayedStore(p, Primary, context, payload, call);
    } else if HoldsId(p.rows, k.kind, context.canonicalId) {
      CollidingStore(p, Primary, context, payload, call);
    } else {
      InsertedStore(p, Primary, context, payload, call);
    }
  }

  lemma AdmitsParts(rows: Tables, context: SubmissionContext, payload: Payload, now: int)
    ensures Admits(rows, context, payload, now) <==>
            && (payload.ReferralCreate? ==> context.subject.Some?)
            && FitsColumns(payload)
            && HasItsUploads(rows, context, payload, now)
    ensures !HasItsUploads(rows, context, payload, now) ==> payload.ApplicationCreate?
  {
    hide CountsAs;
  }

  /** A store that is not answered: nothing happened, or all of it did; the client hears the same. */
  lemma UnansweredStore(p: Database, request: Request, context: SubmissionContext, call: Call)
    requires request.CreateRequest? && Conforms(request) && call.fault != NoFault
    ensures var tx := Store(p, Primary, context, request.input.payload, call);
            var (p', next) := StorePrimary(p, request, context, call);
            && (call.fault == FailBeforeCommit || tx.result.Ok? ==> next == Done(UNSTORED))
            && p' == (if call.fault == FailBeforeCommit || tx.result.Err? then p else tx.db)
  {
    hide Store;
    RefusedStoreChangesNothing(p, Primary, context, request.input.payload, call);
  }

  /** Whatever becomes of the failure record, a refused mirror call is answered in one way. */
  lemma RefusedMirrorAnswers(
      c: Crypto, p: Database, m: Database, request: Request, context: SubmissionContext, stored: Stored, call: Call)
    requires request.CreateRequest? && Conforms(request)
    ensures var move := Advance(c, p, m, request, MirrorRefused(context, stored), DatabaseCall(call));
            move.stage == Done(Incomplete(stored.id)) && move.mirror == m
  {
    hide RecordMirrorFailure, ChargeNote, Conforms;
  }

  lemma AcknowledgingCall(
      c: Crypto, p: Database, m: Database, log: seq<Note>, request: Request, context: SubmissionContext, stored: Stored,
      call: Call)
    requires StoresOk(c, p, m, log) && StoredOk(c, p, request, context, stored) && KeyOf(request, context) in m.rows
    ensures Acknowledge(p, request.input.payload.Kind(), context, stored, call).1
         == if call.fault == NoFault then Acknowledged(context, stored) else Done(Incomplete(stored.id))
  {
    hide StoresOk, StoredOk, Acknowledge, RowsGrow;
    StoredRequestCreates(c, p, request, context, stored);
    if call.fault == NoFault {
      MirrorAcceptedStores(c, p, m, log, request, context, stored, call);
    } else {
      UnansweredAcknowledgement(p, request.input.payload.Kind(), context, stored, call);
    }
  }

  lemma UnansweredAcknowledgement(
      p: Database, kind: SubmissionKind, context: SubmissionContext, stored: Stored, call: Call)
    requires call.fault != NoFault
    ensures Acknowledge(p, kind, context, stored, call).1 == Done(Incomplete(stored.id))
  {
    hide MarkMirrored;
  }

  lemma AcknowledgingStep(
      c: Crypto, p: Database, m: Database, log: seq<Note>, request: Request, stage: Stage, wrote: bool, call: Call)
    requires StoresOk(c, p, m, log) && StageOk(c, p, m, log, request, stage, wrote) && stage.MirrorAccepted?
    ensures StageFits(request, stage) && Enabled(request, stage, DatabaseCall(call))
    ensures Advance(c, p, m, request, stage, DatabaseCall(call)).stage
         == if call.fault == NoFault then Acknowledged(stage.context, stage.stored)
            else Done(Incomplete(stage.stored.id))
  {
    hide StoresOk, Acknowledge, HoldsStored, ContextOk, Conforms;
    AcknowledgingCall(c, p, m, log, request, stage.context, stage.stored, call);
  }

  /** An acknowledgement that is answered is always accepted; unanswered, it leaves the submission for a retry. */
  lemma AcknowledgementAnswers(s: System, i: nat, call: Call)
    requires Reachable(s) && i in s.attempts && s.attempts[i].stage.MirrorAccepted?
    ensures CanAct(s, i, DatabaseCall(call))
    ensures var a, after := s.attempts[i], Apply(s, Act(i, DatabaseCall(call))).attempts[i];
            after.stage == if call.fault == NoFault then Acknowledged(a.stage.context, a.stage.stored)
                           else Done(Incomplete(a.stage.stored.id))
  {
    ReachableInv(s);
    var a := s.attempts[i];
    assert AttemptOk(s, i);
    hide Inv, StoresOk, StageOk, StageFits, Enabled, Advance, Apply;
    AcknowledgingStep(s.crypto, s.primary, s.mirror, s.log, a.request, a.stage, a.wrote, call);
    ActsAlone(s, i, DatabaseCall(call));
  }

  /** The guard of the mirror call: a row held under another identifier is refused, equal digest or not. */
  lemma MirrorGuardRefuses(m: Database, request: Request, context: SubmissionContext, stored: Stored, call: Call)
    requires UniqueIds(m.rows) && request.CreateRequest? && Conforms(request)
    requires KeyOf(request, context) in m.rows && m.rows[KeyOf(request, context)].id != stored.id
    ensures StoreMirror(m, request, context, stored, call) == (m, MirrorRefused(context, stored))
  {
    hide UniqueIds, Store, Admits;
    var canonical, payload := context.WithCanonicalId(stored.id), request.input.payload;
    if !Admits(m.rows, canonical, payload, call.databaseNow) {
      RefusedStore(m, SupabaseMirror, canonical, payload, call);
    } else if m.rows[KeyOf(request, context)].payloadSha256 != canonical.payloadSha256 {
      ConflictingStore(m, SupabaseMirror, canonical, payload, call);
    } else {
      ReplayedStore(m, SupabaseMirror, canonical, payload, call);
    }
  }

  /** Every persistence error has one answer. */
  lemma PersistenceErrorsExactly(error: DataError)
    ensures var response := Failed(FromDataError(error));
            && (response == UNPROCESSABLE <==> error.Validation? || error.InvalidContext?)
            && (response == CONFLICTING <==> error == IdempotencyConflict || error == IntakeObjectUnavailable)
            && (response == UNAUTHENTICATED <==> error == Unauthenticated)
            && (response == UNSTORED <==> error == DatabaseFailure || error == Decode || error == Invariant)
  {
  }

  // ----- the answer of a create handler -------------------------------------------------------------

  lemma HeldKeyIsValid(
      c: Crypto, p: Database, m: Database, log: seq<Note>, request: Request, stage: Stage, wrote: bool)
    requires TablesOk(c, p.rows) && StageOk(c, p, m, log, request, stage, wrote) && stage.Acknowledged?
    ensures request.CreateRequest?
    ensures request.input.payload.Kind() == Upload ==>
              stage.stored.objectKey.Some? && ValidObjectKey(stage.stored.objectKey.value)
  {
    hide ValidObjectKey, ObjectKey, PayloadDigest, UniqueIds, ApplicationsBacked;
    var k := KeyOf(request, stage.context);
    assert RowOk(c, k, p.rows[k]);
    if k.kind == Upload {
      var row := p.rows[k];
      PrintedKeyIsValid(row.payload.uploadKind, row.id, row.payload.sha256);
    }
  }

  lemma RespondingStep(
      c: Crypto, p: Database, m: Database, log: seq<Note>, request: Request, stage: Stage, wrote: bool,
      signing: Result<(), ExternalError>)
    requires TablesOk(c, p.rows) && StageOk(c, p, m, log, request, stage, wrote) && stage.Acknowledged?
    requires signing.Err? ==> signing.error in {Unavailable, InvalidResponse}
    ensures request.CreateRequest? && StageFits(request, stage) && Enabled(request, stage, Respond(signing))
    ensures var payload, stored := request.input.payload, stage.stored;
            var key := RowKey(payload.Kind(), stage.context.idempotencyKey);
            var receipt := ReceiptIssued(key, payload, stage.context.payloadSha256, stored.id, stored.stamp);
            && Advance(c, p, m, request, stage, Respond(signing))
               == if !payload.UploadIntentCreate? || signing.Ok?
                  then Move(p, m, Done(Accepted(stored.id, payload.Kind(), stored.stamp)), Some(receipt))
                  else Move(p, m, Done(UNVERIFIED), None)
  {
    hide TablesOk, StageOk, StoredOk, StageFits, ValidObjectKey, FinalResponse, StorePrimary, StoreMirror,
         RecordFailure, Acknowledge, ReadPrimary, ReadMirror, ObserveObject, VerifyIn, Authenticate, BindContext;
    HeldKeyIsValid(c, p, m, log, request, stage, wrote);
    Convergence.StageOkFits(c, p, m, log, request, stage, wrote);
    LastAnswer(request.input.payload.Kind(), stage.stored, signing);
  }

  /** An upload's URL is signed for valid object keys only, and only a signed one is answered with a receipt. */
  lemma LastAnswer(kind: SubmissionKind, stored: Stored, signing: Result<(), ExternalError>)
    requires signing.Err? ==> signing.error in {Unavailable, InvalidResponse}
    ensures var signed := stored.objectKey.Some? && ValidObjectKey(stored.objectKey.value) && signing.Ok?;
            && FinalResponse(kind, stored, signing)
               == if kind != Upload || signed then Accepted(stored.id, kind, stored.stamp) else UNVERIFIED
  {
    hide ValidObjectKey;
  }

  /**
   The last step of a create handler: a receipt with the stored identifier and time, recorded in the
   history, unless an upload's URL could not be signed: then a retryable error without an identifier,
   and no receipt.
   */
  lemma ReceiptExactly(s: System, i: nat, signing: Result<(), ExternalError>)
    requires Reachable(s) && i in s.attempts && s.attempts[i].stage.Acknowledged?
    requires signing.Err? ==> signing.error in {Unavailable, InvalidResponse}
    ensures CanAct(s, i, Respond(signing)) && s.attempts[i].request.CreateRequest?
    ensures var a, t := s.attempts[i], Apply(s, Act(i, Respond(signing)));
            var payload, stored := a.request.input.payload, a.stage.stored;
            && t.primary == s.primary && t.mirror == s.mirror
            && (if !payload.UploadIntentCreate? || signing.Ok? then
                  && t.attempts[i].stage == Done(Accepted(stored.id, payload.Kind(), stored.stamp))
                  && t.log == s.log + [ReceiptIssued(RowKey(payload.Kind(), a.stage.context.idempotencyKey), payload,
                                                     a.stage.context.payloadSha256, stored.id, stored.stamp)]
                else
                  t.attempts[i].stage == Done(UNVERIFIED) && t.log == s.log)
  {
    ReachableInv(s);
    var a := s.attempts[i];
    assert AttemptOk(s, i);
    StoresParts(s.crypto, s.primary, s.mirror, s.log);
    hide Inv, StoresOk, TablesOk, UniqueIds, OutboxOk, MirrorAgrees, StageOk, StageFits, Enabled, Advance;
    RespondingStep(s.crypto, s.primary, s.mirror, s.log, a.request, a.stage, a.wrote, signing);
  }

  /** No other step answers with a receipt. */
  lemma OnlyRespondAccepts(c: Crypto, p: Database, m: Database, request: Request, stage: Stage, event: Event)
    requires StageFits(request, stage) && Enabled(request, stage, event)
    ensures var move := Advance(c, p, m, request, stage, event);
            move.stage.Done? && move.stage.response.Accepted? ==>
              stage.Acknowledged? && event.Respond? && move.note.Some?
  {
    hide Store, MarkMirrored, RecordMirrorFailure, ChargeNote, FindPendingUpload, Verdict, VerifyCall, BindContext,
         Authenticate, Conforms, FinalResponse;
  }
}
