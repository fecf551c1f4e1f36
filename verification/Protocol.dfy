/**
 The handlers of src/api.rs as steps: one request moves through its stages, and each stage makes
 one call to a database or to an external service. The environment picks what each call meets.
 */
module Protocol {
  import opened Results
  import opened Hex
  import opened ObjectKeys
  import opened ObjectVerification
  import opened Persistence
  import Auth = Authorization
  import opened Backoff

  // ----- requests and digests ----------------------------------------------------------------

  /** A deserialized body: the submission and, next to it, the single-use Turnstile proof. */
  datatype Input = Input(payload: Payload, turnstileToken: Option<string>)

  datatype Request =
    | CreateRequest(input: Input, idempotencyHeader: Option<string>, originHost: Option<string>)
    | CompleteRequest(uploadId: Uuid, sha256: string, proofToken: Option<string>)

  /** SHA-256 and JSON serialization, as any two functions. */
  datatype Crypto = Crypto(sha256: HashFunction, serialize: Input -> seq<byte>)

  function CanonicalDigest(c: Crypto, input: Input): string {
    Encode(c.sha256(c.serialize(input)))
  }

  function CanonicalDigestWithoutTurnstile(c: Crypto, input: Input): string {
    CanonicalDigest(c, input.(turnstileToken := None))
  }

  /** Referrals are digested whole; their contract has no Turnstile token. */
  function RequestDigest(c: Crypto, input: Input): string {
    if input.payload.ReferralCreate? then CanonicalDigest(c, input) else CanonicalDigestWithoutTurnstile(c, input)
  }

  /** The digest a stored payload must carry. */
  function PayloadDigest(c: Crypto, payload: Payload): string {
    CanonicalDigest(c, Input(payload, None))
  }

  /** The part of the input contract that the protocol relies on. */
  predicate Conforms(request: Request) {
    match request
    case CreateRequest(input, _, _) =>
      WellFormedPayload(input.payload) && (input.payload.ReferralCreate? ==> input.turnstileToken.None?)
    case CompleteRequest(_, sha256, _) => IsDigestText(sha256)
  }

  function ProofOf(request: Request): Option<string> {
    match request
    case CreateRequest(input, _, _) => input.turnstileToken
    case CompleteRequest(_, _, token) => token
  }

  // ----- responses -----------------------------------------------------------------------------

  datatype ApiFailure = ApiFailure(status: nat, code: string, retryable: bool, submissionId: Option<Uuid>)

  const INVALID: ApiFailure := ApiFailure(422, "invalid_request", false, None)
  const CONFLICT: ApiFailure := ApiFailure(409, "intake_conflict", false, None)

  function MirrorUnavailable(id: Uuid): ApiFailure {
    ApiFailure(503, "dual_persistence_incomplete", true, Some(id))
  }

  function FromAuthError(error: Auth.AuthError): ApiFailure {
    match error
    case Missing => ApiFailure(401, "authentication_required", false, None)
    case Invalid => ApiFailure(401, "authentication_required", false, None)
    case Forbidden => ApiFailure(403, "authorization_denied", false, None)
    case Unavailable => ApiFailure(503, "authentication_unavailable", true, None)
  }

  function FromExternalError(error: ExternalError): ApiFailure {
    match error
    case Rejected => INVALID
    case ObjectMismatch => CONFLICT
    case Unavailable => ApiFailure(503, "external_verification_unavailable", true, None)
    case InvalidResponse => ApiFailure(503, "external_verification_unavailable", true, None)
  }

  function FromDataError(error: DataError): ApiFailure {
    match error
    case Validation => INVALID
    case InvalidContext(_) => INVALID
    case IdempotencyConflict => CONFLICT
    case IntakeObjectUnavailable => CONFLICT
    case Unauthenticated => FromAuthError(Auth.Missing)
    case DatabaseFailure => ApiFailure(503, "persistence_unavailable", true, None)
    case Decode => ApiFailure(503, "persistence_unavailable", true, None)
    case Invariant => ApiFailure(503, "persistence_unavailable", true, None)
  }

  /** `Accepted` is either receipt of a create handler; its stamp is the row's time column. */
  datatype Response =
    | Accepted(id: Uuid, kind: SubmissionKind, stamp: int)
    | UploadCompleted(uploadId: Uuid)
    | Failed(failure: ApiFailure)

  // ----- the checks before the first write ---------------------------------------------------------

  predicate IsUnicodeControl(c: char) {
    c as int < 0x20 || 0x7F <= c as int < 0xA0
  }

  predicate IsHeaderKeyCharacter(c: char) {
    !Auth.IsAsciiWhitespace(c) && !IsUnicodeControl(c)
  }

  /** `idempotency_key`: present, visible, 16 to 128 characters, no whitespace or control. */
  function IdempotencyKeyOf(header: Option<string>): Result<string, ApiFailure> {
    match header
    case None => Err(INVALID)
    case Some(value) =>
      if Auth.IsHeaderText(value) && 16 <= |value| <= 128
         && forall i :: 0 <= i < |value| ==> IsHeaderKeyCharacter(value[i])
      then Ok(value)
      else Err(INVALID)
  }

  const SOURCE_HOSTS: seq<string> := ["hhaus.org", "www.hhaus.org", "user.hhaus.org", "medellin.hhaus.org"]

  /** `source_host` on the host of a parsed https origin without path, query or fragment. */
  function SourceHostOf(originHost: Option<string>): Result<string, ApiFailure> {
    if originHost.Some? && originHost.value in SOURCE_HOSTS then Ok(originHost.value) else Err(INVALID)
  }

  function BindContext(
      c: Crypto, request: Request, subject: Option<string>, id: Uuid)
    : Result<SubmissionContext, ApiFailure>
    requires request.CreateRequest?
  {
    var key := IdempotencyKeyOf(request.idempotencyHeader);
    if key.Err? then Err(key.error)
    else
      var host := SourceHostOf(request.originHost);
      if host.Err? then Err(host.error)
      else
        match NewContext(id, subject, key.value, RequestDigest(c, request.input), host.value)
        case Ok(context) => Ok(context)
        case Err(error) => Err(FromDataError(error))
  }

  /**
   `required_subject` for referrals, `authenticate_or_verify_public` for everything else: a bearer
   token that was supplied decides, and only its absence falls back to the public proof.
   */
  function Authenticate(
      request: Request, bearer: Result<Option<string>, Auth.AuthError>, proof: Result<(), ExternalError>)
    : Result<Option<string>, ApiFailure>
  {
    match bearer
    case Err(error) => Err(FromAuthError(error))
    case Ok(Some(subject)) => Ok(Some(subject))
    case Ok(None) =>
      if request.CreateRequest? && request.input.payload.ReferralCreate? then Err(FromAuthError(Auth.Missing))
      else if ProofOf(request).None? then Err(INVALID)
      else if proof.Err? then Err(FromExternalError(proof.error))
      else Ok(None)
  }

  predicate SameUploadIdentity(primary: PendingUpload, mirror: PendingUpload) {
    && primary.id == mirror.id
    && primary.objectKey == mirror.objectKey
    && primary.expectedSha256 == mirror.expectedSha256
    && primary.contentType == mirror.contentType
    && primary.sizeBytes == mirror.sizeBytes
  }

  // ----- stages and events -----------------------------------------------------------------------

  datatype Stage =
    | Received
    | Validated
    | Identified(subject: Option<string>)
    | Bound(context: SubmissionContext)
    | PrimaryStored(context: SubmissionContext, stored: Stored)
    | MirrorRefused(context: SubmissionContext, stored: Stored)
    | MirrorAccepted(context: SubmissionContext, stored: Stored)
    | Acknowledged(context: SubmissionContext, stored: Stored)
    | PrimaryRead(subject: Option<string>, primary: PendingUpload)
    | IdentityMatched(subject: Option<string>, primary: PendingUpload)
    | ObjectVerified(subject: Option<string>, primary: PendingUpload)
    | MirrorVerified(subject: Option<string>, primary: PendingUpload)
    | Done(response: Response)
    | Crashed

  datatype Event =
    | ContractVerdict(accepts: bool)
    | Identity(bearer: Result<Option<string>, Auth.AuthError>, proof: Result<(), ExternalError>)
    | FreshId(id: Uuid)
    | DatabaseCall(call: Call)
    | ObjectDownload(download: Download)
    | Respond(signing: Result<(), ExternalError>)
    | Crash

  /** What a step leaves in the history of the whole system. */
  datatype Note =
    | FailureRecorded(kind: SubmissionKind, id: Uuid, delay: nat)
    | ObjectObserved(objectKey: string, contentType: string, content: seq<byte>)
    | ReceiptIssued(k: RowKey, payload: Payload, payloadSha256: string, id: Uuid, stamp: int)

  datatype Move = Move(primary: Database, mirror: Database, stage: Stage, note: Option<Note>)

  predicate Enabled(request: Request, stage: Stage, event: Event) {
    match stage
    case Received => event.ContractVerdict? || event.Crash?
    case Validated => event.Identity? || event.Crash?
    case Identified(_) => (if request.CreateRequest? then event.FreshId? else event.DatabaseCall?) || event.Crash?
    case IdentityMatched(_, _) => event.ObjectDownload? || event.Crash?
    case Acknowledged(_, _) =>
      (event.Respond? && (event.signing.Err? ==> event.signing.error in {Unavailable, InvalidResponse})) || event.Crash?
    case Done(_) => false
    case Crashed => false
    case _ => event.DatabaseCall? || event.Crash?
  }

  /** Stages a create request and a completion request can be in. */
  predicate StageFits(request: Request, stage: Stage) {
    match stage
    case Bound(_) => request.CreateRequest? && Conforms(request)
    case PrimaryStored(_, _) => request.CreateRequest? && Conforms(request)
    case MirrorRefused(_, _) => request.CreateRequest? && Conforms(request)
    case MirrorAccepted(_, _) => request.CreateRequest? && Conforms(request)
    case Acknowledged(_, _) => request.CreateRequest? && Conforms(request)
    case PrimaryRead(_, _) => request.CompleteRequest? && Conforms(request)
    case IdentityMatched(_, _) => request.CompleteRequest? && Conforms(request)
    case ObjectVerified(_, _) => request.CompleteRequest? && Conforms(request)
    case MirrorVerified(_, _) => request.CompleteRequest? && Conforms(request)
    case Identified(_) => Conforms(request)
    case Validated => Conforms(request)
    case _ => true
  }

  const MIRROR_ERROR_CODE: string := "supabase_unavailable"

  // ----- one step per stage --------------------------------------------------------------------------

  function StorePrimary(p: Database, request: Request, context: SubmissionContext, call: Call): (Database, Stage)
    requires request.CreateRequest? && Conforms(request)
  {
    var settled := Settle(p, Store(p, Primary, context, request.input.payload, call), call.fault);
    match settled.result
    case Ok(stored) => (settled.db, PrimaryStored(context, stored))
    case Err(error) => (settled.db, Done(Failed(FromDataError(error))))
  }

  function StoreMirror(m: Database, request: Request, context: SubmissionContext, stored: Stored, call: Call)
    : (Database, Stage)
    requires request.CreateRequest? && Conforms(request)
  {
    var mirrorContext := context.WithCanonicalId(stored.id);
    var settled := Settle(m, Store(m, SupabaseMirror, mirrorContext, request.input.payload, call), call.fault);
    if settled.result.Ok? && settled.result.value.id == stored.id
    then (settled.db, MirrorAccepted(context, stored))
    else (settled.db, MirrorRefused(context, stored))
  }

  /** `record_failure`: the result of the call is logged, never returned. */
  ghost function RecordFailure(p: Database, kind: SubmissionKind, stored: Stored, call: Call)
    : (Database, Stage, Option<Note>)
  {
    var tx := RecordMirrorFailure(p, kind, stored.id, MIRROR_ERROR_CODE, call.databaseNow);
    var settled := Settle(p, tx, call.fault);
    (settled.db, Done(Failed(MirrorUnavailable(stored.id))),
     if tx.result.Ok? && call.fault != FailBeforeCommit then Some(ChargeNote(p.outbox, kind, stored.id)) else None)
  }

  /** The failure, with the delay the committed charge put on the entry. */
  ghost function ChargeNote(outbox: seq<OutboxRow>, kind: SubmissionKind, id: Uuid): Note {
    var entries := EntriesToCharge(outbox, kind, id);
    if entries == {} then FailureRecorded(kind, id, 0)
    else var i :| i in entries; FailureRecorded(kind, id, DelaySeconds(outbox[i].attempts))
  }

  function Acknowledge(p: Database, kind: SubmissionKind, context: SubmissionContext, stored: Stored, call: Call)
    : (Database, Stage)
  {
    var settled := Settle(p, MarkMirrored(p, kind, stored.id, context.payloadSha256), call.fault);
    match settled.result
    case Ok(_) => (settled.db, Acknowledged(context, stored))
    case Err(_) => (settled.db, Done(Failed(MirrorUnavailable(stored.id))))
  }

  /** The last step of a create handler: uploads still need a signed URL for a valid object key. */
  function FinalResponse(kind: SubmissionKind, stored: Stored, signing: Result<(), ExternalError>): Response {
    if kind == Upload && (stored.objectKey.None? || !ValidObjectKey(stored.objectKey.value))
    then Failed(FromExternalError(InvalidResponse))
    else if kind == Upload && signing.Err? then Failed(FromExternalError(signing.error))
    else Accepted(stored.id, kind, stored.stamp)
  }

  ghost function ReadPrimary(p: Database, request: Request, subject: Option<string>, call: Call): Stage
    requires request.CompleteRequest?
  {
    if call.fault != NoFault then Done(Failed(FromDataError(DatabaseFailure)))
    else
      match FindPendingUpload(p.rows, request.uploadId, subject, call.databaseNow)
      case Err(error) => Done(Failed(FromDataError(error)))
      case Ok(found) =>
        if request.sha256 != found.expectedSha256 then Done(Failed(CONFLICT)) else PrimaryRead(subject, found)
  }

  ghost function ReadMirror(
      m: Database, request: Request, subject: Option<string>, primary: PendingUpload, call: Call): Stage
    requires request.CompleteRequest?
  {
    if call.fault != NoFault then Done(Failed(FromDataError(DatabaseFailure)))
    else
      match FindPendingUpload(m.rows, request.uploadId, subject, call.databaseNow)
      case Err(error) => Done(Failed(FromDataError(error)))
      case Ok(mirror) =>
        if SameUploadIdentity(primary, mirror) then IdentityMatched(subject, primary) else Done(Failed(CONFLICT))
  }

  ghost function ObserveObject(c: Crypto, subject: Option<string>, primary: PendingUpload, download: Download)
    : (Stage, Option<Note>)
  {
    match Verdict(c.sha256, primary, download)
    case Ok(_) =>
      (ObjectVerified(subject, primary),
       Some(ObjectObserved(primary.objectKey, download.contentType.value, Streams.Body(download.chunks))))
    case Err(error) => (Done(Failed(FromExternalError(error))), None)
  }

  function VerifyIn(
      db: Database, request: Request, subject: Option<string>, call: Call, next: Stage): (Database, Stage)
    requires request.CompleteRequest?
  {
    var settled := VerifyCall(db, request.uploadId, subject, request.sha256, call);
    match settled.result
    case Ok(_) => (settled.db, next)
    case Err(error) => (settled.db, Done(Failed(FromDataError(error))))
  }

  ghost function Advance(c: Crypto, p: Database, m: Database, request: Request, stage: Stage, event: Event): Move
    requires StageFits(request, stage) && Enabled(request, stage, event)
  {
    if event.Crash? then Move(p, m, Crashed, None)
    else
      match stage
      case Received =>
        Move(p, m, if event.accepts && Conforms(request) then Validated else Done(Failed(INVALID)), None)
      case Validated =>
        (match Authenticate(request, event.bearer, event.proof)
         case Ok(subject) => Move(p, m, Identified(subject), None)
         case Err(failure) => Move(p, m, Done(Failed(failure)), None))
      case Identified(subject) =>
        if request.CompleteRequest? then Move(p, m, ReadPrimary(p, request, subject, event.call), None)
        else
          (match BindContext(c, request, subject, event.id)
           case Ok(context) => Move(p, m, Bound(context), None)
           case Err(failure) => Move(p, m, Done(Failed(failure)), None))
      case Bound(context) =>
        var (p', next) := StorePrimary(p, request, context, event.call);
        Move(p', m, next, None)
      case PrimaryStored(context, stored) =>
        var (m', next) := StoreMirror(m, request, context, stored, event.call);
        Move(p, m', next, None)
      case MirrorRefused(context, stored) =>
        var (p', next, note) := RecordFailure(p, request.input.payload.Kind(), stored, event.call);
        Move(p', m, next, note)
      case MirrorAccepted(context, stored) =>
        var (p', next) := Acknowledge(p, request.input.payload.Kind(), context, stored, event.call);
        Move(p', m, next, None)
      case Acknowledged(context, stored) =>
        var kind := request.input.payload.Kind();
        var response := FinalResponse(kind, stored, event.signing);
        Move(p, m, Done(response),
             if response.Accepted?
             then Some(ReceiptIssued(RowKey(kind, context.idempotencyKey), request.input.payload,
                                     context.payloadSha256, stored.id, stored.stamp))
             else None)
      case PrimaryRead(subject, primary) =>
        Move(p, m, ReadMirror(m, request, subject, primary, event.call), None)
      case IdentityMatched(subject, primary) =>
        var (next, note) := ObserveObject(c, subject, primary, event.download);
        Move(p, m, next, note)
      case ObjectVerified(subject, primary) =>
        var (m', next) := VerifyIn(m, request, subject, event.call, MirrorVerified(subject, primary));
        Move(p, m', next, None)
      case MirrorVerified(subject, primary) =>
        var (p', next) := VerifyIn(p, request, subject, event.call, Done(UploadCompleted(request.uploadId)));
        Move(p', m, next, None)
  }
}
