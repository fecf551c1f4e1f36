/**
 The two intake databases as values, and every named transaction of src/persistence.rs as a
 function from the contents before it to the contents after it and its result.
 */
module Persistence {
  import opened Results
  import opened Hex
  import opened Text
  import opened ObjectKeys
  import opened ObjectVerification
  import opened Backoff

  // ----- requests as the persistence layer sees them ------------------------------------------

  datatype SubmissionKind = PreInterest | Upload | Application | Referral

  /** The validated inputs, with the columns the protocol reads; `fields` holds the others. */
  datatype Payload =
    | PreInterestCreate(fields: map<string, string>)
    | UploadIntentCreate(uploadKind: UploadKind, sha256: string, contentType: string, sizeBytes: nat)
    | ApplicationCreate(
        resumeUploadId: Uuid, photoIdUploadId: Uuid, preferredRoomOccupancy: int, fields: map<string, string>)
    | ReferralCreate(fields: map<string, string>)
  {
    function Kind(): SubmissionKind {
      match this
      case PreInterestCreate(_) => PreInterest
      case UploadIntentCreate(_, _, _, _) => Upload
      case ApplicationCreate(_, _, _, _) => Application
      case ReferralCreate(_) => Referral
    }
  }

  datatype DataError =
    | Validation
    | InvalidContext(field: string)
    | IdempotencyConflict
    | IntakeObjectUnavailable
    | Unauthenticated
    | DatabaseFailure
    | Decode
    | Invariant

  datatype SubmissionContext = SubmissionContext(
    canonicalId: Uuid,
    subject: Option<string>,
    idempotencyKey: string,
    payloadSha256: string,
    sourceHost: string)
  {
    function WithCanonicalId(id: Uuid): SubmissionContext {
      this.(canonicalId := id)
    }
  }

  predicate IsContextKeyCharacter(c: char) {
    IsAsciiAlphanumeric(c) || c == '-' || c == '_' || c == ':' || c == '.'
  }

  predicate IsContextKey(key: string) {
    16 <= |key| <= 128 && forall i :: 0 <= i < |key| ==> IsContextKeyCharacter(key[i])
  }

  const CONTEXT_HOSTS: seq<string> :=
    ["hhaus.org", "www.hhaus.org", "user.hhaus.org", "medellin.hhaus.org", "localhost", "127.0.0.1"]

  /** `SubmissionContext::new`; `canonicalId` stands for the fresh random identifier. */
  function NewContext(
      canonicalId: Uuid, subject: Option<string>, idempotencyKey: string, payloadSha256: string, sourceHost: string)
    : Result<SubmissionContext, DataError>
  {
    var host := AsciiLowercase(sourceHost);
    if !IsContextKey(idempotencyKey) then Err(InvalidContext("idempotency_key"))
    else if !IsDigestText(payloadSha256) then Err(InvalidContext("payload_sha256"))
    else if host !in CONTEXT_HOSTS then Err(InvalidContext("source_host"))
    else Ok(SubmissionContext(canonicalId, subject, idempotencyKey, payloadSha256, host))
  }

  // ----- tables ---------------------------------------------------------------------------------

  datatype PersistenceTarget = Primary | SupabaseMirror {
    function InitialMirrorStatus(): MirrorStatus {
      if Primary? then Pending else Mirrored
    }
  }

  datatype MirrorStatus = Pending | Mirrored | RetryableFailure | TerminalFailure

  /** `Withdrawn` stands for any status outside the list the queries accept. */
  datatype UploadStatus = AwaitingUpload | Uploaded | UploadVerified | Withdrawn

  /** The columns that change: the mirror status of a submission, or the state of an upload. */
  datatype Progress =
    | Mirroring(mirrorStatus: MirrorStatus)
    | Uploading(objectKey: string, uploadStatus: UploadStatus, uploadedAt: Option<int>, verifiedAt: Option<int>)

  /** `stamp` is the column a replay reports: acceptance time, or expiry for an upload. */
  datatype Row = Row(
    id: Uuid,
    payloadSha256: string,
    subject: Option<string>,
    payload: Payload,
    stamp: int,
    progress: Progress)

  /** The table and the idempotency key, unique within it. */
  datatype RowKey = RowKey(kind: SubmissionKind, key: string)

  type Tables = map<RowKey, Row>

  datatype OutboxRow = OutboxRow(
    kind: SubmissionKind,
    id: Uuid,
    payloadSha256: string,
    status: MirrorStatus,
    attempts: nat,
    nextAttemptAt: Option<int>,
    lastError: Option<string>)

  /** The outbox is a plain sequence of rows: no uniqueness constraint is assumed of it. */
  datatype Database = Database(rows: Tables, outbox: seq<OutboxRow>)

  datatype Stored = Stored(id: Uuid, stamp: int, objectKey: Option<string>, replayed: bool)

  datatype Outcome<T> = Outcome(db: Database, result: Result<T, DataError>)

  /** One database call: how it fails, if it does, and the clocks it reads. */
  datatype Fault = NoFault | FailBeforeCommit | FailAfterCommit

  datatype Call = Call(fault: Fault, serverNow: int, databaseNow: int)

  /**
   A transaction that fails before its commit leaves no trace; one that fails after it leaves the
   commit. A transaction that ends with an error of its own has no commit to lose.
   */
  function Settle<T>(before: Database, tx: Outcome<T>, fault: Fault): Outcome<T> {
    match fault
    case NoFault => tx
    case FailBeforeCommit => Outcome(before, Err(DatabaseFailure))
    case FailAfterCommit => if tx.result.Ok? then Outcome(tx.db, Err(DatabaseFailure)) else tx
  }

  /** A single statement commits by itself: when its answer is lost, so is its row count. */
  function SettleStatement<T>(before: Database, statement: Outcome<T>, fault: Fault): Outcome<T> {
    match fault
    case NoFault => statement
    case FailBeforeCommit => Outcome(before, Err(DatabaseFailure))
    case FailAfterCommit => Outcome(statement.db, Err(DatabaseFailure))
  }

  // ----- store_* ----------------------------------------------------------------------------------

  const UPLOAD_LIFETIME_SECONDS: int := 2 * 60 * 60
  const I64_MAX: int := 0x7FFF_FFFF_FFFF_FFFF

  predicate NamesUpload(row: Row, subject: Option<string>, id: Uuid, kind: UploadKind, now: int) {
    && row.id == id
    && row.subject == subject
    && row.progress.Uploading?
    && row.progress.uploadStatus == UploadVerified
    && row.stamp > now
    && row.payload.UploadIntentCreate?
    && row.payload.uploadKind == kind
  }

  /** The rows the application check counts. */
  function MatchingUploads(rows: Tables, subject: Option<string>, resume: Uuid, photoId: Uuid, now: int): set<RowKey> {
    set k | k in rows && k.kind == Upload
            && (|| NamesUpload(rows[k], subject, resume, Resume, now)
                || NamesUpload(rows[k], subject, photoId, PhotoId, now))
  }

  /** What each `store_*` demands before it inserts anything. */
  function Admission(rows: Tables, context: SubmissionContext, payload: Payload, now: int): Result<(), DataError> {
    match payload
    case PreInterestCreate(_) => Ok(())
    case UploadIntentCreate(_, _, _, size) => if size > I64_MAX then Err(Invariant) else Ok(())
    case ApplicationCreate(resume, photoId, occupancy, _) =>
      if !(-0x8000 <= occupancy < 0x8000) then Err(Invariant)
      else if |MatchingUploads(rows, context.subject, resume, photoId, now)| != 2 then Err(IntakeObjectUnavailable)
      else Ok(())
    case ReferralCreate(_) => if context.subject.None? then Err(Unauthenticated) else Ok(())
  }

  predicate WellFormedPayload(payload: Payload) {
    payload.UploadIntentCreate? ==> IsDigestText(payload.sha256)
  }

  function NewRow(target: PersistenceTarget, context: SubmissionContext, payload: Payload, call: Call): Row
    requires WellFormedPayload(payload)
  {
    if payload.UploadIntentCreate? then
      Row(context.canonicalId, context.payloadSha256, context.subject, payload,
          call.serverNow + UPLOAD_LIFETIME_SECONDS,
          Uploading(ObjectKey(payload.uploadKind, context.canonicalId, payload.sha256), AwaitingUpload, None, None))
    else
      Row(context.canonicalId, context.payloadSha256, context.subject, payload, call.databaseNow,
          Mirroring(target.InitialMirrorStatus()))
  }

  function StoredFrom(row: Row, replayed: bool): Stored {
    Stored(row.id, row.stamp, if row.progress.Uploading? then Some(row.progress.objectKey) else None, replayed)
  }

  predicate IdTaken(rows: Tables, kind: SubmissionKind, id: Uuid) {
    exists k :: k in rows && k.kind == kind && rows[k].id == id
  }

  /**
   `insert_or_replay`: a held key answers with its own row if the digest agrees; a fresh key is
   inserted unless its identifier breaks the primary key.
   */
  function InsertOrReplay(rows: Tables, k: RowKey, row: Row): (Tables, Result<Stored, DataError>) {
    if k in rows then
      if rows[k].payloadSha256 == row.payloadSha256 then (rows, Ok(StoredFrom(rows[k], true)))
      else (rows, Err(IdempotencyConflict))
    else if IdTaken(rows, k.kind, row.id) then (rows, Err(DatabaseFailure))
    else (rows[k := row], Ok(StoredFrom(row, false)))
  }

  function NewOutboxRow(kind: SubmissionKind, id: Uuid, payloadSha256: string): OutboxRow {
    OutboxRow(kind, id, payloadSha256, Pending, 0, None, None)
  }

  /** `maybe_insert_outbox`. */
  function MaybeInsertOutbox(
      outbox: seq<OutboxRow>, target: PersistenceTarget, kind: SubmissionKind, stored: Stored,
      context: SubmissionContext)
    : seq<OutboxRow>
  {
    if target != Primary || stored.replayed then outbox
    else outbox + [NewOutboxRow(kind, stored.id, context.payloadSha256)]
  }

  /** The transaction of the four `store_*` methods, selected by the payload. */
  function Store(db: Database, target: PersistenceTarget, context: SubmissionContext, payload: Payload, call: Call)
    : Outcome<Stored>
    requires WellFormedPayload(payload)
  {
    var admitted := Admission(db.rows, context, payload, call.databaseNow);
    if admitted.Err? then Outcome(db, Err(admitted.error))
    else
      var k := RowKey(payload.Kind(), context.idempotencyKey);
      var (rows, result) := InsertOrReplay(db.rows, k, NewRow(target, context, payload, call));
      if result.Err? then Outcome(db, result)
      else Outcome(Database(rows, MaybeInsertOutbox(db.outbox, target, payload.Kind(), result.value, context)), result)
  }

  // ----- mark_mirrored and record_mirror_failure ----------------------------------------------

  function RowsWithDigest(rows: Tables, kind: SubmissionKind, id: Uuid, payloadSha256: string): set<RowKey> {
    set k | k in rows && k.kind == kind && rows[k].id == id && rows[k].payloadSha256 == payloadSha256
  }

  function RowsWithId(rows: Tables, kind: SubmissionKind, id: Uuid): set<RowKey> {
    set k | k in rows && k.kind == kind && rows[k].id == id
  }

  function SetMirrorStatus(rows: Tables, affected: set<RowKey>, status: MirrorStatus): Tables {
    map k | k in rows :: if k in affected then rows[k].(progress := Mirroring(status)) else rows[k]
  }

  function EntriesToMark(outbox: seq<OutboxRow>, kind: SubmissionKind, id: Uuid, payloadSha256: string): set<int> {
    set i | 0 <= i < |outbox|
            && outbox[i].kind == kind && outbox[i].id == id && outbox[i].payloadSha256 == payloadSha256
  }

  function EntriesToCharge(outbox: seq<OutboxRow>, kind: SubmissionKind, id: Uuid): set<int> {
    set i | 0 <= i < |outbox| && outbox[i].kind == kind && outbox[i].id == id && outbox[i].attempts < MAX_ATTEMPTS
  }

  function Marked(entry: OutboxRow): OutboxRow {
    entry.(status := Mirrored, lastError := None)
  }

  function Charged(entry: OutboxRow, code: string, now: int): OutboxRow {
    entry.(attempts := entry.attempts + 1,
           status := if entry.attempts >= 99 then TerminalFailure else RetryableFailure,
           nextAttemptAt := Some(now + DelaySeconds(entry.attempts)),
           lastError := Some(code))
  }

  function MarkEntries(outbox: seq<OutboxRow>, affected: set<int>): (marked: seq<OutboxRow>)
    ensures |marked| == |outbox|
    ensures forall i :: 0 <= i < |outbox| ==> marked[i] == if i in affected then Marked(outbox[i]) else outbox[i]
  {
    seq(|outbox|, i requires 0 <= i < |outbox| => if i in affected then Marked(outbox[i]) else outbox[i])
  }

  function ChargeEntries(outbox: seq<OutboxRow>, affected: set<int>, code: string, now: int): (charged: seq<OutboxRow>)
    ensures |charged| == |outbox|
    ensures forall i :: 0 <= i < |outbox| ==>
              charged[i] == if i in affected then Charged(outbox[i], code, now) else outbox[i]
  {
    seq(|outbox|, i requires 0 <= i < |outbox| => if i in affected then Charged(outbox[i], code, now) else outbox[i])
  }

  /** `mark_mirrored`: one submission row and one outbox row, or nothing at all. */
  function MarkMirrored(db: Database, kind: SubmissionKind, id: Uuid, payloadSha256: string): Outcome<()> {
    var affected := RowsWithDigest(db.rows, kind, id, payloadSha256);
    var entries := EntriesToMark(db.outbox, kind, id, payloadSha256);
    if (kind != Upload && |affected| != 1) || |entries| != 1 then Outcome(db, Err(Invariant))
    else
      var rows := if kind == Upload then db.rows else SetMirrorStatus(db.rows, affected, Mirrored);
      Outcome(Database(rows, MarkEntries(db.outbox, entries)), Ok(()))
  }

  predicate IsErrorCode(code: string) {
    && 0 < |code| <= 64
    && forall i :: 0 <= i < |code| ==> 'a' <= code[i] <= 'z' || '0' <= code[i] <= '9' || code[i] == '_'
  }

  /** `record_mirror_failure`: charges one attempt, or rolls back when the budget is spent. */
  function RecordMirrorFailure(db: Database, kind: SubmissionKind, id: Uuid, code: string, now: int): Outcome<()> {
    var affected := RowsWithId(db.rows, kind, id);
    var entries := EntriesToCharge(db.outbox, kind, id);
    if !IsErrorCode(code) then Outcome(db, Err(InvalidContext("mirror_error_code")))
    else if (kind != Upload && |affected| != 1) || |entries| != 1 then Outcome(db, Err(Invariant))
    else
      var rows := if kind == Upload then db.rows else SetMirrorStatus(db.rows, affected, RetryableFailure);
      Outcome(Database(rows, ChargeEntries(db.outbox, entries, code, now)), Ok(()))
  }

  // ----- pending_upload and verify_upload --------------------------------------------------------

  predicate IsOpenUpload(row: Row, id: Uuid, subject: Option<string>, now: int) {
    && row.id == id
    && row.subject == subject
    && row.stamp > now
    && row.payload.UploadIntentCreate?
    && row.progress.Uploading?
    && row.progress.uploadStatus in {AwaitingUpload, Uploaded, UploadVerified}
  }

  function OpenUploads(rows: Tables, id: Uuid, subject: Option<string>, now: int): set<RowKey> {
    set k | k in rows && k.kind == Upload && IsOpenUpload(rows[k], id, subject, now)
  }

  function PendingFrom(row: Row): PendingUpload
    requires row.payload.UploadIntentCreate? && row.progress.Uploading?
  {
    PendingUpload(row.id, row.progress.objectKey, row.payload.sha256, row.payload.contentType,
                  row.payload.sizeBytes, row.stamp)
  }

  /** A result `pending_upload` may give: some open row, or unavailability when there is none. */
  ghost predicate IsPendingUpload(
      rows: Tables, id: Uuid, subject: Option<string>, now: int, result: Result<PendingUpload, DataError>)
  {
    if result.Ok?
    then exists k :: k in OpenUploads(rows, id, subject, now) && PendingFrom(rows[k]) == result.value
    else result.error == IntakeObjectUnavailable && OpenUploads(rows, id, subject, now) == {}
  }

  ghost function FindPendingUpload(rows: Tables, id: Uuid, subject: Option<string>, now: int)
    : (result: Result<PendingUpload, DataError>)
    ensures IsPendingUpload(rows, id, subject, now, result)
  {
    var open := OpenUploads(rows, id, subject, now);
    if open == {} then Err(IntakeObjectUnavailable)
    else var k :| k in open; Ok(PendingFrom(rows[k]))
  }

  function Coalesce(value: Option<int>, now: int): Option<int> {
    if value.Some? then value else Some(now)
  }

  function VerifiedRow(row: Row, now: int): Row
    requires row.progress.Uploading?
  {
    row.(progress := row.progress.(uploadStatus := UploadVerified,
                                   uploadedAt := Coalesce(row.progress.uploadedAt, now),
                                   verifiedAt := Coalesce(row.progress.verifiedAt, now)))
  }

  function UploadsToVerify(rows: Tables, id: Uuid, subject: Option<string>, sha256: string, now: int): set<RowKey> {
    set k | k in rows && k.kind == Upload && IsOpenUpload(rows[k], id, subject, now) && rows[k].payload.sha256 == sha256
  }

  function VerifyRows(rows: Tables, affected: set<RowKey>, now: int): Tables
    requires forall k :: k in affected && k in rows ==> rows[k].progress.Uploading?
  {
    map k | k in rows :: if k in affected then VerifiedRow(rows[k], now) else rows[k]
  }

  /** The statement of `verify_upload`: what it changed stays, whatever the row count. */
  function VerifyUpload(db: Database, id: Uuid, subject: Option<string>, sha256: string, now: int): Outcome<()> {
    var affected := UploadsToVerify(db.rows, id, subject, sha256, now);
    Outcome(db.(rows := VerifyRows(db.rows, affected, now)),
            if |affected| != 1 then Err(IntakeObjectUnavailable) else Ok(()))
  }

  /** `verify_upload`: the digest's format is checked before the statement is sent. */
  function VerifyCall(db: Database, id: Uuid, subject: Option<string>, sha256: string, call: Call): Outcome<()> {
    if !IsDigestText(sha256) then Outcome(db, Err(InvalidContext("observed_sha256")))
    else SettleStatement(db, VerifyUpload(db, id, subject, sha256, call.databaseNow), call.fault)
  }
}
