/** What holds of the two databases, the history and every attempt in every reachable state. */
module Invariants {
  import opened Results
  import opened Hex
  import opened ObjectKeys
  import opened ObjectVerification
  import opened Backoff
  import opened Persistence
  import opened Protocol
  import opened IntakeSystem

  // ----- one database -------------------------------------------------------------------------

  ghost predicate UniqueIds(rows: Tables) {
    forall k, l :: k in rows && l in rows && k.kind == l.kind && rows[k].id == rows[l].id ==> k == l
  }

  /** The upload has a status the queries accept, and a verified one has both its times. */
  predicate HasCoherentStatus(row: Row) {
    && row.progress.Uploading?
    && row.progress.uploadStatus in {AwaitingUpload, Uploaded, UploadVerified}
    && (row.progress.uploadStatus == UploadVerified ==> row.progress.uploadedAt.Some? && row.progress.verifiedAt.Some?)
  }

  predicate ProgressFits(k: RowKey, row: Row) {
    if k.kind == Upload then
      && row.payload.UploadIntentCreate?
      && IsDigestText(row.payload.sha256)
      && row.progress.Uploading?
      && row.progress.objectKey == ObjectKey(row.payload.uploadKind, row.id, row.payload.sha256)
      && HasCoherentStatus(row)
    else row.progress.Mirroring?
  }

  /** A row lies in the table of its payload, under a valid key, with the digest of that payload. */
  predicate RowOk(c: Crypto, k: RowKey, row: Row) {
    && row.payload.Kind() == k.kind
    && IsContextKey(k.key)
    && IsDigestText(row.payloadSha256)
    && row.payloadSha256 == PayloadDigest(c, row.payload)
    && ProgressFits(k, row)
  }

  ghost predicate RowsOk(c: Crypto, rows: Tables) {
    forall k :: k in rows ==> RowOk(c, k, rows[k])
  }

  predicate IsVerifiedUpload(row: Row, subject: Option<string>, id: Uuid, kind: UploadKind) {
    && row.id == id
    && row.subject == subject
    && row.progress.Uploading?
    && row.progress.uploadStatus == UploadVerified
    && row.payload.UploadIntentCreate?
    && row.payload.uploadKind == kind
  }

  ghost predicate HasVerifiedUpload(rows: Tables, subject: Option<string>, id: Uuid, kind: UploadKind) {
    exists u :: u in rows && u.kind == Upload && IsVerifiedUpload(rows[u], subject, id, kind)
  }

  /** Every application refers to a verified resume and a verified photo ID of its own subject. */
  ghost predicate ApplicationsBacked(rows: Tables) {
    forall k :: k in rows && rows[k].payload.ApplicationCreate? ==>
      && HasVerifiedUpload(rows, rows[k].subject, rows[k].payload.resumeUploadId, Resume)
      && HasVerifiedUpload(rows, rows[k].subject, rows[k].payload.photoIdUploadId, PhotoId)
  }

  ghost predicate TablesOk(c: Crypto, rows: Tables) {
    UniqueIds(rows) && RowsOk(c, rows) && ApplicationsBacked(rows)
  }

  // ----- the outbox -----------------------------------------------------------------------------

  predicate EntryFor(p: Database, k: RowKey, i: int) {
    && k in p.rows
    && 0 <= i < |p.outbox|
    && p.outbox[i].kind == k.kind
    && p.outbox[i].id == p.rows[k].id
    && p.outbox[i].payloadSha256 == p.rows[k].payloadSha256
  }

  ghost predicate RowHasEntry(p: Database, k: RowKey) {
    exists i :: EntryFor(p, k, i)
  }

  ghost predicate EntryHasRow(p: Database, i: int) {
    exists k :: EntryFor(p, k, i)
  }

  ghost predicate EntriesDistinct(outbox: seq<OutboxRow>) {
    forall i, j :: 0 <= i < j < |outbox| ==> outbox[i].kind != outbox[j].kind || outbox[i].id != outbox[j].id
  }

  /** Rows and outbox entries correspond one to one by kind, identifier and digest. */
  ghost predicate OutboxMatches(p: Database) {
    && (forall k :: k in p.rows ==> RowHasEntry(p, k))
    && (forall i :: 0 <= i < |p.outbox| ==> EntryHasRow(p, i))
    && EntriesDistinct(p.outbox)
  }

  function StatusImage(status: MirrorStatus): MirrorStatus {
    match status
    case TerminalFailure => RetryableFailure
    case other => other
  }

  /** A submission's mirror status is always the image of its outbox entry's. */
  ghost predicate StatusesCoupled(p: Database) {
    forall k, i :: EntryFor(p, k, i) && k.kind != Upload ==>
      p.rows[k].progress == Mirroring(StatusImage(p.outbox[i].status))
  }

  predicate WithinBudget(entry: OutboxRow) {
    && entry.attempts <= MAX_ATTEMPTS
    && (entry.status == Pending ==> entry.attempts == 0)
    && (entry.status == TerminalFailure ==> entry.attempts == MAX_ATTEMPTS)
    && (entry.attempts == MAX_ATTEMPTS ==> entry.status in {TerminalFailure, Mirrored})
    && (entry.attempts == 0 <==> entry.nextAttemptAt.None?)
    && (entry.lastError.None? <==> entry.status in {Pending, Mirrored})
  }

  ghost predicate BudgetsKept(outbox: seq<OutboxRow>) {
    forall i :: 0 <= i < |outbox| ==> WithinBudget(outbox[i])
  }

  ghost function FailureCount(log: seq<Note>, kind: SubmissionKind, id: Uuid): nat {
    if log == [] then 0
    else
      var note := log[|log| - 1];
      FailureCount(log[..|log| - 1], kind, id)
      + if note.FailureRecorded? && note.kind == kind && note.id == id then 1 else 0
  }

  ghost function ScheduledDelay(log: seq<Note>, kind: SubmissionKind, id: Uuid): nat {
    if log == [] then 0
    else
      var note := log[|log| - 1];
      ScheduledDelay(log[..|log| - 1], kind, id)
      + if note.FailureRecorded? && note.kind == kind && note.id == id then note.delay else 0
  }

  /** The attempts of an entry count its recorded failures, whose delays follow the schedule. */
  ghost predicate AttemptsCounted(outbox: seq<OutboxRow>, log: seq<Note>) {
    forall i :: 0 <= i < |outbox| ==>
      && FailureCount(log, outbox[i].kind, outbox[i].id) == outbox[i].attempts
      && ScheduledDelay(log, outbox[i].kind, outbox[i].id) == TotalDelay(outbox[i].attempts)
  }

  predicate HasEntry(outbox: seq<OutboxRow>, kind: SubmissionKind, id: Uuid) {
    exists i :: 0 <= i < |outbox| && outbox[i].kind == kind && outbox[i].id == id
  }

  ghost predicate FailuresHaveEntries(outbox: seq<OutboxRow>, log: seq<Note>) {
    forall j :: 0 <= j < |log| && log[j].FailureRecorded? ==> HasEntry(outbox, log[j].kind, log[j].id)
  }

  ghost predicate OutboxOk(p: Database, log: seq<Note>) {
    && OutboxMatches(p)
    && StatusesCoupled(p)
    && BudgetsKept(p.outbox)
    && AttemptsCounted(p.outbox, log)
    && FailuresHaveEntries(p.outbox, log)
  }

  // ----- both databases -------------------------------------------------------------------------

  /** Every mirror row repeats a primary row of the same kind and key: same identifier, same digest. */
  ghost predicate MirrorAgrees(rows: Tables, mirror: Tables) {
    forall k :: k in mirror ==>
      k in rows && mirror[k].id == rows[k].id && mirror[k].payloadSha256 == rows[k].payloadSha256
  }

  /** Only submissions that reached the mirror are marked mirrored. */
  ghost predicate MirroredAreMirrored(p: Database, mirror: Tables) {
    forall k, i :: EntryFor(p, k, i) && p.outbox[i].status == Mirrored ==> k in mirror
  }

  ghost predicate ObservedAt(
      c: Crypto, log: seq<Note>, j: int, objectKey: string, sha256: string, contentType: string, size: nat)
  {
    && 0 <= j < |log|
    && log[j].ObjectObserved?
    && log[j].objectKey == objectKey
    && log[j].contentType == contentType
    && |log[j].content| == size
    && Encode(c.sha256(log[j].content)) == sha256
  }

  /** Some earlier step downloaded a stored object with these properties. */
  ghost predicate Observed(
      c: Crypto, log: seq<Note>, objectKey: string, sha256: string, contentType: string, size: nat)
  {
    exists j :: ObservedAt(c, log, j, objectKey, sha256, contentType, size)
  }

  predicate SameUploadRow(row: Row, other: Row) {
    && row.payload.UploadIntentCreate? && other.payload.UploadIntentCreate?
    && row.progress.Uploading? && other.progress.Uploading?
    && row.id == other.id
    && row.subject == other.subject
    && row.progress.objectKey == other.progress.objectKey
    && row.payload.sha256 == other.payload.sha256
    && row.payload.contentType == other.payload.contentType
    && row.payload.sizeBytes == other.payload.sizeBytes
  }

  predicate IsVerified(row: Row) {
    row.progress.Uploading? && row.progress.uploadStatus == UploadVerified
  }

  /** A verified primary upload was observed in storage and verified in the mirror, unchanged. */
  ghost predicate VerifiedInOrder(c: Crypto, rows: Tables, mirror: Tables, log: seq<Note>) {
    forall k :: k in rows && k.kind == Upload && IsVerified(rows[k]) ==>
      && k in mirror
      && IsVerified(mirror[k])
      && SameUploadRow(rows[k], mirror[k])
      && Observed(c, log, rows[k].progress.objectKey, rows[k].payload.sha256,
                  rows[k].payload.contentType, rows[k].payload.sizeBytes)
  }

  ghost predicate ReceiptHolds(c: Crypto, rows: Tables, mirror: Tables, note: Note)
    requires note.ReceiptIssued?
  {
    && note.k in rows
    && rows[note.k].id == note.id
    && rows[note.k].payloadSha256 == note.payloadSha256
    && rows[note.k].stamp == note.stamp
    && note.k in mirror
    && note.payloadSha256 == PayloadDigest(c, note.payload)
    && note.payload.Kind() == note.k.kind
  }

  ghost predicate ReceiptsHold(c: Crypto, rows: Tables, mirror: Tables, log: seq<Note>) {
    forall j :: 0 <= j < |log| && log[j].ReceiptIssued? ==> ReceiptHolds(c, rows, mirror, log[j])
  }

  ghost predicate StoresOk(c: Crypto, p: Database, m: Database, log: seq<Note>) {
    && TablesOk(c, p.rows)
    && TablesOk(c, m.rows)
    && OutboxOk(p, log)
    && m.outbox == []
    && MirrorAgrees(p.rows, m.rows)
    && MirroredAreMirrored(p, m.rows)
    && VerifiedInOrder(c, p.rows, m.rows, log)
    && ReceiptsHold(c, p.rows, m.rows, log)
  }

  // ----- one attempt -----------------------------------------------------------------------------

  predicate ContextOk(c: Crypto, request: Request, context: SubmissionContext) {
    && request.CreateRequest?
    && Conforms(request)
    && IsContextKey(context.idempotencyKey)
    && IsDigestText(context.payloadSha256)
    && context.payloadSha256 == PayloadDigest(c, request.input.payload)
    && (request.input.payload.ReferralCreate? ==> context.subject.Some?)
  }

  function KeyOf(request: Request, context: SubmissionContext): RowKey
    requires request.CreateRequest?
  {
    RowKey(request.input.payload.Kind(), context.idempotencyKey)
  }

  /** The row a `store_*` call reported is there, with the digest of the context. */
  predicate HoldsStored(rows: Tables, k: RowKey, payloadSha256: string, stored: Stored) {
    && k in rows
    && rows[k].id == stored.id
    && rows[k].payloadSha256 == payloadSha256
    && rows[k].stamp == stored.stamp
    && stored.objectKey == (if rows[k].progress.Uploading? then Some(rows[k].progress.objectKey) else None)
  }

  predicate IsRowOf(row: Row, subject: Option<string>, upload: PendingUpload) {
    && row.payload.UploadIntentCreate?
    && row.progress.Uploading?
    && row.id == upload.id
    && row.subject == subject
    && row.progress.objectKey == upload.objectKey
    && row.payload.sha256 == upload.expectedSha256
    && row.payload.contentType == upload.contentType
    && row.payload.sizeBytes == upload.sizeBytes
  }

  ghost predicate HasUpload(rows: Tables, subject: Option<string>, upload: PendingUpload) {
    exists k :: k in rows && k.kind == Upload && IsRowOf(rows[k], subject, upload)
  }

  ghost predicate HasVerified(rows: Tables, subject: Option<string>, upload: PendingUpload) {
    exists k :: k in rows && k.kind == Upload && IsRowOf(rows[k], subject, upload) && IsVerified(rows[k])
  }

  predicate Declared(request: Request, upload: PendingUpload) {
    request.CompleteRequest? && upload.id == request.uploadId && upload.expectedSha256 == request.sha256
  }

  ghost predicate ObservedUpload(c: Crypto, log: seq<Note>, upload: PendingUpload) {
    Observed(c, log, upload.objectKey, upload.expectedSha256, upload.contentType, upload.sizeBytes)
  }

  ghost predicate FailureOk(p: Database, request: Request, wrote: bool, failure: ApiFailure) {
    && (failure.retryable <==> failure.status == 503)
    && (request.CreateRequest? && !failure.retryable ==> !wrote)
    && (failure.submissionId.Some? ==>
          request.CreateRequest? && HasRow(p, request.input.payload.Kind(), failure.submissionId.value))
  }

  ghost predicate HasRow(p: Database, kind: SubmissionKind, id: Uuid) {
    exists k :: k in p.rows && k.kind == kind && p.rows[k].id == id
  }

  /** What an attempt at this stage may rely on. */
  ghost predicate StageOk(
      c: Crypto, p: Database, m: Database, log: seq<Note>, request: Request, stage: Stage, wrote: bool)
  {
    && StageFits(request, stage)
    && match stage
       case Received => !wrote
       case Validated => !wrote
       case Identified(subject) =>
         !wrote && (request.CreateRequest? && request.input.payload.ReferralCreate? ==> subject.Some?)
       case Bound(context) => !wrote && ContextOk(c, request, context)
       case PrimaryStored(context, stored) => StoredOk(c, p, request, context, stored)
       case MirrorRefused(context, stored) => StoredOk(c, p, request, context, stored)
       case MirrorAccepted(context, stored) =>
         StoredOk(c, p, request, context, stored) && KeyOf(request, context) in m.rows
       case Acknowledged(context, stored) =>
         StoredOk(c, p, request, context, stored) && KeyOf(request, context) in m.rows
       case PrimaryRead(subject, upload) => !wrote && Declared(request, upload) && HasUpload(p.rows, subject, upload)
       case IdentityMatched(subject, upload) => !wrote && MatchedOk(p, m, request, subject, upload)
       case ObjectVerified(subject, upload) =>
         !wrote && MatchedOk(p, m, request, subject, upload) && ObservedUpload(c, log, upload)
       case MirrorVerified(subject, upload) =>
         && MatchedOk(p, m, request, subject, upload)
         && ObservedUpload(c, log, upload)
         && HasVerified(m.rows, subject, upload)
       case Done(response) => response.Failed? ==> FailureOk(p, request, wrote, response.failure)
       case Crashed => true
  }

  ghost predicate StoredOk(c: Crypto, p: Database, request: Request, context: SubmissionContext, stored: Stored) {
    && ContextOk(c, request, context)
    && HoldsStored(p.rows, KeyOf(request, context), context.payloadSha256, stored)
  }

  ghost predicate MatchedOk(
      p: Database, m: Database, request: Request, subject: Option<string>, upload: PendingUpload)
  {
    Declared(request, upload) && HasUpload(p.rows, subject, upload) && HasUpload(m.rows, subject, upload)
  }

  ghost predicate AttemptOk(s: System, i: nat)
    requires i in s.attempts
  {
    StageOk(s.crypto, s.primary, s.mirror, s.log, s.attempts[i].request, s.attempts[i].stage, s.attempts[i].wrote)
  }

  ghost predicate Inv(s: System) {
    && StoresOk(s.crypto, s.primary, s.mirror, s.log)
    && forall i :: i in s.attempts ==> AttemptOk(s, i)
  }

  // ----- how the databases may change ---------------------------------------------------------

  predicate RowKept(before: Row, after: Row) {
    && after.id == before.id
    && after.payloadSha256 == before.payloadSha256
    && after.subject == before.subject
    && after.payload == before.payload
    && after.stamp == before.stamp
    && (before.progress.Uploading? ==>
          after.progress.Uploading? && after.progress.objectKey == before.progress.objectKey)
    && (before.progress.Mirroring? ==> after.progress.Mirroring?)
    && (IsVerified(before) ==> IsVerified(after))
    && (HasCoherentStatus(before) ==> HasCoherentStatus(after))
  }

  /** No row disappears, no immutable column changes, and a verified upload stays verified. */
  ghost predicate RowsGrow(before: Tables, after: Tables) {
    forall k :: k in before ==> k in after && RowKept(before[k], after[k])
  }
}
