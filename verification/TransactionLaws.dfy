/**
 What each named transaction of src/persistence.rs promises, column by column: which rows it reads,
 which it changes, how, and what it answers in every case.
 */
module TransactionLaws {
  import opened Results
  import opened ObjectKeys
  import opened ObjectVerification
  import opened Backoff
  import opened Persistence
  import opened Invariants
  import opened Transactions

  // ----- store_* ----------------------------------------------------------------------------------

  /** A verified upload of this owner and kind, not expired at `now`. */
  ghost predicate CountsAs(rows: Tables, subject: Option<string>, id: Uuid, kind: UploadKind, now: int) {
    exists u :: u in rows && u.kind == Upload && rows[u].id == id && rows[u].subject == subject && rows[u].stamp > now
                && rows[u].payload.UploadIntentCreate? && rows[u].payload.uploadKind == kind
                && rows[u].progress.Uploading? && rows[u].progress.uploadStatus == UploadVerified
  }

  /** The identifier is the primary key of another row of the table. */
  ghost predicate HoldsId(rows: Tables, kind: SubmissionKind, id: Uuid) {
    exists l :: l in rows && l.kind == kind && rows[l].id == id
  }

  /** The columns that must fit the database's integers do: 64 bits for a size, 16 for an occupancy. */
  predicate FitsColumns(payload: Payload) {
    && (payload.UploadIntentCreate? ==> payload.sizeBytes < 0x8000_0000_0000_0000)
    && (payload.ApplicationCreate? ==> -32768 <= payload.preferredRoomOccupancy <= 32767)
  }

  ghost predicate HasItsUploads(rows: Tables, context: SubmissionContext, payload: Payload, now: int) {
    payload.ApplicationCreate? ==>
      && CountsAs(rows, context.subject, payload.resumeUploadId, Resume, now)
      && CountsAs(rows, context.subject, payload.photoIdUploadId, PhotoId, now)
  }

  lemma CountsAsIsNamesLive(rows: Tables, subject: Option<string>, id: Uuid, kind: UploadKind, now: int)
    ensures CountsAs(rows, subject, id, kind, now) <==> NamesLive(rows, subject, id, kind, now)
  {
    forall u | u in rows && u.kind == Upload && NamesUpload(rows[u], subject, id, kind, now)
      ensures CountsAs(rows, subject, id, kind, now)
    {
    }
    if CountsAs(rows, subject, id, kind, now) {
      var u :| u in rows && u.kind == Upload && rows[u].id == id && rows[u].subject == subject && rows[u].stamp > now
               && rows[u].payload.UploadIntentCreate? && rows[u].payload.uploadKind == kind
               && rows[u].progress.Uploading? && rows[u].progress.uploadStatus == UploadVerified;
      assert NamesUpload(rows[u], subject, id, kind, now);
    }
  }

  /** The checks before the insert, case by case: each has an error of its own. */
  lemma RefusalsBeforeInsert(rows: Tables, context: SubmissionContext, payload: Payload, now: int)
    requires UniqueIds(rows)
    ensures Admission(rows, context, payload, now)
         == if payload.ReferralCreate? && context.subject.None? then Err(Unauthenticated)
            else if !FitsColumns(payload) then Err(Invariant)
            else if !HasItsUploads(rows, context, payload, now) then Err(IntakeObjectUnavailable)
            else Ok(())
  {
    hide UniqueIds, NamesLive, CountsAs, MatchingUploads;
    if payload.ApplicationCreate? {
      CountIsTwoExactly(rows, context.subject, payload.resumeUploadId, payload.photoIdUploadId, now);
      CountsAsIsNamesLive(rows, context.subject, payload.resumeUploadId, Resume, now);
      CountsAsIsNamesLive(rows, context.subject, payload.photoIdUploadId, PhotoId, now);
    }
  }

  /** Admitted, by the three checks. */
  ghost predicate Admits(rows: Tables, context: SubmissionContext, payload: Payload, now: int) {
    && (payload.ReferralCreate? ==> context.subject.Some?)
    && FitsColumns(payload)
    && HasItsUploads(rows, context, payload, now)
  }

  lemma AdmitsExactly(rows: Tables, context: SubmissionContext, payload: Payload, now: int)
    requires UniqueIds(rows)
    ensures Admission(rows, context, payload, now).Ok? <==> Admits(rows, context, payload, now)
  {
    hide UniqueIds, Admission, CountsAs;
    RefusalsBeforeInsert(rows, context, payload, now);
  }

  /** A submission whose checks fail is refused with that error and leaves no trace. */
  lemma RefusedStore(
      db: Database, target: PersistenceTarget, context: SubmissionContext, payload: Payload, call: Call)
    requires UniqueIds(db.rows) && WellFormedPayload(payload) && !Admits(db.rows, context, payload, call.databaseNow)
    ensures Store(db, target, context, payload, call)
         == Outcome(db, Err(if payload.ReferralCreate? && context.subject.None? then Unauthenticated
                            else if !FitsColumns(payload) then Invariant
                            else IntakeObjectUnavailable))
  {
    hide UniqueIds, Admission, CountsAs;
    RefusalsBeforeInsert(db.rows, context, payload, call.databaseNow);
  }

  /** A held key answers for its own digest only: another one is a conflict and changes nothing. */
  lemma ConflictingStore(
      db: Database, target: PersistenceTarget, context: SubmissionContext, payload: Payload, call: Call)
    requires UniqueIds(db.rows) && WellFormedPayload(payload) && Admits(db.rows, context, payload, call.databaseNow)
    requires var k := RowKey(payload.Kind(), context.idempotencyKey);
             k in db.rows && db.rows[k].payloadSha256 != context.payloadSha256
    ensures Store(db, target, context, payload, call) == Outcome(db, Err(IdempotencyConflict))
  {
    hide UniqueIds, Admission, Admits;
    AdmitsExactly(db.rows, context, payload, call.databaseNow);
  }

  /** A held key with the same digest answers with the stored row's own columns and changes nothing. */
  lemma ReplayedStore(
      db: Database, target: PersistenceTarget, context: SubmissionContext, payload: Payload, call: Call)
    requires UniqueIds(db.rows) && WellFormedPayload(payload) && Admits(db.rows, context, payload, call.databaseNow)
    requires var k := RowKey(payload.Kind(), context.idempotencyKey);
             k in db.rows && db.rows[k].payloadSha256 == context.payloadSha256
    ensures var row := db.rows[RowKey(payload.Kind(), context.idempotencyKey)];
            var objectKey := if row.progress.Uploading? then Some(row.progress.objectKey) else None;
            Store(db, target, context, payload, call) == Outcome(db, Ok(Stored(row.id, row.stamp, objectKey, true)))
  {
    hide UniqueIds, Admission, Admits;
    AdmitsExactly(db.rows, context, payload, call.databaseNow);
  }

  /** A fresh key whose identifier another row of the table holds is a database error. */
  lemma CollidingStore(
      db: Database, target: PersistenceTarget, context: SubmissionContext, payload: Payload, call: Call)
    requires UniqueIds(db.rows) && WellFormedPayload(payload) && Admits(db.rows, context, payload, call.databaseNow)
    requires RowKey(payload.Kind(), context.idempotencyKey) !in db.rows
    requires HoldsId(db.rows, payload.Kind(), context.canonicalId)
    ensures Store(db, target, context, payload, call) == Outcome(db, Err(DatabaseFailure))
  {
    hide UniqueIds, Admission, Admits, NewRow;
    AdmitsExactly(db.rows, context, payload, call.databaseNow);
    HeldIsTaken(db.rows, payload.Kind(), context.canonicalId);
    ConflictsCarryTheId(target, context, payload, call);
  }

  lemma HeldIsTaken(rows: Tables, kind: SubmissionKind, id: Uuid)
    ensures HoldsId(rows, kind, id) <==> IdTaken(rows, kind, id)
  {
  }

  lemma ConflictsCarryTheId(target: PersistenceTarget, context: SubmissionContext, payload: Payload, call: Call)
    requires WellFormedPayload(payload)
    ensures NewRow(target, context, payload, call).id == context.canonicalId
  {
  }

  /** The name of an upload kind in a column and in an object key. */
  function KindName(kind: UploadKind): string {
    if kind == Resume then "resume" else "photo_id"
  }

  /** When a new row stops or starts to count: an upload two hours from now, a submission now. */
  function StampOf(payload: Payload, call: Call): int {
    if payload.UploadIntentCreate? then call.serverNow + 7200 else call.databaseNow
  }

  /**
   A fresh submission is inserted under its key with exactly these columns; in the primary a pending
   outbox row without attempts goes with it, in the mirror the row is mirrored from the start.
   */
  lemma InsertedStore(
      db: Database, target: PersistenceTarget, context: SubmissionContext, payload: Payload, call: Call)
    requires UniqueIds(db.rows) && WellFormedPayload(payload) && Admits(db.rows, context, payload, call.databaseNow)
    requires RowKey(payload.Kind(), context.idempotencyKey) !in db.rows
    requires !HoldsId(db.rows, payload.Kind(), context.canonicalId)
    ensures var tx, k := Store(db, target, context, payload, call), RowKey(payload.Kind(), context.idempotencyKey);
            && tx.db.rows.Keys == db.rows.Keys + {k}
            && (forall l :: l in db.rows ==> tx.db.rows[l] == db.rows[l])
            && tx.db.rows[k].id == context.canonicalId
            && tx.db.rows[k].payloadSha256 == context.payloadSha256
            && tx.db.rows[k].subject == context.subject
            && tx.db.rows[k].payload == payload
            && tx.db.rows[k].stamp == StampOf(payload, call)
    ensures var tx, k := Store(db, target, context, payload, call), RowKey(payload.Kind(), context.idempotencyKey);
            && k in tx.db.rows
            && (!payload.UploadIntentCreate? ==>
                  && tx.db.rows[k].progress == Mirroring(if target == Primary then Pending else Mirrored)
                  && tx.result == Ok(Stored(context.canonicalId, StampOf(payload, call), None, false)))
            && (payload.UploadIntentCreate? ==>
                  var objectKey := "intake/" + KindName(payload.uploadKind) + "/" + UuidText(context.canonicalId) + "/"
                                   + payload.sha256[..16];
                  && tx.db.rows[k].progress == Uploading(objectKey, AwaitingUpload, None, None)
                  && tx.result == Ok(Stored(context.canonicalId, StampOf(payload, call), Some(objectKey), false)))
    ensures Store(db, target, context, payload, call).db.outbox
         == if target == SupabaseMirror then db.outbox
            else db.outbox
                 + [OutboxRow(payload.Kind(), context.canonicalId, context.payloadSha256, Pending, 0, None, None)]
  {
    hide UniqueIds, Admission, Admits, ObjectKey;
    AdmitsExactly(db.rows, context, payload, call.databaseNow);
    HeldIsTaken(db.rows, payload.Kind(), context.canonicalId);
    if payload.UploadIntentCreate? {
      ObjectKeyReads(payload.uploadKind, context.canonicalId, payload.sha256);
    }
  }

  lemma ObjectKeyReads(kind: UploadKind, id: Uuid, sha256: string)
    requires |sha256| >= 16
    ensures ObjectKey(kind, id, sha256) == "intake/" + KindName(kind) + "/" + UuidText(id) + "/" + sha256[..16]
  {
    hide UuidText;
  }

  // ----- pending_upload and verify_upload --------------------------------------------------------

  /** The columns the queries ask for: this upload, of this owner, unexpired, with an accepted status. */
  ghost predicate IsOpenFor(rows: Tables, k: RowKey, id: Uuid, subject: Option<string>, now: int) {
    && k in rows && k.kind == Upload
    && rows[k].id == id && rows[k].subject == subject && rows[k].stamp > now
    && rows[k].payload.UploadIntentCreate?
    && rows[k].progress.Uploading? && rows[k].progress.uploadStatus != Withdrawn
  }

  /** `pending_upload` reports the columns of such a row, and unavailability exactly when there is none. */
  lemma PendingUploadExactly(
      rows: Tables, id: Uuid, subject: Option<string>, now: int, result: Result<PendingUpload, DataError>)
    ensures IsPendingUpload(rows, id, subject, now, result) <==>
            if result.Err? then
              result.error == IntakeObjectUnavailable && !exists k :: IsOpenFor(rows, k, id, subject, now)
            else
              exists k :: && IsOpenFor(rows, k, id, subject, now)
                          && result.value.id == id
                          && result.value.objectKey == rows[k].progress.objectKey
                          && result.value.expectedSha256 == rows[k].payload.sha256
                          && result.value.contentType == rows[k].payload.contentType
                          && result.value.sizeBytes == rows[k].payload.sizeBytes
                          && result.value.expiresAt == rows[k].stamp
  {
    forall k ensures k in OpenUploads(rows, id, subject, now) <==> IsOpenFor(rows, k, id, subject, now) {
    }
  }

  /**
   `verify_upload` marks every open row with this digest, stamping only the times not yet set, leaves
   every other row and the outbox alone, and succeeds exactly when it found one row.
   */
  lemma VerifyUploadExactly(db: Database, id: Uuid, subject: Option<string>, sha256: string, now: int)
    ensures var tx := VerifyUpload(db, id, subject, sha256, now);
            && tx.db.outbox == db.outbox && tx.db.rows.Keys == db.rows.Keys
            && (forall k :: k in db.rows ==>
                  if IsOpenFor(db.rows, k, id, subject, now) && db.rows[k].payload.sha256 == sha256 then
                    && tx.db.rows[k].id == id && tx.db.rows[k].subject == subject
                    && tx.db.rows[k].payloadSha256 == db.rows[k].payloadSha256
                    && tx.db.rows[k].payload == db.rows[k].payload && tx.db.rows[k].stamp == db.rows[k].stamp
                    && tx.db.rows[k].progress
                       == Uploading(db.rows[k].progress.objectKey, UploadVerified,
                                    if db.rows[k].progress.uploadedAt.None? then Some(now)
                                    else db.rows[k].progress.uploadedAt,
                                    if db.rows[k].progress.verifiedAt.None? then Some(now)
                                    else db.rows[k].progress.verifiedAt)
                  else tx.db.rows[k] == db.rows[k])
    ensures var tx := VerifyUpload(db, id, subject, sha256, now);
            tx.result == if exists k :: MarksOnly(db.rows, k, id, subject, sha256, now) then Ok(())
                         else Err(IntakeObjectUnavailable)
  {
    var affected := UploadsToVerify(db.rows, id, subject, sha256, now);
    forall k ensures k in affected <==> Marks(db.rows, k, id, subject, sha256, now) {
    }
    if k: RowKey :| MarksOnly(db.rows, k, id, subject, sha256, now) {
      assert affected == {k};
    }
    if |affected| == 1 {
      var k :| k in affected;
      SingleElement(affected, k);
      assert MarksOnly(db.rows, k, id, subject, sha256, now);
    }
  }

  ghost predicate Marks(rows: Tables, k: RowKey, id: Uuid, subject: Option<string>, sha256: string, now: int) {
    IsOpenFor(rows, k, id, subject, now) && rows[k].payload.sha256 == sha256
  }

  ghost predicate MarksOnly(rows: Tables, k: RowKey, id: Uuid, subject: Option<string>, sha256: string, now: int) {
    Marks(rows, k, id, subject, sha256, now) && forall l :: Marks(rows, l, id, subject, sha256, now) ==> l == k
  }

  lemma SingleElement<T>(s: set<T>, x: T)
    requires |s| == 1 && x in s
    ensures forall y :: y in s ==> y == x
  {
    assert |s - {x}| == 0;
    assert s == {x};
  }

  /** A digest of the wrong format is refused before the call; a lost answer is a database error. */
  lemma VerifyCallExactly(db: Database, id: Uuid, subject: Option<string>, sha256: string, call: Call)
    ensures var statement := VerifyUpload(db, id, subject, sha256, call.databaseNow);
            var malformed := |sha256| != 64 || exists i :: 0 <= i < 64 && sha256[i] !in "0123456789abcdef";
            && VerifyCall(db, id, subject, sha256, call)
               == if malformed then Outcome(db, Err(InvalidContext("observed_sha256")))
                  else if call.fault == NoFault then statement
                  else Outcome(if call.fault == FailBeforeCommit then db else statement.db, Err(DatabaseFailure))
  {
    hide VerifyUpload;
  }

  // ----- mark_mirrored and record_mirror_failure ----------------------------------------------

  /** Exactly one row of the table has this identifier and, if one is asked for, this digest. */
  ghost predicate OneRow(rows: Tables, k: RowKey, kind: SubmissionKind, id: Uuid, digest: Option<string>) {
    && HasColumns(rows, k, kind, id, digest)
    && forall l :: HasColumns(rows, l, kind, id, digest) ==> l == k
  }

  ghost predicate HasColumns(rows: Tables, k: RowKey, kind: SubmissionKind, id: Uuid, digest: Option<string>) {
    k in rows && k.kind == kind && rows[k].id == id && (digest.Some? ==> rows[k].payloadSha256 == digest.value)
  }

  ghost predicate EntryHasColumns(outbox: seq<OutboxRow>, i: int, kind: SubmissionKind, id: Uuid) {
    0 <= i < |outbox| && outbox[i].kind == kind && outbox[i].id == id
  }

  /** Only the columns named differ between the two outboxes, and only at `i`. */
  ghost predicate OnlyEntryDiffers(before: seq<OutboxRow>, after: seq<OutboxRow>, i: int) {
    && |after| == |before| && 0 <= i < |before|
    && (forall j :: 0 <= j < |before| && j != i ==> after[j] == before[j])
    && after[i].kind == before[i].kind && after[i].id == before[i].id
    && after[i].payloadSha256 == before[i].payloadSha256
  }

  /** Only the mirror status of row `k` differs, and it is this one. */
  ghost predicate OnlyStatusDiffers(before: Tables, after: Tables, k: RowKey, status: MirrorStatus) {
    && after.Keys == before.Keys && k in before
    && (forall l :: l in before && l != k ==> after[l] == before[l])
    && after[k] == before[k].(progress := Mirroring(status))
  }

  /**
   `mark_mirrored` with one matching row and one matching entry marks both, clearing the entry's error
   and nothing else of it; uploads have no row to mark.
   */
  lemma MarksOneRow(db: Database, kind: SubmissionKind, id: Uuid, digest: string, k: RowKey, i: int)
    requires kind != Upload ==> OneRow(db.rows, k, kind, id, Some(digest))
    requires EntryHasColumns(db.outbox, i, kind, id) && db.outbox[i].payloadSha256 == digest
    requires forall j :: EntryHasColumns(db.outbox, j, kind, id) && db.outbox[j].payloadSha256 == digest ==> j == i
    ensures var tx := MarkMirrored(db, kind, id, digest);
            && tx.result == Ok(())
            && (if kind == Upload then tx.db.rows == db.rows
                else OnlyStatusDiffers(db.rows, tx.db.rows, k, Mirrored))
            && OnlyEntryDiffers(db.outbox, tx.db.outbox, i)
            && tx.db.outbox[i].status == Mirrored && tx.db.outbox[i].lastError == None
            && tx.db.outbox[i].attempts == db.outbox[i].attempts
            && tx.db.outbox[i].nextAttemptAt == db.outbox[i].nextAttemptAt
  {
    assert EntriesToMark(db.outbox, kind, id, digest) == {i};
    if kind != Upload {
      OneRowIsReached(db.rows, k, kind, id, Some(digest));
    }
  }

  lemma OneRowIsReached(rows: Tables, k: RowKey, kind: SubmissionKind, id: Uuid, digest: Option<string>)
    requires OneRow(rows, k, kind, id, digest)
    ensures digest.Some? ==> RowsWithDigest(rows, kind, id, digest.value) == {k}
    ensures digest.None? ==> RowsWithId(rows, kind, id) == {k}
  {
    if digest.Some? {
      forall l | l in RowsWithDigest(rows, kind, id, digest.value) ensures l == k {
        assert HasColumns(rows, l, kind, id, digest);
      }
    } else {
      forall l | l in RowsWithId(rows, kind, id) ensures l == k {
        assert HasColumns(rows, l, kind, id, digest);
      }
    }
  }

  /** Otherwise, with none or several of either, nothing is changed and the invariant error is reported. */
  lemma MarksNothing(db: Database, kind: SubmissionKind, id: Uuid, digest: string)
    requires || (kind != Upload && !exists k :: OneRow(db.rows, k, kind, id, Some(digest)))
             || !exists i :: OneEntryWithDigest(db.outbox, i, kind, id, digest)
    ensures MarkMirrored(db, kind, id, digest) == Outcome(db, Err(Invariant))
  {
    if kind != Upload && |RowsWithDigest(db.rows, kind, id, digest)| == 1 {
      SingleRow(db.rows, RowsWithDigest(db.rows, kind, id, digest), kind, id, Some(digest));
    }
    if |EntriesToMark(db.outbox, kind, id, digest)| == 1 {
      SingleEntryToMark(db.outbox, kind, id, digest);
    }
  }

  lemma SingleRow(rows: Tables, matching: set<RowKey>, kind: SubmissionKind, id: Uuid, digest: Option<string>)
    requires |matching| == 1 && forall l :: l in matching <==> HasColumns(rows, l, kind, id, digest)
    ensures exists k :: OneRow(rows, k, kind, id, digest)
  {
    var k :| k in matching;
    SingleElement(matching, k);
    assert OneRow(rows, k, kind, id, digest);
  }

  lemma SingleEntryToMark(outbox: seq<OutboxRow>, kind: SubmissionKind, id: Uuid, digest: string)
    requires |EntriesToMark(outbox, kind, id, digest)| == 1
    ensures exists i :: OneEntryWithDigest(outbox, i, kind, id, digest)
  {
    var entries := EntriesToMark(outbox, kind, id, digest);
    var i :| i in entries;
    SingleElement(entries, i);
    forall j | EntryHasColumns(outbox, j, kind, id) && outbox[j].payloadSha256 == digest ensures j in entries {
    }
    assert OneEntryWithDigest(outbox, i, kind, id, digest);
  }

  lemma SingleEntryToCharge(outbox: seq<OutboxRow>, kind: SubmissionKind, id: Uuid)
    requires |EntriesToCharge(outbox, kind, id)| == 1
    ensures exists i :: OneEntryLeft(outbox, i, kind, id)
  {
    var entries := EntriesToCharge(outbox, kind, id);
    var i :| i in entries;
    SingleElement(entries, i);
    forall j | EntryHasColumns(outbox, j, kind, id) && outbox[j].attempts < 100 ensures j in entries {
    }
    assert OneEntryLeft(outbox, i, kind, id);
  }

  ghost predicate OneEntryWithDigest(outbox: seq<OutboxRow>, i: int, kind: SubmissionKind, id: Uuid, digest: string) {
    && EntryHasColumns(outbox, i, kind, id) && outbox[i].payloadSha256 == digest
    && forall j :: EntryHasColumns(outbox, j, kind, id) && outbox[j].payloadSha256 == digest ==> j == i
  }

  ghost predicate OneEntryLeft(outbox: seq<OutboxRow>, i: int, kind: SubmissionKind, id: Uuid) {
    && EntryHasColumns(outbox, i, kind, id) && outbox[i].attempts < 100
    && forall j :: EntryHasColumns(outbox, j, kind, id) && outbox[j].attempts < 100 ==> j == i
  }

  /**
   `record_mirror_failure` with one matching row and one entry with attempts left: the entry counts one
   more attempt, is due again after the delay, keeps the error code, and is terminal from the hundredth
   attempt on; the row becomes a retryable failure.
   */
  lemma ChargesOneRow(db: Database, kind: SubmissionKind, id: Uuid, code: string, now: int, k: RowKey, i: int)
    requires IsErrorCode(code) && (kind != Upload ==> OneRow(db.rows, k, kind, id, None))
    requires OneEntryLeft(db.outbox, i, kind, id)
    ensures var tx := RecordMirrorFailure(db, kind, id, code, now);
            && tx.result == Ok(())
            && (if kind == Upload then tx.db.rows == db.rows
                else OnlyStatusDiffers(db.rows, tx.db.rows, k, RetryableFailure))
            && OnlyEntryDiffers(db.outbox, tx.db.outbox, i)
            && tx.db.outbox[i].attempts == db.outbox[i].attempts + 1
            && tx.db.outbox[i].status == (if tx.db.outbox[i].attempts >= 100 then TerminalFailure else RetryableFailure)
            && tx.db.outbox[i].nextAttemptAt == Some(now + ShiftLeftOne(Least(db.outbox[i].attempts, 11)))
            && tx.db.outbox[i].lastError == Some(code)
  {
    hide ShiftLeftOne, Least, OneRow, IsErrorCode, Charged, RecordMirrorFailure, SetMirrorStatus;
    ChargeReaches(db, kind, id, code, now, k, i);
    ChargedReads(db.outbox[i], code, now);
    if kind != Upload {
      RowOfOne(db.rows, k, kind, id, None);
      StatusSetOnOne(db.rows, k, RetryableFailure);
    }
  }

  lemma ChargeReaches(db: Database, kind: SubmissionKind, id: Uuid, code: string, now: int, k: RowKey, i: int)
    requires IsErrorCode(code) && (kind != Upload ==> OneRow(db.rows, k, kind, id, None))
    requires OneEntryLeft(db.outbox, i, kind, id)
    ensures var rows := if kind == Upload then db.rows else SetMirrorStatus(db.rows, {k}, RetryableFailure);
            var after := Database(rows, db.outbox[i := Charged(db.outbox[i], code, now)]);
            RecordMirrorFailure(db, kind, id, code, now) == Outcome(after, Ok(()))
  {
    hide IsErrorCode, OneRow, Charged, SetMirrorStatus;
    assert EntriesToCharge(db.outbox, kind, id) == {i};
    if kind != Upload {
      OneRowIsReached(db.rows, k, kind, id, None);
    }
    assert ChargeEntries(db.outbox, {i}, code, now) == db.outbox[i := Charged(db.outbox[i], code, now)];
  }

  lemma StatusSetOnOne(rows: Tables, k: RowKey, status: MirrorStatus)
    requires k in rows
    ensures OnlyStatusDiffers(rows, SetMirrorStatus(rows, {k}, status), k, status)
  {
  }

  lemma RowOfOne(rows: Tables, k: RowKey, kind: SubmissionKind, id: Uuid, digest: Option<string>)
    requires OneRow(rows, k, kind, id, digest)
    ensures k in rows
  {
  }

  /** A charged entry, column by column. */
  lemma ChargedReads(entry: OutboxRow, code: string, now: int)
    ensures Charged(entry, code, now)
         == OutboxRow(entry.kind, entry.id, entry.payloadSha256,
                      if entry.attempts + 1 >= 100 then TerminalFailure else RetryableFailure, entry.attempts + 1,
                      Some(now + ShiftLeftOne(Least(entry.attempts, 11))), Some(code))
  {
    CapNeverBinds(entry.attempts);
  }

  /** Error codes are 1 to 64 lower-case letters, digits and underscores; any other is refused first. */
  lemma RefusedErrorCode(db: Database, kind: SubmissionKind, id: Uuid, code: string, now: int)
    ensures RecordMirrorFailure(db, kind, id, code, now) == Outcome(db, Err(InvalidContext("mirror_error_code"))) <==>
            || |code| == 0 || |code| > 64
            || exists i :: 0 <= i < |code| && !('a' <= code[i] <= 'z' || '0' <= code[i] <= '9' || code[i] == '_')
  {
    hide RowsWithId, EntriesToCharge, ChargeEntries, SetMirrorStatus;
  }

  /** Otherwise the transaction is rolled back, the row's new status included. */
  lemma ChargesNothing(db: Database, kind: SubmissionKind, id: Uuid, code: string, now: int)
    requires IsErrorCode(code)
    requires || (kind != Upload && !exists k :: OneRow(db.rows, k, kind, id, None))
             || !exists i :: OneEntryLeft(db.outbox, i, kind, id)
    ensures RecordMirrorFailure(db, kind, id, code, now) == Outcome(db, Err(Invariant))
  {
    if kind != Upload && |RowsWithId(db.rows, kind, id)| == 1 {
      SingleRow(db.rows, RowsWithId(db.rows, kind, id), kind, id, None);
    }
    if |EntriesToCharge(db.outbox, kind, id)| == 1 {
      SingleEntryToCharge(db.outbox, kind, id);
    }
  }
}
