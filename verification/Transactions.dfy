/** What each transaction does to the tables and to the outbox, given what holds before it. */
module Transactions {
  import opened Results
  import opened Hex
  import opened ObjectKeys
  import opened ObjectVerification
  import opened Backoff
  import opened Persistence
  import opened Protocol
  import opened Invariants

  // ----- which rows a statement can reach -------------------------------------------------------

  lemma OneRowWithId(rows: Tables, k: RowKey)
    requires UniqueIds(rows) && k in rows
    ensures RowsWithId(rows, k.kind, rows[k].id) == {k}
    ensures RowsWithDigest(rows, k.kind, rows[k].id, rows[k].payloadSha256) == {k}
  {
  }

  lemma OneEntry(p: Database, k: RowKey, i: int)
    requires EntriesDistinct(p.outbox) && EntryFor(p, k, i)
    ensures EntriesToMark(p.outbox, k.kind, p.rows[k].id, p.rows[k].payloadSha256) == {i}
    ensures EntriesToCharge(p.outbox, k.kind, p.rows[k].id)
         == if p.outbox[i].attempts < MAX_ATTEMPTS then {i} else {}
  {
  }

  /** Under unique identifiers a completion call changes one row at most. */
  lemma AtMostOneToVerify(rows: Tables, id: Uuid, subject: Option<string>, sha256: string, now: int, k: RowKey)
    requires UniqueIds(rows) && k in UploadsToVerify(rows, id, subject, sha256, now)
    ensures UploadsToVerify(rows, id, subject, sha256, now) == {k}
  {
  }

  // ----- growth -----------------------------------------------------------------------------------

  lemma HasVerifiedUploadGrows(before: Tables, after: Tables, subject: Option<string>, id: Uuid, kind: UploadKind)
    requires RowsGrow(before, after) && HasVerifiedUpload(before, subject, id, kind)
    ensures HasVerifiedUpload(after, subject, id, kind)
  {
  }

  lemma HasUploadGrows(before: Tables, after: Tables, subject: Option<string>, upload: PendingUpload)
    requires RowsGrow(before, after)
    ensures HasUpload(before, subject, upload) ==> HasUpload(after, subject, upload)
    ensures HasVerified(before, subject, upload) ==> HasVerified(after, subject, upload)
  {
  }

  /** Rows that only grow, over the same keys, keep every table property. */
  lemma SameKeysKeepTables(c: Crypto, before: Tables, after: Tables)
    requires TablesOk(c, before) && RowsGrow(before, after) && before.Keys == after.Keys
    ensures TablesOk(c, after)
  {
    forall k, l | k in after && l in after && k.kind == l.kind && after[k].id == after[l].id ensures k == l {
      assert RowKept(before[k], after[k]) && RowKept(before[l], after[l]);
    }
    forall k | k in after ensures RowOk(c, k, after[k]) {
      assert RowOk(c, k, before[k]) && RowKept(before[k], after[k]);
    }
    forall k | k in after && after[k].payload.ApplicationCreate?
      ensures HasVerifiedUpload(after, after[k].subject, after[k].payload.resumeUploadId, Resume)
      ensures HasVerifiedUpload(after, after[k].subject, after[k].payload.photoIdUploadId, PhotoId)
    {
      assert RowKept(before[k], after[k]);
      HasVerifiedUploadGrows(before, after, after[k].subject, after[k].payload.resumeUploadId, Resume);
      HasVerifiedUploadGrows(before, after, after[k].subject, after[k].payload.photoIdUploadId, PhotoId);
    }
  }

  // ----- the application check ---------------------------------------------------------------------

  ghost predicate NamesLive(rows: Tables, subject: Option<string>, id: Uuid, kind: UploadKind, now: int) {
    exists k :: k in rows && k.kind == Upload && NamesUpload(rows[k], subject, id, kind, now)
  }

  function InRole(rows: Tables, subject: Option<string>, id: Uuid, kind: UploadKind, now: int): set<RowKey> {
    set k | k in rows && k.kind == Upload && NamesUpload(rows[k], subject, id, kind, now)
  }

  lemma RoleCount(rows: Tables, subject: Option<string>, id: Uuid, kind: UploadKind, now: int)
    requires UniqueIds(rows)
    ensures |InRole(rows, subject, id, kind, now)| == if NamesLive(rows, subject, id, kind, now) then 1 else 0
  {
    var role := InRole(rows, subject, id, kind, now);
    if NamesLive(rows, subject, id, kind, now) {
      var k :| k in rows && k.kind == Upload && NamesUpload(rows[k], subject, id, kind, now);
      assert role == {k};
    } else {
      assert role == {};
    }
  }

  lemma RolesPartition(rows: Tables, subject: Option<string>, resume: Uuid, photoId: Uuid, now: int)
    ensures |MatchingUploads(rows, subject, resume, photoId, now)|
         == |InRole(rows, subject, resume, Resume, now)| + |InRole(rows, subject, photoId, PhotoId, now)|
  {
    var asResume, asPhotoId := InRole(rows, subject, resume, Resume, now), InRole(rows, subject, photoId, PhotoId, now);
    assert MatchingUploads(rows, subject, resume, photoId, now) == asResume + asPhotoId;
    assert asResume !! asPhotoId;
  }

  /**
   The count of `require_verified_uploads` is 2 exactly when the two identifiers name a live
   resume and a live photo ID of the subject; no upload is counted in both roles.
   */
  lemma CountIsTwoExactly(rows: Tables, subject: Option<string>, resume: Uuid, photoId: Uuid, now: int)
    requires UniqueIds(rows)
    ensures |MatchingUploads(rows, subject, resume, photoId, now)| == 2 <==>
            NamesLive(rows, subject, resume, Resume, now) && NamesLive(rows, subject, photoId, PhotoId, now)
  {
    RolesPartition(rows, subject, resume, photoId, now);
    RoleCount(rows, subject, resume, Resume, now);
    RoleCount(rows, subject, photoId, PhotoId, now);
  }

  /** What a table counts once it still counts, by the same clock, when its rows have grown. */
  lemma CountsPersist(
      before: Tables, after: Tables, subject: Option<string>, id: Uuid, kind: UploadKind, now: int)
    requires RowsGrow(before, after) && NamesLive(before, subject, id, kind, now)
    ensures NamesLive(after, subject, id, kind, now)
  {
    var k :| k in before && k.kind == Upload && NamesUpload(before[k], subject, id, kind, now);
    assert RowKept(before[k], after[k]);
    assert NamesUpload(after[k], subject, id, kind, now);
  }

  // ----- store ---------------------------------------------------------------------------------------

  predicate FitToStore(c: Crypto, context: SubmissionContext, payload: Payload) {
    && WellFormedPayload(payload)
    && IsContextKey(context.idempotencyKey)
    && IsDigestText(context.payloadSha256)
    && context.payloadSha256 == PayloadDigest(c, payload)
  }

  ghost predicate Inserts(
      db: Database, target: PersistenceTarget, context: SubmissionContext, payload: Payload, call: Call)
    requires WellFormedPayload(payload)
  {
    && Admission(db.rows, context, payload, call.databaseNow).Ok?
    && RowKey(payload.Kind(), context.idempotencyKey) !in db.rows
    && !IdTaken(db.rows, payload.Kind(), context.canonicalId)
  }

  /** A store either inserts its row, and the outbox entry of a primary row, or changes nothing. */
  lemma StoreEffect(db: Database, target: PersistenceTarget, context: SubmissionContext, payload: Payload, call: Call)
    requires WellFormedPayload(payload)
    ensures var k := RowKey(payload.Kind(), context.idempotencyKey);
            var tx := Store(db, target, context, payload, call);
            && (Inserts(db, target, context, payload, call) ==>
                  && tx.db.rows == db.rows[k := NewRow(target, context, payload, call)]
                  && tx.result == Ok(StoredFrom(NewRow(target, context, payload, call), false))
                  && tx.db.outbox == if target == Primary
                                     then db.outbox + [NewOutboxRow(k.kind, context.canonicalId, context.payloadSha256)]
                                     else db.outbox)
            && (!Inserts(db, target, context, payload, call) ==> tx.db == db)
            && (tx.result.Ok? ==> HoldsStored(tx.db.rows, k, context.payloadSha256, tx.result.value))
            && (tx.result.Ok? <==>
                  Admission(db.rows, context, payload, call.databaseNow).Ok?
                  && (if k in db.rows then db.rows[k].payloadSha256 == context.payloadSha256
                      else !IdTaken(db.rows, k.kind, context.canonicalId)))
  {
  }

  lemma RefusedStoreChangesNothing(
      db: Database, target: PersistenceTarget, context: SubmissionContext, payload: Payload, call: Call)
    requires WellFormedPayload(payload)
    ensures var tx := Store(db, target, context, payload, call); tx.result.Err? ==> tx.db == db
  {
    hide Admission;
  }

  lemma NewRowIsOk(c: Crypto, target: PersistenceTarget, context: SubmissionContext, payload: Payload, call: Call)
    requires FitToStore(c, context, payload)
    ensures RowOk(c, RowKey(payload.Kind(), context.idempotencyKey), NewRow(target, context, payload, call))
  {
  }

  lemma NewRowIsOf(target: PersistenceTarget, context: SubmissionContext, payload: Payload, call: Call)
    requires WellFormedPayload(payload)
    ensures var row := NewRow(target, context, payload, call);
            row.id == context.canonicalId && row.subject == context.subject && row.payload == payload
  {
  }

  lemma InsertedRowGrows(rows: Tables, k: RowKey, row: Row)
    requires k !in rows
    ensures RowsGrow(rows, rows[k := row])
  {
  }

  lemma InsertKeepsBacking(rows: Tables, k: RowKey, row: Row)
    requires ApplicationsBacked(rows) && k !in rows
    requires row.payload.ApplicationCreate? ==>
               && HasVerifiedUpload(rows, row.subject, row.payload.resumeUploadId, Resume)
               && HasVerifiedUpload(rows, row.subject, row.payload.photoIdUploadId, PhotoId)
    ensures ApplicationsBacked(rows[k := row])
  {
  }

  lemma InsertKeepsTables(
      c: Crypto, db: Database, target: PersistenceTarget, context: SubmissionContext, payload: Payload, call: Call)
    requires TablesOk(c, db.rows) && FitToStore(c, context, payload)
    requires Inserts(db, target, context, payload, call)
    ensures var k := RowKey(payload.Kind(), context.idempotencyKey);
            var rows := db.rows[k := NewRow(target, context, payload, call)];
            RowsGrow(db.rows, rows) && TablesOk(c, rows)
  {
    hide NewRow, ApplicationsBacked, RowOk, RowsGrow;
    var k := RowKey(payload.Kind(), context.idempotencyKey);
    var row := NewRow(target, context, payload, call);
    NewRowIsOk(c, target, context, payload, call);
    NewRowIsOf(target, context, payload, call);
    InsertedRowGrows(db.rows, k, row);
    if payload.ApplicationCreate? {
      AdmittedUploads(db.rows, context, payload, call.databaseNow);
    }
    InsertKeepsBacking(db.rows, k, row);
  }

  lemma AdmittedUploads(rows: Tables, context: SubmissionContext, payload: Payload, now: int)
    requires UniqueIds(rows) && payload.ApplicationCreate? && Admission(rows, context, payload, now).Ok?
    ensures HasVerifiedUpload(rows, context.subject, payload.resumeUploadId, Resume)
    ensures HasVerifiedUpload(rows, context.subject, payload.photoIdUploadId, PhotoId)
  {
    CountIsTwoExactly(rows, context.subject, payload.resumeUploadId, payload.photoIdUploadId, now);
    var r :| r in rows && r.kind == Upload
             && NamesUpload(rows[r], context.subject, payload.resumeUploadId, Resume, now);
    assert IsVerifiedUpload(rows[r], context.subject, payload.resumeUploadId, Resume);
    var h :| h in rows && h.kind == Upload
             && NamesUpload(rows[h], context.subject, payload.photoIdUploadId, PhotoId, now);
    assert IsVerifiedUpload(rows[h], context.subject, payload.photoIdUploadId, PhotoId);
  }

  /**
   The application check precedes the replay: a stored application repeats its receipt exactly while
   both of its uploads are still live, and a refusal changes nothing.
   */
  lemma ApplicationReplayNeedsLiveUploads(
      db: Database, target: PersistenceTarget, context: SubmissionContext, payload: Payload, call: Call)
    requires UniqueIds(db.rows) && payload.ApplicationCreate? && -0x8000 <= payload.preferredRoomOccupancy < 0x8000
    requires var k := RowKey(Application, context.idempotencyKey);
             k in db.rows && db.rows[k].payloadSha256 == context.payloadSha256
    ensures var row := db.rows[RowKey(Application, context.idempotencyKey)];
            var live := && NamesLive(db.rows, context.subject, payload.resumeUploadId, Resume, call.databaseNow)
                        && NamesLive(db.rows, context.subject, payload.photoIdUploadId, PhotoId, call.databaseNow);
            var replay := if live then Ok(StoredFrom(row, true)) else Err(IntakeObjectUnavailable);
            Store(db, target, context, payload, call) == Outcome(db, replay)
  {
    hide UniqueIds, NamesLive, MatchingUploads;
    CountIsTwoExactly(db.rows, context.subject, payload.resumeUploadId, payload.photoIdUploadId, call.databaseNow);
  }

  // ----- status updates -----------------------------------------------------------------------------

  lemma SetStatusKeepsTables(c: Crypto, rows: Tables, k: RowKey, status: MirrorStatus)
    requires TablesOk(c, rows) && k in rows && k.kind != Upload
    ensures var after := SetMirrorStatus(rows, {k}, status);
            RowsGrow(rows, after) && TablesOk(c, after) && after.Keys == rows.Keys
  {
    var after := SetMirrorStatus(rows, {k}, status);
    assert after.Keys == rows.Keys;
    forall l | l in rows ensures l in after && RowKept(rows[l], after[l]) {
      assert RowOk(c, l, rows[l]);
    }
    SameKeysKeepTables(c, rows, after);
  }

  lemma VerifyRowsKeepsTables(c: Crypto, rows: Tables, affected: set<RowKey>, now: int)
    requires TablesOk(c, rows)
    requires forall k :: k in affected ==> k in rows && rows[k].progress.Uploading?
    ensures var after := VerifyRows(rows, affected, now);
            RowsGrow(rows, after) && TablesOk(c, after) && after.Keys == rows.Keys
  {
    hide UniqueIds, RowsOk, ApplicationsBacked;
    var after := VerifyRows(rows, affected, now);
    assert after.Keys == rows.Keys;
    assert RowsGrow(rows, after);
    hide VerifyRows, RowsGrow;
    SameKeysKeepTables(c, rows, after);
  }
}
