/** The steps of `complete_upload` keep the invariant. */
module CompletionProofs {
  import opened Results
  import opened Hex
  import opened ObjectKeys
  import opened ObjectVerification
  import opened Persistence
  import opened Protocol
  import opened IntakeSystem
  import opened Invariants
  import opened Transactions
  import opened OutboxProofs
  import opened Preservation

  // ----- the two reads --------------------------------------------------------------------------

  lemma ReadPrimaryStage(
      c: Crypto, p: Database, m: Database, log: seq<Note>, request: Request, subject: Option<string>, call: Call)
    requires request.CompleteRequest? && Conforms(request)
    ensures StageOk(c, p, m, log, request, ReadPrimary(p, request, subject, call), false)
  {
    if call.fault == NoFault {
      var result := FindPendingUpload(p.rows, request.uploadId, subject, call.databaseNow);
      if result.Ok? {
        var k :| k in OpenUploads(p.rows, request.uploadId, subject, call.databaseNow)
                 && PendingFrom(p.rows[k]) == result.value;
        assert IsRowOf(p.rows[k], subject, result.value);
      }
    }
  }

  lemma ReadMirrorStage(
      c: Crypto, p: Database, m: Database, log: seq<Note>, request: Request, subject: Option<string>,
      upload: PendingUpload, call: Call, wrote: bool)
    requires StageOk(c, p, m, log, request, PrimaryRead(subject, upload), wrote)
    ensures StageOk(c, p, m, log, request, ReadMirror(m, request, subject, upload, call), wrote)
  {
    if call.fault == NoFault {
      var result := FindPendingUpload(m.rows, request.uploadId, subject, call.databaseNow);
      if result.Ok? && SameUploadIdentity(upload, result.value) {
        var k :| k in OpenUploads(m.rows, request.uploadId, subject, call.databaseNow)
                 && PendingFrom(m.rows[k]) == result.value;
        assert IsRowOf(m.rows[k], subject, upload);
      }
    }
  }

  // ----- the object -----------------------------------------------------------------------------

  lemma NoteKeepsStores(c: Crypto, p: Database, m: Database, log: seq<Note>, note: Note)
    requires StoresOk(c, p, m, log) && !note.FailureRecorded?
    requires note.ReceiptIssued? ==> ReceiptHolds(c, p.rows, m.rows, note)
    ensures StoresOk(c, p, m, log + [note])
  {
    hide TablesOk, OutboxOk, MirrorAgrees, MirroredAreMirrored, VerifiedInOrder, ReceiptsHold, ReceiptHolds;
    OtherNotesKeepOutbox(p, log, note);
    VerifiedOrderPersists(c, p.rows, m.rows, log, log + [note]);
    ReceiptsPersist(c, p.rows, m.rows, log, note);
  }

  lemma ObserveObjectStep(
      c: Crypto, p: Database, m: Database, log: seq<Note>, request: Request, subject: Option<string>,
      upload: PendingUpload, download: Download, wrote: bool)
    requires StageOk(c, p, m, log, request, IdentityMatched(subject, upload), wrote)
    ensures var (next, note) := ObserveObject(c, subject, upload, download);
            && StageOk(c, p, m, Extended(log, note), request, next, wrote)
            && (note.Some? ==> note.value.ObjectObserved?)
  {
    hide MatchedOk;
    var (next, note) := ObserveObject(c, subject, upload, download);
    if note.Some? {
      assert ObservedAt(c, log + [note.value], |log|, upload.objectKey, upload.expectedSha256,
                        upload.contentType, upload.sizeBytes);
    }
  }

  // ----- the two verifications ------------------------------------------------------------------

  /** What `verify_upload` does to the tables of one database. */
  lemma VerifyUploadGrows(c: Crypto, db: Database, id: Uuid, subject: Option<string>, sha256: string, now: int)
    requires TablesOk(c, db.rows)
    ensures var after := VerifyUpload(db, id, subject, sha256, now).db;
            && RowsGrow(db.rows, after.rows) && TablesOk(c, after.rows) && after.rows.Keys == db.rows.Keys
            && after.outbox == db.outbox
            && (forall k :: k in db.rows && k.kind != Upload ==> after.rows[k] == db.rows[k])
  {
    hide TablesOk, RowsGrow;
    GrowthIsReflexive(db.rows);
    VerifyRowsKeepsTables(c, db.rows, UploadsToVerify(db.rows, id, subject, sha256, now), now);
  }

  lemma MirrorVerifyKeepsStores(c: Crypto, p: Database, m: Database, log: seq<Note>, mirror: Tables)
    requires StoresOk(c, p, m, log) && RowsGrow(m.rows, mirror) && TablesOk(c, mirror) && mirror.Keys == m.rows.Keys
    ensures StoresOk(c, p, m.(rows := mirror), log)
  {
    hide TablesOk, OutboxOk, MirrorAgrees, ReceiptsHold, RowsGrow, VerifiedInOrder;
    GrowthIsReflexive(p.rows);
    AgreementGrows(c, p.rows, m.rows, p.rows, mirror, log);
    MirrorGrowthKeepsOrder(c, p.rows, m.rows, mirror, log);
  }

  lemma MirrorGrowthKeepsOrder(c: Crypto, rows: Tables, mirror: Tables, mirror': Tables, log: seq<Note>)
    requires VerifiedInOrder(c, rows, mirror, log) && RowsGrow(mirror, mirror')
    ensures VerifiedInOrder(c, rows, mirror', log)
  {
  }

  /** The only row a completion can reach is the one it read. */
  lemma VerifiesTheRowRead(
      rows: Tables, request: Request, subject: Option<string>, upload: PendingUpload, now: int, k: RowKey)
    requires UniqueIds(rows) && Declared(request, upload) && HasUpload(rows, subject, upload)
    requires k in UploadsToVerify(rows, request.uploadId, subject, request.sha256, now)
    ensures IsRowOf(rows[k], subject, upload)
    ensures UploadsToVerify(rows, request.uploadId, subject, request.sha256, now) == {k}
  {
  }

  lemma VerifyUploadResult(
      c: Crypto, db: Database, request: Request, subject: Option<string>, upload: PendingUpload, now: int)
    requires UniqueIds(db.rows) && Declared(request, upload) && HasUpload(db.rows, subject, upload)
    ensures var tx := VerifyUpload(db, request.uploadId, subject, request.sha256, now);
            && (tx.result.Ok? ==> HasVerified(tx.db.rows, subject, upload))
            && (tx.result.Err? ==> tx.db.rows == db.rows)
  {
    var affected := UploadsToVerify(db.rows, request.uploadId, subject, request.sha256, now);
    var tx := VerifyUpload(db, request.uploadId, subject, request.sha256, now);
    if affected == {} {
      assert VerifyRows(db.rows, affected, now) == db.rows;
    } else {
      var k :| k in affected;
      VerifiesTheRowRead(db.rows, request, subject, upload, now, k);
      if tx.result.Ok? {
        assert IsRowOf(tx.db.rows[k], subject, upload) && IsVerified(tx.db.rows[k]);
      }
    }
  }

  /** A verification goes on with the new tables, or fails having committed or not. */
  lemma VerifyInCases(db: Database, request: Request, subject: Option<string>, call: Call, next: Stage)
    requires request.CompleteRequest?
    ensures var tx := VerifyUpload(db, request.uploadId, subject, request.sha256, call.databaseNow);
            var (db', stage) := VerifyIn(db, request, subject, call, next);
            && (db' == db || db' == tx.db)
            && (if IsDigestText(request.sha256) && call.fault == NoFault && tx.result.Ok?
                then db' == tx.db && stage == next
                else && stage.Done? && stage.response.Failed?
                     && stage.response.failure.submissionId.None?
                     && (stage.response.failure.retryable <==> stage.response.failure.status == 503))
  {
  }

  lemma ObjectVerifiedStores(
      c: Crypto, p: Database, m: Database, log: seq<Note>, request: Request, subject: Option<string>,
      call: Call, next: Stage)
    requires StoresOk(c, p, m, log) && request.CompleteRequest?
    ensures var m' := VerifyIn(m, request, subject, call, next).0;
            StoresOk(c, p, m', log) && Extends(p, m, log, p, m', log)
  {
    hide StoresOk, RowsGrow, TablesOk, UniqueIds, MirrorAgrees, OutboxOk, VerifyUpload, VerifyIn;
    StoresParts(c, p, m, log);
    var after := VerifyUpload(m, request.uploadId, subject, request.sha256, call.databaseNow).db;
    VerifyUploadGrows(c, m, request.uploadId, subject, request.sha256, call.databaseNow);
    assert after == m.(rows := after.rows);
    MirrorVerifyKeepsStores(c, p, m, log, after.rows);
    GrowthIsReflexive(p.rows);
    GrowthIsReflexive(m.rows);
    VerifyInCases(m, request, subject, call, next);
  }

  lemma ObjectVerifiedStage(
      c: Crypto, p: Database, m: Database, log: seq<Note>, request: Request, subject: Option<string>,
      upload: PendingUpload, call: Call, wrote: bool, wrote': bool)
    requires TablesOk(c, m.rows) && StageOk(c, p, m, log, request, ObjectVerified(subject, upload), wrote)
    ensures var (m', next) := VerifyIn(m, request, subject, call, MirrorVerified(subject, upload));
            StageOk(c, p, m', log, request, next, wrote')
  {
    hide TablesOk, UniqueIds, VerifyUpload, VerifyIn, HasUpload, HasVerified, ObservedUpload, RowsGrow;
    var tx := VerifyUpload(m, request.uploadId, subject, request.sha256, call.databaseNow);
    IdsOfTables(c, m.rows);
    VerifyUploadResult(c, m, request, subject, upload, call.databaseNow);
    VerifyUploadGrows(c, m, request.uploadId, subject, request.sha256, call.databaseNow);
    HasUploadGrows(m.rows, tx.db.rows, subject, upload);
    VerifyInCases(m, request, subject, call, MirrorVerified(subject, upload));
  }

  lemma IdsOfTables(c: Crypto, rows: Tables)
    requires TablesOk(c, rows)
    ensures UniqueIds(rows)
  {
  }

  /** Verifying the primary row keeps the order: its mirror twin is verified and its object was seen. */
  lemma PrimaryVerifyKeepsOrder(
      c: Crypto, p: Database, mirror: Tables, log: seq<Note>, request: Request, subject: Option<string>,
      upload: PendingUpload, now: int)
    requires VerifiedInOrder(c, p.rows, mirror, log) && UniqueIds(p.rows) && MirrorAgrees(p.rows, mirror)
    requires Declared(request, upload) && HasUpload(p.rows, subject, upload)
    requires HasVerified(mirror, subject, upload) && ObservedUpload(c, log, upload)
    ensures VerifiedInOrder(c, VerifyUpload(p, request.uploadId, subject, request.sha256, now).db.rows, mirror, log)
  {
  }

  lemma MirrorVerifiedStores(
      c: Crypto, p: Database, m: Database, log: seq<Note>, request: Request, subject: Option<string>,
      upload: PendingUpload, call: Call, wrote: bool, next: Stage)
    requires StoresOk(c, p, m, log) && StageOk(c, p, m, log, request, MirrorVerified(subject, upload), wrote)
    ensures var p' := VerifyIn(p, request, subject, call, next).0;
            StoresOk(c, p', m, log) && Extends(p, m, log, p', m, log)
  {
    hide RowsGrow, TablesOk, UniqueIds, MirrorAgrees, OutboxOk, VerifyUpload, VerifiedInOrder, MirroredAreMirrored,
         ReceiptsHold, HasUpload, HasVerified, ObservedUpload, VerifyIn;
    var after := VerifyUpload(p, request.uploadId, subject, request.sha256, call.databaseNow).db;
    StoresParts(c, p, m, log);
    VerifyUploadGrows(c, p, request.uploadId, subject, request.sha256, call.databaseNow);
    UploadChangesKeepOutbox(p, after.rows, log);
    assert after == p.(rows := after.rows);
    PrimaryVerifyKeepsOrder(c, p, m.rows, log, request, subject, upload, call.databaseNow);
    GrowthIsReflexive(p.rows);
    GrowthIsReflexive(m.rows);
    AgreementGrows(c, p.rows, m.rows, after.rows, m.rows, log);
    OutboxParts(p, log);
    SameEntriesKeepMirrored(p, after, m.rows);
    VerifyInCases(p, request, subject, call, next);
  }

  lemma SameEntriesKeepMirrored(p: Database, after: Database, mirror: Tables)
    requires OutboxMatches(p) && SameEntries(p, after) && after.outbox == p.outbox && MirroredAreMirrored(p, mirror)
    ensures MirroredAreMirrored(after, mirror)
  {
    SameEntriesMatch(p, after);
  }

  lemma MirrorVerifiedStage(
      c: Crypto, p: Database, m: Database, log: seq<Note>, request: Request, call: Call, subject: Option<string>,
      wrote: bool)
    requires request.CompleteRequest? && Conforms(request)
    ensures var (p', next) := VerifyIn(p, request, subject, call, Done(UploadCompleted(request.uploadId)));
            StageOk(c, p', m, log, request, next, wrote)
  {
  }
}
