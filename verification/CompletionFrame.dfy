/**
 The frame of `complete_upload`: which final errors leave a change behind. Its last call is the only
 one that can answer with a final error after an earlier call of the attempt has changed a row.
 */
module CompletionFrame {
  import opened Results
  import opened ObjectKeys
  import opened ObjectVerification
  import opened Persistence
  import opened Protocol
  import opened IntakeSystem
  import opened Invariants
  import opened Preservation
  import opened CompletionProofs
  import opened Safety
  import opened Theorems

  predicate FailsForGood(stage: Stage) {
    stage.Done? && stage.response.Failed? && !stage.response.failure.retryable
  }

  /** The upload's row has expired by the database's clock. */
  ghost predicate Expired(rows: Tables, id: Uuid, now: int) {
    exists k :: k in rows && k.kind == Upload && rows[k].id == id && rows[k].stamp <= now
  }

  lemma ExpiredExactly(rows: Tables, k: RowKey, now: int)
    requires UniqueIds(rows) && k in rows && k.kind == Upload
    ensures Expired(rows, rows[k].id, now) <==> rows[k].stamp <= now
  {
  }

  /** Verifying a row changes it unless it was verified before: the times are kept. */
  lemma VerifyingChangesExactly(row: Row, now: int)
    requires HasCoherentStatus(row)
    ensures VerifiedRow(row, now) == row <==> IsVerified(row)
  {
  }

  lemma ReadingStep(
      c: Crypto, p: Database, m: Database, log: seq<Note>, request: Request, stage: Stage, wrote: bool, event: Event)
    requires StageOk(c, p, m, log, request, stage, wrote) && Enabled(request, stage, event) && !event.Crash?
    requires stage.PrimaryRead? || stage.IdentityMatched?
    ensures var move := Advance(c, p, m, request, stage, event); move.primary == p && move.mirror == m && !wrote
  {
    hide ReadMirror, ObserveObject, HasUpload;
  }

  lemma UploadRow(c: Crypto, rows: Tables, subject: Option<string>, upload: PendingUpload) returns (k: RowKey)
    requires TablesOk(c, rows) && HasUpload(rows, subject, upload)
    ensures k in rows && k.kind == Upload && IsRowOf(rows[k], subject, upload) && HasCoherentStatus(rows[k])
  {
    k :| k in rows && k.kind == Upload && IsRowOf(rows[k], subject, upload);
    OpenRow(c, rows, k);
  }

  lemma VerifyingStep(
      c: Crypto, db: Database, request: Request, subject: Option<string>, upload: PendingUpload, call: Call,
      next: Stage)
    requires TablesOk(c, db.rows) && Declared(request, upload) && Conforms(request)
    requires HasUpload(db.rows, subject, upload)
    requires !FailsForGood(next)
    ensures var (db', answer) := VerifyIn(db, request, subject, call, next);
            && (FailsForGood(answer) <==>
                  call.fault == NoFault && Expired(db.rows, request.uploadId, call.databaseNow))
            && (FailsForGood(answer) ==> db' == db)
  {
    hide TablesOk, UniqueIds, VerifyIn, HasUpload, Expired;
    var k := UploadRow(c, db.rows, subject, upload);
    IdsOfTables(c, db.rows);
    VerificationAnswer(db, request, subject, upload, call, k, next);
    ExpiredExactly(db.rows, k, call.databaseNow);
  }

  /** For one step of a completion: a final error after a change is an elapsed primary expiry at the last call. */
  lemma CompletionStep(
      c: Crypto, p: Database, m: Database, log: seq<Note>, request: Request, stage: Stage, wrote: bool, event: Event)
    requires TablesOk(c, p.rows) && TablesOk(c, m.rows) && StageOk(c, p, m, log, request, stage, wrote)
    requires Enabled(request, stage, event) && request.CompleteRequest?
    ensures var move := Advance(c, p, m, request, stage, event);
            var wrote' := wrote || move.primary != p || move.mirror != m;
            FailsForGood(move.stage) && wrote' <==>
            && stage.MirrorVerified? && wrote
            && event.DatabaseCall? && event.call.fault == NoFault
            && Expired(p.rows, request.uploadId, event.call.databaseNow)
  {
    hide TablesOk, StoresOk, VerifyIn, HasUpload, HasVerified, ObservedUpload, Expired, ReadMirror, ObserveObject,
         ReadPrimary, Authenticate, Conforms;
    if event.Crash? {
    } else if stage.Received? || stage.Validated? || stage.Identified? {
      EarlyStep(c, p, m, log, request, stage, event);
    } else if stage.PrimaryRead? || stage.IdentityMatched? {
      ReadingStep(c, p, m, log, request, stage, wrote, event);
    } else if stage.ObjectVerified? {
      VerifyingStep(c, m, request, stage.subject, stage.primary, event.call,
                    MirrorVerified(stage.subject, stage.primary));
    } else if stage.MirrorVerified? {
      VerifyingStep(c, p, request, stage.subject, stage.primary, event.call, Done(UploadCompleted(request.uploadId)));
    }
  }

  /**
   A completion answers with a final error after having changed a database if and only if an earlier
   call of it changed the mirror row and its last call, executed after the primary row's expiry, is
   answered.
   In every other case a final error means that the completion changed nothing.
   */
  lemma FinalErrorAfterChangeExactly(s: System, i: nat, event: Event)
    requires Reachable(s) && CanAct(s, i, event) && s.attempts[i].request.CompleteRequest?
    ensures var a, after := s.attempts[i], Apply(s, Act(i, event)).attempts[i];
            FailsForGood(after.stage) && after.wrote <==>
            && a.stage.MirrorVerified? && a.wrote
            && event.DatabaseCall? && event.call.fault == NoFault
            && Expired(s.primary.rows, a.request.uploadId, event.call.databaseNow)
  {
    ReachableInv(s);
    var a := s.attempts[i];
    assert AttemptOk(s, i);
    StoresParts(s.crypto, s.primary, s.mirror, s.log);
    hide Inv, StoresOk, TablesOk, StageOk, Advance, FailsForGood, Expired, Enabled, UniqueIds, OutboxOk, MirrorAgrees;
    CompletionStep(s.crypto, s.primary, s.mirror, s.log, a.request, a.stage, a.wrote, event);
  }

  lemma ChangesUnlessVerified(
      c: Crypto, db: Database, request: Request, subject: Option<string>, upload: PendingUpload, call: Call,
      next: Stage)
    returns (k: RowKey)
    requires TablesOk(c, db.rows) && Declared(request, upload) && Conforms(request)
    requires HasUpload(db.rows, subject, upload)
    requires !next.Done?
    ensures k in db.rows && k.kind == Upload && db.rows[k].id == request.uploadId
    ensures var (db', answer) := VerifyIn(db, request, subject, call, next);
            answer == next ==> (db' != db <==> !IsVerified(db.rows[k]))
  {
    hide TablesOk, UniqueIds, VerifyIn, HasUpload, IsVerified, Conforms;
    k := UploadRow(c, db.rows, subject, upload);
    IdsOfTables(c, db.rows);
    VerificationAnswer(db, request, subject, upload, call, k, next);
    VerifyingChangesExactly(db.rows[k], call.databaseNow);
    var after := db.rows[k := VerifiedRow(db.rows[k], call.databaseNow)];
    assert after[k] == VerifiedRow(db.rows[k], call.databaseNow);
    assert db.rows == db.rows[k := db.rows[k]];
  }

  lemma MirrorCallStep(
      c: Crypto, p: Database, m: Database, log: seq<Note>, request: Request, stage: Stage, wrote: bool, call: Call)
    returns (k: RowKey)
    requires TablesOk(c, m.rows) && StageOk(c, p, m, log, request, stage, wrote) && stage.ObjectVerified?
    ensures request.CompleteRequest? && !wrote
    ensures StageFits(request, stage) && Enabled(request, stage, DatabaseCall(call))
    ensures k in m.rows && k.kind == Upload && m.rows[k].id == request.uploadId
    ensures var move := Advance(c, p, m, request, stage, DatabaseCall(call));
            move.primary == p && (move.stage.MirrorVerified? ==> (move.mirror != m <==> !IsVerified(m.rows[k])))
  {
    hide TablesOk, VerifyIn, HasUpload, ObservedUpload, IsVerified, Conforms;
    var next := MirrorVerified(stage.subject, stage.primary);
    k := ChangesUnlessVerified(c, m, request, stage.subject, stage.primary, call, next);
    AnswersOrFails(m, request, stage.subject, call, next);
  }

  lemma AnswersOrFails(db: Database, request: Request, subject: Option<string>, call: Call, next: Stage)
    requires request.CompleteRequest?
    ensures var answer := VerifyIn(db, request, subject, call, next).1; answer == next || answer.Done?
  {
    hide VerifyUpload;
  }

  /** The mirror call of a completion changes the mirror exactly when its row was not verified before. */
  lemma MirrorCallChangesExactly(s: System, i: nat, call: Call) returns (k: RowKey)
    requires Reachable(s) && i in s.attempts && s.attempts[i].stage.ObjectVerified?
    ensures s.attempts[i].request.CompleteRequest? && CanAct(s, i, DatabaseCall(call)) && !s.attempts[i].wrote
    ensures k in s.mirror.rows && k.kind == Upload && s.mirror.rows[k].id == s.attempts[i].request.uploadId
    ensures var after := Apply(s, Act(i, DatabaseCall(call))).attempts[i];
            after.stage.MirrorVerified? ==> (after.wrote <==> !IsVerified(s.mirror.rows[k]))
  {
    ReachableInv(s);
    var a := s.attempts[i];
    assert AttemptOk(s, i);
    StoresParts(s.crypto, s.primary, s.mirror, s.log);
    hide Inv, StoresOk, StageOk, StageFits, Enabled, TablesOk, UniqueIds, OutboxOk, MirrorAgrees, IsVerified, Advance,
         VerifyIn;
    k := MirrorCallStep(s.crypto, s.primary, s.mirror, s.log, a.request, a.stage, a.wrote, call);
  }
}
