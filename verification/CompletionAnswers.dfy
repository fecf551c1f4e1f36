/**
 Every answer of `complete_upload` when none of its database calls fails: the first check that does not
 hold decides, in the order of the handler, and nothing is changed before the mirror row is verified.
 */
module CompletionAnswers {
  import opened Results
  import opened ObjectKeys
  import opened ObjectVerification
  import opened Persistence
  import opened Protocol
  import opened IntakeSystem
  import opened Invariants
  import opened Preservation
  import opened Safety
  import opened SoloRuns
  import opened TransactionLaws
  import opened ClientAnswers

  /** The caller is identified as `subject`, and every database call is answered. */
  predicate Served(request: Request, subject: Option<string>, env: Environment) {
    && request.CompleteRequest? && Conforms(request) && Possible(env)
    && env.contractAccepts && Authenticate(request, env.bearer, env.proof) == Ok(subject)
    && env.readPrimary.fault == env.readMirror.fault == env.verifyMirror.fault == env.verifyPrimary.fault == NoFault
  }

  lemma OpenIsFound(rows: Tables, k: RowKey, id: Uuid, subject: Option<string>, now: int)
    requires UniqueIds(rows) && IsOpenFor(rows, k, id, subject, now)
    ensures FindPendingUpload(rows, id, subject, now) == Ok(PendingFrom(rows[k]))
  {
    var result := FindPendingUpload(rows, id, subject, now);
    PendingUploadExactly(rows, id, subject, now, result);
    if l :| IsOpenFor(rows, l, id, subject, now) {
      assert l.kind == k.kind && rows[l].id == rows[k].id;
    }
  }

  lemma NoneIsFound(rows: Tables, id: Uuid, subject: Option<string>, now: int)
    requires !exists k :: IsOpenFor(rows, k, id, subject, now)
    ensures FindPendingUpload(rows, id, subject, now) == Err(IntakeObjectUnavailable)
  {
    PendingUploadExactly(rows, id, subject, now, FindPendingUpload(rows, id, subject, now));
  }

  lemma ServedIsIdentified(
      c: Crypto, p: Database, m: Database, request: Request, subject: Option<string>, env: Environment)
    requires Served(request, subject, env)
    ensures Solo(c, p, m, request, Received, env) == Solo(c, p, m, request, Identified(subject), env)
  {
    hide Solo, Authenticate, Conforms;
    SoloStep(c, p, m, request, Received, env);
    SoloStep(c, p, m, request, Validated, env);
  }

  // ----- the checks before the first write --------------------------------------------------------

  /** No open row of this upload for this caller: expired, withdrawn, somebody else's or unknown. */
  lemma UnavailableUploadEnds(
      c: Crypto, p: Database, m: Database, request: Request, subject: Option<string>, env: Environment)
    requires Served(request, subject, env)
    requires !exists k :: IsOpenFor(p.rows, k, request.uploadId, subject, env.readPrimary.databaseNow)
    ensures Solo(c, p, m, request, Received, env) == Ending(p, m, CONFLICTING)
  {
    hide Solo, Authenticate, Conforms, FindPendingUpload, IsOpenFor;
    ServedIsIdentified(c, p, m, request, subject, env);
    NoneIsFound(p.rows, request.uploadId, subject, env.readPrimary.databaseNow);
    SoloStep(c, p, m, request, Identified(subject), env);
    AnswerEnds(c, p, m, request, CONFLICTING, env);
  }

  /** In particular an upload whose primary row has expired: whatever was uploaded, nothing is changed. */
  lemma ExpiredUploadEnds(s: System, k: RowKey, request: Request, subject: Option<string>, env: Environment)
    requires Reachable(s) && Served(request, subject, env)
    requires k in s.primary.rows && k.kind == Upload && s.primary.rows[k].id == request.uploadId
    requires s.primary.rows[k].stamp <= env.readPrimary.databaseNow
    ensures Solo(s.crypto, s.primary, s.mirror, request, Received, env) == Ending(s.primary, s.mirror, CONFLICTING)
  {
    ReachableInv(s);
    StoresParts(s.crypto, s.primary, s.mirror, s.log);
    hide Inv, Reachable, StoresOk, TablesOk, OutboxOk, MirrorAgrees, Solo, Served;
    forall l ensures !IsOpenFor(s.primary.rows, l, request.uploadId, subject, env.readPrimary.databaseNow) {
    }
    hide UniqueIds, IsOpenFor;
    UnavailableUploadEnds(s.crypto, s.primary, s.mirror, request, subject, env);
  }

  lemma PrimaryIsRead(
      c: Crypto, p: Database, m: Database, k: RowKey, request: Request, subject: Option<string>, env: Environment)
    requires UniqueIds(p.rows) && Served(request, subject, env)
    requires IsOpenFor(p.rows, k, request.uploadId, subject, env.readPrimary.databaseNow)
    ensures Solo(c, p, m, request, Received, env)
         == if request.sha256 != p.rows[k].payload.sha256 then Ending(p, m, CONFLICTING)
            else Solo(c, p, m, request, PrimaryRead(subject, PendingFrom(p.rows[k])), env)
  {
    hide Solo, Authenticate, Conforms, FindPendingUpload, UniqueIds;
    ServedIsIdentified(c, p, m, request, subject, env);
    OpenIsFound(p.rows, k, request.uploadId, subject, env.readPrimary.databaseNow);
    SoloStep(c, p, m, request, Identified(subject), env);
    if request.sha256 != p.rows[k].payload.sha256 {
      AnswerEnds(c, p, m, request, CONFLICTING, env);
    }
  }

  /** The mirror holds no open row of this upload for this caller. */
  lemma UnmirroredUploadEnds(
      c: Crypto, p: Database, m: Database, k: RowKey, request: Request, subject: Option<string>, env: Environment)
    requires UniqueIds(p.rows) && Served(request, subject, env)
    requires IsOpenFor(p.rows, k, request.uploadId, subject, env.readPrimary.databaseNow)
    requires !exists l :: IsOpenFor(m.rows, l, request.uploadId, subject, env.readMirror.databaseNow)
    ensures Solo(c, p, m, request, Received, env) == Ending(p, m, CONFLICTING)
  {
    PrimaryIsRead(c, p, m, k, request, subject, env);
    if request.sha256 == p.rows[k].payload.sha256 {
      var upload := PendingFrom(p.rows[k]);
      hide Solo, Authenticate, Conforms, FindPendingUpload, IsOpenFor, UniqueIds;
      NoneIsFound(m.rows, request.uploadId, subject, env.readMirror.databaseNow);
      SoloStep(c, p, m, request, PrimaryRead(subject, upload), env);
      AnswerEnds(c, p, m, request, CONFLICTING, env);
    }
  }

  /** The five columns in which the two rows of one upload must agree; the expiry is not one of them. */
  predicate SameObject(row: Row, twin: Row)
    requires row.payload.UploadIntentCreate? && row.progress.Uploading?
    requires twin.payload.UploadIntentCreate? && twin.progress.Uploading?
  {
    && row.id == twin.id
    && row.progress.objectKey == twin.progress.objectKey
    && row.payload.sha256 == twin.payload.sha256
    && row.payload.contentType == twin.payload.contentType
    && row.payload.sizeBytes == twin.payload.sizeBytes
  }

  /** Both databases hold an open row of this upload for this caller, at the time of each read. */
  ghost predicate BothOpen(
      p: Database, m: Database, k: RowKey, l: RowKey, request: Request, subject: Option<string>, env: Environment)
  {
    && UniqueIds(p.rows) && UniqueIds(m.rows) && Served(request, subject, env)
    && IsOpenFor(p.rows, k, request.uploadId, subject, env.readPrimary.databaseNow)
    && IsOpenFor(m.rows, l, request.uploadId, subject, env.readMirror.databaseNow)
  }

  lemma MirrorIsRead(
      c: Crypto, p: Database, m: Database, k: RowKey, l: RowKey, request: Request, subject: Option<string>,
      env: Environment)
    requires BothOpen(p, m, k, l, request, subject, env)
    ensures Solo(c, p, m, request, Received, env)
         == if request.sha256 != p.rows[k].payload.sha256 || !SameObject(p.rows[k], m.rows[l])
            then Ending(p, m, CONFLICTING)
            else Solo(c, p, m, request, IdentityMatched(subject, PendingFrom(p.rows[k])), env)
  {
    PrimaryIsRead(c, p, m, k, request, subject, env);
    OpenIsFound(m.rows, l, request.uploadId, subject, env.readMirror.databaseNow);
    hide Solo, Authenticate, Conforms, FindPendingUpload, UniqueIds;
    if request.sha256 == p.rows[k].payload.sha256 {
      SoloStep(c, p, m, request, PrimaryRead(subject, PendingFrom(p.rows[k])), env);
      if !SameObject(p.rows[k], m.rows[l]) {
        AnswerEnds(c, p, m, request, CONFLICTING, env);
      }
    }
  }

  /**
   The declared digest or one of the five columns is another: the answer is a conflict, nothing is
   downloaded and nothing is changed.
   */
  lemma DifferentUploadEnds(
      c: Crypto, p: Database, m: Database, k: RowKey, l: RowKey, request: Request, subject: Option<string>,
      env: Environment)
    requires BothOpen(p, m, k, l, request, subject, env)
    requires request.sha256 != p.rows[k].payload.sha256 || !SameObject(p.rows[k], m.rows[l])
    ensures Solo(c, p, m, request, Received, env) == Ending(p, m, CONFLICTING)
  {
    hide Solo, Served, UniqueIds;
    MirrorIsRead(c, p, m, k, l, request, subject, env);
  }

  /** A database call without an answer ends the completion with a retryable error, whichever it is. */
  lemma UnansweredCallEnds(
      c: Crypto, p: Database, m: Database, request: Request, subject: Option<string>, upload: PendingUpload, call: Call)
    requires request.CompleteRequest? && Conforms(request) && call.fault != NoFault
    ensures Advance(c, p, m, request, Identified(subject), DatabaseCall(call)) == Move(p, m, Done(UNSTORED), None)
    ensures Advance(c, p, m, request, PrimaryRead(subject, upload), DatabaseCall(call))
         == Move(p, m, Done(UNSTORED), None)
    ensures var move := Advance(c, p, m, request, ObjectVerified(subject, upload), DatabaseCall(call));
            move.stage == Done(UNSTORED) && move.primary == p
    ensures var move := Advance(c, p, m, request, MirrorVerified(subject, upload), DatabaseCall(call));
            move.stage == Done(UNSTORED) && move.mirror == m
  {
    hide FindPendingUpload, VerifyUpload;
  }

  // ----- the object -------------------------------------------------------------------------------

  /** In every reachable state the object keys of the rows are valid, so storage is always asked. */
  lemma KeysAreValid(s: System, k: RowKey)
    requires Reachable(s) && k in s.primary.rows && k.kind == Upload
    ensures s.primary.rows[k].progress.Uploading? && ValidObjectKey(s.primary.rows[k].progress.objectKey)
  {
    ReachableInv(s);
    var row := s.primary.rows[k];
    hide ValidObjectKey, ObjectKey, PayloadDigest, UniqueIds, ApplicationsBacked, OutboxOk, MirrorAgrees, AttemptOk;
    assert RowOk(s.crypto, k, row);
    PrintedKeyIsValid(row.payload.uploadKind, row.id, row.payload.sha256);
  }

  /**
   The object is not the declared one: a conflict, or a retryable error if the storage service failed;
   in both cases nothing is changed.
   */
  lemma RefusedObjectEnds(
      c: Crypto, p: Database, m: Database, k: RowKey, l: RowKey, request: Request, subject: Option<string>,
      env: Environment)
    requires BothOpen(p, m, k, l, request, subject, env)
    requires request.sha256 == p.rows[k].payload.sha256 && SameObject(p.rows[k], m.rows[l])
    requires ValidObjectKey(p.rows[k].progress.objectKey)
    requires !IsDeclaredObject(c.sha256, PendingFrom(p.rows[k]), env.download)
    ensures Solo(c, p, m, request, Received, env)
         == Ending(p, m, if IsInterrupted(PendingFrom(p.rows[k]), env.download) then UNVERIFIED else CONFLICTING)
  {
    hide Solo, Served, UniqueIds, Verdict, IsDeclaredObject, IsInterrupted, ValidObjectKey;
    MirrorIsRead(c, p, m, k, l, request, subject, env);
    VerdictExactly(c.sha256, PendingFrom(p.rows[k]), env.download);
    ServedParts(request, subject, env);
    var response := if IsInterrupted(PendingFrom(p.rows[k]), env.download) then UNVERIFIED else CONFLICTING;
    SoloStep(c, p, m, request, IdentityMatched(subject, PendingFrom(p.rows[k])), env);
    AnswerEnds(c, p, m, request, response, env);
  }

  lemma ServedParts(request: Request, subject: Option<string>, env: Environment)
    requires Served(request, subject, env)
    ensures request.CompleteRequest? && Conforms(request) && Possible(env)
    ensures env.verifyMirror.fault == env.verifyPrimary.fault == NoFault
  {
    hide Authenticate, Conforms;
  }

  // ----- the two verifications ------------------------------------------------------------------

  /** The row as `verify_upload` leaves it. */
  function VerifiedAt(row: Row, now: int): Row
    requires row.progress.Uploading?
  {
    row.(progress := Uploading(row.progress.objectKey, UploadVerified,
                               if row.progress.uploadedAt.None? then Some(now) else row.progress.uploadedAt,
                               if row.progress.verifiedAt.None? then Some(now) else row.progress.verifiedAt))
  }

  lemma VerificationCall(
      db: Database, k: RowKey, request: Request, subject: Option<string>, call: Call, next: Stage, before: int)
    requires UniqueIds(db.rows) && request.CompleteRequest? && Conforms(request) && call.fault == NoFault
    requires IsOpenFor(db.rows, k, request.uploadId, subject, before) && request.sha256 == db.rows[k].payload.sha256
    ensures VerifyIn(db, request, subject, call, next)
         == if db.rows[k].stamp <= call.databaseNow then (db, Done(CONFLICTING))
            else (db.(rows := db.rows[k := VerifiedAt(db.rows[k], call.databaseNow)]), next)
  {
    hide VerifyUpload;
    var id, sha256, now := request.uploadId, request.sha256, call.databaseNow;
    VerifyUploadExactly(db, id, subject, sha256, now);
    VerifyCallExactly(db, id, subject, sha256, call);
    forall l | IsOpenFor(db.rows, l, id, subject, now) ensures l == k {
      assert l.kind == k.kind && db.rows[l].id == db.rows[k].id;
    }
    if db.rows[k].stamp > now {
      assert MarksOnly(db.rows, k, id, subject, sha256, now);
      assert VerifyUpload(db, id, subject, sha256, now).db.rows == db.rows[k := VerifiedAt(db.rows[k], now)];
    } else {
      assert VerifyUpload(db, id, subject, sha256, now).db.rows == db.rows;
    }
  }

  /**
   The declared object is there: the mirror row is verified if it has not expired by then, and after it
   the primary row if it has not. The answer is success only if both were.
   */
  lemma MatchedUploadEnds(
      c: Crypto, p: Database, m: Database, k: RowKey, l: RowKey, request: Request, subject: Option<string>,
      env: Environment)
    requires BothOpen(p, m, k, l, request, subject, env)
    requires request.sha256 == p.rows[k].payload.sha256 && SameObject(p.rows[k], m.rows[l])
    requires ValidObjectKey(p.rows[k].progress.objectKey)
    requires IsDeclaredObject(c.sha256, PendingFrom(p.rows[k]), env.download)
    ensures var mirrored := m.(rows := m.rows[l := VerifiedAt(m.rows[l], env.verifyMirror.databaseNow)]);
            var verified := p.(rows := p.rows[k := VerifiedAt(p.rows[k], env.verifyPrimary.databaseNow)]);
            && Solo(c, p, m, request, Received, env)
               == if m.rows[l].stamp <= env.verifyMirror.databaseNow then Ending(p, m, CONFLICTING)
                  else if p.rows[k].stamp <= env.verifyPrimary.databaseNow then Ending(p, mirrored, CONFLICTING)
                  else Ending(verified, mirrored, UploadCompleted(request.uploadId))
  {
    hide Solo, Served, UniqueIds, Verdict, IsDeclaredObject, ValidObjectKey, VerifyIn, VerifiedAt, Conforms;
    MirrorIsRead(c, p, m, k, l, request, subject, env);
    VerdictExactly(c.sha256, PendingFrom(p.rows[k]), env.download);
    ServedParts(request, subject, env);
    var upload := PendingFrom(p.rows[k]);
    SoloStep(c, p, m, request, IdentityMatched(subject, upload), env);
    SoloStep(c, p, m, request, ObjectVerified(subject, upload), env);
    VerificationCall(m, l, request, subject, env.verifyMirror, MirrorVerified(subject, upload),
                     env.readMirror.databaseNow);
    if m.rows[l].stamp <= env.verifyMirror.databaseNow {
      AnswerEnds(c, p, m, request, CONFLICTING, env);
    } else {
      var mirrored := m.(rows := m.rows[l := VerifiedAt(m.rows[l], env.verifyMirror.databaseNow)]);
      VerifiedUploadEnds(c, p, mirrored, k, request, subject, env);
    }
  }

  lemma VerifiedUploadEnds(
      c: Crypto, p: Database, m: Database, k: RowKey, request: Request, subject: Option<string>, env: Environment)
    requires UniqueIds(p.rows) && Served(request, subject, env)
    requires IsOpenFor(p.rows, k, request.uploadId, subject, env.readPrimary.databaseNow)
    requires request.sha256 == p.rows[k].payload.sha256
    ensures var verified := p.(rows := p.rows[k := VerifiedAt(p.rows[k], env.verifyPrimary.databaseNow)]);
            && Solo(c, p, m, request, MirrorVerified(subject, PendingFrom(p.rows[k])), env)
               == if p.rows[k].stamp <= env.verifyPrimary.databaseNow then Ending(p, m, CONFLICTING)
                  else Ending(verified, m, UploadCompleted(request.uploadId))
  {
    hide Solo, UniqueIds, VerifyIn, VerifiedAt, Conforms, Authenticate;
    var upload, answered := PendingFrom(p.rows[k]), Done(UploadCompleted(request.uploadId));
    SoloStep(c, p, m, request, MirrorVerified(subject, upload), env);
    VerificationCall(p, k, request, subject, env.verifyPrimary, answered, env.readPrimary.databaseNow);
    var p' := VerifyIn(p, request, subject, env.verifyPrimary, answered).0;
    var expired := p.rows[k].stamp <= env.verifyPrimary.databaseNow;
    AnswerEnds(c, p', m, request, if expired then CONFLICTING else UploadCompleted(request.uploadId), env);
  }
}
