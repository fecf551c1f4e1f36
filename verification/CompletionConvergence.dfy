/**
 A completion that nothing disturbs succeeds, unless its last call comes after the primary expiry:
 then it answers with a final conflict over a verified mirror row.
 */
module CompletionConvergence {
  import opened Results
  import opened ObjectVerification
  import opened Persistence
  import opened Protocol
  import opened IntakeSystem
  import opened Invariants
  import opened Preservation
  import opened Safety
  import opened Theorems
  import opened CompletionFrame
  import opened SoloRuns
  import Convergence

  /** Before the object: the row's own subject asks with the declared digest, and the calls answer. */
  predicate Asks(row: Row, request: Request, env: Environment) {
    && request.CompleteRequest? && Conforms(request)
    && request.uploadId == row.id
    && row.payload.UploadIntentCreate? && row.progress.Uploading?
    && request.sha256 == row.payload.sha256
    && env.contractAccepts && Possible(env)
    && Authenticate(request, env.bearer, env.proof) == Ok(row.subject)
    && env.readPrimary.fault == env.readMirror.fault == env.verifyMirror.fault == env.verifyPrimary.fault == NoFault
  }

  /** The first three calls are executed before the expiry of the row they are about. */
  predicate InTime(row: Row, twin: Row, env: Environment) {
    && row.stamp > env.readPrimary.databaseNow && twin.stamp > env.readMirror.databaseNow
    && twin.stamp > env.verifyMirror.databaseNow
  }

  /** So is the last one. */
  predicate LastInTime(row: Row, env: Environment) {
    row.stamp > env.verifyPrimary.databaseNow
  }

  function WithVerified(db: Database, k: RowKey, now: int): Database
    requires k in db.rows && db.rows[k].progress.Uploading?
  {
    db.(rows := db.rows[k := VerifiedRow(db.rows[k], now)])
  }

  /** How a completion ends that is in time but for its last call. */
  function EndOfCompletion(p: Database, m: Database, k: RowKey, env: Environment): Ending
    requires k in p.rows && p.rows[k].progress.Uploading? && k in m.rows && m.rows[k].progress.Uploading?
  {
    var mirror := WithVerified(m, k, env.verifyMirror.databaseNow);
    if LastInTime(p.rows[k], env)
    then Ending(WithVerified(p, k, env.verifyPrimary.databaseNow), mirror, UploadCompleted(p.rows[k].id))
    else Ending(p, mirror, Failed(CONFLICT))
  }

  lemma OpenRowIsFound(rows: Tables, k: RowKey, now: int)
    requires UniqueIds(rows) && k in rows && k.kind == Upload && HasCoherentStatus(rows[k])
    requires rows[k].payload.UploadIntentCreate? && rows[k].stamp > now
    ensures FindPendingUpload(rows, rows[k].id, rows[k].subject, now) == Ok(PendingFrom(rows[k]))
  {
    var open := OpenUploads(rows, rows[k].id, rows[k].subject, now);
    assert k in open;
    forall l | l in open ensures l == k {
    }
  }

  /** What the two databases must hold: the upload under one key, open, with one identity and owner. */
  ghost predicate Twins(p: Tables, m: Tables, k: RowKey) {
    && UniqueIds(p) && UniqueIds(m)
    && k in p && k in m && k.kind == Upload
    && p[k].payload.UploadIntentCreate? && HasCoherentStatus(p[k])
    && m[k].payload.UploadIntentCreate? && HasCoherentStatus(m[k])
    && m[k].subject == p[k].subject
    && SameUploadIdentity(PendingFrom(p[k]), PendingFrom(m[k]))
  }

  lemma BothRowsAreRead(c: Crypto, p: Database, m: Database, k: RowKey, request: Request, env: Environment)
    requires Twins(p.rows, m.rows, k) && Asks(p.rows[k], request, env) && InTime(p.rows[k], m.rows[k], env)
    ensures Solo(c, p, m, request, Received, env)
         == Solo(c, p, m, request, IdentityMatched(p.rows[k].subject, PendingFrom(p.rows[k])), env)
  {
    hide Solo, FindPendingUpload, Authenticate, Conforms;
    var subject, upload := p.rows[k].subject, PendingFrom(p.rows[k]);
    SoloStep(c, p, m, request, Received, env);
    SoloStep(c, p, m, request, Validated, env);
    SoloStep(c, p, m, request, Identified(subject), env);
    OpenRowIsFound(p.rows, k, env.readPrimary.databaseNow);
    SoloStep(c, p, m, request, PrimaryRead(subject, upload), env);
    OpenRowIsFound(m.rows, k, env.readMirror.databaseNow);
  }

  lemma BothRowsAreVerified(c: Crypto, p: Database, m: Database, k: RowKey, request: Request, env: Environment)
    requires Twins(p.rows, m.rows, k) && Asks(p.rows[k], request, env) && InTime(p.rows[k], m.rows[k], env)
    ensures Solo(c, p, m, request, ObjectVerified(p.rows[k].subject, PendingFrom(p.rows[k])), env)
         == EndOfCompletion(p, m, k, env)
  {
    hide Solo, VerifyIn, Authenticate, Conforms, UniqueIds;
    var subject, upload := p.rows[k].subject, PendingFrom(p.rows[k]);
    var answered := Done(UploadCompleted(request.uploadId));
    var mirror := WithVerified(m, k, env.verifyMirror.databaseNow);
    var ending := EndOfCompletion(p, m, k, env);
    SoloStep(c, p, m, request, ObjectVerified(subject, upload), env);
    VerificationAnswer(m, request, subject, upload, env.verifyMirror, k, MirrorVerified(subject, upload));
    SoloStep(c, p, mirror, request, MirrorVerified(subject, upload), env);
    VerificationAnswer(p, request, subject, upload, env.verifyPrimary, k, answered);
    AnswerEnds(c, ending.primary, mirror, request, ending.response, env);
  }

  /** The whole completion, over any two databases that hold the upload. */
  lemma CompletionEnds(c: Crypto, p: Database, m: Database, k: RowKey, request: Request, env: Environment)
    requires Twins(p.rows, m.rows, k) && Asks(p.rows[k], request, env) && InTime(p.rows[k], m.rows[k], env)
    requires Verified(c.sha256, PendingFrom(p.rows[k]), env.download)
    ensures Solo(c, p, m, request, Received, env)
         == EndOfCompletion(p, m, k, env)
  {
    BothRowsAreRead(c, p, m, k, request, env);
    BothRowsAreVerified(c, p, m, k, request, env);
    hide Solo, Verified, Twins, Authenticate, Conforms, InTime, EndOfCompletion;
    SoloStep(c, p, m, request, IdentityMatched(p.rows[k].subject, PendingFrom(p.rows[k])), env);
  }

  lemma ReachableTwins(s: System, k: RowKey)
    requires Reachable(s) && k in s.primary.rows && k in s.mirror.rows && k.kind == Upload
    requires s.mirror.rows[k].subject == s.primary.rows[k].subject
    requires !Collision(s.crypto, s.mirror.rows[k].payload, s.primary.rows[k].payload)
    ensures Twins(s.primary.rows, s.mirror.rows, k)
  {
    CrossStoreAgreement(s, k);
    UploadIdentityAgrees(s, k, k);
    ReachableInv(s);
    StoresParts(s.crypto, s.primary, s.mirror, s.log);
    hide Inv, StoresOk, TablesOk, UniqueIds, OutboxOk, MirrorAgrees, Collision, SameUploadIdentity, Reachable,
         HasCoherentStatus;
    OpenRow(s.crypto, s.primary.rows, k);
    OpenRow(s.crypto, s.mirror.rows, k);
  }

  /** The upload is in both databases, and this completion of it is over the declared object. */
  ghost predicate Completes(s: System, k: RowKey, request: Request, env: Environment) {
    && k in s.primary.rows && k in s.mirror.rows && k.kind == Upload
    && s.mirror.rows[k].subject == s.primary.rows[k].subject
    && !Collision(s.crypto, s.mirror.rows[k].payload, s.primary.rows[k].payload)
    && Asks(s.primary.rows[k], request, env)
    && InTime(s.primary.rows[k], s.mirror.rows[k], env)
    && Verified(s.crypto.sha256, PendingFrom(s.primary.rows[k]), env.download)
  }

  lemma CompletesOver(s: System, k: RowKey, request: Request, env: Environment)
    requires Reachable(s) && Completes(s, k, request, env)
    ensures Twins(s.primary.rows, s.mirror.rows, k)
    ensures Solo(s.crypto, s.primary, s.mirror, request, Received, env) == EndOfCompletion(s.primary, s.mirror, k, env)
  {
    ReachableTwins(s, k);
    CompletionEnds(s.crypto, s.primary, s.mirror, k, request, env);
  }

  /**
   Completion converges: in every reachable state with the upload in both databases under one
   subject, a completion by that subject, in time and over the declared object, ends in success with
   both rows verified and nothing else changed.
   */
  lemma CompletionConverges(s: System, i: nat, k: RowKey, request: Request, env: Environment) returns (t: System)
    requires Reachable(s) && i !in s.attempts
    requires Completes(s, k, request, env) && LastInTime(s.primary.rows[k], env)
    ensures Reachable(t) && LeadsTo(s, t) && t.crypto == s.crypto && t.attempts.Keys == s.attempts.Keys + {i}
    ensures t.attempts[i].stage == Done(UploadCompleted(request.uploadId))
    ensures s.primary.rows[k].progress.Uploading? && s.mirror.rows[k].progress.Uploading?
    ensures t.primary == WithVerified(s.primary, k, env.verifyPrimary.databaseNow)
    ensures t.mirror == WithVerified(s.mirror, k, env.verifyMirror.databaseNow)
  {
    CompletesOver(s, k, request, env);
    hide Solo, Reachable, LeadsTo, InTime, Verified, SameUploadIdentity, UniqueIds, Collision;
    t := EndingIsReachable(s, i, request, env);
  }

  /**
   The same completion with a late last call, over a mirror row that was not verified: it ends with a
   final conflict and has changed the mirror. So the frame of the create handlers does fail here.
   */
  lemma LateCompletionLeavesMirrorVerified(s: System, i: nat, k: RowKey, request: Request, env: Environment)
    returns (t: System)
    requires Reachable(s) && i !in s.attempts
    requires Completes(s, k, request, env) && !LastInTime(s.primary.rows[k], env)
    requires !IsVerified(s.mirror.rows[k])
    ensures Reachable(t) && LeadsTo(s, t) && i in t.attempts && t.attempts[i].request == request
    ensures t.attempts[i].stage == Done(Failed(CONFLICT)) && !CONFLICT.retryable && t.attempts[i].wrote
    ensures k in t.mirror.rows && IsVerified(t.mirror.rows[k]) && t.primary == s.primary
  {
    CompletesOver(s, k, request, env);
    hide Solo, Reachable, LeadsTo, InTime, Verified, SameUploadIdentity, UniqueIds, Collision;
    t := EndingIsReachable(s, i, request, env);
    VerifyingChangesExactly(s.mirror.rows[k], env.verifyMirror.databaseNow);
    assert t.mirror.rows[k] != s.mirror.rows[k];
  }

  // ----- among other attempts -----------------------------------------------------------------------

  /** The stage lies on the way to success: everything read so far was the upload under `k`. */
  ghost predicate OnCourse(p: Tables, m: Tables, request: Request, stage: Stage, k: RowKey) {
    && Twins(p, m, k)
    && request.CompleteRequest? && Conforms(request)
    && request.uploadId == p[k].id && request.sha256 == p[k].payload.sha256
    && match stage
       case Received => true
       case Validated => true
       case Identified(subject) => subject == p[k].subject
       case PrimaryRead(subject, upload) => subject == p[k].subject && upload == PendingFrom(p[k])
       case IdentityMatched(subject, upload) => subject == p[k].subject && upload == PendingFrom(p[k])
       case ObjectVerified(subject, upload) => subject == p[k].subject && upload == PendingFrom(p[k])
       case MirrorVerified(subject, upload) =>
         subject == p[k].subject && upload == PendingFrom(p[k]) && IsVerified(m[k])
       case Done(response) => response == UploadCompleted(p[k].id) && IsVerified(p[k]) && IsVerified(m[k])
       case _ => false
  }

  /** Nothing fails: the owner is identified, calls are answered in time, the declared object is there. */
  ghost predicate Undisturbed(
      c: Crypto, p: Tables, m: Tables, request: Request, stage: Stage, event: Event, k: RowKey)
  {
    && k in p && k in m && p[k].payload.UploadIntentCreate? && p[k].progress.Uploading?
    && Enabled(request, stage, event)
    && match event
       case ContractVerdict(accepts) => accepts
       case Identity(bearer, proof) => Authenticate(request, bearer, proof) == Ok(p[k].subject)
       case DatabaseCall(call) =>
         && call.fault == NoFault
         && call.databaseNow < if stage.Identified? || stage.MirrorVerified? then p[k].stamp else m[k].stamp
       case ObjectDownload(download) => Verified(c.sha256, PendingFrom(p[k]), download)
       case _ => false
  }

  lemma CourseStays(p: Tables, m: Tables, p': Tables, m': Tables, request: Request, stage: Stage, k: RowKey)
    requires OnCourse(p, m, request, stage, k)
    requires RowsGrow(p, p') && RowsGrow(m, m') && UniqueIds(p') && UniqueIds(m')
    ensures OnCourse(p', m', request, stage, k)
    ensures p'[k].stamp == p[k].stamp && m'[k].stamp == m[k].stamp && p'[k].subject == p[k].subject
    ensures PendingFrom(p'[k]) == PendingFrom(p[k])
  {
    assert RowKept(p[k], p'[k]) && RowKept(m[k], m'[k]);
    hide UniqueIds, RowsGrow, Conforms;
  }

  lemma ReadingCourse(c: Crypto, p: Database, m: Database, request: Request, stage: Stage, event: Event, k: RowKey)
    requires StageFits(request, stage) && OnCourse(p.rows, m.rows, request, stage, k)
    requires Undisturbed(c, p.rows, m.rows, request, stage, event, k)
    requires !stage.ObjectVerified? && !stage.MirrorVerified?
    ensures var move := Advance(c, p, m, request, stage, event);
            && move.primary == p && move.mirror == m
            && OnCourse(p.rows, m.rows, request, move.stage, k)
            && Ahead(move.stage) + 1 == Ahead(stage)
  {
    hide FindPendingUpload, Authenticate, Conforms, UniqueIds, Verified, Verdict, StorePrimary, StoreMirror,
         RecordFailure, Acknowledge, VerifyIn, BindContext, FinalResponse;
    if stage.Identified? {
      OpenRowIsFound(p.rows, k, event.call.databaseNow);
    } else if stage.PrimaryRead? {
      OpenRowIsFound(m.rows, k, event.call.databaseNow);
    } else if stage.IdentityMatched? {
      MatchingObjectPasses(c.sha256, stage.primary, event.download);
    }
  }

  lemma MatchingObjectPasses(hash: HashFunction, upload: PendingUpload, download: Download)
    requires Verified(hash, upload, download)
    ensures Verdict(hash, upload, download) == Ok(())
  {
  }

  lemma VerifyingCourse(
      c: Crypto, p: Database, m: Database, request: Request, stage: Stage, event: Event, k: RowKey)
    requires StageFits(request, stage) && OnCourse(p.rows, m.rows, request, stage, k)
    requires Undisturbed(c, p.rows, m.rows, request, stage, event, k)
    requires stage.ObjectVerified? || stage.MirrorVerified?
    ensures var move := Advance(c, p, m, request, stage, event);
            && move.primary == (if stage.MirrorVerified? then WithVerified(p, k, event.call.databaseNow) else p)
            && move.mirror == (if stage.ObjectVerified? then WithVerified(m, k, event.call.databaseNow) else m)
            && move.stage == (if stage.ObjectVerified? then MirrorVerified(stage.subject, stage.primary)
                              else Done(UploadCompleted(request.uploadId)))
  {
    hide Conforms, UniqueIds, VerifyIn;
    if stage.ObjectVerified? {
      VerificationAnswer(m, request, stage.subject, stage.primary, event.call, k,
                         MirrorVerified(stage.subject, stage.primary));
    } else {
      VerificationAnswer(p, request, stage.subject, stage.primary, event.call, k,
                         Done(UploadCompleted(request.uploadId)));
    }
  }

  lemma VerifiedCourse(
      p: Tables, m: Tables, p': Tables, m': Tables, request: Request, stage: Stage, k: RowKey, now: int)
    requires OnCourse(p, m, request, stage, k) && UniqueIds(p') && UniqueIds(m')
    requires stage.ObjectVerified? ==> p' == p && m' == m[k := VerifiedRow(m[k], now)]
    requires stage.MirrorVerified? ==> m' == m && p' == p[k := VerifiedRow(p[k], now)]
    requires stage.ObjectVerified? || stage.MirrorVerified?
    ensures OnCourse(p', m', request,
                     if stage.ObjectVerified? then MirrorVerified(stage.subject, stage.primary)
                     else Done(UploadCompleted(request.uploadId)), k)
  {
    hide UniqueIds, Conforms;
  }

  lemma IdsInInv(s: System)
    requires Inv(s)
    ensures UniqueIds(s.primary.rows) && UniqueIds(s.mirror.rows)
  {
    StoresPartsOf(s);
  }

  /** The attempt is on course in this state. */
  ghost predicate Completing(s: System, i: nat, k: RowKey) {
    i in s.attempts && OnCourse(s.primary.rows, s.mirror.rows, s.attempts[i].request, s.attempts[i].stage, k)
  }

  lemma CourseStep(c: Crypto, p: Database, m: Database, request: Request, stage: Stage, event: Event, k: RowKey)
    requires StageFits(request, stage) && OnCourse(p.rows, m.rows, request, stage, k)
    requires Undisturbed(c, p.rows, m.rows, request, stage, event, k)
    requires var move := Advance(c, p, m, request, stage, event);
             UniqueIds(move.primary.rows) && UniqueIds(move.mirror.rows)
    ensures var move := Advance(c, p, m, request, stage, event);
            && OnCourse(move.primary.rows, move.mirror.rows, request, move.stage, k)
            && Ahead(move.stage) + 1 == Ahead(stage)
  {
    var move := Advance(c, p, m, request, stage, event);
    if stage.ObjectVerified? || stage.MirrorVerified? {
      UndisturbedIsEnabled(c, p.rows, m.rows, request, stage, event, k);
      TwinsHold(p.rows, m.rows, request, stage, k);
      hide Advance, OnCourse, Undisturbed, UniqueIds, StageFits, Enabled;
      VerifyingCourse(c, p, m, request, stage, event, k);
      VerifiedCourse(p.rows, m.rows, move.primary.rows, move.mirror.rows, request, stage, k, event.call.databaseNow);
    } else {
      hide Advance, OnCourse, Undisturbed, UniqueIds, StageFits, Enabled;
      ReadingCourse(c, p, m, request, stage, event, k);
    }
  }

  lemma TwinsHold(p: Tables, m: Tables, request: Request, stage: Stage, k: RowKey)
    requires OnCourse(p, m, request, stage, k)
    ensures request.CompleteRequest? && k in p && p[k].progress.Uploading? && k in m && m[k].progress.Uploading?
  {
    hide UniqueIds, Conforms;
  }

  lemma OwnCompletionStep(s: System, i: nat, event: Event, k: RowKey)
    requires Inv(s) && Completing(s, i, k)
    requires Undisturbed(s.crypto, s.primary.rows, s.mirror.rows, s.attempts[i].request, s.attempts[i].stage, event, k)
    ensures Completing(Apply(s, Act(i, event)), i, k)
    ensures Ahead(Apply(s, Act(i, event)).attempts[i].stage) + 1 == Ahead(s.attempts[i].stage)
  {
    var a, t := s.attempts[i], Apply(s, Act(i, event));
    assert AttemptOk(s, i);
    hide Inv, StageOk, StageFits, Advance, Apply, Undisturbed, OnCourse, UniqueIds, Enabled;
    Convergence.StageOkFits(s.crypto, s.primary, s.mirror, s.log, a.request, a.stage, a.wrote);
    UndisturbedIsEnabled(s.crypto, s.primary.rows, s.mirror.rows, a.request, a.stage, event, k);
    ActsAlone(s, i, event);
    ApplyKeepsInv(s, Act(i, event));
    IdsInInv(t);
    CourseStep(s.crypto, s.primary, s.mirror, a.request, a.stage, event, k);
  }

  lemma UndisturbedIsEnabled(
      c: Crypto, p: Tables, m: Tables, request: Request, stage: Stage, event: Event, k: RowKey)
    requires Undisturbed(c, p, m, request, stage, event, k)
    ensures Enabled(request, stage, event)
    ensures stage.ObjectVerified? || stage.MirrorVerified? ==> event.DatabaseCall?
  {
  }

  /** Every step attempt `i` takes in the run is undisturbed; the others are arbitrary. */
  ghost predicate UndisturbedFor(s: System, actions: seq<Action>, i: nat, k: RowKey) {
    actions == []
    || (var n := |actions| - 1;
        var before := Run(s, actions[..n]);
        && UndisturbedFor(s, actions[..n], i, k)
        && (Convergence.IsStepOf(actions[n], i) ==>
              && i in before.attempts
              && Undisturbed(before.crypto, before.primary.rows, before.mirror.rows, before.attempts[i].request,
                             before.attempts[i].stage, actions[n].event, k)))
  }

  lemma OtherStepsKeepCourse(s: System, action: Action, i: nat, k: RowKey)
    requires Inv(s) && Completing(s, i, k) && !Convergence.IsStepOf(action, i)
    ensures Completing(Apply(s, action), i, k) && Apply(s, action).attempts[i] == s.attempts[i]
  {
    hide Inv, Apply, OnCourse, UniqueIds, RowsGrow;
    var t := Apply(s, action);
    Convergence.OthersLeaveAttempt(s, action, i);
    ApplyKeepsInv(s, action);
    IdsInInv(t);
    CourseStays(s.primary.rows, s.mirror.rows, t.primary.rows, t.mirror.rows, s.attempts[i].request,
                s.attempts[i].stage, k);
  }

  /** Along any interleaving, each undisturbed step of a completion brings it one step nearer. */
  lemma {:induction false} CompletionAdvances(s: System, actions: seq<Action>, i: nat, k: RowKey)
    requires Inv(s) && Completing(s, i, k) && UndisturbedFor(s, actions, i, k)
    ensures Completing(Run(s, actions), i, k)
    ensures Ahead(Run(s, actions).attempts[i].stage) + Convergence.OwnSteps(actions, i) == Ahead(s.attempts[i].stage)
  {
    if actions != [] {
      var n := |actions| - 1;
      var before, action := Run(s, actions[..n]), actions[n];
      CompletionAdvances(s, actions[..n], i, k);
      RunKeepsInv(s, actions[..n]);
      hide Inv, OnCourse, Undisturbed, Apply;
      if Convergence.IsStepOf(action, i) {
        OwnCompletionStep(before, i, action.event, k);
      } else {
        OtherStepsKeepCourse(before, action, i, k);
      }
    }
  }

  /**
   Completion convergence under interleaving: from every reachable state with the upload in both
   databases under one subject, a completion whose seven own steps are undisturbed and in time ends in
   success with both rows verified, whatever other attempts do in between.
   */
  lemma CompletionConvergesAmongOthers(s: System, i: nat, request: Request, k: RowKey, actions: seq<Action>)
    requires Reachable(s) && i !in s.attempts
    requires k in s.primary.rows && k in s.mirror.rows && k.kind == Upload
    requires s.mirror.rows[k].subject == s.primary.rows[k].subject
    requires !Collision(s.crypto, s.mirror.rows[k].payload, s.primary.rows[k].payload)
    requires request.CompleteRequest? && Conforms(request) && request.uploadId == s.primary.rows[k].id
    requires s.primary.rows[k].payload.UploadIntentCreate? && request.sha256 == s.primary.rows[k].payload.sha256
    requires UndisturbedFor(Apply(s, Arrive(i, request)), actions, i, k) && Convergence.OwnSteps(actions, i) == 7
    ensures var t := Run(Apply(s, Arrive(i, request)), actions);
            && i in t.attempts && t.attempts[i].stage == Done(UploadCompleted(request.uploadId))
            && k in t.primary.rows && IsVerified(t.primary.rows[k])
            && k in t.mirror.rows && IsVerified(t.mirror.rows[k])
  {
    hide Inv, Run, Apply, UndisturbedFor, Twins, Reachable, Collision, Conforms, Completing;
    ReachableTwins(s, k);
    ReachableInv(s);
    CompletionArrives(s, i, request, k);
    CompletionAdvances(Apply(s, Arrive(i, request)), actions, i, k);
    CompletionIsOver(Run(Apply(s, Arrive(i, request)), actions), i, k);
    RequestStaysInRun(Apply(s, Arrive(i, request)), actions, i);
  }

  lemma CompletionArrives(s: System, i: nat, request: Request, k: RowKey)
    requires Inv(s) && i !in s.attempts && Twins(s.primary.rows, s.mirror.rows, k)
    requires request.CompleteRequest? && Conforms(request)
    requires request.uploadId == s.primary.rows[k].id && request.sha256 == s.primary.rows[k].payload.sha256
    ensures var start := Apply(s, Arrive(i, request));
            && Inv(start) && Completing(start, i, k) && i in start.attempts
            && start.attempts[i].request == request && Ahead(start.attempts[i].stage) == 7
  {
    hide Inv, Twins, Conforms, OnCourse;
    ApplyKeepsInv(s, Arrive(i, request));
    CourseBegins(s.primary.rows, s.mirror.rows, request, k);
  }

  lemma CompletionIsOver(t: System, i: nat, k: RowKey)
    requires Completing(t, i, k) && Ahead(t.attempts[i].stage) == 0
    ensures t.attempts[i].request.CompleteRequest?
    ensures t.attempts[i].stage == Done(UploadCompleted(t.attempts[i].request.uploadId))
    ensures k in t.primary.rows && IsVerified(t.primary.rows[k])
    ensures k in t.mirror.rows && IsVerified(t.mirror.rows[k])
  {
    hide OnCourse;
    CourseIsOver(t.primary.rows, t.mirror.rows, t.attempts[i].request, t.attempts[i].stage, k);
  }

  lemma CourseBegins(p: Tables, m: Tables, request: Request, k: RowKey)
    requires Twins(p, m, k) && request.CompleteRequest? && Conforms(request)
    requires request.uploadId == p[k].id && request.sha256 == p[k].payload.sha256
    ensures OnCourse(p, m, request, Received, k) && Ahead(Received) == 7
  {
    hide Twins, Conforms;
  }

  lemma CourseIsOver(p: Tables, m: Tables, request: Request, stage: Stage, k: RowKey)
    requires OnCourse(p, m, request, stage, k) && Ahead(stage) == 0
    ensures request.CompleteRequest? && stage == Done(UploadCompleted(request.uploadId))
    ensures k in p && IsVerified(p[k]) && k in m && IsVerified(m[k])
  {
    hide UniqueIds, Conforms;
  }

  lemma {:induction false} RequestStaysInRun(s: System, actions: seq<Action>, i: nat)
    requires i in s.attempts
    ensures i in Run(s, actions).attempts && Run(s, actions).attempts[i].request == s.attempts[i].request
  {
    if actions != [] {
      var n := |actions| - 1;
      RequestStaysInRun(s, actions[..n], i);
      hide Apply;
      Convergence.RequestStays(Run(s, actions[..n]), actions[n], i);
    }
  }
}
