/** One request run from arrival to answer without interleaving, as a fold of protocol steps. */
module SoloRuns {
  import opened Results
  import opened ObjectKeys
  import opened ObjectVerification
  import opened Persistence
  import opened Protocol
  import opened IntakeSystem
  import Auth = Authorization

  /** What every call of one request will meet. */
  datatype Environment = Environment(
    contractAccepts: bool,
    bearer: Result<Option<string>, Auth.AuthError>,
    proof: Result<(), ExternalError>,
    freshId: Uuid,
    storePrimary: Call,
    storeMirror: Call,
    updateOutbox: Call,
    signing: Result<(), ExternalError>,
    readPrimary: Call,
    readMirror: Call,
    download: Download,
    verifyMirror: Call,
    verifyPrimary: Call)

  /** The signing call fails with transport or response errors only. */
  predicate Possible(env: Environment) {
    env.signing.Err? ==> env.signing.error in {Unavailable, InvalidResponse}
  }

  function EventFor(env: Environment, request: Request, stage: Stage): Event {
    match stage
    case Received => ContractVerdict(env.contractAccepts)
    case Validated => Identity(env.bearer, env.proof)
    case Identified(_) => if request.CreateRequest? then FreshId(env.freshId) else DatabaseCall(env.readPrimary)
    case Bound(_) => DatabaseCall(env.storePrimary)
    case PrimaryStored(_, _) => DatabaseCall(env.storeMirror)
    case MirrorRefused(_, _) => DatabaseCall(env.updateOutbox)
    case MirrorAccepted(_, _) => DatabaseCall(env.updateOutbox)
    case Acknowledged(_, _) => Respond(env.signing)
    case PrimaryRead(_, _) => DatabaseCall(env.readMirror)
    case IdentityMatched(_, _) => ObjectDownload(env.download)
    case ObjectVerified(_, _) => DatabaseCall(env.verifyMirror)
    case MirrorVerified(_, _) => DatabaseCall(env.verifyPrimary)
    case Done(_) => Crash
    case Crashed => Crash
  }

  /** How many steps an undisturbed request can still take. */
  function Ahead(stage: Stage): nat {
    match stage
    case Received => 7
    case Validated => 6
    case Identified(_) => 5
    case Bound(_) => 4
    case PrimaryStored(_, _) => 3
    case MirrorRefused(_, _) => 1
    case MirrorAccepted(_, _) => 2
    case Acknowledged(_, _) => 1
    case PrimaryRead(_, _) => 4
    case IdentityMatched(_, _) => 3
    case ObjectVerified(_, _) => 2
    case MirrorVerified(_, _) => 1
    case Done(_) => 0
    case Crashed => 0
  }

  lemma StepsGoForward(c: Crypto, p: Database, m: Database, request: Request, stage: Stage, event: Event)
    requires StageFits(request, stage) && Enabled(request, stage, event) && !event.Crash?
    ensures var next := Advance(c, p, m, request, stage, event).stage;
            StageFits(request, next) && Ahead(next) < Ahead(stage) && !next.Crashed?
  {
    hide Store, MarkMirrored, RecordMirrorFailure, ChargeNote, FindPendingUpload, Verdict, VerifyCall, BindContext,
         Authenticate, Conforms;
  }

  datatype Ending = Ending(primary: Database, mirror: Database, response: Response)

  /** The request runs alone until it answers. */
  ghost function Solo(c: Crypto, p: Database, m: Database, request: Request, stage: Stage, env: Environment): Ending
    requires StageFits(request, stage) && Possible(env) && !stage.Crashed?
    decreases Ahead(stage)
  {
    if stage.Done? then Ending(p, m, stage.response)
    else
      var event := EventFor(env, request, stage);
      StepsGoForward(c, p, m, request, stage, event);
      var move := Advance(c, p, m, request, stage, event);
      Solo(c, move.primary, move.mirror, request, move.stage, env)
  }

  /** One step of a solo run, without looking into the rest of it. */
  lemma SoloStep(c: Crypto, p: Database, m: Database, request: Request, stage: Stage, env: Environment)
    requires StageFits(request, stage) && Possible(env) && !stage.Crashed? && !stage.Done?
    ensures var event := EventFor(env, request, stage);
            && Enabled(request, stage, event)
            && var move := Advance(c, p, m, request, stage, event);
               && StageFits(request, move.stage) && !move.stage.Crashed?
               && Solo(c, p, m, request, stage, env) == Solo(c, move.primary, move.mirror, request, move.stage, env)
  {
    StepsGoForward(c, p, m, request, stage, EventFor(env, request, stage));
    hide Advance;
  }

  lemma AnswerEnds(c: Crypto, p: Database, m: Database, request: Request, response: Response, env: Environment)
    requires Possible(env)
    ensures Solo(c, p, m, request, Done(response), env) == Ending(p, m, response)
  {
  }

  /** A solo run is a run of the intake system in which only this attempt moves. */
  lemma {:induction false} SoloIsARun(s: System, i: nat, env: Environment) returns (actions: seq<Action>)
    requires i in s.attempts && StageFits(s.attempts[i].request, s.attempts[i].stage) && Possible(env)
    requires !s.attempts[i].stage.Crashed?
    ensures var t := Run(s, actions);
            var ending := Solo(s.crypto, s.primary, s.mirror, s.attempts[i].request, s.attempts[i].stage, env);
            && t.primary == ending.primary && t.mirror == ending.mirror && t.crypto == s.crypto
            && t.attempts.Keys == s.attempts.Keys && t.attempts[i].stage == Done(ending.response)
            && t.attempts[i].request == s.attempts[i].request
            && (s.attempts[i].wrote || t.primary != s.primary || t.mirror != s.mirror ==> t.attempts[i].wrote)
    decreases Ahead(s.attempts[i].stage)
  {
    var a := s.attempts[i];
    if a.stage.Done? {
      actions := [];
    } else {
      var event := EventFor(env, a.request, a.stage);
      SoloStep(s.crypto, s.primary, s.mirror, a.request, a.stage, env);
      StepsGoForward(s.crypto, s.primary, s.mirror, a.request, a.stage, event);
      hide Advance, Apply, Solo, Run;
      ActsAlone(s, i, event);
      var t := Apply(s, Act(i, event));
      var rest := SoloIsARun(t, i, env);
      actions := [Act(i, event)] + rest;
      RunOfOne(s, Act(i, event));
      RunConcatenates(s, [Act(i, event)], rest);
    }
  }

  /**
   Where a handler leaves the databases, run alone from a reachable state, is reachable: so every
   promise about reachable states holds there, and the answer is that of an attempt in it.
   */
  lemma EndingIsReachable(s: System, i: nat, request: Request, env: Environment) returns (t: System)
    requires Reachable(s) && i !in s.attempts && Possible(env)
    ensures Reachable(t) && LeadsTo(s, t)
    ensures var ending := Solo(s.crypto, s.primary, s.mirror, request, Received, env);
            && t.primary == ending.primary && t.mirror == ending.mirror && t.crypto == s.crypto
            && t.attempts.Keys == s.attempts.Keys + {i} && t.attempts[i].stage == Done(ending.response)
            && t.attempts[i].request == request
            && (t.primary != s.primary || t.mirror != s.mirror ==> t.attempts[i].wrote)
  {
    var start := Apply(s, Arrive(i, request));
    RunOfOne(s, Arrive(i, request));
    ReachableRunsOn(s, [Arrive(i, request)]);
    hide Solo, Run, Reachable;
    var actions := SoloIsARun(start, i, env);
    t := Run(start, actions);
    ReachableRunsOn(start, actions);
    RunConcatenates(s, [Arrive(i, request)], actions);
  }

  lemma RunOfOne(s: System, action: Action)
    ensures Run(s, [action]) == Apply(s, action)
  {
    hide Apply;
    assert [action][..0] == [];
    assert Run(s, []) == s;
  }
}
