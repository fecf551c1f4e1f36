/**
 Any number of requests in flight over one primary and one mirror database, interleaved in any
 order, with any call failing before or after its commit and any request dying at any stage.
 */
module IntakeSystem {
  import opened Results
  import opened Persistence
  import opened Protocol

  /** `wrote` records whether a step of this attempt has changed either database. */
  datatype Attempt = Attempt(request: Request, stage: Stage, wrote: bool)

  datatype System = System(
    crypto: Crypto,
    primary: Database,
    mirror: Database,
    attempts: map<nat, Attempt>,
    log: seq<Note>)

  datatype Action =
    | Arrive(attempt: nat, request: Request)
    | Act(attempt: nat, event: Event)

  const EMPTY_DATABASE: Database := Database(map[], [])

  function Initial(c: Crypto): System {
    System(c, EMPTY_DATABASE, EMPTY_DATABASE, map[], [])
  }

  predicate CanAct(s: System, i: nat, event: Event) {
    && i in s.attempts
    && StageFits(s.attempts[i].request, s.attempts[i].stage)
    && Enabled(s.attempts[i].request, s.attempts[i].stage, event)
  }

  ghost function MoveOf(s: System, i: nat, event: Event): Move
    requires CanAct(s, i, event)
  {
    Advance(s.crypto, s.primary, s.mirror, s.attempts[i].request, s.attempts[i].stage, event)
  }

  function Extended(log: seq<Note>, note: Option<Note>): seq<Note> {
    if note.Some? then log + [note.value] else log
  }

  /** The state after an action; an action that is not possible changes nothing. */
  ghost function Apply(s: System, action: Action): System {
    match action
    case Arrive(i, request) =>
      if i in s.attempts then s
      else s.(attempts := s.attempts[i := Attempt(request, Received, false)])
    case Act(i, event) =>
      if !CanAct(s, i, event) then s
      else
        var move := MoveOf(s, i, event);
        var wrote := s.attempts[i].wrote || move.primary != s.primary || move.mirror != s.mirror;
        System(s.crypto, move.primary, move.mirror,
               s.attempts[i := Attempt(s.attempts[i].request, move.stage, wrote)],
               Extended(s.log, move.note))
  }

  /** What one attempt's step does to the databases, and that it stays the same request. */
  lemma ActsAlone(s: System, i: nat, event: Event)
    requires CanAct(s, i, event)
    ensures var t, move := Apply(s, Act(i, event)), MoveOf(s, i, event);
            && t.primary == move.primary && t.mirror == move.mirror && t.crypto == s.crypto
            && t.attempts.Keys == s.attempts.Keys && t.attempts[i].request == s.attempts[i].request
            && t.attempts[i].wrote == (s.attempts[i].wrote || move.primary != s.primary || move.mirror != s.mirror)
            && t.attempts[i].stage == move.stage
  {
    hide Advance;
  }

  ghost function Run(s: System, actions: seq<Action>): System {
    if actions == [] then s else Apply(Run(s, actions[..|actions| - 1]), actions[|actions| - 1])
  }

  ghost predicate Reachable(s: System) {
    exists actions :: Run(Initial(s.crypto), actions) == s
  }

  ghost predicate LeadsTo(s: System, t: System) {
    exists actions :: Run(s, actions) == t
  }

  lemma {:induction false} RunKeepsCrypto(s: System, actions: seq<Action>)
    ensures Run(s, actions).crypto == s.crypto
  {
    if actions != [] {
      RunKeepsCrypto(s, actions[..|actions| - 1]);
    }
  }

  /** Running on from where a run stopped is one longer run. */
  lemma {:induction false} RunConcatenates(s: System, first: seq<Action>, second: seq<Action>)
    ensures Run(Run(s, first), second) == Run(s, first + second)
  {
    if second == [] {
      assert first + second == first;
    } else {
      var n := |second| - 1;
      RunConcatenates(s, first, second[..n]);
      assert (first + second)[..|first + second| - 1] == first + second[..n];
    }
  }

  lemma ReachableRunsOn(s: System, actions: seq<Action>)
    requires Reachable(s)
    ensures Reachable(Run(s, actions))
  {
    var before :| Run(Initial(s.crypto), before) == s;
    RunConcatenates(Initial(s.crypto), before, actions);
    RunKeepsCrypto(s, actions);
  }
}
