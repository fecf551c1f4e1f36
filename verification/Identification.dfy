/** Whoever changes a database was identified before, in the same run, as the subject it acts for. */
module Identification {
  import opened Results
  import opened ObjectKeys
  import opened ObjectVerification
  import opened Persistence
  import opened Protocol
  import opened IntakeSystem
  import opened ClientAnswers

  /** The subject, or the absence of one, that an attempt at this stage acts for. */
  function ActsFor(stage: Stage): Option<Option<string>> {
    match stage
    case Received => None
    case Validated => None
    case Identified(subject) => Some(subject)
    case Bound(context) => Some(context.subject)
    case PrimaryStored(context, _) => Some(context.subject)
    case MirrorRefused(context, _) => Some(context.subject)
    case MirrorAccepted(context, _) => Some(context.subject)
    case Acknowledged(context, _) => Some(context.subject)
    case PrimaryRead(subject, _) => Some(subject)
    case IdentityMatched(subject, _) => Some(subject)
    case ObjectVerified(subject, _) => Some(subject)
    case MirrorVerified(subject, _) => Some(subject)
    case Done(_) => None
    case Crashed => None
  }

  /** The action presents an accepted bearer token, or no token and a verified public proof. */
  predicate Identifies(action: Action, i: nat, request: Request, subject: Option<string>) {
    && action.Act? && action.attempt == i && action.event.Identity?
    && action.event.bearer == Ok(subject)
    && (subject.None? ==> !IsReferral(request) && PublicProof(request).Some? && action.event.proof.Ok?)
  }

  ghost predicate IdentifiedIn(actions: seq<Action>, i: nat, request: Request, subject: Option<string>) {
    exists n :: 0 <= n < |actions| && Identifies(actions[n], i, request, subject)
  }

  lemma BindingKeepsSubject(c: Crypto, request: Request, subject: Option<string>, id: Uuid)
    requires request.CreateRequest?
    ensures var r := BindContext(c, request, subject, id); r.Ok? ==> r.value.subject == subject
  {
    hide RequestDigest;
  }

  /** A step keeps the subject or has just established it, and only a step with one changes anything. */
  lemma SubjectStep(c: Crypto, p: Database, m: Database, request: Request, stage: Stage, event: Event)
    requires StageFits(request, stage) && Enabled(request, stage, event)
    ensures var move := Advance(c, p, m, request, stage, event);
            && (ActsFor(move.stage).Some? ==>
                  || ActsFor(stage) == ActsFor(move.stage)
                  || (event.Identity?
                      && Authenticate(request, event.bearer, event.proof) == Ok(ActsFor(move.stage).value)))
            && (move.primary != p || move.mirror != m ==> ActsFor(stage).Some?)
  {
    hide Store, MarkMirrored, RecordMirrorFailure, ChargeNote, FindPendingUpload, Verdict, VerifyCall, BindContext,
         Authenticate, Conforms, FinalResponse;
    if stage.Identified? && request.CreateRequest? && event.FreshId? {
      BindingKeepsSubject(c, request, stage.subject, event.id);
    }
  }

  /** What the run so far says about the identity of attempt `i`. */
  ghost predicate Accounted(s: System, actions: seq<Action>, i: nat) {
    i in s.attempts ==>
      var a := s.attempts[i];
      && (ActsFor(a.stage).Some? ==> IdentifiedIn(actions, i, a.request, ActsFor(a.stage).value))
      && (a.wrote ==> exists subject :: IdentifiedIn(actions, i, a.request, subject))
  }

  lemma StaysIdentified(actions: seq<Action>, action: Action, i: nat, request: Request, subject: Option<string>)
    ensures IdentifiedIn(actions, i, request, subject) || Identifies(action, i, request, subject)
            ==> IdentifiedIn(actions + [action], i, request, subject)
  {
    hide Identifies;
    var longer := actions + [action];
    if IdentifiedIn(actions, i, request, subject) {
      var n :| 0 <= n < |actions| && Identifies(actions[n], i, request, subject);
      assert longer[n] == actions[n];
    }
    assert longer[|actions|] == action;
  }

  lemma AccountedStays(s: System, actions: seq<Action>, action: Action, i: nat)
    requires Accounted(s, actions, i)
    ensures Accounted(Apply(s, action), actions + [action], i)
  {
    hide Advance, StageFits, Enabled, IdentifiedIn, ActsFor;
    var t := Apply(s, action);
    forall request, subject
      ensures IdentifiedIn(actions, i, request, subject) || Identifies(action, i, request, subject)
              ==> IdentifiedIn(actions + [action], i, request, subject)
    {
      StaysIdentified(actions, action, i, request, subject);
    }
    if action.Act? && action.attempt == i && CanAct(s, i, action.event) {
      var a := s.attempts[i];
      if action.event.Identity? {
        IdentityExactly(a.request, action.event.bearer, action.event.proof);
      }
      SubjectStep(s.crypto, s.primary, s.mirror, a.request, a.stage, action.event);
    } else if i !in s.attempts {
      NewcomersActForNobody();
    }
  }

  lemma NewcomersActForNobody()
    ensures ActsFor(Received).None?
  {
  }

  /**
   In every run, an attempt that has changed a database was identified by an earlier action of that
   run, and whatever it does next it does for the subject so identified.
   */
  lemma {:induction false} WritersAreIdentified(c: Crypto, actions: seq<Action>, i: nat)
    ensures Accounted(Run(Initial(c), actions), actions, i)
  {
    if actions != [] {
      var n := |actions| - 1;
      WritersAreIdentified(c, actions[..n], i);
      hide Accounted, Apply;
      AccountedStays(Run(Initial(c), actions[..n]), actions[..n], actions[n], i);
      assert actions[..n] + [actions[n]] == actions;
    }
  }
}
