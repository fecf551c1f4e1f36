/** The invariant holds in every reachable state, and what grows never shrinks. */
module Safety {
  import opened Results
  import opened Hex
  import opened ObjectKeys
  import opened ObjectVerification
  import opened Persistence
  import opened Protocol
  import opened IntakeSystem
  import opened Invariants
  import opened Preservation
  import opened CompletionProofs
  import Auth = Authorization

  // ----- the steps before the first write ---------------------------------------------------------

  lemma BoundContextIsOk(c: Crypto, request: Request, subject: Option<string>, id: Uuid)
    requires request.CreateRequest? && Conforms(request)
    requires request.input.payload.ReferralCreate? ==> subject.Some?
    ensures var r := BindContext(c, request, subject, id);
            && (r.Ok? ==> ContextOk(c, request, r.value) && r.value.subject == subject)
            && (r.Err? ==> r.error == INVALID)
  {
  }

  lemma IdentityIsOk(
      request: Request, bearer: Result<Option<string>, Auth.AuthError>, proof: Result<(), ExternalError>)
    ensures var r := Authenticate(request, bearer, proof);
            && (r.Ok? && request.CreateRequest? && request.input.payload.ReferralCreate? ==> r.value.Some?)
            && (r.Err? ==> r.error.submissionId.None? && (r.error.retryable <==> r.error.status == 503))
  {
  }

  lemma EarlyStep(
      c: Crypto, p: Database, m: Database, log: seq<Note>, request: Request, stage: Stage, event: Event)
    requires stage.Received? || stage.Validated? || stage.Identified?
    requires StageOk(c, p, m, log, request, stage, false) && Enabled(request, stage, event)
    ensures var move := Advance(c, p, m, request, stage, event);
            && move.primary == p && move.mirror == m && move.note == None
            && StageOk(c, p, m, log, request, move.stage, false)
  {
    hide ReadPrimary, HasRow, ContextOk, BindContext;
    if stage.Validated? && event.Identity? {
      IdentityIsOk(request, event.bearer, event.proof);
    } else if stage.Identified? && request.CreateRequest? && event.FreshId? {
      BoundContextIsOk(c, request, stage.subject, event.id);
    } else if stage.Identified? && request.CompleteRequest? && event.DatabaseCall? {
      ReadPrimaryStage(c, p, m, log, request, stage.subject, event.call);
    }
  }

  // ----- the answer ------------------------------------------------------------------------------

  lemma AcknowledgedStep(
      c: Crypto, p: Database, m: Database, log: seq<Note>, request: Request, context: SubmissionContext, stored: Stored,
      event: Event, wrote: bool)
    requires StoresOk(c, p, m, log) && StageOk(c, p, m, log, request, Acknowledged(context, stored), wrote)
    requires Enabled(request, Acknowledged(context, stored), event) && event.Respond?
    ensures var move := Advance(c, p, m, request, Acknowledged(context, stored), event);
            && move.primary == p && move.mirror == m
            && StoresOk(c, p, m, Extended(log, move.note))
            && StageOk(c, p, m, Extended(log, move.note), request, move.stage, wrote)
  {
    hide StoresOk, Encode;
    var move := Advance(c, p, m, request, Acknowledged(context, stored), event);
    if move.note.Some? {
      NoteKeepsStores(c, p, m, log, move.note.value);
    }
  }

  // ----- every step ---------------------------------------------------------------------------------

  ghost predicate StepKeeps(
      c: Crypto, p: Database, m: Database, log: seq<Note>, request: Request, move: Move, wrote: bool)
  {
    && StoresOk(c, move.primary, move.mirror, Extended(log, move.note))
    && Extends(p, m, log, move.primary, move.mirror, Extended(log, move.note))
    && StageOk(c, move.primary, move.mirror, Extended(log, move.note), request, move.stage,
               wrote || move.primary != p || move.mirror != m)
  }

  lemma NothingMoves(p: Database, m: Database, log: seq<Note>, note: Option<Note>)
    ensures Extends(p, m, log, p, m, Extended(log, note))
  {
  }

  lemma AdvanceKeeps(
      c: Crypto, p: Database, m: Database, log: seq<Note>, request: Request, stage: Stage, event: Event, wrote: bool)
    requires StoresOk(c, p, m, log) && StageOk(c, p, m, log, request, stage, wrote) && Enabled(request, stage, event)
    ensures StepKeeps(c, p, m, log, request, Advance(c, p, m, request, stage, event), wrote)
  {
    hide StoresOk, RowsGrow, Extends, BindContext, StorePrimary, StoreMirror, RecordFailure, Acknowledge, ReadPrimary,
         ReadMirror, ObserveObject, VerifyIn, UniqueIds, TablesOk, MirrorAgrees, OutboxOk, HasUpload, HasVerified,
         ObservedUpload, HasRow, ContextOk, HoldsStored;
    NothingMoves(p, m, log, None);
    if event.Crash? {
    } else {
      match stage
      case Received => EarlyStep(c, p, m, log, request, stage, event);
      case Validated => EarlyStep(c, p, m, log, request, stage, event);
      case Identified(_) => EarlyStep(c, p, m, log, request, stage, event);
      case Bound(context) =>
        BoundStores(c, p, m, log, request, context, event.call);
        BoundStage(c, p, m, log, request, context, event.call);
      case PrimaryStored(context, stored) =>
        var wrote' := wrote || StoreMirror(m, request, context, stored, event.call).0 != m;
        StoresParts(c, p, m, log);
        PrimaryStoredStores(c, p, m, log, request, context, stored, event.call);
        PrimaryStoredStage(c, p, m, log, request, context, stored, event.call, wrote');
      case MirrorRefused(context, stored) =>
        var (p', _, note) := RecordFailure(p, request.input.payload.Kind(), stored, event.call);
        MirrorRefusedStores(c, p, m, log, request, context, stored, event.call);
        PrimaryGrows(p, m, log, p', m, Extended(log, note));
        SubmissionSurvives(c, p, p', request, context, stored, wrote || p' != p);
      case MirrorAccepted(context, stored) =>
        var p' := Acknowledge(p, request.input.payload.Kind(), context, stored, event.call).0;
        MirrorAcceptedStores(c, p, m, log, request, context, stored, event.call);
        PrimaryGrows(p, m, log, p', m, log);
        SubmissionSurvives(c, p, p', request, context, stored, wrote || p' != p);
      case Acknowledged(context, stored) =>
        AcknowledgedStep(c, p, m, log, request, context, stored, event, wrote);
        NothingMoves(p, m, log, Advance(c, p, m, request, stage, event).note);
      case PrimaryRead(subject, upload) =>
        ReadMirrorStage(c, p, m, log, request, subject, upload, event.call, wrote);
      case IdentityMatched(subject, upload) =>
        ObserveObjectStep(c, p, m, log, request, subject, upload, event.download, wrote);
        var note := ObserveObject(c, subject, upload, event.download).1;
        NothingMoves(p, m, log, note);
        if note.Some? {
          NoteKeepsStores(c, p, m, log, note.value);
        }
      case ObjectVerified(subject, upload) =>
        var next := MirrorVerified(subject, upload);
        var wrote' := wrote || VerifyIn(m, request, subject, event.call, next).0 != m;
        StoresParts(c, p, m, log);
        ObjectVerifiedStores(c, p, m, log, request, subject, event.call, next);
        ObjectVerifiedStage(c, p, m, log, request, subject, upload, event.call, wrote, wrote');
      case MirrorVerified(subject, upload) =>
        var next := Done(UploadCompleted(request.uploadId));
        var wrote' := wrote || VerifyIn(p, request, subject, event.call, next).0 != p;
        MirrorVerifiedStores(c, p, m, log, request, subject, upload, event.call, wrote, next);
        MirrorVerifiedStage(c, p, m, log, request, event.call, subject, wrote');
    }
  }

  /** After either outbox update, the attempt keeps its row or answers with its identifier. */
  lemma SubmissionSurvives(
      c: Crypto, p: Database, p': Database, request: Request, context: SubmissionContext, stored: Stored, wrote: bool)
    requires StoredOk(c, p, request, context, stored) && RowsGrow(p.rows, p'.rows)
    ensures StoredOk(c, p', request, context, stored)
    ensures FailureOk(p', request, wrote, MirrorUnavailable(stored.id))
  {
  }

  lemma PrimaryGrows(p: Database, m: Database, log: seq<Note>, p': Database, m': Database, log': seq<Note>)
    requires Extends(p, m, log, p', m', log')
    ensures RowsGrow(p.rows, p'.rows)
  {
  }

  lemma ApplyKeepsInv(s: System, action: Action)
    requires Inv(s)
    ensures Inv(Apply(s, action))
    ensures var t := Apply(s, action); Extends(s.primary, s.mirror, s.log, t.primary, t.mirror, t.log)
  {
    hide StoresOk, Extends, StageOk, Advance, StageFits, Enabled;
    NothingMoves(s.primary, s.mirror, s.log, None);
    match action
    case Arrive(i, request) =>
      ArrivalOk(s, request);
    case Act(i, event) =>
      if CanAct(s, i, event) {
        var a, t := s.attempts[i], Apply(s, action);
        assert AttemptOk(s, i);
        AdvanceKeeps(s.crypto, s.primary, s.mirror, s.log, a.request, a.stage, event, a.wrote);
        forall j | j in t.attempts ensures AttemptOk(t, j) {
          if j != i {
            assert AttemptOk(s, j);
            StageStable(s.crypto, s.primary, s.mirror, s.log, t.primary, t.mirror, t.log,
                        s.attempts[j].request, s.attempts[j].stage, s.attempts[j].wrote);
          }
        }
      }
  }

  lemma ArrivalOk(s: System, request: Request)
    ensures StageOk(s.crypto, s.primary, s.mirror, s.log, request, Received, false)
  {
  }

  lemma InitialInv(c: Crypto)
    ensures Inv(Initial(c))
  {
  }

  /** Whatever happens, in whatever order, the invariant holds and nothing stored is lost. */
  lemma {:induction false} RunKeepsInv(s: System, actions: seq<Action>)
    requires Inv(s)
    ensures Inv(Run(s, actions))
    ensures var t := Run(s, actions); Extends(s.primary, s.mirror, s.log, t.primary, t.mirror, t.log)
  {
    hide Inv, Extends, Apply;
    if actions == [] {
      NothingMoves(s.primary, s.mirror, s.log, None);
    } else {
      var before := Run(s, actions[..|actions| - 1]);
      RunKeepsInv(s, actions[..|actions| - 1]);
      ApplyKeepsInv(before, actions[|actions| - 1]);
      var t := Run(s, actions);
      ExtendsTransitive(s, before, t);
    }
  }

  lemma ExtendsTransitive(s: System, t: System, u: System)
    requires Extends(s.primary, s.mirror, s.log, t.primary, t.mirror, t.log)
    requires Extends(t.primary, t.mirror, t.log, u.primary, u.mirror, u.log)
    ensures Extends(s.primary, s.mirror, s.log, u.primary, u.mirror, u.log)
  {
  }

  lemma ReachableInv(s: System)
    requires Reachable(s)
    ensures Inv(s)
  {
    hide Inv;
    var actions :| Run(Initial(s.crypto), actions) == s;
    InitialInv(s.crypto);
    RunKeepsInv(Initial(s.crypto), actions);
  }
}
