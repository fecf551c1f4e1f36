/**
 Every attempt of the intake system, among any number of others, simulates the Quint model, with the
 model's flags read as what this attempt has observed.
 */
module QuintRefinement {
  import opened Results
  import opened ObjectKeys
  import opened ObjectVerification
  import opened Persistence
  import opened Protocol
  import opened IntakeSystem
  import opened Invariants
  import opened Preservation
  import opened CompletionProofs
  import opened Safety
  import Identification
  import Quint = QuintModel

  function AuthOf(subject: Option<string>): Quint.AuthDecision {
    if subject.Some? then Quint.SubjectVerified else Quint.PublicProofVerified
  }

  function Recognized(subject: Option<string>): Quint.State {
    Quint.INITIAL.(auth := AuthOf(subject))
  }

  function Admitted(subject: Option<string>): Quint.State {
    Recognized(subject).(requestValidated := true, idempotencyBound := true, digestBound := true)
  }

  function Matched(subject: Option<string>): Quint.State {
    Admitted(subject).(upload := Quint.UploadPending, uploadPrimaryIntent := true,
                       uploadMirrorIntent := true, uploadIdentityMatched := true)
  }

  /** The observations a final answer claims: a receipt claims every step before it. */
  predicate AnswerClaims(request: Request, response: Response, q: Quint.State) {
    match response
    case Accepted(_, _, _) => q.receiptIssued && q.primaryMarkedMirrored && q.mirrorStored && q.primaryStored
    case UploadCompleted(_) => q.uploadReceiptIssued && q.uploadPrimaryVerified && q.uploadMirrorVerified
    case Failed(failure) =>
      && !q.receiptIssued && !q.uploadReceiptIssued
      && (failure.submissionId.Some? ==> q.primaryStored)
      && (!failure.retryable ==> !q.primaryStored)
  }

  /** The model states an attempt at this stage stands for: one, until it answers or dies. */
  predicate Represents(request: Request, stage: Stage, q: Quint.State) {
    match stage
    case Received => q == Quint.INITIAL
    case Validated => q == Quint.INITIAL
    case Identified(subject) => q == if request.CreateRequest? then Recognized(subject) else Admitted(subject)
    case Bound(context) => q == Admitted(context.subject)
    case PrimaryStored(context, _) => q == Admitted(context.subject).(primaryStored := true)
    case MirrorRefused(context, _) => q == Admitted(context.subject).(primaryStored := true)
    case MirrorAccepted(context, _) => q == Admitted(context.subject).(primaryStored := true, mirrorStored := true)
    case Acknowledged(context, _) =>
      q == Admitted(context.subject).(primaryStored := true, mirrorStored := true, primaryMarkedMirrored := true)
    case PrimaryRead(subject, _) =>
      q == Admitted(subject).(upload := Quint.UploadPending, uploadPrimaryIntent := true)
    case IdentityMatched(subject, _) => q == Matched(subject)
    case ObjectVerified(subject, _) => q == Matched(subject).(uploadObjectVerified := true)
    case MirrorVerified(subject, _) =>
      q == Matched(subject).(uploadObjectVerified := true, uploadMirrorVerified := true)
    case Done(response) => AnswerClaims(request, response, q)
    case Crashed => !q.receiptIssued && !q.uploadReceiptIssued
  }

  predicate TwoSteps(q: Quint.State, mid: Quint.State, q': Quint.State) {
    Quint.Step(q, mid) && Quint.Step(mid, q')
  }

  /** A failure was recorded and the attempt was told so. */
  ghost predicate HeardFailureRecorded(p: Database, request: Request, stage: Stage, event: Event) {
    && stage.MirrorRefused? && event.DatabaseCall? && event.call.fault == NoFault
    && request.CreateRequest?
    && RecordMirrorFailure(p, request.input.payload.Kind(), stage.stored.id, MIRROR_ERROR_CODE,
                           event.call.databaseNow).result.Ok?
  }

  /** Answering or dying claims no new observation but that of the primary verification just made. */
  predicate AddsNothing(next: Stage, q: Quint.State, q': Quint.State) {
    && q'.primaryStored == q.primaryStored
    && q'.mirrorStored == q.mirrorStored
    && q'.uploadObjectVerified == q.uploadObjectVerified
    && q'.uploadMirrorVerified == q.uploadMirrorVerified
    && (q'.uploadPrimaryVerified ==> q.uploadPrimaryVerified || (next.Done? && next.response.UploadCompleted?))
  }

  /** Two model steps, stutters allowed, answer a step of the attempt. */
  ghost predicate Simulates(
      c: Crypto, p: Database, m: Database, request: Request, stage: Stage, event: Event,
      q: Quint.State, mid: Quint.State, q': Quint.State)
    requires StageFits(request, stage) && Enabled(request, stage, event)
  {
    var next := Advance(c, p, m, request, stage, event).stage;
    && TwoSteps(q, mid, q')
    && Represents(request, next, q')
    && (q'.mirrorFailureRecorded <==> HeardFailureRecorded(p, request, stage, event))
    && (next.Done? || next.Crashed? ==> AddsNothing(next, q, q'))
  }

  /** The states the model starts a step from: the attempt is under way, with this state. */
  ghost predicate Ready(request: Request, stage: Stage, event: Event, q: Quint.State) {
    StageFits(request, stage) && Enabled(request, stage, event) && Represents(request, stage, q) && !event.Crash?
  }

  lemma BindingFailures(c: Crypto, request: Request, subject: Option<string>, event: Event)
    requires request.CreateRequest? && event.FreshId?
    ensures var r := BindContext(c, request, subject, event.id); r.Err? ==> r.error == INVALID
  {
  }

  lemma ReceivedSimulation(
      c: Crypto, p: Database, m: Database, request: Request, stage: Stage, event: Event, q: Quint.State)
    returns (mid: Quint.State, q': Quint.State)
    requires Ready(request, stage, event, q) && stage.Received?
    ensures Simulates(c, p, m, request, stage, event, q, mid, q')
  {
    hide Conforms, BindContext, ReadPrimary, StorePrimary, StoreMirror, RecordFailure, Acknowledge, FinalResponse,
         ReadMirror, ObserveObject, VerifyIn;
    var next := Advance(c, p, m, request, stage, event).stage;
    mid, q' := q, q;
  }

  lemma IdentityFailures(request: Request, event: Event)
    requires event.Identity?
    ensures var r := Authenticate(request, event.bearer, event.proof); r.Err? ==> r.error.submissionId.None?
  {
  }

  lemma IdentitySimulation(
      c: Crypto, p: Database, m: Database, request: Request, stage: Stage, event: Event, q: Quint.State)
    returns (mid: Quint.State, q': Quint.State)
    requires Ready(request, stage, event, q) && stage.Validated?
    ensures Simulates(c, p, m, request, stage, event, q, mid, q')
  {
    hide Conforms, Authenticate, BindContext, ReadPrimary, StorePrimary, StoreMirror, RecordFailure, Acknowledge,
         FinalResponse, ReadMirror, ObserveObject, VerifyIn;
    var next := Advance(c, p, m, request, stage, event).stage;
    if next.Identified? {
      mid := Recognized(next.subject);
      q' := if request.CreateRequest? then mid else Admitted(next.subject);
    } else {
      mid := q.(auth := Quint.AuthRejected);
      q' := mid;
      IdentityFailures(request, event);
    }
  }

  lemma BindingSimulation(
      c: Crypto, p: Database, m: Database, request: Request, stage: Stage, event: Event, q: Quint.State)
    returns (mid: Quint.State, q': Quint.State)
    requires Ready(request, stage, event, q) && stage.Identified? && request.CreateRequest?
    ensures Simulates(c, p, m, request, stage, event, q, mid, q')
  {
    hide Conforms, BindContext, Authenticate, ReadPrimary, StorePrimary, StoreMirror, RecordFailure, Acknowledge,
         FinalResponse, ReadMirror, ObserveObject, VerifyIn;
    var next := Advance(c, p, m, request, stage, event).stage;
    q' := if next.Bound? then Admitted(stage.subject) else q;
    mid := q';
    if next.Bound? {
      Identification.BindingKeepsSubject(c, request, stage.subject, event.id);
    } else {
      BindingFailures(c, request, stage.subject, event);
    }
  }

  lemma PrimaryReadSimulation(
      c: Crypto, p: Database, m: Database, request: Request, stage: Stage, event: Event, q: Quint.State)
    returns (mid: Quint.State, q': Quint.State)
    requires Ready(request, stage, event, q) && stage.Identified? && request.CompleteRequest?
    ensures Simulates(c, p, m, request, stage, event, q, mid, q')
  {
    hide Conforms, BindContext, Authenticate, StorePrimary, StoreMirror, RecordFailure, Acknowledge, FinalResponse,
         ReadMirror, ObserveObject, VerifyIn, FindPendingUpload;
    var next := Advance(c, p, m, request, stage, event).stage;
    q' := if next.PrimaryRead? then q.(upload := Quint.UploadPending, uploadPrimaryIntent := true) else q;
    mid := q';
  }

  lemma PrimaryStoreSimulation(
      c: Crypto, p: Database, m: Database, request: Request, stage: Stage, event: Event, q: Quint.State)
    returns (mid: Quint.State, q': Quint.State)
    requires Ready(request, stage, event, q) && stage.Bound?
    ensures Simulates(c, p, m, request, stage, event, q, mid, q')
  {
    hide Conforms, BindContext, Authenticate, ReadPrimary, StoreMirror, RecordFailure, Acknowledge, FinalResponse,
         ReadMirror, ObserveObject, VerifyIn, Store;
    var next := Advance(c, p, m, request, stage, event).stage;
    q' := if next.PrimaryStored? then q.(primaryStored := true) else q;
    mid := q';
  }

  lemma MirrorStoreSimulation(
      c: Crypto, p: Database, m: Database, request: Request, stage: Stage, event: Event, q: Quint.State)
    returns (mid: Quint.State, q': Quint.State)
    requires Ready(request, stage, event, q) && stage.PrimaryStored?
    ensures Simulates(c, p, m, request, stage, event, q, mid, q')
  {
    hide Conforms, BindContext, Authenticate, ReadPrimary, StorePrimary, RecordFailure, Acknowledge, FinalResponse,
         ReadMirror, ObserveObject, VerifyIn, Store;
    var next := Advance(c, p, m, request, stage, event).stage;
    q' := if next.MirrorAccepted? then q.(mirrorStored := true) else q;
    mid := q';
  }

  lemma RecordedFailureSimulation(
      c: Crypto, p: Database, m: Database, request: Request, stage: Stage, event: Event, q: Quint.State)
    returns (mid: Quint.State, q': Quint.State)
    requires Ready(request, stage, event, q) && stage.MirrorRefused?
    ensures Simulates(c, p, m, request, stage, event, q, mid, q')
  {
    hide Conforms, BindContext, Authenticate, ReadPrimary, StorePrimary, StoreMirror, Acknowledge, FinalResponse,
         ReadMirror, ObserveObject, VerifyIn, RecordMirrorFailure, ChargeNote;
    var next := Advance(c, p, m, request, stage, event).stage;
    q' := if HeardFailureRecorded(p, request, stage, event) then q.(mirrorFailureRecorded := true) else q;
    mid := q';
  }

  lemma AcknowledgementSimulation(
      c: Crypto, p: Database, m: Database, request: Request, stage: Stage, event: Event, q: Quint.State)
    returns (mid: Quint.State, q': Quint.State)
    requires Ready(request, stage, event, q) && stage.MirrorAccepted?
    ensures Simulates(c, p, m, request, stage, event, q, mid, q')
  {
    hide Conforms, BindContext, Authenticate, ReadPrimary, StorePrimary, StoreMirror, RecordFailure, FinalResponse,
         ReadMirror, ObserveObject, VerifyIn, MarkMirrored;
    var next := Advance(c, p, m, request, stage, event).stage;
    q' := if next.Acknowledged? then q.(primaryMarkedMirrored := true) else q;
    mid := q';
  }

  lemma ReceiptSimulation(
      c: Crypto, p: Database, m: Database, request: Request, stage: Stage, event: Event, q: Quint.State)
    returns (mid: Quint.State, q': Quint.State)
    requires Ready(request, stage, event, q) && stage.Acknowledged?
    ensures Simulates(c, p, m, request, stage, event, q, mid, q')
  {
    hide Conforms, BindContext, Authenticate, ReadPrimary, StorePrimary, StoreMirror, RecordFailure, Acknowledge,
         ReadMirror, ObserveObject, VerifyIn, ValidObjectKey;
    var next := Advance(c, p, m, request, stage, event).stage;
    q' := if next.Done? && next.response.Accepted? then q.(receiptIssued := true) else q;
    mid := q';
  }

  lemma ObjectSimulation(
      c: Crypto, p: Database, m: Database, request: Request, stage: Stage, event: Event, q: Quint.State)
    returns (mid: Quint.State, q': Quint.State)
    requires Ready(request, stage, event, q) && stage.IdentityMatched?
    ensures Simulates(c, p, m, request, stage, event, q, mid, q')
  {
    hide Conforms, BindContext, Authenticate, ReadPrimary, StorePrimary, StoreMirror, RecordFailure, Acknowledge,
         FinalResponse, ReadMirror, VerifyIn, Verdict;
    var next := Advance(c, p, m, request, stage, event).stage;
    q' := if next.ObjectVerified? then q.(uploadObjectVerified := true) else q;
    mid := q';
  }

  lemma MirrorVerificationSimulation(
      c: Crypto, p: Database, m: Database, request: Request, stage: Stage, event: Event, q: Quint.State)
    returns (mid: Quint.State, q': Quint.State)
    requires Ready(request, stage, event, q) && stage.ObjectVerified?
    ensures Simulates(c, p, m, request, stage, event, q, mid, q')
  {
    hide Conforms, BindContext, Authenticate, ReadPrimary, StorePrimary, StoreMirror, RecordFailure, Acknowledge,
         FinalResponse, ReadMirror, ObserveObject, VerifyCall;
    var next := Advance(c, p, m, request, stage, event).stage;
    q' := if next.MirrorVerified? then q.(uploadMirrorVerified := true) else q;
    mid := q';
  }

  lemma MirrorReadSimulation(
      c: Crypto, p: Database, m: Database, request: Request, stage: Stage, event: Event, q: Quint.State)
    returns (mid: Quint.State, q': Quint.State)
    requires Ready(request, stage, event, q) && stage.PrimaryRead?
    ensures Simulates(c, p, m, request, stage, event, q, mid, q')
  {
    hide Conforms, BindContext, Authenticate, ReadPrimary, StorePrimary, StoreMirror, RecordFailure, Acknowledge,
         FinalResponse, ObserveObject, VerifyIn, FindPendingUpload;
    var next := Advance(c, p, m, request, stage, event).stage;
    mid := q.(uploadMirrorIntent := true);
    if next.IdentityMatched? {
      q' := mid.(uploadIdentityMatched := true);
    } else if event.call.fault == NoFault
              && FindPendingUpload(m.rows, request.uploadId, stage.subject, event.call.databaseNow).Ok? {
      q' := mid.(upload := Quint.UploadRejected);
    } else {
      mid, q' := q, q;
    }
  }

  lemma PrimaryVerificationSimulation(
      c: Crypto, p: Database, m: Database, request: Request, stage: Stage, event: Event, q: Quint.State)
    returns (mid: Quint.State, q': Quint.State)
    requires Ready(request, stage, event, q) && stage.MirrorVerified?
    ensures Simulates(c, p, m, request, stage, event, q, mid, q')
  {
    hide Conforms, BindContext, Authenticate, ReadPrimary, StorePrimary, StoreMirror, RecordFailure, Acknowledge,
         FinalResponse, ReadMirror, ObserveObject, VerifyCall;
    var next := Advance(c, p, m, request, stage, event).stage;
    if next == Done(UploadCompleted(request.uploadId)) {
      mid := q.(uploadPrimaryVerified := true, upload := Quint.UploadVerified);
      q' := mid.(uploadReceiptIssued := true);
    } else {
      mid, q' := q, q;
    }
  }

  lemma CrashSimulation(
      c: Crypto, p: Database, m: Database, request: Request, stage: Stage, event: Event, q: Quint.State)
    requires StageFits(request, stage) && Enabled(request, stage, event) && Represents(request, stage, q)
    requires event.Crash?
    ensures Simulates(c, p, m, request, stage, event, q, q, q)
  {
  }

  /** Forward simulation: two model steps, stutters allowed, answer every step of an attempt. */
  lemma StepSimulates(
      c: Crypto, p: Database, m: Database, request: Request, stage: Stage, event: Event, q: Quint.State)
    returns (mid: Quint.State, q': Quint.State)
    requires StageFits(request, stage) && Enabled(request, stage, event) && Represents(request, stage, q)
    ensures Simulates(c, p, m, request, stage, event, q, mid, q')
  {
    hide Simulates, Represents, StageFits;
    if event.Crash? {
      mid, q' := q, q;
      CrashSimulation(c, p, m, request, stage, event, q);
    } else {
      match stage
      case Received => mid, q' := ReceivedSimulation(c, p, m, request, stage, event, q);
      case Validated => mid, q' := IdentitySimulation(c, p, m, request, stage, event, q);
      case Identified(_) =>
        if request.CreateRequest? {
          mid, q' := BindingSimulation(c, p, m, request, stage, event, q);
        } else {
          mid, q' := PrimaryReadSimulation(c, p, m, request, stage, event, q);
        }
      case Bound(_) => mid, q' := PrimaryStoreSimulation(c, p, m, request, stage, event, q);
      case PrimaryStored(_, _) => mid, q' := MirrorStoreSimulation(c, p, m, request, stage, event, q);
      case MirrorRefused(_, _) => mid, q' := RecordedFailureSimulation(c, p, m, request, stage, event, q);
      case MirrorAccepted(_, _) => mid, q' := AcknowledgementSimulation(c, p, m, request, stage, event, q);
      case Acknowledged(_, _) => mid, q' := ReceiptSimulation(c, p, m, request, stage, event, q);
      case PrimaryRead(_, _) => mid, q' := MirrorReadSimulation(c, p, m, request, stage, event, q);
      case IdentityMatched(_, _) => mid, q' := ObjectSimulation(c, p, m, request, stage, event, q);
      case ObjectVerified(_, _) => mid, q' := MirrorVerificationSimulation(c, p, m, request, stage, event, q);
      case MirrorVerified(_, _) => mid, q' := PrimaryVerificationSimulation(c, p, m, request, stage, event, q);
    }
  }

  // ----- the flags are true of the databases ----------------------------------------------------

  predicate HeldIn(c: Crypto, rows: Tables, request: Request, k: RowKey) {
    && k in rows
    && request.CreateRequest?
    && k.kind == request.input.payload.Kind()
    && rows[k].payloadSha256 == PayloadDigest(c, request.input.payload)
  }

  ghost predicate HeldInBoth(c: Crypto, p: Tables, m: Tables, request: Request) {
    exists k :: HeldIn(c, p, request, k) && HeldIn(c, m, request, k) && m[k].id == p[k].id
  }

  ghost predicate VerifiedIn(rows: Tables, request: Request) {
    && request.CompleteRequest?
    && exists k :: k in rows && k.kind == Upload && rows[k].id == request.uploadId && IsVerified(rows[k])
  }

  ghost predicate Seen(c: Crypto, log: seq<Note>, request: Request) {
    && request.CompleteRequest?
    && exists objectKey, contentType, size :: Observed(c, log, objectKey, request.sha256, contentType, size)
  }

  /** What a flag of the model records is so in the databases, and stays so. */
  ghost predicate FlagsTrue(c: Crypto, p: Tables, m: Tables, log: seq<Note>, request: Request, q: Quint.State) {
    && (q.primaryStored ==> exists k :: HeldIn(c, p, request, k))
    && (q.mirrorStored ==> HeldInBoth(c, p, m, request))
    && (q.uploadObjectVerified ==> Seen(c, log, request))
    && (q.uploadMirrorVerified ==> VerifiedIn(m, request))
    && (q.uploadPrimaryVerified ==> VerifiedIn(p, request))
  }

  lemma StageMakesFlagsTrue(
      c: Crypto, p: Database, m: Database, log: seq<Note>, request: Request, stage: Stage, wrote: bool, q: Quint.State)
    requires MirrorAgrees(p.rows, m.rows) && StageOk(c, p, m, log, request, stage, wrote)
    requires Represents(request, stage, q) && !stage.Done? && !stage.Crashed?
    ensures FlagsTrue(c, p.rows, m.rows, log, request, q)
  {
    hide StageFits, PayloadDigest, Observed;
    if q.primaryStored {
      var k := KeyOf(request, stage.context);
      assert HeldIn(c, p.rows, request, k);
      assert q.mirrorStored ==> HeldIn(c, m.rows, request, k);
    }
    if q.uploadObjectVerified {
      var upload := stage.primary;
      assert Observed(c, log, upload.objectKey, request.sha256, upload.contentType, upload.sizeBytes);
    }
  }

  lemma FlagsStayTrue(
      c: Crypto, p: Database, m: Database, log: seq<Note>, p': Database, m': Database, log': seq<Note>,
      request: Request, q: Quint.State)
    requires Extends(p, m, log, p', m', log') && FlagsTrue(c, p.rows, m.rows, log, request, q)
    ensures FlagsTrue(c, p'.rows, m'.rows, log', request, q)
  {
    hide PayloadDigest, Observed;
    if q.primaryStored {
      var k :| HeldIn(c, p.rows, request, k);
      assert RowKept(p.rows[k], p'.rows[k]) && HeldIn(c, p'.rows, request, k);
    }
    if q.mirrorStored {
      var k :| HeldIn(c, p.rows, request, k) && HeldIn(c, m.rows, request, k) && m.rows[k].id == p.rows[k].id;
      assert RowKept(p.rows[k], p'.rows[k]) && RowKept(m.rows[k], m'.rows[k]);
      assert HeldIn(c, p'.rows, request, k) && HeldIn(c, m'.rows, request, k);
    }
    if q.uploadObjectVerified {
      var objectKey, contentType, size :| Observed(c, log, objectKey, request.sha256, contentType, size);
      ObservedPersists(c, log, log', objectKey, request.sha256, contentType, size);
    }
    VerifiedStays(m.rows, m'.rows, request);
    VerifiedStays(p.rows, p'.rows, request);
  }

  lemma VerifiedStays(rows: Tables, rows': Tables, request: Request)
    requires RowsGrow(rows, rows')
    ensures VerifiedIn(rows, request) ==> VerifiedIn(rows', request)
  {
    if VerifiedIn(rows, request) {
      var k :| k in rows && k.kind == Upload && rows[k].id == request.uploadId && IsVerified(rows[k]);
      assert RowKept(rows[k], rows'[k]);
    }
  }

  lemma CompletedIsVerified(
      c: Crypto, p: Database, m: Database, log: seq<Note>, request: Request, stage: Stage, wrote: bool, event: Event)
    requires UniqueIds(p.rows) && StageOk(c, p, m, log, request, stage, wrote) && Enabled(request, stage, event)
    requires stage.MirrorVerified? && !event.Crash?
    ensures var move := Advance(c, p, m, request, stage, event);
            move.stage == Done(UploadCompleted(request.uploadId)) ==> VerifiedIn(move.primary.rows, request)
  {
    hide VerifyIn, VerifyCall, UniqueIds, ObservedUpload, HasUpload;
    var next := Done(UploadCompleted(request.uploadId));
    VerifyUploadResult(c, p, request, stage.subject, stage.primary, event.call.databaseNow);
    VerifyInCases(p, request, stage.subject, event.call, next);
  }

  lemma OnlyCompletionCompletes(
      c: Crypto, p: Database, m: Database, request: Request, stage: Stage, event: Event)
    requires StageFits(request, stage) && Enabled(request, stage, event)
    ensures var next := Advance(c, p, m, request, stage, event).stage;
            next.Done? && next.response.UploadCompleted? ==>
              stage.MirrorVerified? && next == Done(UploadCompleted(request.uploadId)) && !event.Crash?
  {
    hide Store, MarkMirrored, RecordMirrorFailure, ChargeNote, FindPendingUpload, Verdict, VerifyCall, BindContext,
         Authenticate, Conforms, ValidObjectKey;
  }

  /** After the attempt's own step, the flags of the answering model state are true. */
  lemma OwnStepKeepsFlagsTrue(
      c: Crypto, p: Database, m: Database, log: seq<Note>, request: Request, stage: Stage, wrote: bool, event: Event,
      q: Quint.State, mid: Quint.State, q': Quint.State)
    requires StoresOk(c, p, m, log) && StageOk(c, p, m, log, request, stage, wrote) && Enabled(request, stage, event)
    requires Simulates(c, p, m, request, stage, event, q, mid, q') && FlagsTrue(c, p.rows, m.rows, log, request, q)
    ensures var move := Advance(c, p, m, request, stage, event);
            FlagsTrue(c, move.primary.rows, move.mirror.rows, Extended(log, move.note), request, q')
  {
    var move := Advance(c, p, m, request, stage, event);
    hide StoresOk, StageOk, StageFits, Enabled, Advance, FlagsTrue, Represents, TwoSteps, Extends, MirrorAgrees,
         UniqueIds, TablesOk, OutboxOk;
    var log' := Extended(log, move.note);
    AdvanceKeeps(c, p, m, log, request, stage, event, wrote);
    StoresParts(c, p, m, log);
    StoresParts(c, move.primary, move.mirror, log');
    if move.stage.Done? || move.stage.Crashed? {
      FlagsStayTrue(c, p, m, log, move.primary, move.mirror, log', request, q);
      OnlyCompletionCompletes(c, p, m, request, stage, event);
      if move.stage.Done? && move.stage.response.UploadCompleted? {
        CompletedIsVerified(c, p, m, log, request, stage, wrote, event);
      }
      AnsweredFlagsTrue(c, move.primary.rows, move.mirror.rows, log', request, move.stage, q, q');
    } else {
      StageMakesFlagsTrue(c, move.primary, move.mirror, log', request, move.stage,
                          wrote || move.primary != p || move.mirror != m, q');
    }
  }

  lemma AnsweredFlagsTrue(
      c: Crypto, p: Tables, m: Tables, log: seq<Note>, request: Request, next: Stage, q: Quint.State, q': Quint.State)
    requires FlagsTrue(c, p, m, log, request, q) && AddsNothing(next, q, q')
    requires next.Done? && next.response.UploadCompleted? ==> VerifiedIn(p, request)
    ensures FlagsTrue(c, p, m, log, request, q')
  {
    hide HeldIn, HeldInBoth, Seen, VerifiedIn;
  }

  // ----- whole runs --------------------------------------------------------------------------------

  /**
   The model state stands for the attempt's stage, and its flags are true of the databases; an
   attempt that has not arrived yet is at the model's initial state.
   */
  ghost predicate Tracks(s: System, i: nat, q: Quint.State) {
    if i in s.attempts then
      && Represents(s.attempts[i].request, s.attempts[i].stage, q)
      && FlagsTrue(s.crypto, s.primary.rows, s.mirror.rows, s.log, s.attempts[i].request, q)
    else q == Quint.INITIAL
  }

  lemma ActionSimulates(s: System, action: Action, i: nat, q: Quint.State) returns (mid: Quint.State, q': Quint.State)
    requires Inv(s) && Tracks(s, i, q)
    ensures TwoSteps(q, mid, q') && Tracks(Apply(s, action), i, q')
  {
    var t := Apply(s, action);
    if action.Act? && action.attempt == i && CanAct(s, i, action.event) {
      var a := s.attempts[i];
      assert AttemptOk(s, i);
      hide Inv, Advance, StageFits, Enabled, StoresOk, StageOk, FlagsTrue, Represents;
      mid, q' := StepSimulates(s.crypto, s.primary, s.mirror, a.request, a.stage, action.event, q);
      OwnStepKeepsFlagsTrue(s.crypto, s.primary, s.mirror, s.log, a.request, a.stage, a.wrote, action.event, q, mid,
                            q');
    } else {
      mid, q' := q, q;
      OthersKeepTracking(s, action, i, q);
    }
  }

  lemma OthersKeepTracking(s: System, action: Action, i: nat, q: Quint.State)
    requires Inv(s) && Tracks(s, i, q)
    requires !(action.Act? && action.attempt == i && CanAct(s, i, action.event))
    ensures Tracks(Apply(s, action), i, q)
  {
    hide Inv, Advance, StageFits, Enabled, Represents, FlagsTrue, Extends;
    var t := Apply(s, action);
    ApplyKeepsInv(s, action);
    if i in s.attempts {
      FlagsStayTrue(s.crypto, s.primary, s.mirror, s.log, t.primary, t.mirror, t.log, s.attempts[i].request, q);
    } else if i in t.attempts {
      NothingClaimedYet(t, i);
    }
  }

  lemma NothingClaimedYet(t: System, i: nat)
    requires i in t.attempts && t.attempts[i].stage.Received?
    ensures Tracks(t, i, Quint.INITIAL)
  {
  }

  /** A model run of two steps per action, in step with attempt `i` after every action. */
  ghost predicate SimulatesAttempt(c: Crypto, actions: seq<Action>, i: nat, states: seq<Quint.State>) {
    && Quint.IsRun(states)
    && |states| == 2 * |actions| + 1
    && forall n :: 0 <= n <= |actions| ==> Tracks(Run(Initial(c), actions[..n]), i, states[2 * n])
  }

  /**
   Per-attempt refinement: for every run of the system and every attempt in it there is a run of
   the Quint model that the attempt follows step by step, and that run is safe throughout.
   */
  lemma {:induction false} EveryAttemptRefinesQuint(c: Crypto, actions: seq<Action>, i: nat)
    returns (states: seq<Quint.State>)
    ensures SimulatesAttempt(c, actions, i, states)
    ensures forall n :: 0 <= n < |states| ==> Quint.ApiSafety(states[n])
  {
    if actions == [] {
      states := [Quint.INITIAL];
    } else {
      var n := |actions| - 1;
      var before := EveryAttemptRefinesQuint(c, actions[..n], i);
      assert actions[..n][..n] == actions[..n];
      InitialInv(c);
      RunKeepsInv(Initial(c), actions[..n]);
      hide Inv, Tracks, Quint.ApiSafety;
      var mid, q := ActionSimulates(Run(Initial(c), actions[..n]), actions[n], i, before[2 * n]);
      states := before + [mid, q];
      ExtendedRun(c, actions, i, before, mid, q);
    }
    forall n | 0 <= n < |states| ensures Quint.ApiSafety(states[n]) {
      Quint.RunsAreSafe(states, n);
    }
  }

  lemma ExtendedRun(
      c: Crypto, actions: seq<Action>, i: nat, before: seq<Quint.State>, mid: Quint.State, q: Quint.State)
    requires actions != []
    requires SimulatesAttempt(c, actions[..|actions| - 1], i, before)
    requires TwoSteps(before[|before| - 1], mid, q)
    requires Tracks(Run(Initial(c), actions), i, q)
    ensures SimulatesAttempt(c, actions, i, before + [mid, q])
  {
    hide Tracks, Run, Quint.Step, Quint.IsRun;
    var last, states := |actions| - 1, before + [mid, q];
    RunGrows(before, mid, q);
    forall n | 0 <= n <= |actions| ensures Tracks(Run(Initial(c), actions[..n]), i, states[2 * n]) {
      if n <= last {
        assert actions[..last][..n] == actions[..n];
      } else {
        assert actions[..n] == actions;
      }
    }
  }

  lemma RunGrows(before: seq<Quint.State>, mid: Quint.State, q: Quint.State)
    requires Quint.IsRun(before) && TwoSteps(before[|before| - 1], mid, q)
    ensures Quint.IsRun(before + [mid, q])
  {
  }
}
