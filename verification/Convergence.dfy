/**
 Retries converge: repeating a stored submission ends with the original receipt once no call of the
 retry itself fails, whatever other attempts do in between and however often it failed before.
 */
module Convergence {
  import opened Results
  import opened Hex
  import Text
  import opened ObjectKeys
  import opened ObjectVerification
  import opened Persistence
  import opened Protocol
  import opened IntakeSystem
  import opened Invariants
  import opened Transactions
  import opened Preservation
  import opened Safety

  /** A request that repeats the submission stored under `k`, with any Turnstile token. */
  predicate Repeats(c: Crypto, request: Request, k: RowKey, payloadSha256: string) {
    && request.CreateRequest?
    && Conforms(request)
    && request.input.payload.Kind() == k.kind
    && request.idempotencyHeader == Some(k.key)
    && request.originHost.Some? && request.originHost.value in SOURCE_HOSTS
    && RequestDigest(c, request.input) == payloadSha256
  }

  /** The digest ignores the Turnstile token, so a refreshed proof repeats the same submission. */
  lemma TokenIsNotDigested(c: Crypto, input: Input, token: Option<string>)
    requires !input.payload.ReferralCreate?
    ensures RequestDigest(c, input.(turnstileToken := token)) == RequestDigest(c, input)
  {
  }

  // ----- one attempt on its way -----------------------------------------------------------------

  predicate Carries(request: Request, k: RowKey, context: SubmissionContext, payloadSha256: string) {
    context.idempotencyKey == k.key && context.payloadSha256 == payloadSha256
  }

  /** The attempt is on its way to the receipt of the row under `k`. */
  ghost predicate OnTrack(c: Crypto, request: Request, stage: Stage, k: RowKey, row: Row) {
    && Repeats(c, request, k, row.payloadSha256)
    && match stage
       case Received => true
       case Validated => true
       case Identified(_) => true
       case Bound(context) => Carries(request, k, context, row.payloadSha256)
       case PrimaryStored(context, stored) => CarriesRow(request, k, context, stored, row)
       case MirrorAccepted(context, stored) => CarriesRow(request, k, context, stored, row)
       case Acknowledged(context, stored) => CarriesRow(request, k, context, stored, row)
       case Done(response) => response == Accepted(row.id, k.kind, row.stamp)
       case _ => false
  }

  predicate CarriesRow(request: Request, k: RowKey, context: SubmissionContext, stored: Stored, row: Row) {
    Carries(request, k, context, row.payloadSha256) && stored.id == row.id && stored.stamp == row.stamp
  }

  /** Own steps still to go. */
  function Remaining(stage: Stage): nat {
    match stage
    case Received => 7
    case Validated => 6
    case Identified(_) => 5
    case Bound(_) => 4
    case PrimaryStored(_, _) => 3
    case MirrorAccepted(_, _) => 2
    case Acknowledged(_, _) => 1
    case _ => 0
  }

  /**
   An event in which no call of this attempt fails: the contract accepts, the caller is identified,
   the databases answer, the URL is signed, and the admission checks of `store_*` pass.
   */
  ghost predicate Smooth(p: Tables, m: Tables, request: Request, stage: Stage, event: Event) {
    && FaultFree(request, stage, event)
    && (stage.Bound? ==>
          Admission(p, stage.context, request.input.payload, event.call.databaseNow).Ok?)
    && (stage.PrimaryStored? ==>
          Admission(m, stage.context, request.input.payload, event.call.databaseNow).Ok?)
  }

  /** The same without the admission checks: only the environment's part. */
  predicate FaultFree(request: Request, stage: Stage, event: Event) {
    && request.CreateRequest?
    && Enabled(request, stage, event)
    && match event
       case ContractVerdict(accepts) => accepts
       case Identity(bearer, proof) => Authenticate(request, bearer, proof).Ok?
       case FreshId(_) => true
       case DatabaseCall(call) => call.fault == NoFault
       case ObjectDownload(_) => true
       case Respond(signing) => signing.Ok?
       case Crash => false
  }

  /** The columns of the payload fit the database's integers. */
  predicate WithinLimits(payload: Payload) {
    && (payload.UploadIntentCreate? ==> payload.sizeBytes <= I64_MAX)
    && (payload.ApplicationCreate? ==> -0x8000 <= payload.preferredRoomOccupancy < 0x8000)
  }

  /** An application's uploads are live for this subject. */
  ghost predicate UploadsLive(rows: Tables, subject: Option<string>, payload: Payload, now: int) {
    payload.ApplicationCreate? ==>
      && NamesLive(rows, subject, payload.resumeUploadId, Resume, now)
      && NamesLive(rows, subject, payload.photoIdUploadId, PhotoId, now)
  }

  /** What a store demands before it inserts, for every kind: only applications depend on the tables. */
  lemma AdmittedExactly(rows: Tables, context: SubmissionContext, payload: Payload, now: int)
    requires UniqueIds(rows)
    ensures Admission(rows, context, payload, now).Ok? <==>
            && WithinLimits(payload)
            && UploadsLive(rows, context.subject, payload, now)
            && (payload.ReferralCreate? ==> context.subject.Some?)
  {
    hide UniqueIds, NamesLive, MatchingUploads;
    if payload.ApplicationCreate? {
      CountIsTwoExactly(rows, context.subject, payload.resumeUploadId, payload.photoIdUploadId, now);
    }
  }

  lemma ContextKeysAreHeaderKeys(key: string)
    requires IsContextKey(key)
    ensures IdempotencyKeyOf(Some(key)) == Ok(key)
  {
  }

  lemma SourceHostsAreContextHosts(host: string)
    requires host in SOURCE_HOSTS
    ensures Text.AsciiLowercase(host) in CONTEXT_HOSTS
  {
    assert forall i :: 0 <= i < |host| ==> Text.AsciiLower(host[i]) == host[i];
    assert Text.AsciiLowercase(host) == host;
  }

  /** Binding a repeated request succeeds with the stored key and digest. */
  lemma RepeatedRequestBinds(c: Crypto, request: Request, k: RowKey, row: Row, subject: Option<string>, id: Uuid)
    requires RowOk(c, k, row) && Repeats(c, request, k, row.payloadSha256)
    ensures var r := BindContext(c, request, subject, id);
            r.Ok? && Carries(request, k, r.value, row.payloadSha256)
  {
    hide Encode, ProgressFits, PayloadDigest, RequestDigest;
    ContextKeysAreHeaderKeys(k.key);
    SourceHostsAreContextHosts(request.originHost.value);
  }

  lemma PrimaryReplays(p: Database, request: Request, context: SubmissionContext, k: RowKey, call: Call)
    requires k in p.rows && request.CreateRequest? && Conforms(request) && request.input.payload.Kind() == k.kind
    requires Carries(request, k, context, p.rows[k].payloadSha256) && call.fault == NoFault
    requires Admission(p.rows, context, request.input.payload, call.databaseNow).Ok?
    ensures StorePrimary(p, request, context, call)
         == (p, PrimaryStored(context, StoredFrom(p.rows[k], true)))
  {
  }

  lemma StoredUploadAnswers(
      c: Crypto, p: Database, request: Request, context: SubmissionContext, stored: Stored,
      signing: Result<(), ExternalError>)
    requires RowsOk(c, p.rows) && StoredOk(c, p, request, context, stored) && signing.Ok?
    ensures FinalResponse(request.input.payload.Kind(), stored, signing)
         == Accepted(stored.id, request.input.payload.Kind(), stored.stamp)
  {
    var k := KeyOf(request, context);
    var row := p.rows[k];
    assert RowOk(c, k, row);
    if k.kind == Upload {
      hide ObjectKey, Encode, ValidObjectKey, PayloadDigest;
      PrintedKeyIsValid(row.payload.uploadKind, row.id, row.payload.sha256);
    }
  }

  lemma StageOkFits(
      c: Crypto, p: Database, m: Database, log: seq<Note>, request: Request, stage: Stage, wrote: bool)
    requires StageOk(c, p, m, log, request, stage, wrote)
    ensures StageFits(request, stage)
    ensures stage.PrimaryStored? ==> StoredOk(c, p, request, stage.context, stage.stored)
    ensures stage.Acknowledged? ==> StoredOk(c, p, request, stage.context, stage.stored)
  {
  }

  lemma EarlySmoothStep(
      c: Crypto, p: Database, m: Database, log: seq<Note>, request: Request, stage: Stage, wrote: bool, event: Event,
      k: RowKey)
    requires StoresOk(c, p, m, log) && StageOk(c, p, m, log, request, stage, wrote)
    requires k in p.rows && OnTrack(c, request, stage, k, p.rows[k])
    requires Smooth(p.rows, m.rows, request, stage, event)
    requires stage.Received? || stage.Validated? || stage.Identified?
    ensures var move := Advance(c, p, m, request, stage, event);
            OnTrack(c, request, move.stage, k, p.rows[k]) && Remaining(move.stage) + 1 == Remaining(stage)
  {
    hide StoresOk, StageOk, TablesOk, OutboxOk, UniqueIds, MirrorAgrees, BindContext, Authenticate, RowOk, RowsOk,
         RequestDigest, Conforms, Admission, StorePrimary, StoreMirror, RecordFailure, Acknowledge, VerifyIn,
         ReadPrimary, ReadMirror, ObserveObject, FinalResponse;
    StageOkFits(c, p, m, log, request, stage, wrote);
    StoresParts(c, p, m, log);
    RowAt(c, p.rows, k);
    if stage.Identified? {
      RepeatedRequestBinds(c, request, k, p.rows[k], stage.subject, event.id);
    }
  }

  lemma StoringSmoothStep(
      c: Crypto, p: Database, m: Database, log: seq<Note>, request: Request, stage: Stage, wrote: bool, event: Event,
      k: RowKey)
    requires StoresOk(c, p, m, log) && StageOk(c, p, m, log, request, stage, wrote)
    requires k in p.rows && OnTrack(c, request, stage, k, p.rows[k])
    requires Smooth(p.rows, m.rows, request, stage, event)
    requires stage.Bound? || stage.PrimaryStored?
    ensures var move := Advance(c, p, m, request, stage, event);
            OnTrack(c, request, move.stage, k, p.rows[k]) && Remaining(move.stage) + 1 == Remaining(stage)
  {
    hide StoresOk, StageOk, TablesOk, OutboxOk, UniqueIds, MirrorAgrees, StorePrimary, StoreMirror, Admission, StoredOk,
         RequestDigest, Conforms, RecordFailure, Acknowledge, VerifyIn, ReadPrimary, ReadMirror, ObserveObject,
         FinalResponse, BindContext, Authenticate;
    StoresParts(c, p, m, log);
    StageOkFits(c, p, m, log, request, stage, wrote);
    if stage.Bound? {
      PrimaryReplays(p, request, stage.context, k, event.call);
    } else {
      MirrorAccepts(c, p, m, request, stage.context, stage.stored, event.call);
    }
  }

  lemma AcknowledgingSmoothStep(
      c: Crypto, p: Database, m: Database, log: seq<Note>, request: Request, stage: Stage, wrote: bool, event: Event,
      k: RowKey)
    requires StoresOk(c, p, m, log) && StageOk(c, p, m, log, request, stage, wrote)
    requires k in p.rows && OnTrack(c, request, stage, k, p.rows[k])
    requires Smooth(p.rows, m.rows, request, stage, event)
    requires stage.MirrorAccepted?
    ensures var move := Advance(c, p, m, request, stage, event);
            OnTrack(c, request, move.stage, k, p.rows[k]) && Remaining(move.stage) + 1 == Remaining(stage)
  {
    hide StoresOk, Acknowledge, ContextOk, HoldsStored, RequestDigest, Conforms;
    MirrorAcceptedStores(c, p, m, log, request, stage.context, stage.stored, event.call);
  }

  lemma AnsweringSmoothStep(
      c: Crypto, p: Database, m: Database, log: seq<Note>, request: Request, stage: Stage, wrote: bool, event: Event,
      k: RowKey)
    requires StoresOk(c, p, m, log) && StageOk(c, p, m, log, request, stage, wrote)
    requires k in p.rows && OnTrack(c, request, stage, k, p.rows[k])
    requires Smooth(p.rows, m.rows, request, stage, event)
    requires stage.Acknowledged?
    ensures var move := Advance(c, p, m, request, stage, event);
            OnTrack(c, request, move.stage, k, p.rows[k]) && Remaining(move.stage) + 1 == Remaining(stage)
  {
    hide StoresOk, StageOk, TablesOk, OutboxOk, UniqueIds, MirrorAgrees, StoredOk, RowOk, RowsOk,
         FinalResponse, RequestDigest, Conforms;
    StoresParts(c, p, m, log);
    RowAt(c, p.rows, k);
    StageOkFits(c, p, m, log, request, stage, wrote);
    StoredUploadAnswers(c, p, request, stage.context, stage.stored, event.signing);
  }

  /** A smooth step of an attempt on track takes it one step nearer to its receipt. */
  lemma SmoothStepAdvances(
      c: Crypto, p: Database, m: Database, log: seq<Note>, request: Request, stage: Stage, wrote: bool, event: Event,
      k: RowKey)
    requires StoresOk(c, p, m, log) && StageOk(c, p, m, log, request, stage, wrote)
    requires k in p.rows && OnTrack(c, request, stage, k, p.rows[k])
    requires Smooth(p.rows, m.rows, request, stage, event)
    ensures var move := Advance(c, p, m, request, stage, event);
            OnTrack(c, request, move.stage, k, p.rows[k]) && Remaining(move.stage) + 1 == Remaining(stage)
  {
    hide StoresOk, StageOk, Advance, Smooth, Repeats, CarriesRow, Carries;
    match stage
    case Received => EarlySmoothStep(c, p, m, log, request, stage, wrote, event, k);
    case Validated => EarlySmoothStep(c, p, m, log, request, stage, wrote, event, k);
    case Identified(_) => EarlySmoothStep(c, p, m, log, request, stage, wrote, event, k);
    case Bound(_) => StoringSmoothStep(c, p, m, log, request, stage, wrote, event, k);
    case PrimaryStored(_, _) => StoringSmoothStep(c, p, m, log, request, stage, wrote, event, k);
    case MirrorAccepted(_, _) => AcknowledgingSmoothStep(c, p, m, log, request, stage, wrote, event, k);
    case Acknowledged(_, _) => AnsweringSmoothStep(c, p, m, log, request, stage, wrote, event, k);
    case Done(_) => DoneIsFinal(request, stage, event, p.rows, m.rows);
  }

  lemma DoneIsFinal(request: Request, stage: Stage, event: Event, p: Tables, m: Tables)
    requires stage.Done?
    ensures !Smooth(p, m, request, stage, event)
  {
  }

  lemma RowAt(c: Crypto, rows: Tables, k: RowKey)
    requires TablesOk(c, rows) && k in rows
    ensures RowsOk(c, rows) && RowOk(c, k, rows[k])
  {
  }

  lemma MirrorAccepts(
      c: Crypto, p: Database, m: Database, request: Request, context: SubmissionContext, stored: Stored, call: Call)
    requires UniqueIds(p.rows) && MirrorAgrees(p.rows, m.rows) && StoredOk(c, p, request, context, stored)
    requires call.fault == NoFault && Admission(m.rows, context, request.input.payload, call.databaseNow).Ok?
    ensures StoreMirror(m, request, context, stored, call).1 == MirrorAccepted(context, stored)
  {
    hide UniqueIds, MirrorAgrees, Store, Admission, HoldsStored;
    StoreMirrorResult(c, p, m, request, context, stored, call);
  }

  // ----- whole runs --------------------------------------------------------------------------------

  predicate IsStepOf(action: Action, i: nat) {
    action.Act? && action.attempt == i
  }

  function OwnSteps(actions: seq<Action>, i: nat): nat {
    if actions == [] then 0
    else OwnSteps(actions[..|actions| - 1], i) + if IsStepOf(actions[|actions| - 1], i) then 1 else 0
  }

  /** Every step attempt `i` takes in the run is possible and smooth; the others are arbitrary. */
  ghost predicate SmoothFor(s: System, actions: seq<Action>, i: nat) {
    actions == []
    || (var n := |actions| - 1;
        var before := Run(s, actions[..n]);
        && SmoothFor(s, actions[..n], i)
        && (IsStepOf(actions[n], i) ==>
              && i in before.attempts
              && Smooth(before.primary.rows, before.mirror.rows, before.attempts[i].request, before.attempts[i].stage,
                        actions[n].event)))
  }

  ghost predicate Underway(s: System, i: nat, k: RowKey, row: Row) {
    && i in s.attempts
    && k in s.primary.rows
    && RowKept(row, s.primary.rows[k])
    && OnTrack(s.crypto, s.attempts[i].request, s.attempts[i].stage, k, row)
  }

  lemma TrackFollowsRow(c: Crypto, request: Request, stage: Stage, k: RowKey, row: Row, after: Row)
    requires RowKept(row, after)
    ensures OnTrack(c, request, stage, k, row) <==> OnTrack(c, request, stage, k, after)
  {
  }

  lemma OthersLeaveAttempt(s: System, action: Action, i: nat)
    requires i in s.attempts && !IsStepOf(action, i)
    ensures var t := Apply(s, action); i in t.attempts && t.attempts[i] == s.attempts[i]
  {
    hide Advance, Enabled, StageFits;
  }

  lemma SmoothIsEnabled(p: Tables, m: Tables, request: Request, stage: Stage, event: Event)
    requires Smooth(p, m, request, stage, event)
    ensures Enabled(request, stage, event)
  {
  }

  lemma OwnStepAdvances(s: System, i: nat, event: Event, k: RowKey, row: Row)
    requires Inv(s) && Underway(s, i, k, row)
    requires Smooth(s.primary.rows, s.mirror.rows, s.attempts[i].request, s.attempts[i].stage, event)
    ensures var t := Apply(s, Act(i, event));
            && i in t.attempts
            && OnTrack(s.crypto, t.attempts[i].request, t.attempts[i].stage, k, row)
            && Remaining(t.attempts[i].stage) + 1 == Remaining(s.attempts[i].stage)
  {
    var a := s.attempts[i];
    assert AttemptOk(s, i);
    hide StoresOk, StageOk, OnTrack, Advance, Smooth, RowKept, StageFits, Enabled, Apply;
    StageOkFits(s.crypto, s.primary, s.mirror, s.log, a.request, a.stage, a.wrote);
    SmoothIsEnabled(s.primary.rows, s.mirror.rows, a.request, a.stage, event);
    ActsAlone(s, i, event);
    TrackFollowsRow(s.crypto, a.request, a.stage, k, row, s.primary.rows[k]);
    SmoothStepAdvances(s.crypto, s.primary, s.mirror, s.log, a.request, a.stage, a.wrote, event, k);
    TrackFollowsRow(s.crypto, a.request, MoveOf(s, i, event).stage, k, row, s.primary.rows[k]);
  }

  lemma RowStays(s: System, action: Action, k: RowKey, row: Row)
    requires Inv(s) && k in s.primary.rows && RowKept(row, s.primary.rows[k])
    ensures var t := Apply(s, action); k in t.primary.rows && RowKept(row, t.primary.rows[k]) && t.crypto == s.crypto
  {
    hide Inv, Advance;
    ApplyKeepsInv(s, action);
    var t := Apply(s, action);
    assert RowsGrow(s.primary.rows, t.primary.rows);
  }

  /** Along any interleaving, each own smooth step brings the attempt one step nearer. */
  lemma {:induction false} SmoothRunsAdvance(s: System, actions: seq<Action>, i: nat, k: RowKey, row: Row)
    requires Inv(s) && Underway(s, i, k, row) && SmoothFor(s, actions, i)
    ensures Underway(Run(s, actions), i, k, row)
    ensures Remaining(Run(s, actions).attempts[i].stage) + OwnSteps(actions, i) == Remaining(s.attempts[i].stage)
  {
    if actions != [] {
      var n := |actions| - 1;
      var before, action := Run(s, actions[..n]), actions[n];
      SmoothRunsAdvance(s, actions[..n], i, k, row);
      RunKeepsInv(s, actions[..n]);
      hide Inv, OnTrack, Smooth, Apply, RowKept;
      RowStays(before, action, k, row);
      if IsStepOf(action, i) {
        OwnStepAdvances(before, i, action.event, k, row);
      } else {
        OthersLeaveAttempt(before, action, i);
      }
    }
  }

  /**
   Retry convergence: from any reachable state, terminal outbox entries included, a repeated request
   whose seven own steps are smooth ends in 201 with the original identifier and time, under any
   interleaving with other attempts.
   */
  lemma RetryConverges(s: System, i: nat, request: Request, k: RowKey, actions: seq<Action>)
    requires Reachable(s) && i !in s.attempts && k in s.primary.rows
    requires Repeats(s.crypto, request, k, s.primary.rows[k].payloadSha256)
    requires SmoothFor(Apply(s, Arrive(i, request)), actions, i) && OwnSteps(actions, i) == 7
    ensures var t := Run(Apply(s, Arrive(i, request)), actions);
            && i in t.attempts
            && t.attempts[i].stage == Done(Accepted(s.primary.rows[k].id, k.kind, s.primary.rows[k].stamp))
  {
    ReachableInv(s);
    var row, start := s.primary.rows[k], Apply(s, Arrive(i, request));
    ApplyKeepsInv(s, Arrive(i, request));
    assert Underway(start, i, k, row);
    hide Inv, Run, SmoothFor;
    SmoothRunsAdvance(start, actions, i, k, row);
    var stage := Run(start, actions).attempts[i].stage;
    assert Remaining(stage) == 0;
  }

  /** The environment fails no step that attempt `i` takes in the run; the others are arbitrary. */
  ghost predicate FaultFreeFor(s: System, actions: seq<Action>, i: nat) {
    actions == []
    || (var n := |actions| - 1;
        var before := Run(s, actions[..n]);
        && FaultFreeFor(s, actions[..n], i)
        && (IsStepOf(actions[n], i) ==>
              && i in before.attempts
              && FaultFree(before.attempts[i].request, before.attempts[i].stage, actions[n].event)))
  }

  /** The subject the attempt was identified with, as long as it matters to a store. */
  predicate IsSubject(stage: Stage, subject: Option<string>) {
    match stage
    case Identified(known) => known == subject
    case Bound(context) => context.subject == subject
    case PrimaryStored(context, _) => context.subject == subject
    case _ => true
  }

  lemma FaultFreeIsSmooth(
      c: Crypto, p: Database, m: Database, log: seq<Note>, request: Request, stage: Stage, wrote: bool, event: Event)
    requires UniqueIds(p.rows) && UniqueIds(m.rows) && StageOk(c, p, m, log, request, stage, wrote)
    requires FaultFree(request, stage, event) && WithinLimits(request.input.payload)
    requires stage.Bound? ==> UploadsLive(p.rows, stage.context.subject, request.input.payload, event.call.databaseNow)
    requires stage.PrimaryStored? ==>
               UploadsLive(m.rows, stage.context.subject, request.input.payload, event.call.databaseNow)
    ensures Smooth(p.rows, m.rows, request, stage, event)
  {
    hide UniqueIds, UploadsLive, Admission, HoldsStored, Conforms, PayloadDigest, WithinLimits;
    if stage.Bound? {
      AdmittedExactly(p.rows, stage.context, request.input.payload, event.call.databaseNow);
    } else if stage.PrimaryStored? {
      AdmittedExactly(m.rows, stage.context, request.input.payload, event.call.databaseNow);
    }
  }

  lemma AttemptParts(t: System, i: nat, k: RowKey, row: Row)
    requires Inv(t) && Underway(t, i, k, row)
    ensures UniqueIds(t.primary.rows) && UniqueIds(t.mirror.rows) && AttemptOk(t, i)
    ensures t.attempts[i].request.CreateRequest? && t.attempts[i].request.input.payload.Kind() == k.kind
  {
    StoresParts(t.crypto, t.primary, t.mirror, t.log);
    hide StoresOk, StageOk, UniqueIds, RowKept;
  }

  /** Applications aside, a run whose environment does not fail the attempt is smooth for it. */
  lemma {:induction false} FaultFreeRunsAreSmooth(s: System, actions: seq<Action>, i: nat, k: RowKey, row: Row)
    requires Inv(s) && Underway(s, i, k, row) && FaultFreeFor(s, actions, i)
    requires k.kind != Application && s.attempts[i].request.CreateRequest?
    requires WithinLimits(s.attempts[i].request.input.payload)
    ensures SmoothFor(s, actions, i)
    ensures i in Run(s, actions).attempts && Run(s, actions).attempts[i].request == s.attempts[i].request
  {
    if actions != [] {
      var n := |actions| - 1;
      var before, action := Run(s, actions[..n]), actions[n];
      FaultFreeRunsAreSmooth(s, actions[..n], i, k, row);
      hide Inv, Run, OnTrack, Smooth, FaultFree, Apply, RowKept, StageOk, UniqueIds, WithinLimits;
      SmoothRunsAdvance(s, actions[..n], i, k, row);
      RunKeepsInv(s, actions[..n]);
      AttemptParts(before, i, k, row);
      RunSplits(s, actions);
      if IsStepOf(action, i) {
        var a := before.attempts[i];
        FaultFreeIsSmooth(before.crypto, before.primary, before.mirror, before.log, a.request, a.stage, a.wrote,
                          action.event);
        OwnStepAdvances(before, i, action.event, k, row);
        RequestStays(before, action, i);
      } else {
        OthersLeaveAttempt(before, action, i);
      }
    }
  }

  lemma RunSplits(s: System, actions: seq<Action>)
    requires actions != []
    ensures Run(s, actions) == Apply(Run(s, actions[..|actions| - 1]), actions[|actions| - 1])
  {
    hide Apply;
  }

  lemma RequestStays(s: System, action: Action, i: nat)
    requires i in s.attempts
    ensures i in Apply(s, action).attempts && Apply(s, action).attempts[i].request == s.attempts[i].request
  {
    hide Advance, Enabled, StageFits;
  }

  /**
   Retry convergence without admission: for every kind but applications, it is enough that the
   environment fails none of the seven own steps.
   */
  lemma FaultFreeRetryConverges(s: System, i: nat, request: Request, k: RowKey, actions: seq<Action>)
    requires Reachable(s) && i !in s.attempts && k in s.primary.rows && k.kind != Application
    requires Repeats(s.crypto, request, k, s.primary.rows[k].payloadSha256) && WithinLimits(request.input.payload)
    requires FaultFreeFor(Apply(s, Arrive(i, request)), actions, i) && OwnSteps(actions, i) == 7
    ensures var t := Run(Apply(s, Arrive(i, request)), actions);
            && i in t.attempts
            && t.attempts[i].stage == Done(Accepted(s.primary.rows[k].id, k.kind, s.primary.rows[k].stamp))
  {
    var start := Apply(s, Arrive(i, request));
    ReachableInv(s);
    ApplyKeepsInv(s, Arrive(i, request));
    assert Underway(start, i, k, s.primary.rows[k]);
    hide Inv, Run, SmoothFor, FaultFreeFor, WithinLimits, Underway;
    FaultFreeRunsAreSmooth(start, actions, i, k, s.primary.rows[k]);
    RetryConverges(s, i, request, k, actions);
  }

  // ----- such a run always exists -------------------------------------------------------------------

  function FaultFreeEvent(stage: Stage, subject: Option<string>, id: Uuid, now: int): Event {
    match stage
    case Received => ContractVerdict(true)
    case Validated => Identity(Ok(subject), Ok(()))
    case Identified(_) => FreshId(id)
    case Acknowledged(_, _) => Respond(Ok(()))
    case _ => DatabaseCall(Call(NoFault, now, now))
  }

  /** A bearer token identifies any caller; without one a public proof does, but not for referrals. */
  predicate CanIdentify(request: Request, subject: Option<string>) {
    && request.CreateRequest?
    && (subject.None? ==> !request.input.payload.ReferralCreate? && ProofOf(request).Some?)
  }

  lemma EventIsFaultFree(
      c: Crypto, request: Request, stage: Stage, k: RowKey, row: Row, subject: Option<string>, id: Uuid, now: int)
    requires OnTrack(c, request, stage, k, row) && !stage.Done? && CanIdentify(request, subject)
    ensures FaultFree(request, stage, FaultFreeEvent(stage, subject, id, now))
  {
    hide RequestDigest, Conforms;
  }

  /** Identified once, the attempt carries its subject. */
  lemma SubjectIsKept(
      c: Crypto, p: Database, m: Database, request: Request, stage: Stage, subject: Option<string>, id: Uuid, now: int)
    requires var event := FaultFreeEvent(stage, subject, id, now);
             StageFits(request, stage) && CanIdentify(request, subject) && FaultFree(request, stage, event)
    requires IsSubject(stage, subject)
    ensures var event := FaultFreeEvent(stage, subject, id, now);
            IsSubject(Advance(c, p, m, request, stage, event).stage, subject)
  {
    hide Store, MarkMirrored, RecordMirrorFailure, ChargeNote, FinalResponse, RequestDigest, Conforms;
  }

  /** Fault-free for applications too: their uploads are live in both databases, for this subject. */
  ghost predicate Admissible(s: System, request: Request, subject: Option<string>, now: int)
    requires request.CreateRequest?
  {
    && WithinLimits(request.input.payload)
    && UploadsLive(s.primary.rows, subject, request.input.payload, now)
    && UploadsLive(s.mirror.rows, subject, request.input.payload, now)
  }

  lemma AdmissibleStays(s: System, t: System, request: Request, subject: Option<string>, now: int)
    requires request.CreateRequest? && Admissible(s, request, subject, now)
    requires RowsGrow(s.primary.rows, t.primary.rows) && RowsGrow(s.mirror.rows, t.mirror.rows)
    ensures Admissible(t, request, subject, now)
  {
    hide NamesLive, RowsGrow;
    var payload := request.input.payload;
    if payload.ApplicationCreate? {
      CountsPersist(s.primary.rows, t.primary.rows, subject, payload.resumeUploadId, Resume, now);
      CountsPersist(s.primary.rows, t.primary.rows, subject, payload.photoIdUploadId, PhotoId, now);
      CountsPersist(s.mirror.rows, t.mirror.rows, subject, payload.resumeUploadId, Resume, now);
      CountsPersist(s.mirror.rows, t.mirror.rows, subject, payload.photoIdUploadId, PhotoId, now);
    }
  }

  lemma UnderwayIsNotDone(stage: Stage)
    requires Remaining(stage) > 0
    ensures !stage.Done?
  {
  }

  lemma StoresAskNow(stage: Stage, subject: Option<string>, id: Uuid, now: int)
    requires IsSubject(stage, subject) && (stage.Bound? || stage.PrimaryStored?)
    ensures stage.context.subject == subject
    ensures FaultFreeEvent(stage, subject, id, now) == DatabaseCall(Call(NoFault, now, now))
  {
  }

  lemma FaultFreeIsEnabled(request: Request, stage: Stage, event: Event)
    requires FaultFree(request, stage, event)
    ensures Enabled(request, stage, event)
  {
  }

  lemma NextStepIsSmooth(t: System, i: nat, k: RowKey, row: Row, subject: Option<string>, id: Uuid, now: int)
    requires Inv(t) && Underway(t, i, k, row) && Remaining(t.attempts[i].stage) > 0
    requires IsSubject(t.attempts[i].stage, subject) && CanIdentify(t.attempts[i].request, subject)
    requires Admissible(t, t.attempts[i].request, subject, now)
    ensures Smooth(t.primary.rows, t.mirror.rows, t.attempts[i].request, t.attempts[i].stage,
                   FaultFreeEvent(t.attempts[i].stage, subject, id, now))
  {
    hide Inv, StageOk, Smooth, RowKept, OnTrack, FaultFree, UploadsLive, UniqueIds, WithinLimits, FaultFreeEvent,
         IsSubject, Remaining;
    AttemptParts(t, i, k, row);
    var a := t.attempts[i];
    UnderwayIsNotDone(a.stage);
    EventIsFaultFree(t.crypto, a.request, a.stage, k, row, subject, id, now);
    if a.stage.Bound? || a.stage.PrimaryStored? {
      StoresAskNow(a.stage, subject, id, now);
    }
    FaultFreeIsSmooth(t.crypto, t.primary, t.mirror, t.log, a.request, a.stage, a.wrote,
                      FaultFreeEvent(a.stage, subject, id, now));
  }

  lemma SmoothRunExtends(s: System, before: seq<Action>, i: nat, event: Event)
    requires SmoothFor(s, before, i) && i in Run(s, before).attempts
    requires var t := Run(s, before);
             Smooth(t.primary.rows, t.mirror.rows, t.attempts[i].request, t.attempts[i].stage, event)
    ensures SmoothFor(s, before + [Act(i, event)], i)
    ensures OwnSteps(before + [Act(i, event)], i) == OwnSteps(before, i) + 1
    ensures Run(s, before + [Act(i, event)]) == Apply(Run(s, before), Act(i, event))
  {
    hide Smooth, Apply;
    var actions := before + [Act(i, event)];
    assert actions[..|actions| - 1] == before;
  }

  /** The attempt's own next step, with this subject, keeps the request and the subject. */
  lemma OwnStepKeepsSubject(t: System, i: nat, k: RowKey, row: Row, subject: Option<string>, id: Uuid, now: int)
    requires Inv(t) && Underway(t, i, k, row) && Remaining(t.attempts[i].stage) > 0
    requires IsSubject(t.attempts[i].stage, subject) && CanIdentify(t.attempts[i].request, subject)
    ensures var after := Apply(t, Act(i, FaultFreeEvent(t.attempts[i].stage, subject, id, now)));
            && i in after.attempts && after.attempts[i].request == t.attempts[i].request
            && IsSubject(after.attempts[i].stage, subject)
  {
    hide Inv, StageOk, RowKept, OnTrack, FaultFreeEvent, FaultFree, UniqueIds, Advance, StageFits, Enabled, IsSubject,
         Apply, Remaining;
    AttemptParts(t, i, k, row);
    var a := t.attempts[i];
    var event := FaultFreeEvent(a.stage, subject, id, now);
    UnderwayIsNotDone(a.stage);
    EventIsFaultFree(t.crypto, a.request, a.stage, k, row, subject, id, now);
    StageOkFits(t.crypto, t.primary, t.mirror, t.log, a.request, a.stage, a.wrote);
    FaultFreeIsEnabled(a.request, a.stage, event);
    ActsAlone(t, i, event);
    RequestStays(t, Act(i, event), i);
    SubjectIsKept(t.crypto, t.primary, t.mirror, a.request, a.stage, subject, id, now);
  }

  /** The next `n` steps of the attempt alone, none of them failing. */
  lemma {:induction false} FaultFreeSteps(
      s: System, i: nat, k: RowKey, row: Row, subject: Option<string>, id: Uuid, now: int, n: nat)
    returns (actions: seq<Action>)
    requires Inv(s) && Underway(s, i, k, row) && n <= Remaining(s.attempts[i].stage)
    requires IsSubject(s.attempts[i].stage, subject) && CanIdentify(s.attempts[i].request, subject)
    requires Admissible(s, s.attempts[i].request, subject, now)
    ensures SmoothFor(s, actions, i) && OwnSteps(actions, i) == n
    ensures var t := Run(s, actions);
            && i in t.attempts && t.attempts[i].request == s.attempts[i].request
            && IsSubject(t.attempts[i].stage, subject)
  {
    actions := [];
    if n > 0 {
      var before := FaultFreeSteps(s, i, k, row, subject, id, now, n - 1);
      hide Inv, Run, Smooth, RowKept, OnTrack, FaultFreeEvent, SmoothFor, OwnSteps, IsSubject, Admissible, Apply,
           RowsGrow;
      SmoothRunsAdvance(s, before, i, k, row);
      RunKeepsInv(s, before);
      var t := Run(s, before);
      AdmissibleStays(s, t, s.attempts[i].request, subject, now);
      var event := FaultFreeEvent(t.attempts[i].stage, subject, id, now);
      NextStepIsSmooth(t, i, k, row, subject, id, now);
      SmoothRunExtends(s, before, i, event);
      OwnStepKeepsSubject(t, i, k, row, subject, id, now);
      actions := before + [Act(i, event)];
    }
  }

  /**
   From every reachable state a stored submission can be repeated to its receipt, by any caller who can
   be identified, anonymous ones included, and at any time; an application, by any such caller and at
   any time for which its uploads are live.
   */
  lemma RetryCanAlwaysSucceed(
      s: System, i: nat, request: Request, k: RowKey, subject: Option<string>, id: Uuid, now: int)
    returns (actions: seq<Action>)
    requires Reachable(s) && i !in s.attempts && k in s.primary.rows
    requires Repeats(s.crypto, request, k, s.primary.rows[k].payloadSha256)
    requires CanIdentify(request, subject) && Admissible(s, request, subject, now)
    ensures var t := Run(Apply(s, Arrive(i, request)), actions);
            && i in t.attempts
            && t.attempts[i].stage == Done(Accepted(s.primary.rows[k].id, k.kind, s.primary.rows[k].stamp))
  {
    ReachableInv(s);
    var start := Apply(s, Arrive(i, request));
    ApplyKeepsInv(s, Arrive(i, request));
    assert Underway(start, i, k, s.primary.rows[k]);
    hide Inv, Run, SmoothFor, Repeats, UploadsLive, Underway;
    actions := FaultFreeSteps(start, i, k, s.primary.rows[k], subject, id, now, 7);
    RetryConverges(s, i, request, k, actions);
  }
}
