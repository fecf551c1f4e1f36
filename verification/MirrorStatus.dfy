/** Which steps of the system change an outbox entry, and how: so which ones undo a mirrored status. */
module MirrorStatus {
  import opened Results
  import opened Backoff
  import opened Persistence
  import opened Protocol
  import opened IntakeSystem
  import opened Invariants
  import opened Transactions
  import opened OutboxProofs
  import opened Preservation
  import opened Safety
  import TransactionLaws

  /** The step is an executed call of `mark_mirrored` or `record_mirror_failure` about this entry. */
  predicate Concerns(request: Request, stage: Stage, event: Event, entry: OutboxRow) {
    && (stage.MirrorAccepted? || stage.MirrorRefused?)
    && event.DatabaseCall? && event.call.fault != FailBeforeCommit
    && request.CreateRequest?
    && entry.kind == request.input.payload.Kind()
    && entry.id == stage.stored.id
  }

  /** What the step makes of an entry, whatever its status, column by column. */
  function EntryAfter(request: Request, stage: Stage, event: Event, entry: OutboxRow): OutboxRow {
    if !Concerns(request, stage, event, entry) then entry
    else if stage.MirrorAccepted? then
      OutboxRow(entry.kind, entry.id, entry.payloadSha256, Mirrored, entry.attempts, entry.nextAttemptAt, None)
    else if entry.attempts < 100 then
      OutboxRow(entry.kind, entry.id, entry.payloadSha256,
                if entry.attempts == 99 then TerminalFailure else RetryableFailure, entry.attempts + 1,
                Some(event.call.databaseNow + ShiftLeftOne(Least(entry.attempts, 11))), Some("supabase_unavailable"))
    else entry
  }

  lemma StoringKeepsEntries(p: Database, request: Request, context: SubmissionContext, call: Call, j: int)
    requires request.CreateRequest? && Conforms(request) && 0 <= j < |p.outbox|
    ensures var p' := StorePrimary(p, request, context, call).0; j < |p'.outbox| && p'.outbox[j] == p.outbox[j]
  {
    hide Store;
    StoreEffect(p, Primary, context, request.input.payload, call);
  }

  lemma EntryOfStored(
      c: Crypto, p: Database, log: seq<Note>, request: Request, context: SubmissionContext, stored: Stored, j: int)
    returns (i: int)
    requires UniqueIds(p.rows) && OutboxOk(p, log) && StoredOk(c, p, request, context, stored)
    ensures EntryFor(p, KeyOf(request, context), i) && p.rows[KeyOf(request, context)].id == stored.id
    ensures p.rows[KeyOf(request, context)].payloadSha256 == context.payloadSha256
    ensures 0 <= j < |p.outbox| ==>
              (p.outbox[j].kind == request.input.payload.Kind() && p.outbox[j].id == stored.id <==> j == i)
  {
    StoredRequestCreates(c, p, request, context, stored);
    hide StatusesCoupled, BudgetsKept, AttemptsCounted, FailuresHaveEntries, UniqueIds, ContextOk;
    DistinctEntries(p);
    i := EntryOf(p, KeyOf(request, context), log);
  }

  lemma KeyHasKind(request: Request, context: SubmissionContext)
    requires request.CreateRequest?
    ensures KeyOf(request, context).kind == request.input.payload.Kind()
  {
  }

  lemma AcknowledgingEntry(
      c: Crypto, p: Database, log: seq<Note>, request: Request, context: SubmissionContext, stored: Stored, call: Call,
      j: int)
    requires UniqueIds(p.rows) && OutboxOk(p, log) && StoredOk(c, p, request, context, stored) && 0 <= j < |p.outbox|
    ensures var p' := Acknowledge(p, request.input.payload.Kind(), context, stored, call).0;
            && j < |p'.outbox|
            && p'.outbox[j] == EntryAfter(request, MirrorAccepted(context, stored), DatabaseCall(call), p.outbox[j])
  {
    hide OutboxOk, UniqueIds, StoredOk, MarkMirrored, Conforms, KeyOf;
    StoredRequestCreates(c, p, request, context, stored);
    KeyHasKind(request, context);
    var i := EntryOfStored(c, p, log, request, context, stored, j);
    MarkEffect(p, KeyOf(request, context), i, log);
  }

  lemma ChargingEntry(
      c: Crypto, p: Database, log: seq<Note>, request: Request, context: SubmissionContext, stored: Stored, call: Call,
      j: int)
    requires UniqueIds(p.rows) && OutboxOk(p, log) && StoredOk(c, p, request, context, stored) && 0 <= j < |p.outbox|
    ensures var p' := RecordFailure(p, request.input.payload.Kind(), stored, call).0;
            && j < |p'.outbox|
            && p'.outbox[j] == EntryAfter(request, MirrorRefused(context, stored), DatabaseCall(call), p.outbox[j])
  {
    hide OutboxOk, UniqueIds, StoredOk, RecordMirrorFailure, ChargeNote, Conforms, KeyOf, Charged, ShiftLeftOne, Least;
    StoredRequestCreates(c, p, request, context, stored);
    KeyHasKind(request, context);
    var i := EntryOfStored(c, p, log, request, context, stored, j);
    ChargeEffect(p, KeyOf(request, context), i, call.databaseNow, log);
    if p.outbox[i].attempts < 100 {
      TransactionLaws.ChargedReads(p.outbox[i], MIRROR_ERROR_CODE, call.databaseNow);
    }
  }

  lemma VerifyingKeepsEntries(db: Database, request: Request, subject: Option<string>, call: Call, next: Stage)
    requires request.CompleteRequest?
    ensures VerifyIn(db, request, subject, call, next).0.outbox == db.outbox
  {
  }

  lemma EntryStep(
      c: Crypto, p: Database, m: Database, log: seq<Note>, request: Request, stage: Stage, wrote: bool, event: Event,
      j: int)
    requires UniqueIds(p.rows) && OutboxOk(p, log) && StageOk(c, p, m, log, request, stage, wrote)
    requires Enabled(request, stage, event) && 0 <= j < |p.outbox|
    ensures var p' := Advance(c, p, m, request, stage, event).primary;
            && |p.outbox| <= |p'.outbox|
            && p'.outbox[j] == EntryAfter(request, stage, event, p.outbox[j])
  {
    hide OutboxOk, UniqueIds, StorePrimary, StoreMirror, RecordFailure, Acknowledge, VerifyIn, ReadPrimary, ReadMirror,
         ObserveObject, BindContext, Authenticate, FinalResponse, ContextOk, HoldsStored, HasUpload, HasVerified,
         ObservedUpload;
    if !event.Crash? {
      match stage
      case Bound(context) =>
        StoringKeepsEntries(p, request, context, event.call, |p.outbox| - 1);
        StoringKeepsEntries(p, request, context, event.call, j);
      case MirrorAccepted(context, stored) =>
        AcknowledgingEntry(c, p, log, request, context, stored, event.call, |p.outbox| - 1);
        AcknowledgingEntry(c, p, log, request, context, stored, event.call, j);
      case MirrorRefused(context, stored) =>
        ChargingEntry(c, p, log, request, context, stored, event.call, |p.outbox| - 1);
        ChargingEntry(c, p, log, request, context, stored, event.call, j);
      case MirrorVerified(subject, upload) =>
        VerifyingKeepsEntries(p, request, subject, event.call, Done(UploadCompleted(request.uploadId)));
      case _ =>
    }
  }

  /**
   Every step of the system, on every outbox entry: an executed acknowledgement about the entry marks
   it, an executed failure record about it charges it while it has attempts left, and nothing else
   changes it.
   */
  lemma EntriesChangeExactly(s: System, i: nat, event: Event, j: int)
    requires Reachable(s) && CanAct(s, i, event) && 0 <= j < |s.primary.outbox|
    ensures var a, t := s.attempts[i], Apply(s, Act(i, event));
            && j < |t.primary.outbox|
            && t.primary.outbox[j] == EntryAfter(a.request, a.stage, event, s.primary.outbox[j])
  {
    hide Reachable, StageOk, StageFits, Enabled, Advance, UniqueIds, OutboxOk, EntryAfter, Apply, CanAct;
    ActingParts(s, i, event);
    var a := s.attempts[i];
    EntryStep(s.crypto, s.primary, s.mirror, s.log, a.request, a.stage, a.wrote, event, j);
    ActsAlone(s, i, event);
  }

  lemma ActingParts(s: System, i: nat, event: Event)
    requires Reachable(s) && CanAct(s, i, event)
    ensures i in s.attempts && UniqueIds(s.primary.rows) && OutboxOk(s.primary, s.log)
    ensures var a := s.attempts[i];
            && StageOk(s.crypto, s.primary, s.mirror, s.log, a.request, a.stage, a.wrote)
            && StageFits(a.request, a.stage) && Enabled(a.request, a.stage, event)
  {
    ReachableInv(s);
    assert AttemptOk(s, i);
    StoresParts(s.crypto, s.primary, s.mirror, s.log);
    hide Inv, StoresOk, TablesOk, StageOk, UniqueIds, OutboxOk, MirrorAgrees;
  }

  lemma NotingStep(
      c: Crypto, p: Database, m: Database, log: seq<Note>, request: Request, stage: Stage, wrote: bool, event: Event)
    returns (j: int)
    requires UniqueIds(p.rows) && OutboxOk(p, log) && StageOk(c, p, m, log, request, stage, wrote)
    requires Enabled(request, stage, event)
    requires var note := Advance(c, p, m, request, stage, event).note; note.Some? && note.value.FailureRecorded?
    ensures var note := Advance(c, p, m, request, stage, event).note.value;
            && 0 <= j < |p.outbox| && stage.MirrorRefused? && Concerns(request, stage, event, p.outbox[j])
            && note.kind == p.outbox[j].kind && note.id == p.outbox[j].id && p.outbox[j].attempts < 100
            && note.delay == ShiftLeftOne(Least(p.outbox[j].attempts, 11))
  {
    hide OutboxOk, UniqueIds, StoreMirror, StorePrimary, Acknowledge, VerifyIn, ReadPrimary, ReadMirror, BindContext,
         Authenticate, FinalResponse, ContextOk, HoldsStored, HasUpload, HasVerified, ObservedUpload,
         RecordMirrorFailure, ChargeNote, ShiftLeftOne, Least;
    if stage.MirrorRefused? {
      j := EntryOfStored(c, p, log, request, stage.context, stage.stored, 0);
      ChargeEffect(p, KeyOf(request, stage.context), j, event.call.databaseNow, log);
      CapNeverBinds(p.outbox[j].attempts);
    } else {
      j := 0;
    }
  }

  /**
   The delays the history counts are the ones imposed: a failure that is noted leaves its entry due
   again exactly that many seconds after the database's clock, with one more attempt.
   */
  lemma NotedDelayIsImposed(s: System, i: nat, event: Event, note: Note) returns (j: int)
    requires Reachable(s) && CanAct(s, i, event) && note.FailureRecorded?
    requires Apply(s, Act(i, event)).log == s.log + [note]
    ensures var t := Apply(s, Act(i, event));
            && event.DatabaseCall? && 0 <= j < |s.primary.outbox| && j < |t.primary.outbox|
            && t.primary.outbox[j].kind == note.kind && t.primary.outbox[j].id == note.id
            && t.primary.outbox[j].attempts == s.primary.outbox[j].attempts + 1
            && t.primary.outbox[j].nextAttemptAt == Some(event.call.databaseNow + note.delay)
  {
    hide Reachable, StageOk, StageFits, Enabled, Advance, UniqueIds, OutboxOk, Apply, CanAct, EntryAfter, Concerns,
         ShiftLeftOne, Least;
    ActingParts(s, i, event);
    var a := s.attempts[i];
    OneNoteAdded(s, i, event, note);
    j := NotingStep(s.crypto, s.primary, s.mirror, s.log, a.request, a.stage, a.wrote, event);
    EntriesChangeExactly(s, i, event, j);
    ChargedColumns(a.request, a.stage, event, s.primary.outbox[j]);
  }

  lemma ChargedColumns(request: Request, stage: Stage, event: Event, entry: OutboxRow)
    requires Concerns(request, stage, event, entry) && stage.MirrorRefused? && entry.attempts < 100
    ensures event.DatabaseCall?
    ensures var after := EntryAfter(request, stage, event, entry);
            && after.kind == entry.kind && after.id == entry.id && after.attempts == entry.attempts + 1
            && after.nextAttemptAt == Some(event.call.databaseNow + ShiftLeftOne(Least(entry.attempts, 11)))
  {
  }

  lemma OneNoteAdded(s: System, i: nat, event: Event, note: Note)
    requires CanAct(s, i, event) && Apply(s, Act(i, event)).log == s.log + [note]
    ensures MoveOf(s, i, event).note == Some(note)
  {
    hide Advance;
    var log := s.log + [note];
    assert log[|s.log|] == note;
  }

  /**
   Mirrored is undone exactly by an executed failure record about the entry, in a replay whose mirror
   call was refused or failed, while the entry has attempts left.
   */
  lemma MirroredIsUndoneExactly(s: System, i: nat, event: Event, j: int)
    requires Reachable(s) && CanAct(s, i, event)
    requires 0 <= j < |s.primary.outbox| && s.primary.outbox[j].status == Mirrored
    ensures var a, t, entry := s.attempts[i], Apply(s, Act(i, event)), s.primary.outbox[j];
            && j < |t.primary.outbox|
            && (t.primary.outbox[j].status != Mirrored <==>
                  && a.stage.MirrorRefused?
                  && event.DatabaseCall? && event.call.fault != FailBeforeCommit
                  && a.request.CreateRequest?
                  && entry.kind == a.request.input.payload.Kind() && entry.id == a.stage.stored.id
                  && entry.attempts < MAX_ATTEMPTS)
  {
    hide Reachable, Advance, Apply, CanAct;
    EntriesChangeExactly(s, i, event, j);
  }
}
