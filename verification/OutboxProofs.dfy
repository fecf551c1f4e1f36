/** The outbox stays in step with the rows, the budget and the recorded failures. */
module OutboxProofs {
  import opened ObjectKeys
  import opened Backoff
  import opened Persistence
  import opened Protocol
  import opened Invariants

  // ----- the recorded failures -------------------------------------------------------------------

  predicate IsFailureOf(note: Note, kind: SubmissionKind, id: Uuid) {
    note.FailureRecorded? && note.kind == kind && note.id == id
  }

  lemma {:induction false} NothingRecorded(log: seq<Note>, kind: SubmissionKind, id: Uuid)
    requires forall j :: 0 <= j < |log| ==> !IsFailureOf(log[j], kind, id)
    ensures FailureCount(log, kind, id) == 0 && ScheduledDelay(log, kind, id) == 0
  {
    if log != [] {
      assert !IsFailureOf(log[|log| - 1], kind, id);
      NothingRecorded(log[..|log| - 1], kind, id);
    }
  }

  /** Notes other than failures do not concern the outbox. */
  lemma OtherNotesKeepOutbox(p: Database, log: seq<Note>, note: Note)
    requires OutboxOk(p, log) && !note.FailureRecorded?
    ensures OutboxOk(p, log + [note])
  {
  }

  // ----- insertion ----------------------------------------------------------------------------------

  function Inserted(p: Database, k: RowKey, row: Row): Database {
    Database(p.rows[k := row], p.outbox + [NewOutboxRow(k.kind, row.id, row.payloadSha256)])
  }

  ghost predicate Insertable(p: Database, k: RowKey, row: Row) {
    && k !in p.rows
    && !IdTaken(p.rows, k.kind, row.id)
    && (k.kind != Upload ==> row.progress == Mirroring(Pending))
  }

  lemma NoEntryYet(p: Database, k: RowKey, row: Row, i: int)
    requires OutboxMatches(p) && Insertable(p, k, row) && 0 <= i < |p.outbox|
    ensures p.outbox[i].kind != k.kind || p.outbox[i].id != row.id
  {
    assert EntryHasRow(p, i);
    var l :| EntryFor(p, l, i);
  }

  lemma EntriesAfterInsert(p: Database, k: RowKey, row: Row, l: RowKey, i: int)
    requires OutboxMatches(p) && Insertable(p, k, row)
    ensures EntryFor(Inserted(p, k, row), l, i) <==>
            EntryFor(p, l, i) || (l == k && i == |p.outbox|)
  {
    if 0 <= i < |p.outbox| {
      NoEntryYet(p, k, row, i);
    }
  }

  lemma InsertKeepsMatching(p: Database, k: RowKey, row: Row)
    requires OutboxMatches(p) && Insertable(p, k, row)
    ensures OutboxMatches(Inserted(p, k, row))
  {
    var after := Inserted(p, k, row);
    forall l | l in after.rows ensures RowHasEntry(after, l) {
      if l == k {
        EntriesAfterInsert(p, k, row, k, |p.outbox|);
      } else {
        assert RowHasEntry(p, l);
        var i :| EntryFor(p, l, i);
        EntriesAfterInsert(p, k, row, l, i);
      }
    }
    forall i | 0 <= i < |after.outbox| ensures EntryHasRow(after, i) {
      if i == |p.outbox| {
        EntriesAfterInsert(p, k, row, k, i);
      } else {
        assert EntryHasRow(p, i);
        var l :| EntryFor(p, l, i);
        EntriesAfterInsert(p, k, row, l, i);
      }
    }
    forall i, j | 0 <= i < j < |after.outbox|
      ensures after.outbox[i].kind != after.outbox[j].kind || after.outbox[i].id != after.outbox[j].id
    {
      if j == |p.outbox| {
        NoEntryYet(p, k, row, i);
      }
    }
  }

  lemma InsertKeepsOutbox(p: Database, k: RowKey, row: Row, log: seq<Note>)
    requires OutboxOk(p, log) && Insertable(p, k, row)
    ensures OutboxOk(Inserted(p, k, row), log)
  {
    var after := Inserted(p, k, row);
    InsertKeepsMatching(p, k, row);
    forall l, i | EntryFor(after, l, i) && l.kind != Upload
      ensures after.rows[l].progress == Mirroring(StatusImage(after.outbox[i].status))
    {
      EntriesAfterInsert(p, k, row, l, i);
    }
    forall j | 0 <= j < |log| && log[j].FailureRecorded? ensures HasEntry(after.outbox, log[j].kind, log[j].id) {
      assert HasEntry(p.outbox, log[j].kind, log[j].id);
      var i :| 0 <= i < |p.outbox| && p.outbox[i].kind == log[j].kind && p.outbox[i].id == log[j].id;
      assert after.outbox[i] == p.outbox[i];
    }
    forall j | 0 <= j < |log| ensures !IsFailureOf(log[j], k.kind, row.id) {
      if log[j].FailureRecorded? {
        var i :| 0 <= i < |p.outbox| && p.outbox[i].kind == log[j].kind && p.outbox[i].id == log[j].id;
        NoEntryYet(p, k, row, i);
      }
    }
    NothingRecorded(log, k.kind, row.id);
    assert TotalDelay(0) == 0;
  }

  // ----- updates in place ---------------------------------------------------------------------------

  /** Same rows and entries up to the columns that change. */
  ghost predicate SameEntries(p: Database, after: Database) {
    && p.rows.Keys == after.rows.Keys
    && (forall k :: k in p.rows ==>
          after.rows[k].id == p.rows[k].id && after.rows[k].payloadSha256 == p.rows[k].payloadSha256)
    && |p.outbox| == |after.outbox|
    && forall i :: 0 <= i < |p.outbox| ==>
         && after.outbox[i].kind == p.outbox[i].kind
         && after.outbox[i].id == p.outbox[i].id
         && after.outbox[i].payloadSha256 == p.outbox[i].payloadSha256
  }

  lemma SameEntriesMatch(p: Database, after: Database)
    requires OutboxMatches(p) && SameEntries(p, after)
    ensures OutboxMatches(after)
    ensures forall k, i :: EntryFor(p, k, i) <==> EntryFor(after, k, i)
  {
    forall k, i ensures EntryFor(p, k, i) <==> EntryFor(after, k, i) {
    }
    forall k | k in after.rows ensures RowHasEntry(after, k) {
      assert RowHasEntry(p, k);
      var i :| EntryFor(p, k, i);
      assert EntryFor(after, k, i);
    }
    forall i | 0 <= i < |after.outbox| ensures EntryHasRow(after, i) {
      assert EntryHasRow(p, i);
      var k :| EntryFor(p, k, i);
      assert EntryFor(after, k, i);
    }
  }

  lemma EntryIsOfRow(p: Database, k: RowKey, i: int, l: RowKey, j: int)
    requires UniqueIds(p.rows) && EntriesDistinct(p.outbox)
    requires EntryFor(p, k, i) && EntryFor(p, l, j)
    ensures k == l <==> i == j
  {
  }

  function WithEntryMarked(p: Database, k: RowKey, i: int): Database {
    Database(if k.kind == Upload then p.rows else SetMirrorStatus(p.rows, {k}, Mirrored), MarkEntries(p.outbox, {i}))
  }

  function WithEntryCharged(p: Database, k: RowKey, i: int, code: string, now: int): Database {
    Database(if k.kind == Upload then p.rows else SetMirrorStatus(p.rows, {k}, RetryableFailure),
             ChargeEntries(p.outbox, {i}, code, now))
  }

  /** Only row `k` and entry `i` differ, and they agree with each other. */
  ghost predicate UpdatesOnly(p: Database, after: Database, k: RowKey, i: int)
    requires EntryFor(p, k, i)
  {
    && SameEntries(p, after)
    && (forall l :: l in p.rows && l != k ==> after.rows[l] == p.rows[l])
    && (forall j :: 0 <= j < |p.outbox| && j != i ==> after.outbox[j] == p.outbox[j])
    && (k.kind != Upload ==> after.rows[k].progress == Mirroring(StatusImage(after.outbox[i].status)))
  }

  lemma UpdateKeepsCoupling(p: Database, after: Database, k: RowKey, i: int)
    requires StatusesCoupled(p) && EntriesDistinct(p.outbox) && UniqueIds(p.rows)
    requires EntryFor(p, k, i) && UpdatesOnly(p, after, k, i)
    ensures StatusesCoupled(after)
  {
    forall l, j | EntryFor(after, l, j) && l.kind != Upload
      ensures after.rows[l].progress == Mirroring(StatusImage(after.outbox[j].status))
    {
      assert EntryFor(p, l, j);
      EntryIsOfRow(p, k, i, l, j);
    }
  }

  lemma SameIdsKeepFailures(outbox: seq<OutboxRow>, after: seq<OutboxRow>, log: seq<Note>)
    requires FailuresHaveEntries(outbox, log) && |outbox| == |after|
    requires forall i :: 0 <= i < |outbox| ==> after[i].kind == outbox[i].kind && after[i].id == outbox[i].id
    ensures FailuresHaveEntries(after, log)
  {
  }

  lemma UpdatesOnlyIsSame(p: Database, after: Database, k: RowKey, i: int)
    requires EntryFor(p, k, i) && UpdatesOnly(p, after, k, i)
    ensures SameEntries(p, after)
  {
  }

  lemma DistinctEntries(p: Database)
    requires OutboxMatches(p)
    ensures EntriesDistinct(p.outbox)
  {
  }

  lemma MarkUpdatesOnly(p: Database, k: RowKey, i: int)
    requires EntryFor(p, k, i)
    ensures UpdatesOnly(p, WithEntryMarked(p, k, i), k, i)
  {
  }

  lemma ChargeUpdatesOnly(p: Database, k: RowKey, i: int, code: string, now: int)
    requires EntryFor(p, k, i)
    ensures UpdatesOnly(p, WithEntryCharged(p, k, i, code, now), k, i)
  {
  }

  lemma MarkKeepsOutbox(p: Database, k: RowKey, i: int, log: seq<Note>)
    requires OutboxOk(p, log) && UniqueIds(p.rows) && EntryFor(p, k, i)
    ensures OutboxOk(WithEntryMarked(p, k, i), log)
  {
    hide UpdatesOnly, OutboxMatches, StatusesCoupled, FailuresHaveEntries, UniqueIds;
    var after := WithEntryMarked(p, k, i);
    MarkUpdatesOnly(p, k, i);
    UpdatesOnlyIsSame(p, after, k, i);
    DistinctEntries(p);
    SameEntriesMatch(p, after);
    UpdateKeepsCoupling(p, after, k, i);
    SameIdsKeepFailures(p.outbox, after.outbox, log);
  }

  lemma ChargeKeepsCounts(outbox: seq<OutboxRow>, after: seq<OutboxRow>, i: int, log: seq<Note>, note: Note)
    requires AttemptsCounted(outbox, log) && EntriesDistinct(outbox)
    requires |after| == |outbox| && 0 <= i < |outbox|
    requires IsFailureOf(note, outbox[i].kind, outbox[i].id) && note.delay == DelaySeconds(outbox[i].attempts)
    requires forall j :: 0 <= j < |outbox| ==>
               && after[j].kind == outbox[j].kind && after[j].id == outbox[j].id
               && after[j].attempts == outbox[j].attempts + if j == i then 1 else 0
    ensures AttemptsCounted(after, log + [note])
  {
  }

  lemma ChargeKeepsBudgets(outbox: seq<OutboxRow>, i: int, code: string, now: int)
    requires BudgetsKept(outbox) && 0 <= i < |outbox| && outbox[i].attempts < MAX_ATTEMPTS
    ensures BudgetsKept(outbox[i := Charged(outbox[i], code, now)])
  {
  }

  lemma NotedFailureHasEntry(outbox: seq<OutboxRow>, log: seq<Note>, note: Note, i: int)
    requires FailuresHaveEntries(outbox, log) && 0 <= i < |outbox|
    requires IsFailureOf(note, outbox[i].kind, outbox[i].id)
    ensures FailuresHaveEntries(outbox, log + [note])
  {
  }

  lemma ChargedOutbox(p: Database, k: RowKey, i: int, code: string, now: int)
    requires EntryFor(p, k, i)
    ensures var after := WithEntryCharged(p, k, i, code, now).outbox;
            && after == p.outbox[i := Charged(p.outbox[i], code, now)]
            && forall j :: 0 <= j < |p.outbox| ==>
                 && after[j].kind == p.outbox[j].kind && after[j].id == p.outbox[j].id
                 && after[j].attempts == p.outbox[j].attempts + if j == i then 1 else 0
  {
  }

  lemma ChargeKeepsOutbox(p: Database, k: RowKey, i: int, code: string, now: int, log: seq<Note>)
    requires OutboxOk(p, log) && UniqueIds(p.rows) && EntryFor(p, k, i) && p.outbox[i].attempts < MAX_ATTEMPTS
    ensures var note := FailureRecorded(k.kind, p.rows[k].id, DelaySeconds(p.outbox[i].attempts));
            OutboxOk(WithEntryCharged(p, k, i, code, now), log + [note])
  {
    var after := WithEntryCharged(p, k, i, code, now);
    var note := FailureRecorded(k.kind, p.rows[k].id, DelaySeconds(p.outbox[i].attempts));
    hide UpdatesOnly, OutboxMatches, StatusesCoupled, UniqueIds, AttemptsCounted, BudgetsKept, FailuresHaveEntries,
         EntriesDistinct, WithEntryCharged, Charged, SameEntries;
    ChargedOutbox(p, k, i, code, now);
    ChargeUpdatesOnly(p, k, i, code, now);
    UpdatesOnlyIsSame(p, after, k, i);
    DistinctEntries(p);
    SameEntriesMatch(p, after);
    UpdateKeepsCoupling(p, after, k, i);
    ChargeKeepsBudgets(p.outbox, i, code, now);
    ChargeKeepsCounts(p.outbox, after.outbox, i, log, note);
    SameIdsKeepFailures(p.outbox, after.outbox, log);
    NotedFailureHasEntry(after.outbox, log, note, i);
  }

  /** Changing upload columns concerns no submission status. */
  lemma UploadChangesKeepOutbox(p: Database, rows: Tables, log: seq<Note>)
    requires OutboxOk(p, log) && RowsGrow(p.rows, rows) && rows.Keys == p.rows.Keys
    requires forall k :: k in p.rows && k.kind != Upload ==> rows[k] == p.rows[k]
    ensures OutboxOk(p.(rows := rows), log) && SameEntries(p, p.(rows := rows))
  {
    var after := p.(rows := rows);
    forall k | k in p.rows ensures rows[k].id == p.rows[k].id && rows[k].payloadSha256 == p.rows[k].payloadSha256 {
      assert RowKept(p.rows[k], rows[k]);
    }
    SameEntriesMatch(p, after);
  }
}
