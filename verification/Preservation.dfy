/** Every step of every attempt keeps the invariant. */
module Preservation {
  import opened Results
  import opened Hex
  import opened ObjectKeys
  import opened ObjectVerification
  import opened Backoff
  import opened Persistence
  import opened Protocol
  import opened IntakeSystem
  import opened Invariants
  import opened Transactions
  import opened OutboxProofs

  // ----- what growth keeps ---------------------------------------------------------------------

  ghost predicate Extends(p: Database, m: Database, log: seq<Note>, p': Database, m': Database, log': seq<Note>) {
    RowsGrow(p.rows, p'.rows) && RowsGrow(m.rows, m'.rows) && log <= log'
  }

  lemma ObservedPersists(
      c: Crypto, log: seq<Note>, log': seq<Note>, objectKey: string, sha256: string, contentType: string, size: nat)
    requires log <= log' && Observed(c, log, objectKey, sha256, contentType, size)
    ensures Observed(c, log', objectKey, sha256, contentType, size)
  {
    var j :| ObservedAt(c, log, j, objectKey, sha256, contentType, size);
    assert log'[j] == log[j];
    assert ObservedAt(c, log', j, objectKey, sha256, contentType, size);
  }

  lemma HasRowGrows(p: Database, p': Database, kind: SubmissionKind, id: Uuid)
    requires RowsGrow(p.rows, p'.rows) && HasRow(p, kind, id)
    ensures HasRow(p', kind, id)
  {
  }

  /** What one attempt relies on survives whatever the other attempts do. */
  lemma StageStable(
      c: Crypto, p: Database, m: Database, log: seq<Note>, p': Database, m': Database, log': seq<Note>,
      request: Request, stage: Stage, wrote: bool)
    requires Extends(p, m, log, p', m', log') && StageOk(c, p, m, log, request, stage, wrote)
    ensures StageOk(c, p', m', log', request, stage, wrote)
  {
    match stage
    case PrimaryRead(subject, upload) =>
      HasUploadGrows(p.rows, p'.rows, subject, upload);
    case IdentityMatched(subject, upload) =>
      MatchedStable(p, m, p', m', request, subject, upload);
    case ObjectVerified(subject, upload) =>
      MatchedStable(p, m, p', m', request, subject, upload);
      ObservedPersists(c, log, log', upload.objectKey, upload.expectedSha256, upload.contentType, upload.sizeBytes);
    case MirrorVerified(subject, upload) =>
      MatchedStable(p, m, p', m', request, subject, upload);
      HasUploadGrows(m.rows, m'.rows, subject, upload);
      ObservedPersists(c, log, log', upload.objectKey, upload.expectedSha256, upload.contentType, upload.sizeBytes);
    case Done(response) =>
      if response.Failed? && response.failure.submissionId.Some? {
        HasRowGrows(p, p', request.input.payload.Kind(), response.failure.submissionId.value);
      }
    case PrimaryStored(context, stored) => StoredStable(c, p, p', request, context, stored);
    case MirrorRefused(context, stored) => StoredStable(c, p, p', request, context, stored);
    case MirrorAccepted(context, stored) => StoredStable(c, p, p', request, context, stored);
    case Acknowledged(context, stored) => StoredStable(c, p, p', request, context, stored);
    case _ =>
  }

  lemma StoredRequestCreates(c: Crypto, p: Database, request: Request, context: SubmissionContext, stored: Stored)
    requires StoredOk(c, p, request, context, stored)
    ensures request.CreateRequest? && Conforms(request)
  {
  }

  lemma StoredStable(c: Crypto, p: Database, p': Database, request: Request, context: SubmissionContext, stored: Stored)
    requires RowsGrow(p.rows, p'.rows) && StoredOk(c, p, request, context, stored)
    ensures StoredOk(c, p', request, context, stored)
  {
  }

  lemma MatchedStable(
      p: Database, m: Database, p': Database, m': Database, request: Request, subject: Option<string>,
      upload: PendingUpload)
    requires RowsGrow(p.rows, p'.rows) && RowsGrow(m.rows, m'.rows) && MatchedOk(p, m, request, subject, upload)
    ensures MatchedOk(p', m', request, subject, upload)
  {
  }

  lemma AgreementGrows(
      c: Crypto, rows: Tables, mirror: Tables, rows': Tables, mirror': Tables, log: seq<Note>)
    requires RowsGrow(rows, rows') && RowsGrow(mirror, mirror') && MirrorAgrees(rows, mirror)
    requires ReceiptsHold(c, rows, mirror, log)
    ensures mirror'.Keys == mirror.Keys ==> MirrorAgrees(rows', mirror')
    ensures ReceiptsHold(c, rows', mirror', log)
  {
  }

  lemma GrowthIsReflexive(rows: Tables)
    ensures RowsGrow(rows, rows)
  {
  }

  // ----- storing in the primary ----------------------------------------------------------------

  lemma InsertKeepsMirrored(p: Database, mirror: Tables, k: RowKey, row: Row)
    requires OutboxMatches(p) && Insertable(p, k, row) && MirroredAreMirrored(p, mirror)
    ensures MirroredAreMirrored(Inserted(p, k, row), mirror)
  {
    var after := Inserted(p, k, row);
    forall l, i | EntryFor(after, l, i) && after.outbox[i].status == Mirrored ensures l in mirror {
      EntriesAfterInsert(p, k, row, l, i);
    }
  }

  lemma InsertKeepsOrder(c: Crypto, rows: Tables, mirror: Tables, log: seq<Note>, k: RowKey, row: Row)
    requires VerifiedInOrder(c, rows, mirror, log) && !IsVerified(row)
    ensures VerifiedInOrder(c, rows[k := row], mirror, log)
  {
  }

  lemma NewRowsAreUnverified(target: PersistenceTarget, context: SubmissionContext, payload: Payload, call: Call)
    requires WellFormedPayload(payload)
    ensures var row := NewRow(target, context, payload, call);
            && !IsVerified(row)
            && row.id == context.canonicalId
            && row.payloadSha256 == context.payloadSha256
            && (payload.Kind() != Upload ==> row.progress == Mirroring(target.InitialMirrorStatus()))
  {
  }

  lemma StorePrimaryKeepsStores(
      c: Crypto, p: Database, m: Database, log: seq<Note>, context: SubmissionContext, payload: Payload, call: Call)
    requires StoresOk(c, p, m, log) && FitToStore(c, context, payload)
    ensures var after := Store(p, Primary, context, payload, call).db;
            StoresOk(c, after, m, log) && RowsGrow(p.rows, after.rows)
  {
    StoreEffect(p, Primary, context, payload, call);
    GrowthIsReflexive(p.rows);
    if Inserts(p, Primary, context, payload, call) {
      var k, row := RowKey(payload.Kind(), context.idempotencyKey), NewRow(Primary, context, payload, call);
      InsertInPrimary(c, p, m, log, context, payload, call, k, row);
    }
  }

  lemma InsertInPrimary(
      c: Crypto, p: Database, m: Database, log: seq<Note>, context: SubmissionContext, payload: Payload, call: Call,
      k: RowKey, row: Row)
    requires StoresOk(c, p, m, log) && FitToStore(c, context, payload) && Inserts(p, Primary, context, payload, call)
    requires k == RowKey(payload.Kind(), context.idempotencyKey) && row == NewRow(Primary, context, payload, call)
    ensures StoresOk(c, Inserted(p, k, row), m, log) && RowsGrow(p.rows, Inserted(p, k, row).rows)
  {
    hide TablesOk, OutboxOk, MirrorAgrees, MirroredAreMirrored, VerifiedInOrder, ReceiptsHold, RowsGrow, NewRow;
    NewRowsAreUnverified(Primary, context, payload, call);
    InsertKeepsTables(c, p, Primary, context, payload, call);
    assert Insertable(p, k, row);
    InsertKeepsOutbox(p, k, row, log);
    GrowthIsReflexive(m.rows);
    AgreementGrows(c, p.rows, m.rows, p.rows[k := row], m.rows, log);
    assert OutboxMatches(p) by { OutboxParts(p, log); }
    InsertKeepsMirrored(p, m.rows, k, row);
    InsertKeepsOrder(c, p.rows, m.rows, log, k, row);
  }

  lemma OutboxParts(p: Database, log: seq<Note>)
    requires OutboxOk(p, log)
    ensures OutboxMatches(p) && StatusesCoupled(p) && EntriesDistinct(p.outbox)
  {
  }

  lemma BoundStores(
      c: Crypto, p: Database, m: Database, log: seq<Note>, request: Request, context: SubmissionContext, call: Call)
    requires StoresOk(c, p, m, log) && ContextOk(c, request, context)
    ensures var p' := StorePrimary(p, request, context, call).0;
            StoresOk(c, p', m, log) && Extends(p, m, log, p', m, log)
  {
    hide StoresOk, RowsGrow, Store, Admission;
    StorePrimaryKeepsStores(c, p, m, log, context, request.input.payload, call);
    GrowthIsReflexive(p.rows);
    GrowthIsReflexive(m.rows);
  }

  lemma BoundStage(
      c: Crypto, p: Database, m: Database, log: seq<Note>, request: Request, context: SubmissionContext, call: Call)
    requires ContextOk(c, request, context)
    ensures var (p', next) := StorePrimary(p, request, context, call);
            StageOk(c, p', m, log, request, next, p' != p)
  {
    StoreEffect(p, Primary, context, request.input.payload, call);
  }

  // ----- storing in the mirror -----------------------------------------------------------------

  /** The identifier the primary gave is either free in the mirror or held by this very key. */
  lemma MirrorIdIsFree(rows: Tables, mirror: Tables, k: RowKey)
    requires UniqueIds(rows) && MirrorAgrees(rows, mirror) && k in rows
    ensures IdTaken(mirror, k.kind, rows[k].id) ==> k in mirror
  {
  }

  /**
   The mirror accepts or replays every submission the primary holds, under the primary's
   identifier; only the application check, run on the mirror's own tables, can refuse it.
   */
  lemma StoreMirrorResult(
      c: Crypto, p: Database, m: Database, request: Request, context: SubmissionContext, stored: Stored, call: Call)
    requires UniqueIds(p.rows) && MirrorAgrees(p.rows, m.rows)
    requires StoredOk(c, p, request, context, stored)
    ensures var tx := Store(m, SupabaseMirror, context.WithCanonicalId(stored.id), request.input.payload, call);
            && (tx.result.Ok? <==> Admission(m.rows, context, request.input.payload, call.databaseNow).Ok?)
            && (tx.result.Ok? ==> tx.result.value.id == stored.id && KeyOf(request, context) in tx.db.rows)
            && tx.result != Err(IdempotencyConflict)
  {
    var k := KeyOf(request, context);
    MirrorIdIsFree(p.rows, m.rows, k);
    StoreEffect(m, SupabaseMirror, context.WithCanonicalId(stored.id), request.input.payload, call);
  }

  lemma MirrorInsertAgrees(rows: Tables, mirror: Tables, k: RowKey, row: Row)
    requires MirrorAgrees(rows, mirror) && k in rows && rows[k].id == row.id
    requires rows[k].payloadSha256 == row.payloadSha256
    ensures MirrorAgrees(rows, mirror[k := row])
  {
  }

  lemma MirrorInsertKeepsOrder(c: Crypto, rows: Tables, mirror: Tables, log: seq<Note>, k: RowKey, row: Row)
    requires VerifiedInOrder(c, rows, mirror, log) && k !in mirror
    ensures VerifiedInOrder(c, rows, mirror[k := row], log)
  {
  }

  lemma InsertInMirror(
      c: Crypto, p: Database, m: Database, log: seq<Note>, context: SubmissionContext, payload: Payload, call: Call,
      k: RowKey, row: Row)
    requires StoresOk(c, p, m, log) && FitToStore(c, context, payload)
    requires Inserts(m, SupabaseMirror, context, payload, call)
    requires k == RowKey(payload.Kind(), context.idempotencyKey)
    requires row == NewRow(SupabaseMirror, context, payload, call)
    requires k in p.rows && p.rows[k].id == context.canonicalId && p.rows[k].payloadSha256 == context.payloadSha256
    ensures StoresOk(c, p, m.(rows := m.rows[k := row]), log) && RowsGrow(m.rows, m.rows[k := row])
  {
    hide TablesOk, OutboxOk, MirrorAgrees, VerifiedInOrder, ReceiptsHold, RowsGrow, NewRow;
    NewRowsAreUnverified(SupabaseMirror, context, payload, call);
    InsertKeepsTables(c, m, SupabaseMirror, context, payload, call);
    MirrorInsertAgrees(p.rows, m.rows, k, row);
    GrowthIsReflexive(p.rows);
    AgreementGrows(c, p.rows, m.rows, p.rows, m.rows[k := row], log);
    MirrorInsertKeepsOrder(c, p.rows, m.rows, log, k, row);
  }

  lemma StoreMirrorKeepsStores(
      c: Crypto, p: Database, m: Database, log: seq<Note>, request: Request, context: SubmissionContext, stored: Stored,
      call: Call)
    requires StoresOk(c, p, m, log) && StoredOk(c, p, request, context, stored)
    ensures var after := Store(m, SupabaseMirror, context.WithCanonicalId(stored.id), request.input.payload, call).db;
            StoresOk(c, p, after, log) && RowsGrow(m.rows, after.rows)
  {
    hide StoresOk, RowsGrow, Store, Admission, NewRow, Inserts, Encode, ObjectKey;
    var payload, mirrorContext := request.input.payload, context.WithCanonicalId(stored.id);
    StoreEffect(m, SupabaseMirror, mirrorContext, payload, call);
    GrowthIsReflexive(m.rows);
    if Inserts(m, SupabaseMirror, mirrorContext, payload, call) {
      var k, row := KeyOf(request, context), NewRow(SupabaseMirror, mirrorContext, payload, call);
      InsertInMirror(c, p, m, log, mirrorContext, payload, call, k, row);
    }
  }

  lemma PrimaryStoredStores(
      c: Crypto, p: Database, m: Database, log: seq<Note>, request: Request, context: SubmissionContext, stored: Stored,
      call: Call)
    requires StoresOk(c, p, m, log) && StoredOk(c, p, request, context, stored)
    ensures var m' := StoreMirror(m, request, context, stored, call).0;
            StoresOk(c, p, m', log) && Extends(p, m, log, p, m', log)
  {
    hide StoresOk, RowsGrow, Store, Admission;
    StoreMirrorKeepsStores(c, p, m, log, request, context, stored, call);
    GrowthIsReflexive(m.rows);
    GrowthIsReflexive(p.rows);
  }

  lemma PrimaryStoredStage(
      c: Crypto, p: Database, m: Database, log: seq<Note>, request: Request, context: SubmissionContext, stored: Stored,
      call: Call, wrote': bool)
    requires UniqueIds(p.rows) && MirrorAgrees(p.rows, m.rows) && StoredOk(c, p, request, context, stored)
    ensures var (m', next) := StoreMirror(m, request, context, stored, call);
            StageOk(c, p, m', log, request, next, wrote')
  {
  }

  // ----- acknowledging and charging ---------------------------------------------------------------

  /** The entry of a held submission, and the single row and entry the updates reach. */
  lemma EntryOf(p: Database, k: RowKey, log: seq<Note>) returns (i: int)
    requires OutboxOk(p, log) && k in p.rows
    ensures EntryFor(p, k, i)
  {
    assert RowHasEntry(p, k);
    i :| EntryFor(p, k, i);
  }

  lemma MarkEffect(p: Database, k: RowKey, i: int, log: seq<Note>)
    requires UniqueIds(p.rows) && OutboxOk(p, log) && EntryFor(p, k, i)
    ensures MarkMirrored(p, k.kind, p.rows[k].id, p.rows[k].payloadSha256) == Outcome(WithEntryMarked(p, k, i), Ok(()))
  {
    OneRowWithId(p.rows, k);
    OneEntry(p, k, i);
  }

  lemma ChargeEffect(p: Database, k: RowKey, i: int, now: int, log: seq<Note>)
    requires UniqueIds(p.rows) && OutboxOk(p, log) && EntryFor(p, k, i)
    ensures RecordMirrorFailure(p, k.kind, p.rows[k].id, MIRROR_ERROR_CODE, now)
         == if p.outbox[i].attempts < MAX_ATTEMPTS
            then Outcome(WithEntryCharged(p, k, i, MIRROR_ERROR_CODE, now), Ok(()))
            else Outcome(p, Err(Invariant))
    ensures var note := FailureRecorded(k.kind, p.rows[k].id, DelaySeconds(p.outbox[i].attempts));
            p.outbox[i].attempts < MAX_ATTEMPTS ==> ChargeNote(p.outbox, k.kind, p.rows[k].id) == note
  {
    OneRowWithId(p.rows, k);
    OneEntry(p, k, i);
    MirrorErrorCodeIsValid();
  }

  lemma MirrorErrorCodeIsValid()
    ensures IsErrorCode(MIRROR_ERROR_CODE)
  {
  }

  lemma MarkedRowsGrow(c: Crypto, p: Database, k: RowKey, i: int)
    requires TablesOk(c, p.rows) && EntryFor(p, k, i)
    ensures RowsGrow(p.rows, WithEntryMarked(p, k, i).rows) && TablesOk(c, WithEntryMarked(p, k, i).rows)
  {
    GrowthIsReflexive(p.rows);
    if k.kind != Upload {
      SetStatusKeepsTables(c, p.rows, k, Mirrored);
    }
  }

  lemma ChargedRowsGrow(c: Crypto, p: Database, k: RowKey, i: int, now: int)
    requires TablesOk(c, p.rows) && EntryFor(p, k, i)
    ensures var after := WithEntryCharged(p, k, i, MIRROR_ERROR_CODE, now);
            RowsGrow(p.rows, after.rows) && TablesOk(c, after.rows)
  {
    GrowthIsReflexive(p.rows);
    if k.kind != Upload {
      SetStatusKeepsTables(c, p.rows, k, RetryableFailure);
    }
  }

  lemma VerifiedOrderPersists(c: Crypto, rows: Tables, mirror: Tables, log: seq<Note>, log': seq<Note>)
    requires VerifiedInOrder(c, rows, mirror, log) && log <= log'
    ensures VerifiedInOrder(c, rows, mirror, log')
  {
    forall k | k in rows && k.kind == Upload && IsVerified(rows[k])
      ensures Observed(c, log', rows[k].progress.objectKey, rows[k].payload.sha256,
                       rows[k].payload.contentType, rows[k].payload.sizeBytes)
    {
      ObservedPersists(c, log, log', rows[k].progress.objectKey, rows[k].payload.sha256,
                       rows[k].payload.contentType, rows[k].payload.sizeBytes);
    }
  }

  lemma UpdateKeepsMirrored(p: Database, after: Database, mirror: Tables, k: RowKey, i: int)
    requires MirroredAreMirrored(p, mirror) && OutboxMatches(p) && UniqueIds(p.rows)
    requires EntryFor(p, k, i) && UpdatesOnly(p, after, k, i)
    requires after.outbox[i].status == Mirrored ==> k in mirror
    ensures MirroredAreMirrored(after, mirror)
  {
    SameEntriesMatch(p, after);
    forall l, j | EntryFor(after, l, j) && after.outbox[j].status == Mirrored ensures l in mirror {
      assert EntryFor(p, l, j);
      EntryIsOfRow(p, k, i, l, j);
    }
  }

  lemma StatusChangeKeepsOrder(c: Crypto, rows: Tables, after: Tables, mirror: Tables, log: seq<Note>)
    requires VerifiedInOrder(c, rows, mirror, log) && after.Keys == rows.Keys
    requires forall k :: k in rows && k.kind == Upload ==> after[k] == rows[k]
    ensures VerifiedInOrder(c, after, mirror, log)
  {
  }

  lemma ReceiptsPersist(c: Crypto, rows: Tables, mirror: Tables, log: seq<Note>, note: Note)
    requires ReceiptsHold(c, rows, mirror, log)
    requires note.ReceiptIssued? ==> ReceiptHolds(c, rows, mirror, note)
    ensures ReceiptsHold(c, rows, mirror, log + [note])
  {
  }

  lemma MarkKeepsStores(c: Crypto, p: Database, m: Database, log: seq<Note>, k: RowKey, i: int)
    requires StoresOk(c, p, m, log) && EntryFor(p, k, i) && k in m.rows
    ensures StoresOk(c, WithEntryMarked(p, k, i), m, log)
  {
    hide OutboxOk, MirrorAgrees, MirroredAreMirrored, VerifiedInOrder, ReceiptsHold, RowsGrow, OutboxMatches,
         UpdatesOnly, UniqueIds, RowsOk, ApplicationsBacked, StatusesCoupled, EntriesDistinct;
    var after := WithEntryMarked(p, k, i);
    MarkedRowsGrow(c, p, k, i);
    MarkKeepsOutbox(p, k, i, log);
    MarkUpdatesOnly(p, k, i);
    GrowthIsReflexive(m.rows);
    AgreementGrows(c, p.rows, m.rows, after.rows, m.rows, log);
    OutboxParts(p, log);
    UpdateKeepsMirrored(p, after, m.rows, k, i);
    StatusChangeKeepsOrder(c, p.rows, after.rows, m.rows, log);
  }

  lemma ChargeKeepsStores(c: Crypto, p: Database, m: Database, log: seq<Note>, k: RowKey, i: int, now: int)
    requires StoresOk(c, p, m, log) && EntryFor(p, k, i) && p.outbox[i].attempts < MAX_ATTEMPTS
    ensures var note := FailureRecorded(k.kind, p.rows[k].id, DelaySeconds(p.outbox[i].attempts));
            StoresOk(c, WithEntryCharged(p, k, i, MIRROR_ERROR_CODE, now), m, log + [note])
  {
    hide OutboxOk, MirrorAgrees, MirroredAreMirrored, VerifiedInOrder, ReceiptsHold, RowsGrow, OutboxMatches,
         UpdatesOnly, UniqueIds, RowsOk, ApplicationsBacked, StatusesCoupled, EntriesDistinct;
    var after := WithEntryCharged(p, k, i, MIRROR_ERROR_CODE, now);
    var note := FailureRecorded(k.kind, p.rows[k].id, DelaySeconds(p.outbox[i].attempts));
    ChargedRowsGrow(c, p, k, i, now);
    ChargeKeepsOutbox(p, k, i, MIRROR_ERROR_CODE, now, log);
    ChargeUpdatesOnly(p, k, i, MIRROR_ERROR_CODE, now);
    GrowthIsReflexive(m.rows);
    AgreementGrows(c, p.rows, m.rows, after.rows, m.rows, log);
    OutboxParts(p, log);
    UpdateKeepsMirrored(p, after, m.rows, k, i);
    StatusChangeKeepsOrder(c, p.rows, after.rows, m.rows, log);
    VerifiedOrderPersists(c, after.rows, m.rows, log, log + [note]);
    ReceiptsPersist(c, after.rows, m.rows, log, note);
  }

  lemma MirrorAcceptedStores(
      c: Crypto, p: Database, m: Database, log: seq<Note>, request: Request, context: SubmissionContext, stored: Stored,
      call: Call)
    requires StoresOk(c, p, m, log) && StoredOk(c, p, request, context, stored) && KeyOf(request, context) in m.rows
    ensures var (p', next) := Acknowledge(p, request.input.payload.Kind(), context, stored, call);
            && StoresOk(c, p', m, log)
            && Extends(p, m, log, p', m, log)
            && (call.fault == NoFault ==> next == Acknowledged(context, stored))
            && (next == Acknowledged(context, stored) || next == Done(Failed(MirrorUnavailable(stored.id))))
  {
    hide StoresOk, RowsGrow, MarkMirrored, OutboxOk, TablesOk, UniqueIds, MirrorAgrees, WithEntryMarked;
    var k := KeyOf(request, context);
    StoresParts(c, p, m, log);
    var i := EntryOf(p, k, log);
    MarkEffect(p, k, i, log);
    MarkKeepsStores(c, p, m, log, k, i);
    MarkedRowsGrow(c, p, k, i);
    GrowthIsReflexive(p.rows);
    GrowthIsReflexive(m.rows);
  }

  lemma StoresParts(c: Crypto, p: Database, m: Database, log: seq<Note>)
    requires StoresOk(c, p, m, log)
    ensures TablesOk(c, p.rows) && UniqueIds(p.rows) && OutboxOk(p, log)
    ensures TablesOk(c, m.rows) && UniqueIds(m.rows) && MirrorAgrees(p.rows, m.rows)
  {
  }

  lemma MirrorRefusedStores(
      c: Crypto, p: Database, m: Database, log: seq<Note>, request: Request, context: SubmissionContext, stored: Stored,
      call: Call)
    requires StoresOk(c, p, m, log) && StoredOk(c, p, request, context, stored)
    ensures var (p', next, note) := RecordFailure(p, request.input.payload.Kind(), stored, call);
            && StoresOk(c, p', m, Extended(log, note))
            && Extends(p, m, log, p', m, Extended(log, note))
            && next == Done(Failed(MirrorUnavailable(stored.id)))
  {
    hide StoresOk, RowsGrow, RecordMirrorFailure, OutboxOk, TablesOk, UniqueIds, MirrorAgrees, WithEntryCharged,
         ChargeNote;
    var k := KeyOf(request, context);
    StoresParts(c, p, m, log);
    var i := EntryOf(p, k, log);
    ChargeEffect(p, k, i, call.databaseNow, log);
    ChargedRowsGrow(c, p, k, i, call.databaseNow);
    if p.outbox[i].attempts < MAX_ATTEMPTS {
      ChargeKeepsStores(c, p, m, log, k, i, call.databaseNow);
    }
    GrowthIsReflexive(p.rows);
    GrowthIsReflexive(m.rows);
  }
}
