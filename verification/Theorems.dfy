/** What the intake service promises, for every reachable state and every later one. */
module Theorems {
  import opened Results
  import opened Hex
  import opened ObjectKeys
  import opened ObjectVerification
  import opened Backoff
  import opened Persistence
  import opened Protocol
  import opened IntakeSystem
  import opened Invariants
  import opened Transactions
  import opened Preservation
  import opened Safety

  // ----- agreement of the two databases -----------------------------------------------------------

  /** Two different canonical requests with one digest. */
  ghost predicate Collision(c: Crypto, left: Payload, right: Payload) {
    left != right && PayloadDigest(c, left) == PayloadDigest(c, right)
  }

  /**
   Every mirror row repeats a primary row of the same kind and key under the same identifier and
   digest, and holds the same payload unless the two payloads are a collision of the digest.
   */
  lemma CrossStoreAgreement(s: System, k: RowKey)
    requires Reachable(s) && k in s.mirror.rows
    ensures k in s.primary.rows
    ensures var row, twin := s.primary.rows[k], s.mirror.rows[k];
            && twin.id == row.id
            && twin.payloadSha256 == row.payloadSha256
            && (twin.payload == row.payload || Collision(s.crypto, twin.payload, row.payload))
  {
    ReachableInv(s);
    hide UniqueIds, ApplicationsBacked, OutboxOk, MirroredAreMirrored, VerifiedInOrder, ReceiptsHold, AttemptOk, Encode;
    assert RowOk(s.crypto, k, s.primary.rows[k]) && RowOk(s.crypto, k, s.mirror.rows[k]);
  }

  /**
   Two upload rows that share an identifier, one in each database, lie under one key and pass the
   identity check of `complete_upload`, unless their payloads are a collision of the digest.
   */
  lemma UploadIdentityAgrees(s: System, k: RowKey, l: RowKey)
    requires Reachable(s) && k in s.primary.rows && l in s.mirror.rows && k.kind == l.kind == Upload
    requires s.primary.rows[k].id == s.mirror.rows[l].id
    ensures k == l
    ensures var row, twin := s.primary.rows[k], s.mirror.rows[k];
            && row.payload.UploadIntentCreate? && row.progress.Uploading?
            && twin.payload.UploadIntentCreate? && twin.progress.Uploading?
            && (|| SameUploadIdentity(PendingFrom(row), PendingFrom(twin))
                || Collision(s.crypto, twin.payload, row.payload))
  {
    ReachableInv(s);
    CrossStoreAgreement(s, l);
    assert s.primary.rows[l].id == s.primary.rows[k].id;
    hide UniqueIds, ApplicationsBacked, OutboxOk, MirroredAreMirrored, VerifiedInOrder, ReceiptsHold, AttemptOk, Encode;
    assert RowOk(s.crypto, k, s.primary.rows[k]) && RowOk(s.crypto, k, s.mirror.rows[k]);
  }

  lemma RowRead(s: System, i: nat) returns (k: RowKey)
    requires Inv(s) && i in s.attempts && s.attempts[i].stage.PrimaryRead?
    ensures Declared(s.attempts[i].request, s.attempts[i].stage.primary)
    ensures k in s.primary.rows && k.kind == Upload
    ensures IsRowOf(s.primary.rows[k], s.attempts[i].stage.subject, s.attempts[i].stage.primary)
  {
    assert AttemptOk(s, i);
    hide StoresOk;
    k :| k in s.primary.rows && k.kind == Upload
         && IsRowOf(s.primary.rows[k], s.attempts[i].stage.subject, s.attempts[i].stage.primary);
  }

  lemma RowFound(rows: Tables, id: Uuid, subject: Option<string>, now: int) returns (l: RowKey)
    requires FindPendingUpload(rows, id, subject, now).Ok?
    ensures l in OpenUploads(rows, id, subject, now)
    ensures PendingFrom(rows[l]) == FindPendingUpload(rows, id, subject, now).value
  {
    l :| l in OpenUploads(rows, id, subject, now)
         && PendingFrom(rows[l]) == FindPendingUpload(rows, id, subject, now).value;
  }

  lemma MatchedReadGoesOn(
      rows: Tables, m: Database, request: Request, subject: Option<string>, upload: PendingUpload, call: Call,
      k: RowKey, l: RowKey)
    requires k in rows && IsRowOf(rows[k], subject, upload) && request.CompleteRequest? && call.fault == NoFault
    requires l in OpenUploads(m.rows, request.uploadId, subject, call.databaseNow)
    requires FindPendingUpload(m.rows, request.uploadId, subject, call.databaseNow) == Ok(PendingFrom(m.rows[l]))
    requires SameUploadIdentity(PendingFrom(rows[k]), PendingFrom(m.rows[l]))
    ensures ReadMirror(m, request, subject, upload, call) == IdentityMatched(subject, upload)
  {
    hide FindPendingUpload;
  }

  /**
   In the handler: once a completion has read the primary row and the mirror call finds an open row,
   the comparison passes and the attempt goes on, unless those two rows collide.
   */
  lemma IdentityCheckNeverFails(s: System, i: nat, call: Call) returns (k: RowKey)
    requires Reachable(s) && i in s.attempts && s.attempts[i].stage.PrimaryRead? && call.fault == NoFault
    requires s.attempts[i].request.CompleteRequest?
    requires FindPendingUpload(s.mirror.rows, s.attempts[i].request.uploadId, s.attempts[i].stage.subject,
                               call.databaseNow).Ok?
    ensures k in s.primary.rows && k in s.mirror.rows && k.kind == Upload
    ensures var a := s.attempts[i];
            || ReadMirror(s.mirror, a.request, a.stage.subject, a.stage.primary, call)
               == IdentityMatched(a.stage.subject, a.stage.primary)
            || Collision(s.crypto, s.mirror.rows[k].payload, s.primary.rows[k].payload)
  {
    ReachableInv(s);
    hide Inv, Reachable, Collision, FindPendingUpload, ReadMirror, SameUploadIdentity;
    var a := s.attempts[i];
    k := RowRead(s, i);
    var l := RowFound(s.mirror.rows, a.request.uploadId, a.stage.subject, call.databaseNow);
    UploadIdentityAgrees(s, k, l);
    if SameUploadIdentity(PendingFrom(s.primary.rows[k]), PendingFrom(s.mirror.rows[l])) {
      MatchedReadGoesOn(s.primary.rows, s.mirror, a.request, a.stage.subject, a.stage.primary, call, k, l);
    }
  }

  /**
   The mirror call of an attempt is accepted exactly when the mirror's own admission check passes;
   an accepted call always reports the primary's identifier, and a conflict cannot occur.
   */
  lemma MirrorGuardNeverFails(s: System, i: nat, call: Call)
    requires Reachable(s) && i in s.attempts && s.attempts[i].stage.PrimaryStored? && call.fault == NoFault
    ensures var a := s.attempts[i];
            && a.request.CreateRequest? && Conforms(a.request)
            && var context, payload := a.stage.context, a.request.input.payload;
               var result :=
                 Store(s.mirror, SupabaseMirror, context.WithCanonicalId(a.stage.stored.id), payload, call).result;
               && (result.Ok? ==> result.value.id == a.stage.stored.id)
               && (result.Ok? <==> Admission(s.mirror.rows, context, payload, call.databaseNow).Ok?)
               && result != Err(IdempotencyConflict)
               && (StoreMirror(s.mirror, a.request, context, a.stage.stored, call).1.MirrorAccepted? <==> result.Ok?)
  {
    ReachableInv(s);
    var a := s.attempts[i];
    assert AttemptOk(s, i);
    StoresParts(s.crypto, s.primary, s.mirror, s.log);
    hide Inv, StoresOk, Store, Admission, UniqueIds, MirrorAgrees, TablesOk, OutboxOk;
    StoreMirrorResult(s.crypto, s.primary, s.mirror, a.request, a.stage.context, a.stage.stored, call);
  }

  // ----- the outbox -----------------------------------------------------------------------------

  ghost predicate OnlyEntryFor(p: Database, k: RowKey, i: int) {
    EntryFor(p, k, i) && forall j :: EntryFor(p, k, j) ==> j == i
  }

  ghost predicate OnlyRowOf(p: Database, k: RowKey, i: int) {
    EntryFor(p, k, i) && forall l :: EntryFor(p, l, i) ==> l == k
  }

  ghost predicate HasOnlyEntry(p: Database, k: RowKey) {
    exists i :: OnlyEntryFor(p, k, i)
  }

  ghost predicate HasOnlyRow(p: Database, i: int) {
    exists k :: OnlyRowOf(p, k, i)
  }

  lemma EntriesAreUnique(p: Database, k: RowKey, i: int)
    requires UniqueIds(p.rows) && EntriesDistinct(p.outbox) && EntryFor(p, k, i)
    ensures OnlyEntryFor(p, k, i) && OnlyRowOf(p, k, i)
  {
  }

  ghost function RowsWithEntryBefore(p: Database, n: nat): set<RowKey> {
    set k | k in p.rows && exists i :: i < n && EntryFor(p, k, i)
  }

  lemma NextEntryAddsItsRow(p: Database, n: nat, k: RowKey)
    requires n > 0 && OnlyEntryFor(p, k, n - 1) && OnlyRowOf(p, k, n - 1)
    ensures k !in RowsWithEntryBefore(p, n - 1)
    ensures RowsWithEntryBefore(p, n) == RowsWithEntryBefore(p, n - 1) + {k}
  {
    forall l | l in RowsWithEntryBefore(p, n) ensures l in RowsWithEntryBefore(p, n - 1) + {k} {
      var i :| i < n && EntryFor(p, l, i);
      assert i == n - 1 ==> l == k;
    }
  }

  lemma {:induction false} EntriesCountRows(p: Database, n: nat)
    requires UniqueIds(p.rows) && OutboxMatches(p) && n <= |p.outbox|
    ensures |RowsWithEntryBefore(p, n)| == n
  {
    if n == 0 {
      assert RowsWithEntryBefore(p, 0) == {};
    } else {
      EntriesCountRows(p, n - 1);
      assert EntryHasRow(p, n - 1);
      var k :| EntryFor(p, k, n - 1);
      hide UniqueIds, EntryFor, OnlyEntryFor, OnlyRowOf, RowsWithEntryBefore;
      EntriesAreUnique(p, k, n - 1);
      NextEntryAddsItsRow(p, n, k);
    }
  }

  /** Primary rows and outbox entries are in one-to-one correspondence, so there are as many. */
  lemma OutboxBijection(s: System)
    requires Reachable(s)
    ensures forall k :: k in s.primary.rows ==> HasOnlyEntry(s.primary, k)
    ensures forall i :: 0 <= i < |s.primary.outbox| ==> HasOnlyRow(s.primary, i)
    ensures |s.primary.outbox| == |s.primary.rows|
    ensures s.mirror.outbox == []
  {
    ReachableInv(s);
    StoresParts(s.crypto, s.primary, s.mirror, s.log);
    OutboxParts(s.primary, s.log);
    MirrorKeepsNoOutbox(s);
    hide Inv, StoresOk, TablesOk, UniqueIds, OutboxOk, OutboxMatches, HasOnlyEntry, HasOnlyRow, MirrorAgrees,
         EntriesDistinct;
    MatchingIsBijective(s.primary);
    EntriesCountRows(s.primary, |s.primary.outbox|);
    AllRowsHaveEntries(s.primary);
  }

  lemma MirrorKeepsNoOutbox(s: System)
    requires Inv(s)
    ensures s.mirror.outbox == []
  {
  }

  lemma MatchingIsBijective(p: Database)
    requires UniqueIds(p.rows) && OutboxMatches(p)
    ensures forall k :: k in p.rows ==> HasOnlyEntry(p, k)
    ensures forall i :: 0 <= i < |p.outbox| ==> HasOnlyRow(p, i)
  {
    forall k | k in p.rows ensures HasOnlyEntry(p, k) {
      assert RowHasEntry(p, k);
      var i :| EntryFor(p, k, i);
      EntriesAreUnique(p, k, i);
    }
    forall i | 0 <= i < |p.outbox| ensures HasOnlyRow(p, i) {
      assert EntryHasRow(p, i);
      var k :| EntryFor(p, k, i);
      EntriesAreUnique(p, k, i);
    }
  }

  lemma AllRowsHaveEntries(p: Database)
    requires OutboxMatches(p)
    ensures RowsWithEntryBefore(p, |p.outbox|) == p.rows.Keys
  {
  }

  /** The status of a submission mirrors its entry's, and only mirrored rows are marked so. */
  lemma StatusCoupling(s: System, k: RowKey, i: int)
    requires Reachable(s) && EntryFor(s.primary, k, i)
    ensures k.kind != Upload ==> s.primary.rows[k].progress == Mirroring(StatusImage(s.primary.outbox[i].status))
    ensures s.primary.outbox[i].status == Mirrored ==> k in s.mirror.rows
    ensures s.primary.rows[k].progress == Mirroring(Mirrored) ==> k in s.mirror.rows
  {
    ReachableInv(s);
    hide AttemptOk, TablesOk, MirrorAgrees, VerifiedInOrder, ReceiptsHold, OutboxMatches, BudgetsKept, AttemptsCounted;
    if k.kind == Upload {
      UploadRowsCarryNoStatus(s, k);
    }
  }

  lemma UploadRowsCarryNoStatus(s: System, k: RowKey)
    requires Inv(s) && k in s.primary.rows && k.kind == Upload
    ensures s.primary.rows[k].progress.Uploading?
  {
  }

  /** The acknowledgement of an accepted mirror write reaches one row and one entry, and succeeds. */
  lemma AcknowledgementReachesOneRow(s: System, i: nat, call: Call)
    requires Reachable(s) && i in s.attempts && s.attempts[i].stage.MirrorAccepted? && call.fault == NoFault
    ensures var a := s.attempts[i];
            var context, stored := a.stage.context, a.stage.stored;
            && a.request.CreateRequest?
            && var kind := a.request.input.payload.Kind();
               && |RowsWithDigest(s.primary.rows, kind, stored.id, context.payloadSha256)| == 1
               && |EntriesToMark(s.primary.outbox, kind, stored.id, context.payloadSha256)| == 1
               && Acknowledge(s.primary, kind, context, stored, call).1 == Acknowledged(context, stored)
  {
    ReachableInv(s);
    var a := s.attempts[i];
    assert AttemptOk(s, i);
    hide Inv, StoresOk, UniqueIds, MirrorAgrees, TablesOk, OutboxOk, StageFits;
    StoresParts(s.crypto, s.primary, s.mirror, s.log);
    var k := KeyOf(a.request, a.stage.context);
    var j := EntryOf(s.primary, k, s.log);
    OneRowWithId(s.primary.rows, k);
    DistinctOf(s.primary, s.log);
    OneEntry(s.primary, k, j);
    MarkEffect(s.primary, k, j, s.log);
  }

  lemma DistinctOf(p: Database, log: seq<Note>)
    requires OutboxOk(p, log)
    ensures EntriesDistinct(p.outbox)
  {
  }

  /**
   Recording a mirror failure succeeds exactly while the entry has attempts left; beyond that the
   whole transaction, the row's new status included, is rolled back.
   */
  lemma FailureRecordedWithinBudget(s: System, i: nat, now: int) returns (k: RowKey, j: int)
    requires Reachable(s) && i in s.attempts && s.attempts[i].stage.MirrorRefused?
    ensures EntryFor(s.primary, k, j) && s.primary.rows[k].id == s.attempts[i].stage.stored.id
    ensures var tx := RecordMirrorFailure(s.primary, k.kind, s.attempts[i].stage.stored.id, MIRROR_ERROR_CODE, now);
            && (tx.result.Ok? <==> s.primary.outbox[j].attempts < MAX_ATTEMPTS)
            && (tx.result.Err? ==> tx.db == s.primary)
            && (tx.result.Ok? ==>
                  && 0 <= j < |tx.db.outbox|
                  && tx.db.outbox[j] == Charged(s.primary.outbox[j], MIRROR_ERROR_CODE, now)
                  && tx.db.outbox[j].status in {RetryableFailure, TerminalFailure})
  {
    ReachableInv(s);
    var a := s.attempts[i];
    assert AttemptOk(s, i);
    hide Inv, StoresOk, UniqueIds, MirrorAgrees, TablesOk, OutboxOk, StageFits;
    StoresParts(s.crypto, s.primary, s.mirror, s.log);
    k := KeyOf(a.request, a.stage.context);
    j := EntryOf(s.primary, k, s.log);
    ChargeEffect(s.primary, k, j, now, s.log);
  }

  /** Attempts count the committed failures; a hundred of them close the entry or find it mirrored. */
  lemma RetryBudget(s: System, i: int)
    requires Reachable(s) && 0 <= i < |s.primary.outbox|
    ensures var entry := s.primary.outbox[i];
            && entry.attempts == FailureCount(s.log, entry.kind, entry.id) <= MAX_ATTEMPTS
            && (entry.status == TerminalFailure ==> entry.attempts == MAX_ATTEMPTS)
            && (entry.attempts == MAX_ATTEMPTS ==> entry.status in {TerminalFailure, Mirrored})
            && (entry.nextAttemptAt.Some? <==> entry.attempts > 0)
            && (entry.lastError.Some? <==> entry.status in {RetryableFailure, TerminalFailure})
            && ScheduledDelay(s.log, entry.kind, entry.id) == TotalDelay(entry.attempts) <= 184319
  {
    ReachableInv(s);
    hide AttemptOk, TablesOk, MirrorAgrees, VerifiedInOrder, ReceiptsHold, OutboxMatches;
    assert WithinBudget(s.primary.outbox[i]);
    WholeBudget(s.primary.outbox[i].attempts);
  }

  // ----- uploads and applications ---------------------------------------------------------------

  /** A verified primary upload was downloaded and matched before, and its mirror twin is verified. */
  lemma UploadOrder(s: System, k: RowKey)
    requires Reachable(s) && k in s.primary.rows && k.kind == Upload && IsVerified(s.primary.rows[k])
    ensures k in s.mirror.rows && IsVerified(s.mirror.rows[k]) && SameUploadRow(s.primary.rows[k], s.mirror.rows[k])
    ensures exists j :: ObservedAt(s.crypto, s.log, j, s.primary.rows[k].progress.objectKey,
                                   s.primary.rows[k].payload.sha256, s.primary.rows[k].payload.contentType,
                                   s.primary.rows[k].payload.sizeBytes)
  {
    ReachableInv(s);
    hide AttemptOk, TablesOk, OutboxOk, MirrorAgrees, ReceiptsHold;
  }

  ghost predicate BackedByTwo(rows: Tables, k: RowKey, resume: RowKey, photoId: RowKey)
    requires k in rows && rows[k].payload.ApplicationCreate?
  {
    && resume in rows && photoId in rows && resume != photoId
    && resume.kind == Upload && photoId.kind == Upload
    && IsVerifiedUpload(rows[resume], rows[k].subject, rows[k].payload.resumeUploadId, Resume)
    && IsVerifiedUpload(rows[photoId], rows[k].subject, rows[k].payload.photoIdUploadId, PhotoId)
  }

  lemma BackingUploads(rows: Tables, k: RowKey) returns (resume: RowKey, photoId: RowKey)
    requires ApplicationsBacked(rows) && k in rows && rows[k].payload.ApplicationCreate?
    ensures BackedByTwo(rows, k, resume, photoId)
  {
    var row := rows[k];
    assert HasVerifiedUpload(rows, row.subject, row.payload.resumeUploadId, Resume);
    assert HasVerifiedUpload(rows, row.subject, row.payload.photoIdUploadId, PhotoId);
    resume :| resume in rows && resume.kind == Upload
              && IsVerifiedUpload(rows[resume], row.subject, row.payload.resumeUploadId, Resume);
    photoId :| photoId in rows && photoId.kind == Upload
               && IsVerifiedUpload(rows[photoId], row.subject, row.payload.photoIdUploadId, PhotoId);
  }

  lemma ApplicationIsBacked(c: Crypto, rows: Tables, k: RowKey)
    requires TablesOk(c, rows) && k in rows && k.kind == Application
    ensures rows[k].payload.ApplicationCreate?
    ensures exists resume, photoId :: BackedByTwo(rows, k, resume, photoId)
  {
    assert RowOk(c, k, rows[k]);
    hide RowsOk, ApplicationsBacked, UniqueIds, RowOk;
    var resume, photoId := BackingUploads(rows, k);
  }

  /** In each database, every application points to two distinct verified uploads of its subject. */
  lemma ApplicationAdmission(s: System, k: RowKey)
    requires Reachable(s)
    ensures k in s.primary.rows && k.kind == Application ==>
              && s.primary.rows[k].payload.ApplicationCreate?
              && exists resume, photoId :: BackedByTwo(s.primary.rows, k, resume, photoId)
    ensures k in s.mirror.rows && k.kind == Application ==>
              && s.mirror.rows[k].payload.ApplicationCreate?
              && exists resume, photoId :: BackedByTwo(s.mirror.rows, k, resume, photoId)
  {
    ReachableInv(s);
    StoresParts(s.crypto, s.primary, s.mirror, s.log);
    hide Inv, StoresOk, TablesOk, UniqueIds, OutboxOk, MirrorAgrees, BackedByTwo;
    if k in s.primary.rows && k.kind == Application {
      ApplicationIsBacked(s.crypto, s.primary.rows, k);
    }
    if k in s.mirror.rows && k.kind == Application {
      ApplicationIsBacked(s.crypto, s.mirror.rows, k);
    }
  }

  ghost predicate LiveInMirror(
      rows: Tables, mirror: Tables, subject: Option<string>, id: Uuid, kind: UploadKind, now: int, mirrorNow: int)
  {
    forall k :: k in rows && k.kind == Upload && NamesUpload(rows[k], subject, id, kind, now)
      ==> k in mirror && mirror[k].stamp > mirrorNow
  }

  /** The mirror holds a counted upload under the same key, with the same owner and kind. */
  lemma TwinOfCounted(s: System, k: RowKey, subject: Option<string>, id: Uuid, kind: UploadKind, now: int)
    requires Inv(s) && k in s.primary.rows && k.kind == Upload && NamesUpload(s.primary.rows[k], subject, id, kind, now)
    ensures k in s.mirror.rows && IsVerifiedUpload(s.mirror.rows[k], subject, id, kind)
  {
    OrderOf(s);
    StoresParts(s.crypto, s.primary, s.mirror, s.log);
    hide Inv, StoresOk, OutboxOk, UniqueIds, ApplicationsBacked, Observed, RowOk, MirrorAgrees;
    TwinKindsAgree(s.crypto, k, s.primary.rows[k], s.mirror.rows[k]);
  }

  lemma LiveTwin(
      mirror: Tables, k: RowKey, subject: Option<string>, id: Uuid, kind: UploadKind, mirrorNow: int)
    requires UniqueIds(mirror) && k in mirror && k.kind == Upload && IsVerifiedUpload(mirror[k], subject, id, kind)
    ensures NamesLive(mirror, subject, id, kind, mirrorNow) <==> mirror[k].stamp > mirrorNow
  {
  }

  lemma LiveNamesake(
      rows: Tables, mirror: Tables, k: RowKey, subject: Option<string>, id: Uuid, kind: UploadKind, now: int,
      mirrorNow: int)
    requires UniqueIds(rows) && k in mirror
    requires k in rows && k.kind == Upload && NamesUpload(rows[k], subject, id, kind, now)
    ensures LiveInMirror(rows, mirror, subject, id, kind, now, mirrorNow) <==> mirror[k].stamp > mirrorNow
  {
  }

  /** An upload the primary counts is counted by the mirror too, unless its mirror expiry has elapsed. */
  lemma CountedUploadIsMirrored(
      s: System, subject: Option<string>, id: Uuid, kind: UploadKind, now: int, mirrorNow: int)
    requires Inv(s) && NamesLive(s.primary.rows, subject, id, kind, now)
    ensures NamesLive(s.mirror.rows, subject, id, kind, mirrorNow)
       <==> LiveInMirror(s.primary.rows, s.mirror.rows, subject, id, kind, now, mirrorNow)
  {
    hide Inv, StoresOk, TablesOk, OutboxOk, MirrorAgrees, UniqueIds, LiveInMirror;
    StoresPartsOf(s);
    var k :| k in s.primary.rows && k.kind == Upload && NamesUpload(s.primary.rows[k], subject, id, kind, now);
    hide NamesLive;
    TwinOfCounted(s, k, subject, id, kind, now);
    LiveTwin(s.mirror.rows, k, subject, id, kind, mirrorNow);
    LiveNamesake(s.primary.rows, s.mirror.rows, k, subject, id, kind, now, mirrorNow);
  }

  lemma StoresPartsOf(s: System)
    requires Inv(s)
    ensures StoresOk(s.crypto, s.primary, s.mirror, s.log)
    ensures UniqueIds(s.primary.rows) && UniqueIds(s.mirror.rows)
  {
  }

  lemma OrderOf(s: System)
    requires Inv(s)
    ensures VerifiedInOrder(s.crypto, s.primary.rows, s.mirror.rows, s.log)
  {
  }

  /** Equal object keys determine the upload kind: the identity check covers it although it omits it. */
  lemma TwinKindsAgree(c: Crypto, k: RowKey, row: Row, twin: Row)
    requires k.kind == Upload && RowOk(c, k, row) && RowOk(c, k, twin) && SameUploadRow(row, twin)
    ensures row.payload.uploadKind == twin.payload.uploadKind
  {
  }

  /** The upload counted before and after is one row, so its mirror expiry decides both times. */
  lemma LiveInMirrorPersists(
      before: Tables, after: Tables, mirror: Tables, subject: Option<string>, id: Uuid, kind: UploadKind, now: int,
      mirrorNow: int)
    requires RowsGrow(before, after) && UniqueIds(after) && NamesLive(before, subject, id, kind, now)
    ensures LiveInMirror(before, mirror, subject, id, kind, now, mirrorNow)
       <==> LiveInMirror(after, mirror, subject, id, kind, now, mirrorNow)
  {
    var k :| k in before && k.kind == Upload && NamesUpload(before[k], subject, id, kind, now);
    assert RowKept(before[k], after[k]);
    assert NamesUpload(after[k], subject, id, kind, now);
    forall l | l in after && l.kind == Upload && NamesUpload(after[l], subject, id, kind, now) ensures l == k {
    }
    forall l | l in before && l.kind == Upload && NamesUpload(before[l], subject, id, kind, now) ensures l == k {
      assert RowKept(before[l], after[l]);
    }
  }

  /**
   When the primary admits an application, the mirror's check passes at any later time, whatever
   other attempts did in between, if and only if neither upload's mirror expiry has elapsed by then.
   */
  lemma MirrorCheckFollowsPrimary(
      s: System, later: seq<Action>, subject: Option<string>, resume: Uuid, photoId: Uuid, now: int, mirrorNow: int)
    requires Reachable(s) && |MatchingUploads(s.primary.rows, subject, resume, photoId, now)| == 2
    ensures var t := Run(s, later);
            (|MatchingUploads(t.mirror.rows, subject, resume, photoId, mirrorNow)| == 2 <==>
               && LiveInMirror(s.primary.rows, t.mirror.rows, subject, resume, Resume, now, mirrorNow)
               && LiveInMirror(s.primary.rows, t.mirror.rows, subject, photoId, PhotoId, now, mirrorNow))
  {
    var t := Run(s, later);
    ReachableInv(s);
    RunKeepsInv(s, later);
    StoresPartsOf(s);
    StoresPartsOf(t);
    assert RowsGrow(s.primary.rows, t.primary.rows);
    hide Inv, Run, StoresOk, MatchingUploads, UniqueIds, NamesLive, LiveInMirror, OutboxOk, MirrorAgrees, TablesOk,
         RowsGrow;
    CountIsTwoExactly(s.primary.rows, subject, resume, photoId, now);
    CountIsTwoExactly(t.mirror.rows, subject, resume, photoId, mirrorNow);
    CountsPersist(s.primary.rows, t.primary.rows, subject, resume, Resume, now);
    CountsPersist(s.primary.rows, t.primary.rows, subject, photoId, PhotoId, now);
    CountedUploadIsMirrored(t, subject, resume, Resume, now, mirrorNow);
    CountedUploadIsMirrored(t, subject, photoId, PhotoId, now, mirrorNow);
    LiveInMirrorPersists(s.primary.rows, t.primary.rows, t.mirror.rows, subject, resume, Resume, now, mirrorNow);
    LiveInMirrorPersists(s.primary.rows, t.primary.rows, t.mirror.rows, subject, photoId, PhotoId, now, mirrorNow);
  }

  // ----- receipts -----------------------------------------------------------------------------

  /** Once a receipt is issued, row, mirror row and outbox entry exist in every later state. */
  lemma ReceiptsAreDurable(s: System, j: nat, later: seq<Action>)
    requires Reachable(s) && j < |s.log| && s.log[j].ReceiptIssued?
    ensures var t, receipt := Run(s, later), s.log[j];
            && receipt.k in t.primary.rows && receipt.k in t.mirror.rows
            && t.primary.rows[receipt.k].id == receipt.id == t.mirror.rows[receipt.k].id
            && t.primary.rows[receipt.k].payloadSha256 == receipt.payloadSha256
            && t.mirror.rows[receipt.k].payloadSha256 == receipt.payloadSha256
            && t.primary.rows[receipt.k].stamp == receipt.stamp
            && exists i :: EntryFor(t.primary, receipt.k, i)
  {
    var t := Run(s, later);
    ReachableInv(s);
    RunKeepsInv(s, later);
    LogsGrow(s, t);
    RunKeepsCrypto(s, later);
    hide Run, AttemptOk, TablesOk, VerifiedInOrder, EntriesDistinct, StatusesCoupled, BudgetsKept, AttemptsCounted;
    assert t.log[j] == s.log[j];
    assert ReceiptHolds(t.crypto, t.primary.rows, t.mirror.rows, t.log[j]);
    assert RowHasEntry(t.primary, t.log[j].k);
  }

  lemma LogsGrow(s: System, t: System)
    requires Extends(s.primary, s.mirror, s.log, t.primary, t.mirror, t.log)
    ensures s.log <= t.log
  {
  }

  /** Two receipts for one kind and key name one submission, and one payload unless digests collide. */
  lemma ReceiptsAreUnique(s: System, i: nat, j: nat)
    requires Reachable(s) && i < |s.log| && j < |s.log|
    requires s.log[i].ReceiptIssued? && s.log[j].ReceiptIssued? && s.log[i].k == s.log[j].k
    ensures s.log[i].id == s.log[j].id && s.log[i].stamp == s.log[j].stamp
    ensures s.log[i].payload == s.log[j].payload || Collision(s.crypto, s.log[i].payload, s.log[j].payload)
  {
    ReachableInv(s);
    hide AttemptOk, TablesOk, OutboxOk, VerifiedInOrder, MirrorAgrees, Encode;
    assert ReceiptHolds(s.crypto, s.primary.rows, s.mirror.rows, s.log[i]);
    assert ReceiptHolds(s.crypto, s.primary.rows, s.mirror.rows, s.log[j]);
  }

  // ----- failures --------------------------------------------------------------------------------

  /**
   A create handler's final error changed nothing; an error naming a submission leaves its row and
   its outbox entry; and retryable means status 503, for every handler.
   */
  lemma FailureFrame(s: System, i: nat)
    requires Reachable(s) && i in s.attempts && s.attempts[i].stage.Done? && s.attempts[i].stage.response.Failed?
    ensures var request, failure := s.attempts[i].request, s.attempts[i].stage.response.failure;
            && (failure.retryable <==> failure.status == 503)
            && (request.CreateRequest? && !failure.retryable ==> !s.attempts[i].wrote)
            && (failure.submissionId.Some? ==>
                  && request.CreateRequest?
                  && exists k, e :: EntryFor(s.primary, k, e) && k.kind == request.input.payload.Kind()
                                    && s.primary.rows[k].id == failure.submissionId.value)
  {
    ReachableInv(s);
    assert AttemptOk(s, i);
    var request, failure := s.attempts[i].request, s.attempts[i].stage.response.failure;
    assert FailureOk(s.primary, request, s.attempts[i].wrote, failure);
    if failure.submissionId.Some? {
      var k :| k in s.primary.rows && k.kind == request.input.payload.Kind()
               && s.primary.rows[k].id == failure.submissionId.value;
      StoresParts(s.crypto, s.primary, s.mirror, s.log);
      hide Inv, StoresOk, TablesOk, OutboxOk, MirrorAgrees, UniqueIds;
      var e := EntryOf(s.primary, k, s.log);
    }
  }

  lemma ProofOrToken(c: Crypto, p: Database, m: Database, request: Request, event: Event)
    requires StageFits(request, Validated) && Enabled(request, Validated, event)
    ensures var next := Advance(c, p, m, request, Validated, event).stage;
            next.Identified? ==>
              event.Identity? && event.bearer == Ok(next.subject) && (next.subject.None? ==> event.proof.Ok?)
  {
  }

  /** Nothing is written before the subject or the public proof is verified and the context bound. */
  lemma NoWriteBeforeIdentity(s: System, i: nat, event: Event)
    requires Reachable(s) && CanAct(s, i, event)
    requires s.attempts[i].stage.Received? || s.attempts[i].stage.Validated? || s.attempts[i].stage.Identified?
    ensures var t := Apply(s, Act(i, event));
            && t.primary == s.primary && t.mirror == s.mirror
            && !s.attempts[i].wrote && !t.attempts[i].wrote
    ensures var next := Apply(s, Act(i, event)).attempts[i].stage;
            s.attempts[i].stage.Validated? && next.Identified? ==>
              event.Identity? && event.bearer == Ok(next.subject) && (next.subject.None? ==> event.proof.Ok?)
  {
    ReachableInv(s);
    assert AttemptOk(s, i);
    hide StoresOk, Advance;
    EarlyStep(s.crypto, s.primary, s.mirror, s.log, s.attempts[i].request, s.attempts[i].stage, event);
    if s.attempts[i].stage.Validated? {
      ProofOrToken(s.crypto, s.primary, s.mirror, s.attempts[i].request, event);
    }
  }

  /**
   The last call of `complete_upload`, with the mirror row verified by then: it is refused for good
   exactly when it is answered and was executed after the primary expiry.
   */
  lemma CompletionConflictsAfterExpiry(s: System, i: nat, call: Call) returns (k: RowKey)
    requires Reachable(s) && i in s.attempts && s.attempts[i].stage.MirrorVerified?
    ensures s.attempts[i].request.CompleteRequest?
    ensures k in s.primary.rows && k.kind == Upload && s.primary.rows[k].id == s.attempts[i].request.uploadId
    ensures k in s.mirror.rows && IsVerified(s.mirror.rows[k])
    ensures var request, stage := s.attempts[i].request, s.attempts[i].stage;
            var next := VerifyIn(s.primary, request, stage.subject, call, Done(UploadCompleted(request.uploadId))).1;
            next == if call.fault != NoFault then Done(Failed(FromDataError(DatabaseFailure)))
                    else if s.primary.rows[k].stamp <= call.databaseNow then Done(Failed(CONFLICT))
                    else Done(UploadCompleted(request.uploadId))
  {
    ReachableInv(s);
    assert AttemptOk(s, i);
    var request, subject, upload := s.attempts[i].request, s.attempts[i].stage.subject, s.attempts[i].stage.primary;
    StoresParts(s.crypto, s.primary, s.mirror, s.log);
    hide Inv, StoresOk, OutboxOk, TablesOk, ObservedUpload, StageFits, UniqueIds, MirrorAgrees, HasVerified, VerifyIn;
    k := RowsOfCompletion(s.primary.rows, s.mirror.rows, subject, upload);
    OpenRow(s.crypto, s.primary.rows, k);
    VerificationAnswer(s.primary, request, subject, upload, call, k, Done(UploadCompleted(request.uploadId)));
  }

  lemma RowsOfCompletion(
      rows: Tables, mirror: Tables, subject: Option<string>, upload: PendingUpload)
    returns (k: RowKey)
    requires UniqueIds(rows) && MirrorAgrees(rows, mirror)
    requires HasUpload(rows, subject, upload) && HasVerified(mirror, subject, upload)
    ensures k in rows && k.kind == Upload && IsRowOf(rows[k], subject, upload)
    ensures k in mirror && IsVerified(mirror[k])
  {
    k :| k in rows && k.kind == Upload && IsRowOf(rows[k], subject, upload);
    var twin :| twin in mirror && twin.kind == Upload
                && IsRowOf(mirror[twin], subject, upload) && IsVerified(mirror[twin]);
    assert twin in rows && rows[twin].id == rows[k].id;
  }

  lemma OpenRow(c: Crypto, rows: Tables, k: RowKey)
    requires TablesOk(c, rows) && k in rows && k.kind == Upload
    ensures HasCoherentStatus(rows[k])
  {
  }

  /** A verification of the row read: every outcome of the call, and what a refusal leaves. */
  lemma VerificationAnswer(
      db: Database, request: Request, subject: Option<string>, upload: PendingUpload, call: Call, k: RowKey,
      next: Stage)
    requires UniqueIds(db.rows) && Declared(request, upload) && Conforms(request)
    requires k in db.rows && k.kind == Upload && IsRowOf(db.rows[k], subject, upload) && HasCoherentStatus(db.rows[k])
    ensures var (db', answer) := VerifyIn(db, request, subject, call, next);
            var expired := db.rows[k].stamp <= call.databaseNow;
            && answer == (if call.fault != NoFault then Done(Failed(FromDataError(DatabaseFailure)))
                          else if expired then Done(Failed(CONFLICT))
                          else next)
            && db' == if call.fault == FailBeforeCommit || expired then db
                      else db.(rows := db.rows[k := VerifiedRow(db.rows[k], call.databaseNow)])
  {
    var affected := UploadsToVerify(db.rows, request.uploadId, subject, request.sha256, call.databaseNow);
    if db.rows[k].stamp > call.databaseNow {
      assert k in affected;
      AtMostOneToVerify(db.rows, request.uploadId, subject, request.sha256, call.databaseNow, k);
      assert VerifyRows(db.rows, affected, call.databaseNow)
          == db.rows[k := VerifiedRow(db.rows[k], call.databaseNow)];
    } else {
      forall l | l in db.rows && l.kind == Upload && db.rows[l].id == request.uploadId ensures l == k {
      }
      assert affected == {};
      assert VerifyRows(db.rows, {}, call.databaseNow) == db.rows;
    }
  }
}
