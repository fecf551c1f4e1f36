/**
 Reachable states in which the service does what a reader might not expect: a mirrored submission
 falls back, a stored application is refused its replay, a completion fails for good after a change.
 */
module Witnesses {
  import opened Results
  import opened Hex
  import opened ObjectKeys
  import opened ObjectVerification
  import opened Streams
  import opened Backoff
  import opened Persistence
  import opened Protocol
  import opened IntakeSystem
  import opened Invariants
  import opened Transactions
  import opened Preservation
  import opened Theorems
  import opened SoloRuns
  import opened SampleRuns
  import opened CompletionFrame
  import opened CompletionConvergence
  import Convergence
  import Replays
  import Safety

  // ----- mirrored is not final ----------------------------------------------------------------------

  const PAYLOAD: Payload := PreInterestCreate(map[])

  const KEY: string := "pre-interest-0001"

  const ROW_KEY: RowKey := RowKey(PreInterest, KEY)

  /** A primary database with one submission and its entry. */
  function Single(k: RowKey, row: Row, entry: OutboxRow): Database {
    Database(map[k := row], [entry])
  }

  predicate IsSingle(k: RowKey, row: Row, entry: OutboxRow) {
    k.kind != Upload && entry.kind == k.kind && entry.id == row.id && entry.payloadSha256 == row.payloadSha256
  }

  lemma MarkSingle(k: RowKey, row: Row, entry: OutboxRow)
    requires IsSingle(k, row, entry)
    ensures MarkMirrored(Single(k, row, entry), k.kind, row.id, row.payloadSha256)
         == Outcome(Single(k, row.(progress := Mirroring(Mirrored)), Marked(entry)), Ok(()))
  {
    var db := Single(k, row, entry);
    assert RowsWithDigest(db.rows, k.kind, row.id, row.payloadSha256) == {k};
    assert EntriesToMark(db.outbox, k.kind, row.id, row.payloadSha256) == {0};
    assert MarkEntries(db.outbox, {0}) == [Marked(entry)];
  }

  lemma ChargeSingle(k: RowKey, row: Row, entry: OutboxRow, now: int)
    requires IsSingle(k, row, entry) && entry.attempts < MAX_ATTEMPTS
    ensures RecordMirrorFailure(Single(k, row, entry), k.kind, row.id, MIRROR_ERROR_CODE, now)
         == Outcome(Single(k, row.(progress := Mirroring(RetryableFailure)), Charged(entry, MIRROR_ERROR_CODE, now)),
                    Ok(()))
  {
    var db := Single(k, row, entry);
    MirrorErrorCodeIsValid();
    assert RowsWithId(db.rows, k.kind, row.id) == {k};
    assert EntriesToCharge(db.outbox, k.kind, row.id) == {0};
    assert ChargeEntries(db.outbox, {0}, MIRROR_ERROR_CODE, now) == [Charged(entry, MIRROR_ERROR_CODE, now)];
  }

  function RowOf(c: Crypto, id: Uuid, status: MirrorStatus): Row {
    Row(id, PayloadDigest(c, PAYLOAD), Some("alice"), PAYLOAD, 0, Mirroring(status))
  }

  function EntryOfRow(c: Crypto, id: Uuid): OutboxRow {
    NewOutboxRow(PreInterest, id, PayloadDigest(c, PAYLOAD))
  }

  /** A first request, undisturbed: stored, mirrored and acknowledged. */
  lemma FirstRequestEnds(c: Crypto, id: Uuid)
    requires HasLongDigest(c, PAYLOAD)
    ensures Solo(c, EMPTY_DATABASE, EMPTY_DATABASE, RequestOf(PAYLOAD, KEY), Received,
                 EnvironmentOf("alice", id, 0, NoFault, NoFault, Unreachable))
         == Ending(Single(ROW_KEY, RowOf(c, id, Mirrored), Marked(EntryOfRow(c, id))),
                   Database(map[ROW_KEY := RowOf(c, id, Mirrored)], []), Accepted(id, PreInterest, 0))
  {
    hide Solo, PayloadDigest, MarkMirrored;
    var request, env := RequestOf(PAYLOAD, KEY), EnvironmentOf("alice", id, 0, NoFault, NoFault, Unreachable);
    var context, stored := ContextOf(c, PAYLOAD, KEY, "alice", id), Stored(id, 0, None, false);
    var p := Single(ROW_KEY, RowOf(c, id, Pending), EntryOfRow(c, id));
    var m := Database(map[ROW_KEY := RowOf(c, id, Mirrored)], []);
    var marked := Single(ROW_KEY, RowOf(c, id, Mirrored), Marked(EntryOfRow(c, id)));
    ReachesBound(c, EMPTY_DATABASE, EMPTY_DATABASE, PAYLOAD, KEY, "alice", env);
    SoloStep(c, EMPTY_DATABASE, EMPTY_DATABASE, request, Bound(context), env);
    assert Store(EMPTY_DATABASE, Primary, context, PAYLOAD, env.storePrimary) == Outcome(p, Ok(stored));
    SoloStep(c, p, EMPTY_DATABASE, request, PrimaryStored(context, stored), env);
    assert Store(EMPTY_DATABASE, SupabaseMirror, context, PAYLOAD, env.storeMirror) == Outcome(m, Ok(stored));
    hide Store;
    SoloStep(c, p, m, request, MirrorAccepted(context, stored), env);
    MarkSingle(ROW_KEY, RowOf(c, id, Pending), EntryOfRow(c, id));
    SoloStep(c, marked, m, request, Acknowledged(context, stored), env);
    AnswerEnds(c, marked, m, request, Accepted(id, PreInterest, 0), env);
  }

  /** Its exact replay, with the mirror out of reach: the mirrored entry is charged. */
  lemma ReplayEnds(c: Crypto, m: Database, id: Uuid, otherId: Uuid)
    requires HasLongDigest(c, PAYLOAD)
    ensures var ending := Solo(c, Single(ROW_KEY, RowOf(c, id, Mirrored), Marked(EntryOfRow(c, id))), m,
                               RequestOf(PAYLOAD, KEY), Received,
                               EnvironmentOf("alice", otherId, 0, FailBeforeCommit, NoFault, Unreachable));
            ending.primary == Single(ROW_KEY, RowOf(c, id, RetryableFailure),
                                     Charged(Marked(EntryOfRow(c, id)), MIRROR_ERROR_CODE, 0))
  {
    hide Solo, PayloadDigest, RecordMirrorFailure, ChargeNote;
    var request := RequestOf(PAYLOAD, KEY);
    var env := EnvironmentOf("alice", otherId, 0, FailBeforeCommit, NoFault, Unreachable);
    var context, stored := ContextOf(c, PAYLOAD, KEY, "alice", otherId), Stored(id, 0, None, true);
    var p := Single(ROW_KEY, RowOf(c, id, Mirrored), Marked(EntryOfRow(c, id)));
    ReachesBound(c, p, m, PAYLOAD, KEY, "alice", env);
    SoloStep(c, p, m, request, Bound(context), env);
    assert Store(p, Primary, context, PAYLOAD, env.storePrimary) == Outcome(p, Ok(stored));
    hide Store;
    SoloStep(c, p, m, request, PrimaryStored(context, stored), env);
    SoloStep(c, p, m, request, MirrorRefused(context, stored), env);
    ChargeSingle(ROW_KEY, RowOf(c, id, Mirrored), Marked(EntryOfRow(c, id)), 0);
    var after := Single(ROW_KEY, RowOf(c, id, RetryableFailure),
                        Charged(Marked(EntryOfRow(c, id)), MIRROR_ERROR_CODE, 0));
    AnswerEnds(c, after, m, request, Failed(MirrorUnavailable(id)), env);
  }

  /** Mirrored is not final: an entry and its row, both mirrored, later record a failure. */
  lemma MirroredIsNotFinal(c: Crypto, id: Uuid, otherId: Uuid) returns (s: System, t: System)
    requires HasLongDigest(c, PAYLOAD)
    ensures Reachable(s) && Reachable(t) && LeadsTo(s, t)
    ensures EntryFor(s.primary, ROW_KEY, 0) && s.primary.outbox[0].status == Mirrored
    ensures s.primary.rows[ROW_KEY].progress == Mirroring(Mirrored) && ROW_KEY in s.mirror.rows
    ensures EntryFor(t.primary, ROW_KEY, 0) && t.primary.outbox[0].status == RetryableFailure
    ensures t.primary.rows[ROW_KEY].progress == Mirroring(RetryableFailure) && ROW_KEY in t.mirror.rows
  {
    var start := Initial(c);
    assert Run(start, []) == start && Reachable(start);
    hide Solo, Run, Reachable, LeadsTo, PayloadDigest;
    var request := RequestOf(PAYLOAD, KEY);
    FirstRequestEnds(c, id);
    s := EndingIsReachable(start, 0, request, EnvironmentOf("alice", id, 0, NoFault, NoFault, Unreachable));
    ReplayEnds(c, s.mirror, id, otherId);
    t := EndingIsReachable(s, 1, request, EnvironmentOf("alice", otherId, 0, FailBeforeCommit, NoFault, Unreachable));
    MirrorRowsStay(s, t, ROW_KEY);
  }

  lemma MirrorRowsStay(s: System, t: System, k: RowKey)
    requires Reachable(s) && LeadsTo(s, t) && k in s.mirror.rows
    ensures k in t.mirror.rows
  {
    var actions :| Run(s, actions) == t;
    hide Inv, Run;
    Safety.ReachableInv(s);
    Safety.RunKeepsInv(s, actions);
  }

  // ----- uploads that exist ---------------------------------------------------------------------------

  /** The hash function gives 32 bytes, as SHA-256 does. */
  ghost predicate LongDigests(c: Crypto) {
    forall bytes :: |c.sha256(bytes)| == 32
  }

  const CONTENT: seq<byte> := [0]

  const DOWNLOAD: Download := Answer(true, Some("application/pdf"), Some(1), [Some(CONTENT)])

  function UploadOf(c: Crypto, kind: UploadKind): Payload {
    UploadIntentCreate(kind, Encode(c.sha256(CONTENT)), "application/pdf", 1)
  }

  function UploadKey(kind: UploadKind): string {
    match kind
    case Resume => "upload-resume-0001"
    case PhotoId => "upload-photo-id-0001"
  }

  function UploadRowKey(kind: UploadKind): RowKey {
    RowKey(Upload, UploadKey(kind))
  }

  /** The row of alice's upload, created at time 0. */
  function CreatedRow(c: Crypto, kind: UploadKind, id: Uuid): Row
    requires WellFormedPayload(UploadOf(c, kind))
  {
    var context := ContextOf(c, UploadOf(c, kind), UploadKey(kind), "alice", id);
    NewRow(Primary, context, UploadOf(c, kind), Call(NoFault, 0, 0))
  }

  function CompletionOf(c: Crypto, id: Uuid): Request {
    CompleteRequest(id, Encode(c.sha256(CONTENT)), None)
  }

  function CompletionEnvironment(id: Uuid): Environment {
    EnvironmentOf("alice", id, 0, NoFault, NoFault, DOWNLOAD)
  }

  lemma UploadIsSample(c: Crypto, kind: UploadKind)
    requires LongDigests(c)
    ensures IsSample(UploadOf(c, kind), UploadKey(kind)) && HasLongDigest(c, UploadOf(c, kind))
  {
    DigestTextAccepted(c.sha256(CONTENT));
  }

  /** Alice creates an upload that neither database holds. */
  lemma UploadCreated(s: System, i: nat, kind: UploadKind, id: Uuid) returns (t: System)
    requires LongDigests(s.crypto) && Reachable(s) && i !in s.attempts
    requires UploadRowKey(kind) !in s.primary.rows && !IdTaken(s.primary.rows, Upload, id)
    requires UploadRowKey(kind) !in s.mirror.rows && !IdTaken(s.mirror.rows, Upload, id)
    ensures Reachable(t) && t.crypto == s.crypto && t.attempts.Keys == s.attempts.Keys + {i}
    ensures WellFormedPayload(UploadOf(s.crypto, kind))
    ensures t.primary.rows == s.primary.rows[UploadRowKey(kind) := CreatedRow(s.crypto, kind, id)]
    ensures t.mirror.rows == s.mirror.rows[UploadRowKey(kind) := CreatedRow(s.crypto, kind, id)]
  {
    hide Solo, Reachable, Encode, PayloadDigest, ObjectKey, IsDigestText, IsContextKey;
    var c, payload := s.crypto, UploadOf(s.crypto, kind);
    UploadIsSample(c, kind);
    CreationEnds(c, s.primary, s.mirror, payload, UploadKey(kind), "alice", id, 0);
    t := EndingIsReachable(s, i, RequestOf(payload, UploadKey(kind)),
                           EnvironmentOf("alice", id, 0, NoFault, FailBeforeCommit, Unreachable));
  }

  /** A created upload can be completed by alice until its expiry, over the declared object. */
  lemma CreatedUploadCompletes(s: System, kind: UploadKind, id: Uuid, env: Environment)
    requires LongDigests(s.crypto) && WellFormedPayload(UploadOf(s.crypto, kind))
    requires UploadRowKey(kind) in s.primary.rows && UploadRowKey(kind) in s.mirror.rows
    requires s.primary.rows[UploadRowKey(kind)] == s.mirror.rows[UploadRowKey(kind)] == CreatedRow(s.crypto, kind, id)
    requires env == CompletionEnvironment(id).(verifyPrimary := env.verifyPrimary) && env.verifyPrimary.fault == NoFault
    ensures Completes(s, UploadRowKey(kind), CompletionOf(s.crypto, id), env)
    ensures !IsVerified(s.mirror.rows[UploadRowKey(kind)])
    ensures LastInTime(s.primary.rows[UploadRowKey(kind)], env)
       <==> env.verifyPrimary.databaseNow < UPLOAD_LIFETIME_SECONDS
  {
    hide Encode, PayloadDigest, ObjectKey, ValidObjectKey;
    DigestTextAccepted(s.crypto.sha256(CONTENT));
    PrintedKeyIsValid(kind, id, Encode(s.crypto.sha256(CONTENT)));
    assert Body([Some(CONTENT)]) == CONTENT;
  }

  /**
   The frame of `complete_upload` fails in a run: created at time 0, completed in time but for the
   last call, the upload's completion ends with a final conflict after changing the mirror.
   */
  lemma FinalErrorAfterChange(c: Crypto, id: Uuid) returns (t: System, i: nat)
    requires LongDigests(c)
    ensures Reachable(t) && i in t.attempts && t.attempts[i].request.CompleteRequest?
    ensures FailsForGood(t.attempts[i].stage) && t.attempts[i].wrote
  {
    var start := Initial(c);
    assert Run(start, []) == start && Reachable(start);
    hide Run, Reachable, LeadsTo, LongDigests, Encode, CreatedRow, Completes, IsVerified;
    var s := UploadCreated(start, 0, Resume, id);
    var env := CompletionEnvironment(id).(verifyPrimary := Call(NoFault, 0, UPLOAD_LIFETIME_SECONDS));
    CreatedUploadCompletes(s, Resume, id, env);
    i := 1;
    t := LateCompletionLeavesMirrorVerified(s, i, UploadRowKey(Resume), CompletionOf(c, id), env);
  }

  // ----- an application that cannot be replayed -----------------------------------------------------

  const APPLICATION_KEY: string := "application-0001"

  const APPLICATION_ROW_KEY: RowKey := RowKey(Application, APPLICATION_KEY)

  function ApplicationOf(resume: Uuid, photoId: Uuid): Payload {
    ApplicationCreate(resume, photoId, 1, map[])
  }

  /** The table holds alice's completed upload of this kind. */
  predicate HoldsCompleted(c: Crypto, rows: Tables, kind: UploadKind, id: Uuid) {
    && WellFormedPayload(UploadOf(c, kind))
    && UploadRowKey(kind) in rows
    && rows[UploadRowKey(kind)] == VerifiedRow(CreatedRow(c, kind, id), 0)
  }

  /** A completed upload is counted until its expiry and not from then on. */
  lemma CompletedIsLive(c: Crypto, rows: Tables, kind: UploadKind, id: Uuid)
    requires UniqueIds(rows) && HoldsCompleted(c, rows, kind, id)
    ensures NamesLive(rows, Some("alice"), id, kind, 0)
    ensures !NamesLive(rows, Some("alice"), id, kind, UPLOAD_LIFETIME_SECONDS)
  {
    hide Encode, PayloadDigest, ObjectKey, IsDigestText;
    var k := UploadRowKey(kind);
    assert NamesUpload(rows[k], Some("alice"), id, kind, 0);
    forall l | l in rows && l.kind == Upload && rows[l].id == id ensures l == k {
    }
  }

  lemma ReachableIds(s: System)
    requires Reachable(s)
    ensures UniqueIds(s.primary.rows) && UniqueIds(s.mirror.rows)
  {
    Safety.ReachableInv(s);
    StoresPartsOf(s);
  }

  /** The table holds alice's upload of this kind, created but not completed. */
  predicate HoldsCreated(c: Crypto, rows: Tables, kind: UploadKind, id: Uuid) {
    && WellFormedPayload(UploadOf(c, kind))
    && UploadRowKey(kind) in rows
    && rows[UploadRowKey(kind)] == CreatedRow(c, kind, id)
  }

  lemma TwoUploadsCreated(c: Crypto, resume: Uuid, photoId: Uuid) returns (s: System)
    requires LongDigests(c) && resume != photoId
    ensures Reachable(s) && s.crypto == c && s.attempts.Keys == {0, 1}
    ensures s.primary.rows == s.mirror.rows
    ensures s.primary.rows.Keys == {UploadRowKey(Resume), UploadRowKey(PhotoId)}
    ensures HoldsCreated(c, s.primary.rows, Resume, resume) && HoldsCreated(c, s.primary.rows, PhotoId, photoId)
  {
    var start := Initial(c);
    assert Run(start, []) == start && Reachable(start);
    assert UploadRowKey(Resume) != UploadRowKey(PhotoId);
    hide Run, Reachable, LongDigests, Encode, PayloadDigest, ObjectKey, UploadOf, UploadRowKey;
    var first := UploadCreated(start, 0, Resume, resume);
    s := UploadCreated(first, 1, PhotoId, photoId);
  }

  /** Alice completes one of her uploads in time. */
  lemma UploadIsCompleted(s: System, i: nat, kind: UploadKind, id: Uuid) returns (t: System)
    requires LongDigests(s.crypto) && Reachable(s) && i !in s.attempts
    requires HoldsCreated(s.crypto, s.primary.rows, kind, id) && HoldsCreated(s.crypto, s.mirror.rows, kind, id)
    ensures Reachable(t) && t.crypto == s.crypto && t.attempts.Keys == s.attempts.Keys + {i}
    ensures t.primary.rows == s.primary.rows[UploadRowKey(kind) := VerifiedRow(CreatedRow(s.crypto, kind, id), 0)]
    ensures t.mirror.rows == s.mirror.rows[UploadRowKey(kind) := VerifiedRow(CreatedRow(s.crypto, kind, id), 0)]
  {
    hide Reachable, LeadsTo, LongDigests, Completes, IsVerified, Encode, PayloadDigest, ObjectKey, UploadOf,
         UploadRowKey, LastInTime;
    CreatedUploadCompletes(s, kind, id, CompletionEnvironment(id));
    t := CompletionConverges(s, i, UploadRowKey(kind), CompletionOf(s.crypto, id), CompletionEnvironment(id));
  }

  lemma OneCompleted(c: Crypto, rows: Tables, kind: UploadKind, id: Uuid, other: UploadKind, otherId: Uuid)
    requires HoldsCreated(c, rows, kind, id) && kind != other
    ensures WellFormedPayload(UploadOf(c, kind))
    ensures var after := rows[UploadRowKey(kind) := VerifiedRow(CreatedRow(c, kind, id), 0)];
            && after.Keys == rows.Keys
            && HoldsCompleted(c, after, kind, id)
            && (HoldsCreated(c, rows, other, otherId) ==> HoldsCreated(c, after, other, otherId))
            && (HoldsCompleted(c, rows, other, otherId) ==> HoldsCompleted(c, after, other, otherId))
  {
    hide Encode, UploadOf, CreatedRow, VerifiedRow;
    assert UploadRowKey(Resume) != UploadRowKey(PhotoId);
  }

  /** A run that leaves two completed uploads in both databases, and no application. */
  lemma TwoUploadsCompleted(c: Crypto, resume: Uuid, photoId: Uuid) returns (s: System)
    requires LongDigests(c) && resume != photoId
    ensures Reachable(s) && s.crypto == c && s.attempts.Keys == {0, 1, 2, 3}
    ensures s.primary.rows == s.mirror.rows
    ensures s.primary.rows.Keys == {UploadRowKey(Resume), UploadRowKey(PhotoId)}
    ensures HoldsCompleted(c, s.primary.rows, Resume, resume) && HoldsCompleted(c, s.primary.rows, PhotoId, photoId)
  {
    hide Reachable, LongDigests, UploadOf, UploadRowKey, CreatedRow, VerifiedRow, HoldsCreated, HoldsCompleted;
    var created := TwoUploadsCreated(c, resume, photoId);
    var half := UploadIsCompleted(created, 2, Resume, resume);
    OneCompleted(c, created.primary.rows, Resume, resume, PhotoId, photoId);
    s := UploadIsCompleted(half, 3, PhotoId, photoId);
    OneCompleted(c, half.primary.rows, PhotoId, photoId, Resume, resume);
  }

  lemma ApplicationIsFresh(c: Crypto, rows: Tables, resume: Uuid, photoId: Uuid, id: Uuid)
    requires UniqueIds(rows) && rows.Keys == {UploadRowKey(Resume), UploadRowKey(PhotoId)}
    requires HoldsCompleted(c, rows, Resume, resume) && HoldsCompleted(c, rows, PhotoId, photoId)
    ensures var payload := ApplicationOf(resume, photoId);
            IsFresh(rows, ContextOf(c, payload, APPLICATION_KEY, "alice", id), payload, 0)
  {
    var payload := ApplicationOf(resume, photoId);
    hide HoldsCompleted, UniqueIds, Admission, NamesLive, PayloadDigest;
    CompletedIsLive(c, rows, Resume, resume);
    CompletedIsLive(c, rows, PhotoId, photoId);
    Convergence.AdmittedExactly(rows, ContextOf(c, payload, APPLICATION_KEY, "alice", id), payload, 0);
  }

  lemma EveryDigestIsLong(c: Crypto, payload: Payload)
    requires LongDigests(c)
    ensures HasLongDigest(c, payload)
  {
  }

  /** Alice's application, stored in both databases over her two uploads. */
  lemma ApplicationStored(c: Crypto, resume: Uuid, photoId: Uuid, id: Uuid) returns (s: System)
    requires LongDigests(c) && resume != photoId
    ensures Reachable(s) && s.crypto == c && 5 !in s.attempts
    ensures HoldsCompleted(c, s.primary.rows, Resume, resume) && HoldsCompleted(c, s.primary.rows, PhotoId, photoId)
    ensures HoldsCompleted(c, s.mirror.rows, Resume, resume) && HoldsCompleted(c, s.mirror.rows, PhotoId, photoId)
    ensures APPLICATION_ROW_KEY in s.primary.rows && APPLICATION_ROW_KEY in s.mirror.rows
    ensures s.primary.rows[APPLICATION_ROW_KEY].payload == ApplicationOf(resume, photoId)
    ensures s.primary.rows[APPLICATION_ROW_KEY].payloadSha256 == PayloadDigest(c, ApplicationOf(resume, photoId))
  {
    hide Solo, Reachable, LeadsTo, LongDigests, HoldsCompleted, UniqueIds, PayloadDigest, IsFresh, UploadRowKey;
    EveryDigestIsLong(c, ApplicationOf(resume, photoId));
    var before := TwoUploadsCompleted(c, resume, photoId);
    var payload := ApplicationOf(resume, photoId);
    ReachableIds(before);
    ApplicationIsFresh(c, before.primary.rows, resume, photoId, id);
    CreationEnds(c, before.primary, before.mirror, payload, APPLICATION_KEY, "alice", id, 0);
    s := EndingIsReachable(before, 4, RequestOf(payload, APPLICATION_KEY),
                           EnvironmentOf("alice", id, 0, NoFault, FailBeforeCommit, Unreachable));
    var row := s.primary.rows[APPLICATION_ROW_KEY];
    OtherRowsStay(c, before.primary.rows, s.primary.rows, APPLICATION_ROW_KEY, row, Resume, resume);
    OtherRowsStay(c, before.primary.rows, s.primary.rows, APPLICATION_ROW_KEY, row, PhotoId, photoId);
    var twin := s.mirror.rows[APPLICATION_ROW_KEY];
    OtherRowsStay(c, before.mirror.rows, s.mirror.rows, APPLICATION_ROW_KEY, twin, Resume, resume);
    OtherRowsStay(c, before.mirror.rows, s.mirror.rows, APPLICATION_ROW_KEY, twin, PhotoId, photoId);
  }

  lemma OtherRowsStay(c: Crypto, before: Tables, after: Tables, k: RowKey, row: Row, kind: UploadKind, id: Uuid)
    requires HoldsCompleted(c, before, kind, id)
    requires k.kind == Application && after == before[k := row]
    ensures HoldsCompleted(c, after, kind, id)
  {
    hide Encode;
  }

  lemma SampleRepeats(c: Crypto, payload: Payload, k: RowKey)
    requires IsSample(payload, k.key) && k.kind == payload.Kind()
    ensures Convergence.Repeats(c, RequestOf(payload, k.key), k, PayloadDigest(c, payload))
  {
    hide Encode;
    assert Input(payload, None).(turnstileToken := None) == Input(payload, None);
  }

  /**
   An exact replay can be refused: a stored application, repeated by its own subject when its uploads
   have expired, ends with a final conflict although no call fails.
   */
  lemma ApplicationReplayRefused(c: Crypto, resume: Uuid, photoId: Uuid, id: Uuid, otherId: Uuid)
    returns (s: System, request: Request, env: Environment)
    requires LongDigests(c) && resume != photoId
    ensures Reachable(s) && APPLICATION_ROW_KEY in s.primary.rows && APPLICATION_ROW_KEY in s.mirror.rows
    ensures var payloadSha256 := s.primary.rows[APPLICATION_ROW_KEY].payloadSha256;
            Convergence.Repeats(s.crypto, request, APPLICATION_ROW_KEY, payloadSha256)
    ensures env == EnvironmentOf("alice", otherId, UPLOAD_LIFETIME_SECONDS, NoFault, NoFault, Unreachable)
    ensures Solo(s.crypto, s.primary, s.mirror, request, Received, env)
         == Ending(s.primary, s.mirror, Failed(CONFLICT))
  {
    hide Solo, Reachable, HoldsCompleted, UniqueIds, PayloadDigest, NamesLive, Store;
    s := ApplicationStored(c, resume, photoId, id);
    var payload := ApplicationOf(resume, photoId);
    SampleRepeats(c, payload, APPLICATION_ROW_KEY);
    request := RequestOf(payload, APPLICATION_KEY);
    env := EnvironmentOf("alice", otherId, UPLOAD_LIFETIME_SECONDS, NoFault, NoFault, Unreachable);
    ReachableIds(s);
    CompletedIsLive(c, s.primary.rows, Resume, resume);
    ApplicationReplayNeedsLiveUploads(
      s.primary, Primary, ContextOf(c, payload, APPLICATION_KEY, "alice", otherId), payload, env.storePrimary);
    RefusedStoreEnds(c, s.primary, s.mirror, payload, APPLICATION_KEY, "alice", env, IntakeObjectUnavailable);
  }

  /**
   Nor is it enough that the uploads are live in the primary: with the mirror's clock at their expiry,
   the same replay gets no receipt although no call fails.
   */
  lemma ApplicationReplayRefusedByMirror(c: Crypto, resume: Uuid, photoId: Uuid, id: Uuid, otherId: Uuid)
    returns (s: System, request: Request, env: Environment)
    requires LongDigests(c) && resume != photoId
    ensures Reachable(s) && APPLICATION_ROW_KEY in s.primary.rows && APPLICATION_ROW_KEY in s.mirror.rows
    ensures var payloadSha256 := s.primary.rows[APPLICATION_ROW_KEY].payloadSha256;
            Convergence.Repeats(s.crypto, request, APPLICATION_ROW_KEY, payloadSha256)
    ensures Replays.Answers(env, request, Some("alice"))
    ensures Convergence.UploadsLive(s.primary.rows, Some("alice"), request.input.payload, env.storePrimary.databaseNow)
    ensures Solo(s.crypto, s.primary, s.mirror, request, Received, env).response
         == Failed(MirrorUnavailable(s.primary.rows[APPLICATION_ROW_KEY].id))
  {
    hide Solo, Reachable, HoldsCompleted, UniqueIds, PayloadDigest, NamesLive, Convergence.Repeats;
    s := ApplicationStored(c, resume, photoId, id);
    var payload := ApplicationOf(resume, photoId);
    SampleRepeats(c, payload, APPLICATION_ROW_KEY);
    request := RequestOf(payload, APPLICATION_KEY);
    env := EnvironmentOf("alice", otherId, 0, NoFault, NoFault, Unreachable);
    env := env.(storeMirror := Call(NoFault, 0, UPLOAD_LIFETIME_SECONDS));
    ReachableIds(s);
    CompletedIsLive(c, s.primary.rows, Resume, resume);
    CompletedIsLive(c, s.primary.rows, PhotoId, photoId);
    CompletedIsLive(c, s.mirror.rows, Resume, resume);
    Replays.ReplayEndsExactly(s, APPLICATION_ROW_KEY, request, Some("alice"), env);
  }
}
