/** Requests and environments for concrete runs, and how a creation ends in them. */
module SampleRuns {
  import opened Results
  import opened Hex
  import opened Text
  import opened ObjectKeys
  import opened ObjectVerification
  import opened Persistence
  import opened Protocol
  import opened Transactions
  import opened SoloRuns
  import Convergence

  /** The hash function gives 32 bytes for this payload, as SHA-256 does for all. */
  predicate HasLongDigest(c: Crypto, payload: Payload) {
    |c.sha256(c.serialize(Input(payload, None)))| == 32
  }

  function RequestOf(payload: Payload, key: string): Request {
    CreateRequest(Input(payload, None), Some(key), Some("hhaus.org"))
  }

  predicate IsSample(payload: Payload, key: string) {
    WellFormedPayload(payload) && IsContextKey(key)
  }

  function ContextOf(c: Crypto, payload: Payload, key: string, subject: string, id: Uuid): SubmissionContext {
    SubmissionContext(id, Some(subject), key, PayloadDigest(c, payload), "hhaus.org")
  }

  /** All calls of the subject's request are answered at `now`, but for the mirror's and the outbox's faults. */
  function EnvironmentOf(
      subject: string, id: Uuid, now: int, mirror: Fault, outbox: Fault, download: Download)
    : Environment
  {
    var answered := Call(NoFault, now, now);
    Environment(true, Ok(Some(subject)), Err(Rejected), id, answered, Call(mirror, now, now), Call(outbox, now, now),
                Ok(()), answered, answered, download, answered, answered)
  }

  lemma Binds(c: Crypto, payload: Payload, key: string, subject: string, id: Uuid)
    requires HasLongDigest(c, payload) && IsSample(payload, key)
    ensures BindContext(c, RequestOf(payload, key), Some(subject), id) == Ok(ContextOf(c, payload, key, subject, id))
  {
    hide Encode, IsDigestText, IsContextKey;
    var input := Input(payload, None);
    DigestTextAccepted(c.sha256(c.serialize(input)));
    assert input.(turnstileToken := None) == input;
    Convergence.ContextKeysAreHeaderKeys(key);
    assert AsciiLowercase("hhaus.org") == "hhaus.org";
  }

  lemma ReachesBound(
      c: Crypto, p: Database, m: Database, payload: Payload, key: string, subject: string, env: Environment)
    requires HasLongDigest(c, payload) && IsSample(payload, key) && Possible(env)
    requires env.contractAccepts && env.bearer == Ok(Some(subject))
    ensures Conforms(RequestOf(payload, key))
    ensures Solo(c, p, m, RequestOf(payload, key), Received, env)
         == Solo(c, p, m, RequestOf(payload, key), Bound(ContextOf(c, payload, key, subject, env.freshId)), env)
  {
    hide Solo, BindContext, ContextOf;
    var request := RequestOf(payload, key);
    SoloStep(c, p, m, request, Received, env);
    SoloStep(c, p, m, request, Validated, env);
    SoloStep(c, p, m, request, Identified(Some(subject)), env);
    Binds(c, payload, key, subject, env.freshId);
  }

  /** From the two stores on, when the outbox update never comes through. */
  lemma StoresEnd(
      c: Crypto, p: Database, m: Database, payload: Payload, key: string, context: SubmissionContext, env: Environment)
    requires IsSample(payload, key) && Conforms(RequestOf(payload, key)) && Possible(env)
    requires env.storePrimary.fault == NoFault && env.updateOutbox.fault == FailBeforeCommit
    requires Store(p, Primary, context, payload, env.storePrimary).result.Ok?
    ensures var stored := Store(p, Primary, context, payload, env.storePrimary);
            var mirror := Store(m, SupabaseMirror, context.WithCanonicalId(stored.result.value.id), payload,
                                env.storeMirror);
            var ending := Solo(c, p, m, RequestOf(payload, key), Bound(context), env);
            && ending.primary == stored.db
            && ending.mirror == (if env.storeMirror.fault == FailBeforeCommit then m else mirror.db)
            && ending.response == Failed(MirrorUnavailable(stored.result.value.id))
  {
    hide Solo, Store, MarkMirrored, RecordMirrorFailure, ChargeNote, Conforms;
    var request := RequestOf(payload, key);
    SoloStep(c, p, m, request, Bound(context), env);
    var tx := Store(p, Primary, context, payload, env.storePrimary);
    var stored := tx.result.value;
    SoloStep(c, tx.db, m, request, PrimaryStored(context, stored), env);
    var (m', next) := StoreMirror(m, request, context, stored, env.storeMirror);
    SoloStep(c, tx.db, m', request, next, env);
    AnswerEnds(c, tx.db, m', request, Failed(MirrorUnavailable(stored.id)), env);
    RefusedStoreChangesNothing(m, SupabaseMirror, context.WithCanonicalId(stored.id), payload, env.storeMirror);
  }

  /** The new submission fits both databases: admitted, under a fresh key and identifier. */
  ghost predicate IsFresh(rows: Tables, context: SubmissionContext, payload: Payload, now: int) {
    && RowKey(payload.Kind(), context.idempotencyKey) !in rows
    && !IdTaken(rows, payload.Kind(), context.canonicalId)
    && Admission(rows, context, payload, now).Ok?
  }

  /** A new submission reaches both databases; its acknowledgement is lost. */
  lemma CreationEnds(
      c: Crypto, p: Database, m: Database, payload: Payload, key: string, subject: string, id: Uuid, now: int)
    requires HasLongDigest(c, payload) && IsSample(payload, key)
    requires IsFresh(p.rows, ContextOf(c, payload, key, subject, id), payload, now)
    requires IsFresh(m.rows, ContextOf(c, payload, key, subject, id), payload, now)
    ensures var context, k := ContextOf(c, payload, key, subject, id), RowKey(payload.Kind(), key);
            var call := Call(NoFault, now, now);
            var env := EnvironmentOf(subject, id, now, NoFault, FailBeforeCommit, Unreachable);
            var ending := Solo(c, p, m, RequestOf(payload, key), Received, env);
            && ending.primary.rows == p.rows[k := NewRow(Primary, context, payload, call)]
            && ending.mirror.rows == m.rows[k := NewRow(SupabaseMirror, context, payload, call)]
  {
    hide Solo, Admission, NewRow, PayloadDigest;
    var env := EnvironmentOf(subject, id, now, NoFault, FailBeforeCommit, Unreachable);
    var context := ContextOf(c, payload, key, subject, id);
    ReachesBound(c, p, m, payload, key, subject, env);
    StoreInserts(p, Primary, context, payload, env.storePrimary);
    StoreInserts(m, SupabaseMirror, context, payload, env.storeMirror);
    hide Store;
    StoresEnd(c, p, m, payload, key, context, env);
  }

  lemma StoreInserts(db: Database, target: PersistenceTarget, context: SubmissionContext, payload: Payload, call: Call)
    requires WellFormedPayload(payload) && IsFresh(db.rows, context, payload, call.databaseNow)
    ensures var tx := Store(db, target, context, payload, call);
            && tx.result.Ok? && tx.result.value.id == context.canonicalId
            && tx.db.rows
               == db.rows[RowKey(payload.Kind(), context.idempotencyKey) := NewRow(target, context, payload, call)]
  {
    hide Admission, ObjectKey;
  }

  /** A primary store that is refused answers with the refusal and changes nothing. */
  lemma RefusedStoreEnds(
      c: Crypto, p: Database, m: Database, payload: Payload, key: string, subject: string, env: Environment,
      error: DataError)
    requires HasLongDigest(c, payload) && IsSample(payload, key) && Possible(env)
    requires env.contractAccepts && env.bearer == Ok(Some(subject)) && env.storePrimary.fault == NoFault
    requires Store(p, Primary, ContextOf(c, payload, key, subject, env.freshId), payload, env.storePrimary)
          == Outcome(p, Err(error))
    ensures Solo(c, p, m, RequestOf(payload, key), Received, env) == Ending(p, m, Failed(FromDataError(error)))
  {
    hide Solo, Store, ContextOf, Conforms;
    var context, request := ContextOf(c, payload, key, subject, env.freshId), RequestOf(payload, key);
    ReachesBound(c, p, m, payload, key, subject, env);
    SoloStep(c, p, m, request, Bound(context), env);
    AnswerEnds(c, p, m, request, Failed(FromDataError(error)), env);
  }
}
