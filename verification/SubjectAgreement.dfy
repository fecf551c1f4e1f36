/**
 docs/architecture.md says that both databases get the same subject. The code compares digests, and
 the digest does not cover the subject: the two rows agree on it exactly when the attempt that
 reaches the mirror belongs to the subject that reached the primary.
 */
module SubjectAgreement {
  import opened Results
  import opened ObjectKeys
  import opened ObjectVerification
  import opened Persistence
  import opened Protocol
  import opened IntakeSystem
  import opened Invariants
  import opened Transactions
  import opened Preservation
  import opened SoloRuns
  import opened SampleRuns
  import Safety

  /** Only a store in the mirror adds a mirror row: its writer's row, under the writer's key. */
  lemma MirrorRowsAreStored(
      c: Crypto, p: Database, m: Database, log: seq<Note>, request: Request, stage: Stage, wrote: bool, event: Event,
      k: RowKey)
    requires StageOk(c, p, m, log, request, stage, wrote) && Enabled(request, stage, event)
    requires k !in m.rows && k in Advance(c, p, m, request, stage, event).mirror.rows
    ensures stage.PrimaryStored? && request.CreateRequest? && k == KeyOf(request, stage.context) && k in p.rows
    ensures var move := Advance(c, p, m, request, stage, event);
            move.primary == p && move.mirror.rows[k].subject == stage.context.subject
  {
    hide Authenticate, BindContext, ReadPrimary, ReadMirror, ObserveObject, StorePrimary, RecordFailure, Acknowledge,
         ContextOk, HasUpload, HasVerified, ObservedUpload, VerifyIn, FinalResponse, Store;
    if stage.PrimaryStored? && !event.Crash? {
      StoreEffect(m, SupabaseMirror, stage.context.WithCanonicalId(stage.stored.id), request.input.payload, event.call);
    } else if stage.ObjectVerified? && !event.Crash? {
      VerificationKeepsKeys(m, request, stage.subject, event.call, MirrorVerified(stage.subject, stage.primary));
    }
  }

  lemma VerificationKeepsKeys(m: Database, request: Request, subject: Option<string>, call: Call, next: Stage)
    requires request.CompleteRequest?
    ensures VerifyIn(m, request, subject, call, next).0.rows.Keys == m.rows.Keys
  {
  }

  /**
   Whichever step brings a mirror row, acknowledged or not: from then on the two rows agree on the
   subject if and only if the attempt taking that step belongs to the subject of the primary row.
   */
  lemma SubjectsAgreeExactly(s: System, i: nat, event: Event, k: RowKey, later: seq<Action>)
    requires Reachable(s) && CanAct(s, i, event)
    requires k !in s.mirror.rows && k in Apply(s, Act(i, event)).mirror.rows
    ensures s.attempts[i].stage.PrimaryStored? && k in s.primary.rows
    ensures var t := Run(Apply(s, Act(i, event)), later);
            && k in t.primary.rows && k in t.mirror.rows
            && (t.mirror.rows[k].subject == t.primary.rows[k].subject
                <==> s.attempts[i].stage.context.subject == s.primary.rows[k].subject)
  {
    Safety.ReachableInv(s);
    var a, after := s.attempts[i], Apply(s, Act(i, event));
    assert AttemptOk(s, i);
    hide Inv, StageOk, Advance, Enabled, StageFits, Run;
    MirrorRowsAreStored(s.crypto, s.primary, s.mirror, s.log, a.request, a.stage, a.wrote, event, k);
    Safety.ApplyKeepsInv(s, Act(i, event));
    Safety.RunKeepsInv(after, later);
    var t := Run(after, later);
    assert RowKept(after.primary.rows[k], t.primary.rows[k]) && RowKept(after.mirror.rows[k], t.mirror.rows[k]);
  }

  lemma MirrorStoreAdds(
      c: Crypto, p: Database, m: Database, request: Request, context: SubmissionContext, stored: Stored, call: Call)
    requires UniqueIds(p.rows) && MirrorAgrees(p.rows, m.rows) && StoredOk(c, p, request, context, stored)
    requires KeyOf(request, context) !in m.rows
    ensures KeyOf(request, context) in StoreMirror(m, request, context, stored, call).0.rows <==>
            && call.fault != FailBeforeCommit
            && Admission(m.rows, context, request.input.payload, call.databaseNow).Ok?
  {
    hide UniqueIds, MirrorAgrees, Admission, Store, HoldsStored;
    var canonical := context.WithCanonicalId(stored.id);
    StoreMirrorResult(c, p, m, request, context, stored, call);
    RefusedStoreChangesNothing(m, SupabaseMirror, canonical, request.input.payload, call);
  }

  lemma MirrorStoreStep(
      c: Crypto, p: Database, m: Database, log: seq<Note>, request: Request, stage: Stage, wrote: bool, call: Call)
    requires StageOk(c, p, m, log, request, stage, wrote) && stage.PrimaryStored?
    ensures StageFits(request, stage) && Enabled(request, stage, DatabaseCall(call))
    ensures StoredOk(c, p, request, stage.context, stage.stored)
    ensures Advance(c, p, m, request, stage, DatabaseCall(call)).mirror
         == StoreMirror(m, request, stage.context, stage.stored, call).0
  {
    hide StoreMirror, StoredOk, Conforms;
  }

  /** The step of the previous lemma: every admitted mirror call on a fresh key, if it is executed at all. */
  lemma MirrorRowAppears(s: System, i: nat, call: Call)
    requires Reachable(s) && i in s.attempts && s.attempts[i].stage.PrimaryStored?
    ensures s.attempts[i].request.CreateRequest? && CanAct(s, i, DatabaseCall(call))
    ensures var a := s.attempts[i];
            var k := KeyOf(a.request, a.stage.context);
            k !in s.mirror.rows ==>
              (k in Apply(s, Act(i, DatabaseCall(call))).mirror.rows <==>
                && call.fault != FailBeforeCommit
                && Admission(s.mirror.rows, a.stage.context, a.request.input.payload, call.databaseNow).Ok?)
  {
    Safety.ReachableInv(s);
    var a := s.attempts[i];
    assert AttemptOk(s, i);
    StoresParts(s.crypto, s.primary, s.mirror, s.log);
    MirrorStoreStep(s.crypto, s.primary, s.mirror, s.log, a.request, a.stage, a.wrote, call);
    hide Inv, StoresOk, StageOk, TablesOk, OutboxOk, UniqueIds, MirrorAgrees, Admission, StoredOk, Advance, StoreMirror,
         Apply;
    ActsAlone(s, i, DatabaseCall(call));
    StoredRequestCreates(s.crypto, s.primary, a.request, a.stage.context, a.stage.stored);
    if KeyOf(a.request, a.stage.context) !in s.mirror.rows {
      MirrorStoreAdds(s.crypto, s.primary, s.mirror, a.request, a.stage.context, a.stage.stored, call);
    }
  }

  // ----- the rows can differ ------------------------------------------------------------------------

  const KEY: string := "0123456789abcdef"

  const PAYLOAD: Payload := PreInterestCreate(map[])

  const ROW_KEY: RowKey := RowKey(PreInterest, KEY)

  function RowOf(c: Crypto, subject: string, id: Uuid, status: MirrorStatus): Row {
    Row(id, PayloadDigest(c, PAYLOAD), Some(subject), PAYLOAD, 0, Mirroring(status))
  }

  /** The mirror call meets `fault`; the outbox update never comes through. */
  function EnvironmentWith(subject: string, id: Uuid, fault: Fault): Environment {
    EnvironmentOf(subject, id, 0, fault, FailBeforeCommit, Unreachable)
  }

  /** The first subject reaches the primary only. */
  lemma FirstSubjectEnds(c: Crypto, subject: string, id: Uuid)
    requires HasLongDigest(c, PAYLOAD)
    ensures var ending := Solo(c, EMPTY_DATABASE, EMPTY_DATABASE, RequestOf(PAYLOAD, KEY), Received,
                               EnvironmentWith(subject, id, FailBeforeCommit));
            ending.primary.rows == map[ROW_KEY := RowOf(c, subject, id, Pending)] && ending.mirror == EMPTY_DATABASE
  {
    hide Solo, PayloadDigest;
    var env, context := EnvironmentWith(subject, id, FailBeforeCommit), ContextOf(c, PAYLOAD, KEY, subject, id);
    ReachesBound(c, EMPTY_DATABASE, EMPTY_DATABASE, PAYLOAD, KEY, subject, env);
    StoreInserts(EMPTY_DATABASE, Primary, context, PAYLOAD, env.storePrimary);
    hide Store;
    StoresEnd(c, EMPTY_DATABASE, EMPTY_DATABASE, PAYLOAD, KEY, context, env);
  }

  /** Another subject repeats the request and reaches the mirror. */
  lemma SecondSubjectEnds(c: Crypto, p: Database, subject: string, other: string, id: Uuid, otherId: Uuid)
    requires HasLongDigest(c, PAYLOAD)
    requires p.rows == map[ROW_KEY := RowOf(c, subject, id, Pending)]
    ensures var ending := Solo(c, p, EMPTY_DATABASE, RequestOf(PAYLOAD, KEY), Received,
                               EnvironmentWith(other, otherId, NoFault));
            ending.primary.rows == p.rows && ending.mirror.rows == map[ROW_KEY := RowOf(c, other, id, Mirrored)]
  {
    hide Solo, PayloadDigest;
    var env, context := EnvironmentWith(other, otherId, NoFault), ContextOf(c, PAYLOAD, KEY, other, otherId);
    ReachesBound(c, p, EMPTY_DATABASE, PAYLOAD, KEY, other, env);
    assert Store(p, Primary, context, PAYLOAD, env.storePrimary) == Outcome(p, Ok(Stored(id, 0, None, true)));
    StoreInserts(EMPTY_DATABASE, SupabaseMirror, context.WithCanonicalId(id), PAYLOAD, env.storeMirror);
    hide Store;
    StoresEnd(c, p, EMPTY_DATABASE, PAYLOAD, KEY, context, env);
  }

  /** So a reachable state can hold one submission under two subjects. */
  lemma SubjectsCanDiffer(c: Crypto, id: Uuid, otherId: Uuid) returns (t: System)
    requires HasLongDigest(c, PAYLOAD)
    ensures Reachable(t) && ROW_KEY in t.primary.rows && ROW_KEY in t.mirror.rows
    ensures t.primary.rows[ROW_KEY].subject == Some("alice") && t.mirror.rows[ROW_KEY].subject == Some("bob")
    ensures t.primary.rows[ROW_KEY].id == t.mirror.rows[ROW_KEY].id
  {
    var s := Initial(c);
    assert Run(s, []) == s && Reachable(s);
    hide Solo, Run, Reachable;
    FirstSubjectEnds(c, "alice", id);
    var first := EndingIsReachable(s, 0, RequestOf(PAYLOAD, KEY), EnvironmentWith("alice", id, FailBeforeCommit));
    SecondSubjectEnds(c, first.primary, "alice", "bob", id, otherId);
    t := EndingIsReachable(first, 1, RequestOf(PAYLOAD, KEY), EnvironmentWith("bob", otherId, NoFault));
  }
}
