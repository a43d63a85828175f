/**
 * The four-phase apply as a protocol over write calls (apply and verifyPhase of
 * internal/opnsense/apply.go). A phase is any interleaving of its keys' calls; the
 * outcome of each call is the firewall's choice.
 */
module Engine {
  import opened Names
  import opened Rows
  import opened Table
  import opened KeyPlan

  const TXT_ADD := 0
  const DATA_ADD := 1
  const DATA_REMOVE := 2
  const TXT_REMOVE := 3
  const PHASES := 4

  /** A folded plan: the settings, the desired sets, and whether a TXT definition was rejected. */
  datatype Job = Job(cfg: Config, sets: map<RowKey, Desired>, rejected: bool)

  /** Mutable state of one apply between phases: bad[i] says phase i counted a failure. */
  datatype Engine = Engine(world: World, failed: set<RowKey>, bad: seq<bool>)

  /** One phase as it went: its calls in order and whether the verification read succeeded. */
  datatype PhaseRec = PhaseRec(events: seq<Event>, readOk: bool)

  /** A set whose rows join back to its own key: what retarget insists on. */
  predicate SetOk(set_: Desired, k: RowKey) {
    set_.key == k && JoinName(set_.host, set_.domain) == k.name && 0 <= set_.ttl <= MAX_TTL
  }

  predicate JobOk(job: Job) {
    forall k | k in job.sets :: SetOk(job.sets[k], k)
  }

  function PhaseMode(i: nat): Mode {
    if i <= DATA_ADD then AddSet else Remove
  }

  predicate PhaseSelects(i: nat, k: RowKey) {
    IsTXT(k.rr) <==> i == TXT_ADD || i == TXT_REMOVE
  }

  function Selected(job: Job, i: nat): set<RowKey> {
    set k | k in job.sets && PhaseSelects(i, k)
  }

  /** The protective phase counted a failure, so this one is skipped. */
  predicate Gated(eng: Engine, i: nat)
    requires |eng.bad| == i
  {
    (i == DATA_ADD && eng.bad[TXT_ADD]) || (i == TXT_REMOVE && eng.bad[DATA_REMOVE])
  }

  function PlanAt(job: Job, eng: Engine, i: nat, k: RowKey): KeyPlan
    requires k in job.sets
  {
    PlanFor(job.cfg, job.sets[k], PhaseMode(i), k in eng.failed, RowsAt(eng.world.index, k))
  }

  /** A key's calls are its plan's calls in order, up to the first one not acknowledged. */
  predicate Follows(plan: KeyPlan, k: RowKey, seg: seq<Event>) {
    && |seg| <= |plan.ops|
    && (forall i | 0 <= i < |seg| ::
      seg[i].key == k && seg[i].op == plan.ops[i] && (seg[i].op.Add? || seg[i].id == seg[i].op.uuid))
    && (forall i | 0 <= i < |seg| - 1 :: seg[i].acked)
    && (|seg| < |plan.ops| ==> seg != [] && !seg[|seg| - 1].acked)
  }

  /** The converge of a key reports an error: a call was not acknowledged, or an alias blocks it. */
  predicate Errs(plan: KeyPlan, seg: seq<Event>) {
    (seg != [] && !seg[|seg| - 1].acked) || plan.blocked
  }

  /** The firewall turns an operation down by itself: a bad body, or a row that is not there. */
  predicate Refused(t: Table, op: Op) {
    (!op.Del? && !Acceptable(op.f)) || (op.Set? && op.uuid !in t)
  }

  /** What the firewall may answer: identities are new, and a refused write neither commits nor is acknowledged. */
  predicate Answered(w: World, e: Event) {
    (e.op.Add? ==> w.next <= e.id) && (Refused(w.table, e.op) ==> !e.acked && !e.applied)
  }

  /** The n-th call of events is answered in the state the calls before it left. */
  predicate AnsweredHere(w: World, events: seq<Event>, n: nat)
    requires n < |events|
  {
    Answered(Steps(w, events[..n]), events[n])
  }

  ghost predicate AllAnswered(w: World, events: seq<Event>) {
    forall n: nat | n < |events| :: AnsweredHere(w, events, n)
  }

  /** A call that goes as the firewall should have let it: turned down for a reason, or acknowledged and applied. */
  predicate Fine(t: Table, e: Event) {
    Refused(t, e.op) || (e.acked && e.applied)
  }

  predicate FineHere(w: World, events: seq<Event>, n: nat)
    requires n < |events|
  {
    Fine(Steps(w, events[..n]).table, events[n])
  }

  ghost predicate AllFine(w: World, events: seq<Event>) {
    forall n: nat | n < |events| :: FineHere(w, events, n)
  }

  lemma AnsweredAt(w: World, events: seq<Event>, n: nat)
    requires AllAnswered(w, events) && n < |events|
    ensures Answered(Steps(w, events[..n]), events[n])
  {
    assert AnsweredHere(w, events, n);
  }

  lemma FineAt(w: World, events: seq<Event>, n: nat)
    requires AllFine(w, events) && n < |events|
    ensures Fine(Steps(w, events[..n]).table, events[n])
  {
    assert FineHere(w, events, n);
  }

  ghost predicate PhaseRuns(job: Job, eng: Engine, i: nat, events: seq<Event>) {
    && (forall e | e in events :: e.key in Selected(job, i))
    && (forall k | k in Selected(job, i) :: Follows(PlanAt(job, eng, i, k), k, Project(events, k)))
    && AllAnswered(eng.world, events)
  }

  /** A phase is skipped if gated; otherwise every selected key follows its plan. */
  ghost predicate PhaseOk(job: Job, eng: Engine, i: nat, rec: PhaseRec) {
    && |eng.bad| == i
    && if Gated(eng, i) then rec.events == [] else PhaseRuns(job, eng, i, rec.events)
  }

  /** The re-read of the table does not show this write of this row. */
  predicate NotShown(t: Table, op: Op, id: Uuid) {
    match op
    case Del(_) => id in t
    case Add(f) => id !in t || DiffersFrom(CoreOf(t[id]), f)
    case Set(_, f) => id !in t || DiffersFrom(CoreOf(t[id]), f)
  }

  predicate LostEvent(t: Table, e: Event) {
    e.acked && NotShown(t, e.op, e.id)
  }

  function LostKeys(t: Table, rec: PhaseRec): set<RowKey> {
    if rec.readOk then set e | e in rec.events && LostEvent(t, e) :: e.key else {}
  }

  function ConvergeErrors(job: Job, eng: Engine, i: nat, events: seq<Event>): set<RowKey> {
    set k | k in job.sets && PhaseSelects(i, k) && Errs(PlanAt(job, eng, i, k), Project(events, k))
  }

  /** The state a phase leaves behind. */
  function PhaseEnd(job: Job, eng: Engine, i: nat, rec: PhaseRec): Engine
    requires |eng.bad| == i
  {
    if Gated(eng, i) then
      Engine(eng.world, eng.failed + (set k | k in job.sets && PhaseSelects(i, k) && job.sets[k].targets != {}),
        eng.bad + [false])
    else
      var w := Steps(eng.world, rec.events);
      var errs, lost := ConvergeErrors(job, eng, i, rec.events), LostKeys(w.table, rec);
      Engine(w, eng.failed + errs + lost, eng.bad + [errs != {} || lost != {} || (i == TXT_ADD && job.rejected)])
  }

  /** The state before phase i. */
  function EngineAt(job: Job, start: Engine, recs: seq<PhaseRec>, i: nat): (eng: Engine)
    requires i <= |recs| && start.bad == []
    ensures |eng.bad| == i
  {
    if i == 0 then start else PhaseEnd(job, EngineAt(job, start, recs, i - 1), i - 1, recs[i - 1])
  }

  /** An apply starts from a fresh snapshot: nothing failed yet and the index lists exactly the saved rows. */
  ghost predicate StartOk(start: Engine) {
    start.bad == [] && start.failed == {} && WorldInv(start.world) && forall k :: Agree(start.world, k)
  }

  /** The phases of one apply of job from start. */
  ghost predicate RunOk(job: Job, start: Engine, recs: seq<PhaseRec>) {
    && JobOk(job) && StartOk(start) && |recs| == PHASES
    && forall i | 0 <= i < PHASES :: PhaseOk(job, EngineAt(job, start, recs, i), i, recs[i])
  }

  /** The world after n calls of phase i: every intermediate saved table of a run is one of these. */
  function WorldAt(job: Job, start: Engine, recs: seq<PhaseRec>, i: nat, n: nat): World
    requires start.bad == [] && i < |recs| && n <= |recs[i].events|
  {
    Steps(EngineAt(job, start, recs, i).world, recs[i].events[..n])
  }

  /** A phase that ran and recorded no error of its own. */
  predicate PhaseClean(job: Job, eng: Engine, i: nat, rec: PhaseRec)
    requires |eng.bad| == i
  {
    && !Gated(eng, i)
    && ConvergeErrors(job, eng, i, rec.events) == {}
    && LostKeys(Steps(eng.world, rec.events).table, rec) == {}
  }

  /** The first n phases ran and recorded no error. */
  predicate CleanUpTo(job: Job, start: Engine, recs: seq<PhaseRec>, n: nat)
    requires start.bad == [] && n <= |recs|
  {
    forall i | 0 <= i < n :: PhaseClean(job, EngineAt(job, start, recs, i), i, recs[i])
  }

  /** The run recorded no error: with a clean fold and a successful reload, apply returns nil. */
  predicate RunClean(job: Job, start: Engine, recs: seq<PhaseRec>)
    requires start.bad == [] && |recs| == PHASES
  {
    !job.rejected && CleanUpTo(job, start, recs, PHASES)
  }

  predicate Verified(recs: seq<PhaseRec>) {
    forall i | 0 <= i < |recs| :: recs[i].readOk
  }

  // One phase.

  lemma AddOpLegal(cfg: Config, set_: Desired, m: KeyRows, op: Op, k: RowKey)
    requires AddOp(cfg, set_, m, op) && SetOk(set_, k)
    ensures !op.Del? && (op.Add? || op.uuid in m) && WrittenFor(op.f, k)
  {
  }

  lemma AddPlanLegal(cfg: Config, set_: Desired, rows: seq<Row>, m: KeyRows, k: RowKey)
    requires Lists(rows, m) && SetOk(set_, k)
    ensures DistinctRows(AddPlan(cfg, set_, rows))
    ensures forall op | op in AddPlan(cfg, set_, rows) ::
      (op.Add? || op.uuid in m) && (op.Del? || WrittenFor(op.f, k)) && AddOp(cfg, set_, m, op)
  {
    hide AddOp, AddPlan, WrittenFor, Lists, DistinctRows, DistinctTargets, SetOk;
    AddDistinct(cfg, set_, rows, m);
    forall op | op in AddPlan(cfg, set_, rows)
      ensures (op.Add? || op.uuid in m) && (op.Del? || WrittenFor(op.f, k)) && AddOp(cfg, set_, m, op)
    {
      AddFacts(cfg, set_, rows, m, op);
      AddOpLegal(cfg, set_, m, op, k);
    }
  }

  /** A plan names only rows of its key, each once, and writes only bodies of its key. */
  lemma PlanLegal(job: Job, eng: Engine, i: nat, k: RowKey)
    requires JobOk(job) && WorldInv(eng.world) && k in job.sets
    ensures DistinctRows(PlanAt(job, eng, i, k).ops)
    ensures forall op | op in PlanAt(job, eng, i, k).ops ::
      && (op.Add? || op.uuid in IndexAt(eng.world, k))
      && (op.Del? || WrittenFor(op.f, k))
      && (PhaseMode(i).AddSet? ==> AddOp(job.cfg, job.sets[k], IndexAt(eng.world, k), op))
      && (PhaseMode(i).Remove? ==> DelOp(job.sets[k], IndexAt(eng.world, k), op))
  {
    hide AddOp, AddPlan, RemovePlan, MapOf, BareTarget, EnabledChildren, SetOk;
    var rows, m := RowsAt(eng.world.index, k), IndexAt(eng.world, k);
    if PhaseMode(i).AddSet? {
      AddPlanLegal(job.cfg, job.sets[k], rows, m, k);
    } else {
      RemoveFacts(job.sets[k], rows, m);
    }
  }

  /** The next call of a segment names a row still indexed. */
  lemma NextIsIndexed(plan: KeyPlan, k: RowKey, seg: seq<Event>, n: nat, m: KeyRows)
    requires Follows(plan, k, seg) && n < |seg| && !seg[n].op.Add?
    requires DistinctRows(plan.ops) && plan.ops[n].uuid in m
    ensures seg[n].id in KeyAfter(m, seg[..n], Indexed)
  {
    forall e | e in seg[..n] && e.op.Del? ensures e.id != seg[n].id {
      var j :| 0 <= j < n && seg[j] == e;
      assert plan.ops[j].uuid != plan.ops[n].uuid;
    }
    KeyAfterKeeps(m, seg[..n], Indexed, seg[n].id);
  }

  lemma ProjectPrefix(tr: seq<Event>, n: nat, k: RowKey)
    requires n <= |tr|
    ensures |Project(tr[..n], k)| <= |Project(tr, k)|
    ensures Project(tr[..n], k) == Project(tr, k)[..|Project(tr[..n], k)|]
    ensures n < |tr| && tr[n].key == k ==>
      |Project(tr[..n], k)| < |Project(tr, k)| && Project(tr, k)[|Project(tr[..n], k)|] == tr[n]
  {
    assert tr == tr[..n] + tr[n..];
    ProjectConcat(tr[..n], tr[n..], k);
    if n < |tr| && tr[n].key == k {
      assert tr[n..] == [tr[n]] + tr[n + 1..];
      ProjectConcat([tr[n]], tr[n + 1..], k);
      assert [tr[n]][..0] == [];
      assert Project([tr[n]], k) == [tr[n]];
    }
  }

  lemma PrefixKey(w: World, tr: seq<Event>, e: Event, k: RowKey)
    requires WorldInv(w) && WorldInv(Steps(w, tr)) && Legal(Steps(w, tr), e)
    requires At(Steps(w, tr).table, k) == KeyAfter(At(w.table, k), Project(tr, k), Saved)
    requires IndexAt(Steps(w, tr), k) == KeyAfter(IndexAt(w, k), Project(tr, k), Indexed)
    ensures WorldInv(Steps(w, tr + [e]))
    ensures At(Steps(w, tr + [e]).table, k) == KeyAfter(At(w.table, k), Project(tr + [e], k), Saved)
    ensures IndexAt(Steps(w, tr + [e]), k) == KeyAfter(IndexAt(w, k), Project(tr + [e], k), Indexed)
  {
    var v, seg := Steps(w, tr), Project(tr, k);
    StepsStep(w, tr, e);
    ProjectStep(tr, e, k);
    AtStep(v, e, k);
    IndexAtStep(v, e, k);
    if e.key == k {
      KeyAfterStep(At(w.table, k), seg, e, Saved);
      KeyAfterStep(IndexAt(w, k), seg, e, Indexed);
    } else {
      assert seg + [] == seg;
    }
  }

  /** The saved rows and the index entry of every key are where its own calls of tr take them. */
  ghost predicate Tracks(w: World, tr: seq<Event>)
    requires WorldInv(w)
  {
    && WorldInv(Steps(w, tr))
    && (forall k :: At(Steps(w, tr).table, k) == KeyAfter(At(w.table, k), Project(tr, k), Saved))
    && (forall k :: IndexAt(Steps(w, tr), k) == KeyAfter(IndexAt(w, k), Project(tr, k), Indexed))
  }

  lemma TracksStep(w: World, tr: seq<Event>, e: Event)
    requires WorldInv(w) && Tracks(w, tr) && Legal(Steps(w, tr), e)
    ensures Tracks(w, tr + [e])
  {
    StepsStep(w, tr, e);
    WorldStep(Steps(w, tr), e);
    forall k
      ensures At(Steps(w, tr + [e]).table, k) == KeyAfter(At(w.table, k), Project(tr + [e], k), Saved)
      ensures IndexAt(Steps(w, tr + [e]), k) == KeyAfter(IndexAt(w, k), Project(tr + [e], k), Indexed)
    {
      PrefixKey(w, tr, e, k);
    }
  }

  lemma TracksNothing(w: World, tr: seq<Event>)
    requires WorldInv(w) && tr == []
    ensures Tracks(w, tr)
  {
  }

  lemma TracksNext(w: World, events: seq<Event>, n: nat)
    requires WorldInv(w) && 0 < n <= |events|
    requires Tracks(w, events[..n - 1]) && Legal(Steps(w, events[..n - 1]), events[n - 1])
    ensures Tracks(w, events[..n])
  {
    hide WorldInv, Legal, Step, KeyAfter, Project, At, Tracks;
    TracksStep(w, events[..n - 1], events[n - 1]);
    assert events[..n] == events[..n - 1] + [events[n - 1]];
  }

  /**
   * At every point of a phase, whatever the interleaving: the pair stays well-formed, the
   * saved rows of a key are where its own applied calls take them, its index entry is where
   * its own acknowledged calls take it, and the next call is one the path may issue.
   */
  lemma {:induction false} PhasePrefix(job: Job, eng: Engine, i: nat, events: seq<Event>, n: nat)
    requires JobOk(job) && WorldInv(eng.world) && PhaseRuns(job, eng, i, events) && n <= |events|
    ensures Tracks(eng.world, events[..n])
    ensures n < |events| ==> Legal(Steps(eng.world, events[..n]), events[n])
  {
    if n == 0 {
      TracksNothing(eng.world, events[..0]);
    } else {
      PhasePrefix(job, eng, i, events, n - 1);
      TracksNext(eng.world, events, n);
    }
    if n < |events| {
      NextIsLegal(job, eng, i, events, n);
    }
  }

  /** The n-th call of a phase is the next one of its key's plan. */
  lemma CallInPlan(job: Job, eng: Engine, i: nat, events: seq<Event>, n: nat)
    requires PhaseRuns(job, eng, i, events) && n < |events|
    ensures events[n].key in Selected(job, i)
    ensures
      var k := events[n].key;
      var done, all, plan := Project(events[..n], k), Project(events, k), PlanAt(job, eng, i, k);
      && Follows(plan, k, all) && |done| < |all| && all[|done|] == events[n] && done == all[..|done|]
      && events[n].op == plan.ops[|done|] && events[n].op in plan.ops
  {
    assert events[n] in events;
    ProjectPrefix(events, n, events[n].key);
  }

  lemma NextIsLegal(job: Job, eng: Engine, i: nat, events: seq<Event>, n: nat)
    requires JobOk(job) && WorldInv(eng.world) && PhaseRuns(job, eng, i, events) && n < |events|
    requires WorldInv(Steps(eng.world, events[..n]))
    requires IndexAt(Steps(eng.world, events[..n]), events[n].key) ==
             KeyAfter(IndexAt(eng.world, events[n].key), Project(events[..n], events[n].key), Indexed)
    ensures Legal(Steps(eng.world, events[..n]), events[n])
  {
    var e, k := events[n], events[n].key;
    CallInPlan(job, eng, i, events, n);
    PlanLegal(job, eng, i, k);
    AnsweredAt(eng.world, events, n);
    if !e.op.Add? {
      NextIsIndexed(PlanAt(job, eng, i, k), k, Project(events, k), |Project(events[..n], k)|, IndexAt(eng.world, k));
      assert HasUuid(RowsAt(Steps(eng.world, events[..n]).index, k), e.id);
    }
  }
}
