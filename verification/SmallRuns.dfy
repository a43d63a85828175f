/** Runs in which one key has something to do: from a table that already shows what every other key wants. */
module SmallRuns {
  import opened Rows
  import opened Table
  import opened KeyPlan
  import opened Engine
  import opened Runs
  import opened Converge
  import opened Minimal
  import opened TableSnapshot

  // Phases with at most one call.

  lemma OneRowRemoved(set_: Desired, r: Row)
    requires set_.targets == {} && r.children == []
    ensures RemovePlan(set_, [r]) == KeyPlan([Del(r.uuid)], false)
  {
    assert [r][..0] == [];
  }

  /** A key that needs no call in either mode. */
  predicate Idle(job: Job, index: Index, k: RowKey)
    requires k in job.sets
  {
    AddPlan(job.cfg, job.sets[k], RowsAt(index, k)) == [] &&
      RemovePlan(job.sets[k], RowsAt(index, k)) == KeyPlan([], false)
  }

  const NO_CALLS := KeyPlan([], false)

  lemma IdlePlan(job: Job, eng: Engine, i: nat, k: RowKey)
    requires k in job.sets && Idle(job, eng.world.index, k)
    ensures PlanAt(job, eng, i, k) == NO_CALLS
  {
  }

  /** A phase with one key and at most one call. */
  lemma SmallPhase(job: Job, eng: Engine, i: nat, k: RowKey, events: seq<Event>)
    requires |eng.bad| == i && !Gated(eng, i) && k in Selected(job, i)
    requires forall x | x in Selected(job, i) && x != k :: PlanAt(job, eng, i, x) == NO_CALLS
    requires Follows(PlanAt(job, eng, i, k), k, events) && |events| <= 1
    requires forall e | e in events :: Answered(eng.world, e) && !LostEvent(TableStep(eng.world.table, e), e)
    ensures PhaseOk(job, eng, i, PhaseRec(events, true))
    ensures
      var err := Errs(PlanAt(job, eng, i, k), events);
      PhaseEnd(job, eng, i, PhaseRec(events, true)) ==
        Engine(if events == [] then eng.world else Step(eng.world, events[0]), eng.failed + if err then {k} else {},
               eng.bad + [err || (i == TXT_ADD && job.rejected)])
  {
    hide PlanAt, Answered, NotShown, Step, TableStep, Project, Steps, AllAnswered;
    assert forall e | e in events :: e.key == k;
    SmallTrace(eng.world, events, k);
    var w := Steps(eng.world, events);
    assert forall x :: x in ConvergeErrors(job, eng, i, events) <==>
      x in Selected(job, i) && Errs(PlanAt(job, eng, i, x), Project(events, x));
    assert ConvergeErrors(job, eng, i, events) == if Errs(PlanAt(job, eng, i, k), events) then {k} else {};
    assert LostKeys(w.table, PhaseRec(events, true)) == {};
  }

  lemma StepTable(w: World, e: Event)
    ensures Step(w, e).table == TableStep(w.table, e)
  {
  }

  lemma OneCall(w: World, e: Event)
    ensures Project([e], e.key) == [e] && Steps(w, [e]) == Step(w, e)
    ensures forall k | k != e.key :: Project([e], k) == []
    ensures Answered(w, e) ==> AllAnswered(w, [e])
  {
    hide Answered, Step;
    assert [e][..0] == [];
    assert Steps(w, [e][..0]) == w && forall k :: Project([e][..0], k) == [];
  }

  lemma SmallTrace(w: World, events: seq<Event>, k: RowKey)
    requires |events| <= 1 && (forall e | e in events :: e.key == k && Answered(w, e))
    ensures Project(events, k) == events && (forall x | x != k :: Project(events, x) == []) && AllAnswered(w, events)
    ensures Steps(w, events) == if events == [] then w else Step(w, events[0])
    ensures events != [] ==> Steps(w, events).table == TableStep(w.table, events[0])
  {
    hide Answered, Step, AllAnswered, Project, Steps;
    if events == [] {
      NoCall(w);
    } else {
      OneCall(w, events[0]);
      StepTable(w, events[0]);
      assert events == [events[0]];
    }
  }

  lemma NoCall(w: World)
    ensures AllAnswered(w, []) && Steps(w, []) == w && forall k :: Project([], k) == []
  {
  }

  /** A phase that is gated, or whose keys need no call. */
  lemma QuietPhase(job: Job, eng: Engine, i: nat)
    requires |eng.bad| == i && forall k | k in Selected(job, i) :: PlanAt(job, eng, i, k) == NO_CALLS
    ensures PhaseOk(job, eng, i, PhaseRec([], true))
    ensures
      var end := PhaseEnd(job, eng, i, PhaseRec([], true));
      && end.world == eng.world && end.bad == eng.bad + [i == TXT_ADD && job.rejected]
      && eng.failed <= end.failed && (!Gated(eng, i) ==> end.failed == eng.failed)
  {
    hide PlanAt, Project, Steps, AllAnswered;
    NoCall(eng.world);
    if !Gated(eng, i) {
      assert ConvergeErrors(job, eng, i, []) == {};
      assert LostKeys(eng.world.table, PhaseRec([], true)) == {};
    }
  }

  // Tables that show what some keys want.

  datatype Want = Want(key: RowKey, target: string)

  function Wanting(job: Job, idle: set<RowKey>): set<Want> {
    set k, t | k in idle && k in job.sets && t in job.sets[k].targets :: Want(k, t)
  }

  lemma {:induction false} Enumerated<T>(s: set<T>) returns (q: seq<T>)
    ensures (forall x :: x in q <==> x in s) && forall i, j | 0 <= i < j < |q| :: q[i] != q[j]
    decreases |s|
  {
    if s == {} {
      q := [];
    } else {
      var x :| x in s;
      var rest := Enumerated(s - {x});
      q := rest + [x];
    }
  }

  /** The wants of the idle keys, each once. */
  ghost predicate Covers(job: Job, idle: set<RowKey>, q: seq<Want>) {
    (forall w :: w in q <==> w in Wanting(job, idle)) && forall i, j | 0 <= i < j < |q| :: q[i] != q[j]
  }

  /** One row per want, numbered from 0. */
  function SettledRows(job: Job, q: seq<Want>): seq<Row>
    requires forall w | w in q :: w.key in job.sets
  {
    seq(|q|, i requires 0 <= i < |q| => SavedRow(i, FieldsFor(job.cfg, job.sets[q[i].key], q[i].target), []))
  }

  ghost predicate Numbered(listing: seq<Row>) {
    forall i | 0 <= i < |listing| :: listing[i].uuid == i
  }

  function TableOf(listing: seq<Row>): Table {
    map i: Uuid | 0 <= i < |listing| :: i := listing[i]
  }

  function StartOf(listing: seq<Row>): Engine {
    Engine(World(TableOf(listing), IndexOf(listing), |listing|), {}, [])
  }

  lemma StartOfIsOk(listing: seq<Row>)
    requires Numbered(listing)
    ensures StartOk(StartOf(listing)) && Listing(listing, TableOf(listing))
  {
    hide WorldInv, Agree, IndexOf;
    forall u | u in TableOf(listing) ensures HasUuid(listing, u) { assert listing[u].uuid == u; }
    FreshSnapshotAgrees(listing, TableOf(listing), |listing|);
  }

  /** What a settled row shows: it is filed under its key and reads as its want asks. */
  lemma SettledRow(job: Job, w: Want, id: Uuid)
    requires JobOk(job) && w.key in job.sets
    ensures
      var set_ := job.sets[w.key];
      var r := SavedRow(id, FieldsFor(job.cfg, set_, w.target), []);
      && Visible(r) && KeyOf(r) == w.key && BareTarget(CoreOf(r)) == w.target &&
        !Stale(job.cfg, set_, CoreOf(r), w.target)
      && r.children == []
  {
    WrittenIsFresh(job.cfg, job.sets[w.key], w.target,
      CoreOf(SavedRow(id, FieldsFor(job.cfg, job.sets[w.key], w.target), [])));
  }

  /** The rows at a key are the settled rows of its wants. */
  lemma SettledAt(job: Job, q: seq<Want>, extra: seq<Row>, k: RowKey, u: Uuid)
    requires JobOk(job) && (forall w | w in q :: w.key in job.sets)
    requires forall i | 0 <= i < |extra| :: !VisibleAt(extra[i], k)
    ensures
      var m := At(TableOf(SettledRows(job, q) + extra), k);
      && (u in m <==> u < |q| && q[u].key == k)
      && (u in m ==> BareTarget(m[u]) == q[u].target && !Stale(job.cfg, job.sets[k], m[u], q[u].target))
  {
    hide Stale, FieldsFor, BareTarget, SavedRow, KeyOf, Visible, JobOk;
    if u < |q| {
      SettledRow(job, q[u], u);
    }
  }

  /** The table of the settled rows and some more rows shows a key exactly its wanted targets, once each. */
  lemma SettledKey(job: Job, idle: set<RowKey>, q: seq<Want>, extra: seq<Row>, k: RowKey)
    requires JobOk(job) && Covers(job, idle, q) && forall i | 0 <= i < |extra| :: !VisibleAt(extra[i], k)
    ensures
      var m := At(TableOf(SettledRows(job, q) + extra), k);
      if k in idle && k in job.sets then KeyConverged(job.cfg, job.sets[k], m) && DistinctRowTargets(m) else m == map[]
  {
    hide Stale, BareTarget, At, JobOk, VisibleAt, SettledRows, TableOf;
    var m := At(TableOf(SettledRows(job, q) + extra), k);
    forall u: Uuid
      ensures u in m <==> u < |q| && q[u].key == k
      ensures u in m ==> BareTarget(m[u]) == q[u].target && !Stale(job.cfg, job.sets[k], m[u], q[u].target)
    {
      SettledAt(job, q, extra, k, u);
    }
    forall u | u in m ensures q[u] in Wanting(job, idle) { assert q[u] in q; }
    if k in idle && k in job.sets {
      forall x | x in job.sets[k].targets
        ensures exists u | u in m :: BareTarget(m[u]) == x && !Stale(job.cfg, job.sets[k], m[u], x)
      {
        assert Want(k, x) in Wanting(job, idle);
        var i :| 0 <= i < |q| && q[i] == Want(k, x);
        assert i in m;
      }
    }
  }

  /** A key that is shown what it wants needs no call. */
  lemma SettledIsIdle(job: Job, idle: set<RowKey>, q: seq<Want>, extra: seq<Row>, k: RowKey)
    requires JobOk(job) && Covers(job, idle, q) && k in idle && k in job.sets
    requires Numbered(SettledRows(job, q) + extra) && forall i | 0 <= i < |extra| :: !VisibleAt(extra[i], k)
    ensures Idle(job, IndexOf(SettledRows(job, q) + extra), k)
  {
    hide KeyConverged, DistinctRowTargets, AddPlan, RemovePlan, At, IndexOf, VisibleAt;
    var listing := SettledRows(job, q) + extra;
    SettledKey(job, idle, q, extra, k);
    StartOfIsOk(listing);
    EntryLists(listing, TableOf(listing), k);
    ConvergedNeedsNothing(job.cfg, job.sets[k], RowsAt(IndexOf(listing), k), At(TableOf(listing), k));
  }
}
