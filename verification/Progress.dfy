/** Invariant I3: every failed apply used up a fault, and a fault-free one converges. */
module Progress {
  import opened Rows
  import opened Table
  import opened KeyPlan
  import opened Engine
  import opened Runs
  import opened Verify
  import opened Converge

  // Surplus rows.

  lemma InSurplus(set_: Desired, rows: seq<Row>, m: KeyRows, u: Uuid) returns (i: int)
    requires Lists(rows, m) && u in m && BareTarget(m[u]) !in set_.targets
    ensures 0 <= i < |Surplus(set_, rows)| && Surplus(set_, rows)[i].uuid == u
  {
    var j := HasRow(rows, m, u);
    assert rows[j] in Surplus(set_, rows);
    i :| 0 <= i < |Surplus(set_, rows)| && Surplus(set_, rows)[i] == rows[j];
  }

  lemma SurplusInMap(set_: Desired, rows: seq<Row>, m: KeyRows, i: int)
    requires Lists(rows, m) && 0 <= i < |Surplus(set_, rows)|
    ensures
      var r := Surplus(set_, rows)[i];
      r.uuid in m && m[r.uuid] == CoreOf(r) && BareTarget(m[r.uuid]) !in set_.targets
  {
    assert Surplus(set_, rows)[i] in Surplus(set_, rows);
  }

  /** The first surplus rows are reused, so a surplus row outside that prefix is written by no call. */
  lemma LeftoverUntouched(cfg: Config, set_: Desired, rows: seq<Row>, m: KeyRows, i: int, op: Op)
    requires Lists(rows, m) && ReuseCount(set_, rows) <= i < |Surplus(set_, rows)|
    requires op in AddPlan(cfg, set_, rows) && op.Set?
    ensures op.uuid != Surplus(set_, rows)[i].uuid
  {
    var p :| 0 <= p < |AddPlan(cfg, set_, rows)| && AddPlan(cfg, set_, rows)[p] == op;
    AddAt(cfg, set_, rows, m, p);
    SurplusInMap(set_, rows, m, i);
    SurplusDistinct(set_, rows);
  }

  /** After a completed add plan the rows with undesired targets are exactly the surplus rows it had no use for. */
  lemma Leftover(cfg: Config, set_: Desired, rows: seq<Row>, m: KeyRows, k: RowKey, seg: seq<Event>, v: View,
      lo: Uuid, hi: Uuid, u: Uuid)
    requires Lists(rows, m) && Completed(KeyPlan(AddPlan(cfg, set_, rows), false), k, seg, v)
    requires GoodIds(seg, lo, hi) && (forall x | x in m :: x < lo)
    ensures (u in KeyAfter(m, seg, v) && BareTarget(KeyAfter(m, seg, v)[u]) !in set_.targets)
       <==> (exists i | ReuseCount(set_, rows) <= i < |Surplus(set_, rows)| :: Surplus(set_, rows)[i].uuid == u)
    ensures u in m && u in KeyAfter(m, seg, v) ==> KeyAfter(m, seg, v)[u].children == m[u].children
  {
    if u in m {
      AddResultRow(cfg, set_, rows, m, k, seg, v, lo, hi, u);
      if BareTarget(m[u]) !in set_.targets {
        var i := InSurplus(set_, rows, m, u);
        SurplusDistinct(set_, rows);
        if i < ReuseCount(set_, rows) {
          var op := ReusePart(cfg, set_, rows)[i];
          ReusePartFacts(cfg, set_, rows, m, i);
          InAddPlan(cfg, set_, rows, op);
          AddKeepsTargets(cfg, set_, rows, m, k, seg, v, lo, hi, u);
        } else {
          LeftoverStays(cfg, set_, rows, m, k, seg, v, lo, hi, i);
        }
      } else {
        AddKeepsTargets(cfg, set_, rows, m, k, seg, v, lo, hi, u);
        forall i | 0 <= i < |Surplus(set_, rows)|
          ensures Surplus(set_, rows)[i].uuid != u { SurplusInMap(set_, rows, m, i); }
      }
    } else {
      forall i | 0 <= i < |Surplus(set_, rows)|
        ensures Surplus(set_, rows)[i].uuid != u { SurplusInMap(set_, rows, m, i); }
      if u in KeyAfter(m, seg, v) {
        NewIsDesired(cfg, set_, rows, m, k, seg, v, lo, hi, u);
      }
    }
  }

  lemma LeftoverStays(cfg: Config, set_: Desired, rows: seq<Row>, m: KeyRows, k: RowKey, seg: seq<Event>, v: View,
      lo: Uuid, hi: Uuid, i: int)
    requires Lists(rows, m) && Completed(KeyPlan(AddPlan(cfg, set_, rows), false), k, seg, v)
    requires GoodIds(seg, lo, hi) && (forall x | x in m :: x < lo)
    requires ReuseCount(set_, rows) <= i < |Surplus(set_, rows)|
    ensures
      var u := Surplus(set_, rows)[i].uuid;
      u in m && u in KeyAfter(m, seg, v) && KeyAfter(m, seg, v)[u] == m[u]
  {
    var u := Surplus(set_, rows)[i].uuid;
    SurplusInMap(set_, rows, m, i);
    AddResultRow(cfg, set_, rows, m, k, seg, v, lo, hi, u);
    if op :| op in AddPlan(cfg, set_, rows) && op.Set? && op.uuid == u {
      LeftoverUntouched(cfg, set_, rows, m, i, op);
    }
  }

  lemma NewIsDesired(cfg: Config, set_: Desired, rows: seq<Row>, m: KeyRows, k: RowKey, seg: seq<Event>, v: View,
      lo: Uuid, hi: Uuid, u: Uuid)
    requires Lists(rows, m) && Completed(KeyPlan(AddPlan(cfg, set_, rows), false), k, seg, v)
    requires GoodIds(seg, lo, hi) && u !in m && u in KeyAfter(m, seg, v)
    ensures BareTarget(KeyAfter(m, seg, v)[u]) in set_.targets
  {
    AddedIsDesired(m, seg, v, u);
    var e :| e in seg && e.op.Add? && e.id == u;
    var j :| 0 <= j < |seg| && seg[j] == e;
    KeyAfterOnce(m, seg, v, j);
    assert seg[j].op in AddPlan(cfg, set_, rows);
    AddFacts(cfg, set_, rows, m, e.op);
  }

  // Fault-free runs.

  /**
   * The firewall did not misbehave: every read succeeded and every write it would not refuse
   * was acknowledged and applied.
   */
  ghost predicate FaultFree(job: Job, start: Engine, recs: seq<PhaseRec>)
    requires start.bad == [] && |recs| == PHASES
  {
    Verified(recs) && forall i | 0 <= i < PHASES :: AllFine(EngineAt(job, start, recs, i).world, recs[i].events)
  }

  /** The row addSet looks up for a target carries the columns the plan wants with it. */
  predicate UpToDate(cfg: Config, set_: Desired, rows: seq<Row>, t: string) {
    var i := LastWith(rows, t);
    i >= 0 && !Stale(cfg, set_, CoreOf(rows[i]), t)
  }

  /**
   * What a caller can check of one key before the call: each desired target has an
   * up-to-date row or a body the firewall accepts, and no surplus row left over after reuse
   * has an enabled alias.
   */
  predicate Workable(cfg: Config, set_: Desired, rows: seq<Row>) {
    && (forall t | t in set_.targets :: UpToDate(cfg, set_, rows, t) || Acceptable(FieldsFor(cfg, set_, t)))
    && (forall i | ReuseCount(set_, rows) <= i < |Surplus(set_, rows)| ::
      !EnabledChildren(Surplus(set_, rows)[i].children))
  }

  lemma MissingIsStale(cfg: Config, set_: Desired, rows: seq<Row>, t: string)
    requires t in MissingOf(set_, rows)
    ensures t in set_.targets && !UpToDate(cfg, set_, rows, t)
  {
    TargetsIncrease(set_);
    MissingFacts(rows, SortedTargets(set_));
  }

  lemma RefreshIsStale(cfg: Config, set_: Desired, rows: seq<Row>, op: Op)
    requires op in RefreshPart(cfg, set_, rows)
    ensures !op.Del? && WriteTarget(op.f) in set_.targets && op.f == FieldsFor(cfg, set_, WriteTarget(op.f))
    ensures !UpToDate(cfg, set_, rows, WriteTarget(op.f))
  {
    hide Stale, FieldsFor, WriteTarget;
    TargetsIncrease(set_);
    RefreshFacts(cfg, set_, rows, SortedTargets(set_));
  }

  /** A call of the add plan writes a target whose row is not up to date. */
  lemma WritesStale(cfg: Config, set_: Desired, rows: seq<Row>, op: Op)
    requires op in AddPlan(cfg, set_, rows)
    ensures !op.Del? && WriteTarget(op.f) in set_.targets && op.f == FieldsFor(cfg, set_, WriteTarget(op.f))
    ensures !UpToDate(cfg, set_, rows, WriteTarget(op.f))
  {
    hide RefreshPart, MissingOf, Surplus, UpToDate, WriteTarget, FieldsFor;
    InAddPlan(cfg, set_, rows, op);
    if op in RefreshPart(cfg, set_, rows) {
      RefreshIsStale(cfg, set_, rows, op);
    } else if op in ReusePart(cfg, set_, rows) {
      var i :| 0 <= i < |ReusePart(cfg, set_, rows)| && ReusePart(cfg, set_, rows)[i] == op;
      MissingIsStale(cfg, set_, rows, MissingOf(set_, rows)[i]);
    } else {
      var i :| 0 <= i < |CreatePart(cfg, set_, rows)| && CreatePart(cfg, set_, rows)[i] == op;
      MissingIsStale(cfg, set_, rows, MissingOf(set_, rows)[ReuseCount(set_, rows) + i]);
    }
  }

  /** A target whose row is not up to date is written by some call of the add plan. */
  lemma StaleIsWritten(cfg: Config, set_: Desired, rows: seq<Row>, m: KeyRows, t: string) returns (op: Op)
    requires Lists(rows, m) && t in set_.targets && !UpToDate(cfg, set_, rows, t)
    ensures op in AddPlan(cfg, set_, rows) && !op.Del? && op.f == FieldsFor(cfg, set_, t)
  {
    TargetsIncrease(set_);
    RefreshFacts(cfg, set_, rows, SortedTargets(set_));
    MissingFacts(rows, SortedTargets(set_));
    var i := LastWith(rows, t);
    if i >= 0 {
      op := Set(rows[i].uuid, FieldsFor(cfg, set_, t));
      InAddPlan(cfg, set_, rows, op);
    } else {
      MissingIsWritten(cfg, set_, rows, m, t);
      op :| op in AddPlan(cfg, set_, rows) && !op.Del? && WriteTarget(op.f) == t;
      AddFacts(cfg, set_, rows, m, op);
    }
  }

  /** The firewall accepts every body of the add plan exactly when it accepts those of the targets not up to date. */
  lemma BodiesAcceptable(cfg: Config, set_: Desired, rows: seq<Row>, m: KeyRows)
    requires Lists(rows, m)
    ensures (forall op | op in AddPlan(cfg, set_, rows) && !op.Del? :: Acceptable(op.f)) <==>
            (forall t | t in set_.targets :: UpToDate(cfg, set_, rows, t) || Acceptable(FieldsFor(cfg, set_, t)))
  {
    hide AddPlan, UpToDate, Acceptable, Lists;
    forall op | op in AddPlan(cfg, set_, rows)
      ensures !op.Del? && WriteTarget(op.f) in set_.targets && op.f == FieldsFor(cfg, set_, WriteTarget(op.f))
           && !UpToDate(cfg, set_, rows, WriteTarget(op.f))
    {
      WritesStale(cfg, set_, rows, op);
    }
    forall t | t in set_.targets && !UpToDate(cfg, set_, rows, t)
      ensures exists op | op in AddPlan(cfg, set_, rows) :: !op.Del? && op.f == FieldsFor(cfg, set_, t)
    {
      var op := StaleIsWritten(cfg, set_, rows, m, t);
    }
  }

  /** In an add phase every body the key writes is acceptable exactly when every target not up to date has one. */
  lemma PhaseBodies(job: Job, start: Engine, recs: seq<PhaseRec>, i: nat, k: RowKey)
    requires RunOk(job, start, recs) && i == AddPhase(k) && k in job.sets && CleanUpTo(job, start, recs, i)
    requires Verified(recs)
    ensures
      var rows := RowsAt(start.world.index, k);
      && PlanAt(job, EngineAt(job, start, recs, i), i, k) == KeyPlan(AddPlan(job.cfg, job.sets[k], rows), false)
      && ((forall op | op in AddPlan(job.cfg, job.sets[k], rows) && !op.Del? :: Acceptable(op.f)) <==>
          (forall t | t in job.sets[k].targets ::
            UpToDate(job.cfg, job.sets[k], rows, t) || Acceptable(FieldsFor(job.cfg, job.sets[k], t))))
  {
    hide PhaseOk, JobOk, AddPlan, UpToDate, Acceptable;
    CleanAgrees(job, start, recs, i, k);
    RowsFromStart(job, start, recs, i, k);
    BodiesAcceptable(job.cfg, job.sets[k], RowsAt(start.world.index, k),
      IndexAt(EngineAt(job, start, recs, i).world, k));
  }

  predicate AllWorkable(job: Job, index: Index) {
    forall k | k in job.sets :: Workable(job.cfg, job.sets[k], RowsAt(index, k))
  }

  lemma CallPosition(job: Job, start: Engine, recs: seq<PhaseRec>, i: nat, k: RowKey, e: Event) returns (n: nat)
    requires RunOk(job, start, recs) && i < PHASES && e in Calls(recs, i, k)
    ensures n < |recs[i].events| && recs[i].events[n] == e && e.key == k
  {
    ProjectMembers(recs[i].events, k);
    n :| 0 <= n < |recs[i].events| && recs[i].events[n] == e;
  }

  /** An original row of a key stays in the saved table throughout its add phase. */
  lemma RowStaysInAddPhase(job: Job, start: Engine, recs: seq<PhaseRec>, i: nat, n: nat, k: RowKey, u: Uuid)
    requires RunOk(job, start, recs) && i == AddPhase(k) && n <= |recs[i].events|
    requires u in At(EngineAt(job, start, recs, i).world.table, k)
    ensures u in WorldAt(job, start, recs, i, n).table
  {
    RunTracks(job, start, recs, i, n);
    ProjectPrefix(recs[i].events, n, k);
    forall e | e in Project(recs[i].events[..n], k) ensures !e.op.Del? {
      assert e in Calls(recs, i, k);
      CallFacts(job, start, recs, i, k, e);
    }
    KeyAfterKeeps(At(EngineAt(job, start, recs, i).world.table, k), Project(recs[i].events[..n], k), Saved, u);
  }

  /** Without faults, a call whose body the firewall accepts is acknowledged and applied. */
  lemma FaultFreeCall(job: Job, start: Engine, recs: seq<PhaseRec>, i: nat, k: RowKey, e: Event)
    requires RunOk(job, start, recs) && FaultFree(job, start, recs) && i < PHASES && e in Calls(recs, i, k)
    requires WorldInv(EngineAt(job, start, recs, i).world) && Agree(EngineAt(job, start, recs, i).world, k)
    requires e.op.Del? || Acceptable(e.op.f)
    ensures e.acked && e.applied
  {
    var n := CallPosition(job, start, recs, i, k, e);
    FineAt(EngineAt(job, start, recs, i).world, recs[i].events, n);
    CallFacts(job, start, recs, i, k, e);
    if e.op.Set? {
      RowStaysInAddPhase(job, start, recs, i, n, k, e.id);
    }
    assert !Refused(WorldAt(job, start, recs, i, n).table, e.op);
  }

  lemma AllAckedNoError(plan: KeyPlan, k: RowKey, seg: seq<Event>)
    requires Follows(plan, k, seg) && !plan.blocked && forall e | e in seg :: e.acked
    ensures !Errs(plan, seg)
  {
    if seg != [] { assert seg[|seg| - 1] in seg; }
  }

  /** A clean, unrejected phase leaves the next gate open. */
  lemma GateStaysOpen(job: Job, start: Engine, recs: seq<PhaseRec>, i: nat)
    requires RunOk(job, start, recs) && i < PHASES && CleanUpTo(job, start, recs, i) && !job.rejected
    ensures !Gated(EngineAt(job, start, recs, i), i)
  {
    if i > 0 {
      assert PhaseClean(job, EngineAt(job, start, recs, i - 1), i - 1, recs[i - 1]);
      assert EngineAt(job, start, recs, i) == PhaseEnd(job, EngineAt(job, start, recs, i - 1), i - 1, recs[i - 1]);
    }
  }

  /** The rows that would block a key's deletes are its leftover surplus rows with an enabled alias. */
  lemma BlockedExactly(job: Job, start: Engine, recs: seq<PhaseRec>, k: RowKey)
    requires RunOk(job, start, recs) && k in job.sets && Verified(recs)
    requires CleanUpTo(job, start, recs, RemovePhase(k))
    ensures PlanAt(job, EngineAt(job, start, recs, RemovePhase(k)), RemovePhase(k), k).blocked <==>
      var rows := RowsAt(start.world.index, k);
      exists i | ReuseCount(job.sets[k], rows) <= i < |Surplus(job.sets[k], rows)| ::
        EnabledChildren(Surplus(job.sets[k], rows)[i].children)
  {
    hide PhaseOk, JobOk, Agree;
    CleanNeverFails(job, start, recs, RemovePhase(k));
    RowsFromStart(job, start, recs, AddPhase(k), k);
    BlockedAfter(job, start, recs, AddPhase(k), RemovePhase(k), k);
  }

  lemma BlockedAfter(job: Job, start: Engine, recs: seq<PhaseRec>, a: nat, r: nat, k: RowKey)
    requires RunOk(job, start, recs) && k in job.sets && a == AddPhase(k) && r == RemovePhase(k)
    requires PhaseClean(job, EngineAt(job, start, recs, a), a, recs[a])
    ensures RemovePlan(job.sets[k], RowsAt(EngineAt(job, start, recs, r).world.index, k)).blocked <==>
      var rows := RowsAt(EngineAt(job, start, recs, a).world.index, k);
      exists i | ReuseCount(job.sets[k], rows) <= i < |Surplus(job.sets[k], rows)| ::
        EnabledChildren(Surplus(job.sets[k], rows)[i].children)
  {
    assert k in Selected(job, a);
    CleanPhaseCompletes(job, start, recs, a, k);
    Still(job, start, recs, a + 1, r, k);
    BlockedByLeftover(job, EngineAt(job, start, recs, a).world, EngineAt(job, start, recs, r).world, k,
      Calls(recs, a, k),
                      EngineAt(job, start, recs, a + 1).world.next);
  }

  lemma BlockedByLeftover(job: Job, w: World, w': World, k: RowKey, seg: seq<Event>, hi: Uuid)
    requires WorldInv(w) && WorldInv(w') && k in job.sets
    requires Completed(KeyPlan(AddPlan(job.cfg, job.sets[k], RowsAt(w.index, k)), false), k, seg, Indexed)
    requires GoodIds(seg, w.next, hi) && (forall u | u in IndexAt(w, k) :: u < w.next)
    requires IndexAt(w', k) == KeyAfter(IndexAt(w, k), seg, Indexed)
    ensures RemovePlan(job.sets[k], RowsAt(w'.index, k)).blocked <==>
      var rows := RowsAt(w.index, k);
      exists i | ReuseCount(job.sets[k], rows) <= i < |Surplus(job.sets[k], rows)| ::
        EnabledChildren(Surplus(job.sets[k], rows)[i].children)
  {
    var set_, rows, rows' := job.sets[k], RowsAt(w.index, k), RowsAt(w'.index, k);
    var m, m' := IndexAt(w, k), IndexAt(w', k);
    RemoveFacts(set_, rows', m');
    if j :| 0 <= j < |rows'| && TargetOf(rows'[j]) !in set_.targets && EnabledChildren(rows'[j].children) {
      var u := rows'[j].uuid;
      Leftover(job.cfg, set_, rows, m, k, seg, Indexed, w.next, hi, u);
      var i :| ReuseCount(set_, rows) <= i < |Surplus(set_, rows)| && Surplus(set_, rows)[i].uuid == u;
      SurplusInMap(set_, rows, m, i);
    }
    if i :| ReuseCount(set_, rows) <= i < |Surplus(set_, rows)| && EnabledChildren(Surplus(set_, rows)[i].children) {
      var u := Surplus(set_, rows)[i].uuid;
      SurplusInMap(set_, rows, m, i);
      Leftover(job.cfg, set_, rows, m, k, seg, Indexed, w.next, hi, u);
      var j := HasRow(rows', m', u);
    }
  }

  lemma NothingLost(job: Job, start: Engine, recs: seq<PhaseRec>, i: nat, e: Event)
    requires RunOk(job, start, recs) && i < PHASES && CleanUpTo(job, start, recs, i) && Verified(recs)
    requires e in recs[i].events && e.applied
    ensures !LostEvent(EngineAt(job, start, recs, i + 1).world.table, e)
  {
    ProjectMembers(recs[i].events, e.key);
    var j :| 0 <= j < |Calls(recs, i, e.key)| && Calls(recs, i, e.key)[j] == e;
    CleanAgrees(job, start, recs, i, e.key);
    LossIsExact(job, start, recs, i, e.key, j);
  }

  /** One more phase of a fault-free apply of a workable plan is clean. */
  lemma NextPhaseClean(job: Job, start: Engine, recs: seq<PhaseRec>, i: nat)
    requires RunOk(job, start, recs) && FaultFree(job, start, recs) && !job.rejected
    requires AllWorkable(job, start.world.index) && i < PHASES && CleanUpTo(job, start, recs, i)
    ensures PhaseClean(job, EngineAt(job, start, recs, i), i, recs[i])
  {
    var eng, t := EngineAt(job, start, recs, i), EngineAt(job, start, recs, i + 1).world.table;
    GateStaysOpen(job, start, recs, i);
    NextWorld(job, start, recs, i);
    forall k | k in Selected(job, i) ensures !Errs(PlanAt(job, eng, i, k), Project(recs[i].events, k)) {
      KeyIsClean(job, start, recs, i, k);
    }
    assert ConvergeErrors(job, eng, i, recs[i].events) == {};
    forall e | e in recs[i].events ensures !LostEvent(t, e) {
      ProjectMembers(recs[i].events, e.key);
      CallsMeanSelected(job, start, recs, i, e.key);
      KeyIsClean(job, start, recs, i, e.key);
      NothingLost(job, start, recs, i, e);
    }
  }

  lemma KeyIsClean(job: Job, start: Engine, recs: seq<PhaseRec>, i: nat, k: RowKey)
    requires RunOk(job, start, recs) && FaultFree(job, start, recs) && i < PHASES && CleanUpTo(job, start, recs, i)
    requires !Gated(EngineAt(job, start, recs, i), i)
    requires k in Selected(job, i) && Workable(job.cfg, job.sets[k], RowsAt(start.world.index, k))
    ensures !Errs(PlanAt(job, EngineAt(job, start, recs, i), i, k), Calls(recs, i, k))
    ensures forall e | e in Calls(recs, i, k) :: e.acked && e.applied
  {
    hide PhaseOk, JobOk, UpToDate, Acceptable, AddPlan, AllFine;
    CleanAgrees(job, start, recs, i, k);
    KeyFollows(job, start, recs, i, k);
    if i == AddPhase(k) {
      PhaseBodies(job, start, recs, i, k);
    } else {
      BlockedExactly(job, start, recs, k);
    }
    forall e | e in Calls(recs, i, k) ensures e.acked && e.applied {
      CallFacts(job, start, recs, i, k, e);
      FaultFreeCall(job, start, recs, i, k, e);
    }
    AllAckedNoError(PlanAt(job, EngineAt(job, start, recs, i), i, k), k, Calls(recs, i, k));
  }

  lemma {:induction false} WorkableIsClean(job: Job, start: Engine, recs: seq<PhaseRec>, i: nat)
    requires RunOk(job, start, recs) && FaultFree(job, start, recs) && !job.rejected
    requires AllWorkable(job, start.world.index) && i <= PHASES
    ensures CleanUpTo(job, start, recs, i)
  {
    hide PhaseOk, JobOk, WorldInv, Agree, Workable, AllFine;
    if i > 0 {
      WorkableIsClean(job, start, recs, i - 1);
      NextPhaseClean(job, start, recs, i - 1);
    }
  }

  /** A run without errors had only workable keys. */
  lemma CleanIsWorkable(job: Job, start: Engine, recs: seq<PhaseRec>, k: RowKey)
    requires RunOk(job, start, recs) && CleanUpTo(job, start, recs, PHASES) && Verified(recs) && k in job.sets
    ensures Workable(job.cfg, job.sets[k], RowsAt(start.world.index, k))
  {
    var a, r := AddPhase(k), RemovePhase(k);
    assert k in Selected(job, a) && k in Selected(job, r);
    CleanCompletes(job, start, recs, a, k);
    CleanCompletes(job, start, recs, r, k);
    PhaseBodies(job, start, recs, a, k);
    BlockedExactly(job, start, recs, k);
    var plan := PlanAt(job, EngineAt(job, start, recs, a), a, k);
    forall op | op in plan.ops && !op.Del? ensures Acceptable(op.f) {
      var j := CallFor(plan, k, Calls(recs, a, k), Indexed, op);
      var e := Calls(recs, a, k)[j];
      var n := CallPosition(job, start, recs, a, k, e);
      assert PhaseOk(job, EngineAt(job, start, recs, a), a, recs[a]);
      AnsweredAt(EngineAt(job, start, recs, a).world, recs[a].events, n);
    }
  }

  /**
   * A fault-free apply records no error exactly when no registry definition was rejected
   * and every key is workable. An A record with an empty target, which folds without an
   * error, is the plan that never converges although no fault occurs.
   */
  lemma FaultFreeIsCleanExactly(job: Job, start: Engine, recs: seq<PhaseRec>)
    requires RunOk(job, start, recs) && FaultFree(job, start, recs)
    ensures RunClean(job, start, recs) <==> !job.rejected && AllWorkable(job, start.world.index)
  {
    if !job.rejected && AllWorkable(job, start.world.index) {
      WorkableIsClean(job, start, recs, PHASES);
    }
    if RunClean(job, start, recs) {
      forall k | k in job.sets ensures Workable(job.cfg, job.sets[k], RowsAt(start.world.index, k)) {
        CleanIsWorkable(job, start, recs, k);
      }
    }
  }
}
