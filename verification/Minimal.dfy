/** An apply changes as little as it can, and nothing at all the second time. */
module Minimal {
  import opened Order
  import opened Rows
  import opened Table
  import opened KeyPlan
  import opened Engine
  import opened Runs
  import opened Converge
  import opened Progress

  /** No two rows of the key carry the same target. */
  ghost predicate DistinctRowTargets(m: KeyRows) {
    forall u, v | u in m && v in m && u != v :: BareTarget(m[u]) != BareTarget(m[v])
  }

  // The fixpoint.

  lemma ConvergedNeedsNoWrite(cfg: Config, set_: Desired, m: KeyRows, op: Op)
    requires KeyConverged(cfg, set_, m) && DistinctRowTargets(m)
    requires !op.Del? && WriteTarget(op.f) in set_.targets
    ensures !AddOp(cfg, set_, m, op)
  {
    var t := WriteTarget(op.f);
    var u :| u in m && BareTarget(m[u]) == t && !Stale(cfg, set_, m[u], t);
  }

  lemma FirstOp(ops: seq<Op>)
    ensures ops == [] || exists op :: op in ops
  {
    assert ops == [] || ops[0] in ops;
  }

  lemma ConvergedNeedsNoAdd(cfg: Config, set_: Desired, rows: seq<Row>, m: KeyRows)
    requires Lists(rows, m) && KeyConverged(cfg, set_, m) && DistinctRowTargets(m)
    ensures AddPlan(cfg, set_, rows) == []
  {
    forall op | op in AddPlan(cfg, set_, rows) ensures false {
      AddFacts(cfg, set_, rows, m, op);
      ConvergedNeedsNoWrite(cfg, set_, m, op);
    }
    FirstOp(AddPlan(cfg, set_, rows));
  }

  lemma ConvergedNeedsNoDelete(cfg: Config, set_: Desired, rows: seq<Row>, m: KeyRows)
    requires Lists(rows, m) && KeyConverged(cfg, set_, m)
    ensures RemovePlan(set_, rows) == KeyPlan([], false)
  {
    forall i | 0 <= i < |rows| ensures TargetOf(rows[i]) in set_.targets {
      assert rows[i].uuid in m;
    }
    RemoveFacts(set_, rows, m);
    FirstOp(RemovePlan(set_, rows).ops);
  }

  /** A converged key without duplicate rows needs no call, in either mode. */
  lemma ConvergedNeedsNothing(cfg: Config, set_: Desired, rows: seq<Row>, m: KeyRows)
    requires Lists(rows, m) && KeyConverged(cfg, set_, m) && DistinctRowTargets(m)
    ensures AddPlan(cfg, set_, rows) == []
    ensures RemovePlan(set_, rows) == KeyPlan([], false)
  {
    ConvergedNeedsNoAdd(cfg, set_, rows, m);
    ConvergedNeedsNoDelete(cfg, set_, rows, m);
  }

  lemma NoPlansNoCalls(job: Job, start: Engine, recs: seq<PhaseRec>, i: nat)
    requires RunOk(job, start, recs) && i < PHASES
    requires forall k | k in job.sets :: PlanAt(job, EngineAt(job, start, recs, i), i, k).ops == []
    ensures recs[i].events == []
  {
    assert PhaseOk(job, EngineAt(job, start, recs, i), i, recs[i]);
    if recs[i].events != [] {
      var e := recs[i].events[0];
      assert e in recs[i].events;
      ProjectMembers(recs[i].events, e.key);
    }
  }

  lemma WorldStays(job: Job, start: Engine, recs: seq<PhaseRec>, i: nat)
    requires RunOk(job, start, recs) && i < PHASES && recs[i].events == []
    ensures EngineAt(job, start, recs, i + 1).world == EngineAt(job, start, recs, i).world
  {
    NextWorld(job, start, recs, i);
  }

  lemma NoOpsFromStart(job: Job, start: Engine, eng: Engine, i: nat, k: RowKey)
    requires StartOk(start) && eng.world == start.world && k in job.sets && Converged(job, start.world.table)
    requires DistinctRowTargets(At(start.world.table, k))
    ensures PlanAt(job, eng, i, k).ops == []
  {
    hide KeyConverged, AddPlan, RemovePlan, DistinctRowTargets;
    assert Agree(start.world, k);
    ConvergedNeedsNothing(job.cfg, job.sets[k], RowsAt(start.world.index, k), At(start.world.table, k));
  }

  lemma {:induction false} NothingToDo(job: Job, start: Engine, recs: seq<PhaseRec>, i: nat)
    requires RunOk(job, start, recs) && i <= PHASES && Converged(job, start.world.table)
    requires forall k | k in job.sets :: DistinctRowTargets(At(start.world.table, k))
    ensures EngineAt(job, start, recs, i).world == start.world
    ensures forall p | 0 <= p < i :: recs[p].events == []
  {
    hide EngineAt, Converged, PlanAt, WorldInv, Agree, MapOf, DistinctRowTargets, PhaseOk, Steps, JobOk;
    AtStart(job, start, recs);
    if i > 0 {
      NothingToDo(job, start, recs, i - 1);
      forall k | k in job.sets ensures PlanAt(job, EngineAt(job, start, recs, i - 1), i - 1, k).ops == [] {
        NoOpsFromStart(job, start, EngineAt(job, start, recs, i - 1), i - 1, k);
      }
      NoPlansNoCalls(job, start, recs, i - 1);
      WorldStays(job, start, recs, i - 1);
    }
  }

  /** Two rows of a completed add plan never end up with the same desired target. */
  lemma AddNoDuplicates(cfg: Config, set_: Desired, rows: seq<Row>, m: KeyRows, k: RowKey, seg: seq<Event>, v: View,
      lo: Uuid, hi: Uuid, x: Uuid, y: Uuid)
    requires Lists(rows, m) && Completed(KeyPlan(AddPlan(cfg, set_, rows), false), k, seg, v)
    requires GoodIds(seg, lo, hi) && (forall u | u in m :: u < lo) && DistinctRowTargets(m)
    requires x != y && x in KeyAfter(m, seg, v) && y in KeyAfter(m, seg, v)
    requires BareTarget(KeyAfter(m, seg, v)[x]) in set_.targets
    ensures BareTarget(KeyAfter(m, seg, v)[x]) != BareTarget(KeyAfter(m, seg, v)[y])
  {
    hide Completed, GoodIds, Lists, FieldsFor, Stale, AddPlan, SortedTargets;
    AddDistinct(cfg, set_, rows, m);
    var i := Origin(cfg, set_, rows, m, k, seg, v, lo, hi, x);
    var j := Origin(cfg, set_, rows, m, k, seg, v, lo, hi, y);
    var ops := AddPlan(cfg, set_, rows);
    if i >= 0 { assert ops[i] in ops; AddFacts(cfg, set_, rows, m, ops[i]); }
    if j >= 0 { assert ops[j] in ops; AddFacts(cfg, set_, rows, m, ops[j]); }
  }

  /** Where a row comes from after a completed add plan: the call that wrote it, or -1 for an untouched original. */
  lemma Origin(cfg: Config, set_: Desired, rows: seq<Row>, m: KeyRows, k: RowKey, seg: seq<Event>, v: View, lo: Uuid,
      hi: Uuid, u: Uuid)
    returns (i: int)
    requires Lists(rows, m) && Completed(KeyPlan(AddPlan(cfg, set_, rows), false), k, seg, v)
    requires GoodIds(seg, lo, hi) && (forall x | x in m :: x < lo) && u in KeyAfter(m, seg, v)
    ensures -1 <= i < |AddPlan(cfg, set_, rows)|
    ensures i < 0 ==> u in m && KeyAfter(m, seg, v)[u] == m[u] && forall e | e in seg :: e.id != u
    ensures i >= 0 ==>
      var op := AddPlan(cfg, set_, rows)[i];
      && !op.Del? && BareTarget(KeyAfter(m, seg, v)[u]) == WriteTarget(op.f)
      && seg[i].id == u && (op.Set? ==> op.uuid == u && u in m)
  {
    if j :| 0 <= j < |seg| && seg[j].id == u {
      i := j;
      KeyAfterOnce(m, seg, v, j);
      assert seg[j] in seg && seg[j].op in AddPlan(cfg, set_, rows);
      AddFacts(cfg, set_, rows, m, seg[j].op);
    } else {
      i := -1;
      KeyAfterUntouched(m, seg, v, u);
      if u !in m {
        AddedIsDesired(m, seg, v, u);
      }
    }
  }

  /** An error-free apply of a table without duplicate rows leaves no duplicates at the plan's keys. */
  lemma CleanKeepsDistinct(job: Job, start: Engine, recs: seq<PhaseRec>, k: RowKey)
    requires RunOk(job, start, recs) && RunClean(job, start, recs) && Verified(recs) && k in job.sets
    requires DistinctRowTargets(At(start.world.table, k))
    ensures DistinctRowTargets(At(EngineAt(job, start, recs, PHASES).world.table, k))
  {
    var after := At(EngineAt(job, start, recs, PHASES).world.table, k);
    DistinctBeforeRemove(job, start, recs, AddPhase(k), RemovePhase(k), k);
    forall x, y | x in after && y in after && x != y ensures BareTarget(after[x]) != BareTarget(after[y]) {
      CleanRemoves(job, start, recs, k, x);
      CleanRemoves(job, start, recs, k, y);
    }
  }

  lemma DistinctBeforeRemove(job: Job, start: Engine, recs: seq<PhaseRec>, a: nat, r: nat, k: RowKey)
    requires RunOk(job, start, recs) && a == AddPhase(k) && r == RemovePhase(k)
    requires CleanUpTo(job, start, recs, r) && Verified(recs) && k in job.sets
    requires DistinctRowTargets(At(start.world.table, k))
    ensures
      var m := At(EngineAt(job, start, recs, r).world.table, k);
      forall x, y | x in m && y in m && x != y && BareTarget(m[x]) in job.sets[k].targets ::
        BareTarget(m[x]) != BareTarget(m[y])
  {
    DistinctAfterAdd(job, start, recs, a, k);
    Still(job, start, recs, a + 1, r, k);
  }

  lemma AtStart(job: Job, start: Engine, recs: seq<PhaseRec>)
    requires start.bad == []
    ensures EngineAt(job, start, recs, 0) == start
  {
  }

  lemma DistinctAfterAdd(job: Job, start: Engine, recs: seq<PhaseRec>, a: nat, k: RowKey)
    requires RunOk(job, start, recs) && a == AddPhase(k) && CleanUpTo(job, start, recs, a + 1) && Verified(recs) &&
      k in job.sets
    requires DistinctRowTargets(At(start.world.table, k))
    ensures
      var m := At(EngineAt(job, start, recs, a + 1).world.table, k);
      forall x, y | x in m && y in m && x != y && BareTarget(m[x]) in job.sets[k].targets ::
        BareTarget(m[x]) != BareTarget(m[y])
  {
    hide EngineAt, PhaseOk, PhaseClean, Completed, GoodIds, MapOf, KeyAfter, AddPlan, DistinctRowTargets, BareTarget;
    var eng := EngineAt(job, start, recs, a);
    var m := At(EngineAt(job, start, recs, a + 1).world.table, k);
    assert k in Selected(job, a);
    CleanCompletes(job, start, recs, a, k);
    Still(job, start, recs, 0, a, k);
    AtStart(job, start, recs);
    forall x, y | x in m && y in m && x != y && BareTarget(m[x]) in job.sets[k].targets
      ensures BareTarget(m[x]) != BareTarget(m[y])
    {
      AddNoDuplicates(job.cfg, job.sets[k], RowsAt(eng.world.index, k), IndexAt(eng.world, k), k, Calls(recs, a, k),
        Indexed, eng.world.next, EngineAt(job, start, recs, a + 1).world.next, x, y);
    }
  }

  /**
   * Fixpoint: after an apply that returned nil with its writes verified, on a table
   * without duplicate rows at the plan's keys, applying the same plan again issues no
   * write call in any phase, whatever order the new snapshot lists the rows in.
   */
  lemma SecondApplyWritesNothing(job: Job, start: Engine, recs: seq<PhaseRec>, start2: Engine, recs2: seq<PhaseRec>)
    requires RunOk(job, start, recs) && RunClean(job, start, recs) && Verified(recs)
    requires forall k | k in job.sets :: DistinctRowTargets(At(start.world.table, k))
    requires RunOk(job, start2, recs2) && start2.world.table == EngineAt(job, start, recs, PHASES).world.table
    ensures forall i | 0 <= i < PHASES :: recs2[i].events == []
  {
    NilMeansConverged(job, start, recs);
    forall k | k in job.sets ensures DistinctRowTargets(At(start2.world.table, k)) {
      CleanKeepsDistinct(job, start, recs, k);
    }
    NothingToDo(job, start2, recs2, PHASES);
  }

  // The counts.

  function Adds(ops: seq<Op>): nat {
    if ops == [] then 0 else Adds(ops[..|ops| - 1]) + if ops[|ops| - 1].Add? then 1 else 0
  }

  lemma {:induction false} AddsConcat(a: seq<Op>, b: seq<Op>)
    ensures Adds(a + b) == Adds(a) + Adds(b)
  {
    if b == [] {
      assert a + b == a;
    } else {
      assert (a + b)[..|a + b| - 1] == a + b[..|b| - 1];
      AddsConcat(a, b[..|b| - 1]);
    }
  }

  lemma {:induction false} AddsOfSame(ops: seq<Op>, isAdd: bool)
    requires forall op | op in ops :: op.Add? <==> isAdd
    ensures Adds(ops) == if isAdd then |ops| else 0
  {
    if ops != [] {
      assert ops[|ops| - 1] in ops;
      AddsOfSame(ops[..|ops| - 1], isAdd);
    }
  }

  function TargetsOf(m: KeyRows): set<string> {
    set u | u in m :: BareTarget(m[u])
  }

  /** The targets to fill are the desired ones nobody carries. */
  lemma MissingCount(set_: Desired, rows: seq<Row>, m: KeyRows)
    requires Lists(rows, m)
    ensures |MissingOf(set_, rows)| == |set_.targets - TargetsOf(m)|
  {
    var missing := MissingOf(set_, rows);
    TargetsIncrease(set_);
    MissingFacts(rows, SortedTargets(set_));
    LessIsStrictTotal();
    DistinctCount(missing);
    forall t ensures t in missing <==> t in set_.targets - TargetsOf(m) {
      if t in missing {
        MissingHasNoRow(set_, rows, m, t);
      } else if t in set_.targets {
        assert rows[LastWith(rows, t)].uuid in m;
      }
    }
    assert ElementsOf(missing) == set_.targets - TargetsOf(m);
  }

  /** The rows to spare carry the targets nobody wants. */
  lemma SurplusCount(set_: Desired, rows: seq<Row>, m: KeyRows)
    requires Lists(rows, m) && DistinctRowTargets(m)
    ensures |Surplus(set_, rows)| == |TargetsOf(m) - set_.targets|
  {
    var surplus := Surplus(set_, rows);
    var ts := seq(|surplus|, i requires 0 <= i < |surplus| => TargetOf(surplus[i]));
    SurplusDistinct(set_, rows);
    forall i | 0 <= i < |surplus|
      ensures surplus[i].uuid in m && m[surplus[i].uuid] == CoreOf(surplus[i]) && ts[i] !in set_.targets
    {
      SurplusInMap(set_, rows, m, i);
    }
    DistinctCount(ts);
    forall t | t in TargetsOf(m) - set_.targets ensures t in ts {
      var u :| u in m && BareTarget(m[u]) == t;
      var i := InSurplus(set_, rows, m, u);
      assert ts[i] == t;
    }
    assert ElementsOf(ts) == TargetsOf(m) - set_.targets;
  }

  lemma SplitCount(a: set<string>, b: set<string>)
    ensures |a - b| - |b - a| == |a| - |b|
  {
    assert a == (a - b) + (a * b) && b == (b - a) + (a * b);
  }

  lemma {:induction false} RemoveLength(set_: Desired, rows: seq<Row>)
    requires !RemovePlan(set_, rows).blocked
    ensures |RemovePlan(set_, rows).ops| == |Surplus(set_, rows)|
  {
    if rows != [] { RemoveLength(set_, rows[..|rows| - 1]); }
  }

  function Max0(n: int): nat {
    if n < 0 then 0 else n
  }

  lemma AddsInParts(cfg: Config, set_: Desired, rows: seq<Row>, m: KeyRows)
    requires Lists(rows, m)
    ensures Adds(AddPlan(cfg, set_, rows)) == |MissingOf(set_, rows)| - ReuseCount(set_, rows)
  {
    var a, b, c := RefreshPart(cfg, set_, rows), ReusePart(cfg, set_, rows), CreatePart(cfg, set_, rows);
    AddsConcat(a + b, c);
    AddsConcat(a, b);
    forall op | op in a ensures !op.Add? { RefreshPartFacts(cfg, set_, rows, m, op); }
    AddsOfSame(a, false);
    AddsOfSame(b, false);
    AddsOfSame(c, true);
  }

  /** An add plan creates only the shortfall and reuses as many rows as it can. */
  lemma AddCounts(cfg: Config, set_: Desired, rows: seq<Row>, m: KeyRows)
    requires Lists(rows, m) && DistinctRowTargets(m)
    ensures Adds(AddPlan(cfg, set_, rows)) == Max0(|set_.targets| - |TargetsOf(m)|)
    ensures |ReusePart(cfg, set_, rows)| == Min(|set_.targets - TargetsOf(m)|, |TargetsOf(m) - set_.targets|)
    ensures |Surplus(set_, rows)| - ReuseCount(set_, rows) == Max0(|TargetsOf(m)| - |set_.targets|)
  {
    MissingCount(set_, rows, m);
    SurplusCount(set_, rows, m);
    SplitCount(set_.targets, TargetsOf(m));
    AddsInParts(cfg, set_, rows, m);
  }

  lemma SurplusIds(set_: Desired, rows: seq<Row>, m: KeyRows, u: Uuid)
    requires Lists(rows, m)
    ensures u in Uuids(Surplus(set_, rows)) <==> u in m && BareTarget(m[u]) !in set_.targets
  {
    var surplus := Surplus(set_, rows);
    if i :| 0 <= i < |surplus| && surplus[i].uuid == u {
      SurplusInMap(set_, rows, m, i);
    }
    if u in m && BareTarget(m[u]) !in set_.targets {
      var i := InSurplus(set_, rows, m, u);
      assert surplus[i].uuid == u;
    }
  }

  lemma SpareIds(rows: seq<Row>, n: nat, u: Uuid)
    requires n <= |rows|
    ensures u in Uuids(rows[n..]) <==> exists i | n <= i < |rows| :: rows[i].uuid == u
  {
    if i :| n <= i < |rows| && rows[i].uuid == u {
      assert rows[n..][i - n].uuid == u;
    }
  }

  lemma LeftoverId(cfg: Config, set_: Desired, rows: seq<Row>, m: KeyRows, rows2: seq<Row>, k: RowKey,
      seg: seq<Event>, lo: Uuid, hi: Uuid, u: Uuid)
    requires Lists(rows, m) && Completed(KeyPlan(AddPlan(cfg, set_, rows), false), k, seg, Indexed)
    requires GoodIds(seg, lo, hi) && (forall u | u in m :: u < lo)
    requires Lists(rows2, KeyAfter(m, seg, Indexed))
    ensures ReuseCount(set_, rows) <= |Surplus(set_, rows)|
    ensures u in Uuids(Surplus(set_, rows)[ReuseCount(set_, rows)..]) <==> u in Uuids(Surplus(set_, rows2))
  {
    hide Completed, GoodIds, Lists, KeyAfter, AddPlan, Uuids, BareTarget, Surplus;
    Leftover(cfg, set_, rows, m, k, seg, Indexed, lo, hi, u);
    SurplusIds(set_, rows2, KeyAfter(m, seg, Indexed), u);
    SpareIds(Surplus(set_, rows), ReuseCount(set_, rows), u);
  }

  /** After the add phase the surplus rows left to delete are the ones reuse did not take. */
  lemma LeftoverCount(cfg: Config, set_: Desired, rows: seq<Row>, m: KeyRows, rows2: seq<Row>, k: RowKey,
      seg: seq<Event>, lo: Uuid, hi: Uuid)
    requires Lists(rows, m) && Completed(KeyPlan(AddPlan(cfg, set_, rows), false), k, seg, Indexed)
    requires GoodIds(seg, lo, hi) && (forall u | u in m :: u < lo)
    requires Lists(rows2, KeyAfter(m, seg, Indexed))
    ensures |Surplus(set_, rows2)| == |Surplus(set_, rows)| - ReuseCount(set_, rows)
  {
    hide Completed, GoodIds, KeyAfter, Surplus, AddPlan, MissingOf;
    var spare, left := Surplus(set_, rows)[ReuseCount(set_, rows)..], Surplus(set_, rows2);
    SurplusDistinct(set_, rows);
    SurplusDistinct(set_, rows2);
    UuidCount(spare);
    UuidCount(left);
    forall u: Uuid ensures u in Uuids(spare) <==> u in Uuids(left) {
      LeftoverId(cfg, set_, rows, m, rows2, k, seg, lo, hi, u);
    }
    assert Uuids(spare) == Uuids(left);
  }

  // Rows that change target in place.

  /** The rows of both tables that carry another target in the second. */
  ghost function Changed(before: KeyRows, after: KeyRows): set<Uuid> {
    set u | u in before && u in after && BareTarget(before[u]) != BareTarget(after[u])
  }

  /** A surplus row that the add phase reuses. */
  predicate Reused(set_: Desired, rows: seq<Row>, u: Uuid) {
    exists i | 0 <= i < ReuseCount(set_, rows) :: Surplus(set_, rows)[i].uuid == u
  }

  /** A completed add plan gives another desired target to the surplus rows it reuses, and to no other row. */
  lemma ReusedRow(cfg: Config, set_: Desired, rows: seq<Row>, m: KeyRows, k: RowKey, seg: seq<Event>, lo: Uuid,
      hi: Uuid, u: Uuid)
    requires Lists(rows, m) && Completed(KeyPlan(AddPlan(cfg, set_, rows), false), k, seg, Indexed)
    requires GoodIds(seg, lo, hi) && (forall x | x in m :: x < lo)
    ensures
      var after := KeyAfter(m, seg, Indexed);
      u in Changed(m, after) && BareTarget(after[u]) in set_.targets <==> Reused(set_, rows, u)
  {
    hide Completed, GoodIds, AddPlan, MissingOf, BareTarget;
    if u in m {
      AddKeepsTargets(cfg, set_, rows, m, k, seg, Indexed, lo, hi, u);
      if BareTarget(m[u]) !in set_.targets {
        var i := InSurplus(set_, rows, m, u);
        SurplusDistinct(set_, rows);
        if i < ReuseCount(set_, rows) {
          ReusePartFacts(cfg, set_, rows, m, i);
          InAddPlan(cfg, set_, rows, ReusePart(cfg, set_, rows)[i]);
        } else {
          LeftoverStays(cfg, set_, rows, m, k, seg, Indexed, lo, hi, i);
        }
      }
    }
    forall i | 0 <= i < ReuseCount(set_, rows)
      ensures Surplus(set_, rows)[i].uuid in m && BareTarget(m[Surplus(set_, rows)[i].uuid]) !in set_.targets
    {
      SurplusInMap(set_, rows, m, i);
    }
  }

  lemma FirstIds(rows: seq<Row>, n: nat, u: Uuid)
    requires n <= |rows|
    ensures u in Uuids(rows[..n]) <==> exists i | 0 <= i < n :: rows[i].uuid == u
  {
    if i :| 0 <= i < n && rows[i].uuid == u {
      assert rows[..n][i].uuid == u;
    }
  }

  /** In an error-free apply the rows of a key that change target in place are the surplus rows its add phase reuses. */
  lemma ChangedRow(job: Job, start: Engine, recs: seq<PhaseRec>, a: nat, r: nat, k: RowKey, u: Uuid)
    requires RunOk(job, start, recs) && RunClean(job, start, recs) && Verified(recs)
    requires k in job.sets && a == AddPhase(k) && r == RemovePhase(k)
    ensures
      u in Changed(At(start.world.table, k), At(EngineAt(job, start, recs, PHASES).world.table, k)) <==>
        Reused(job.sets[k], RowsAt(start.world.index, k), u)
  {
    hide EngineAt, PhaseOk, PhaseClean, Completed, GoodIds, Lists, Surplus, AddPlan, MapOf, ReuseCount, KeyAfter, At,
         BareTarget, JobOk, WorldInv;
    var eng := EngineAt(job, start, recs, a);
    assert k in Selected(job, a) && Agree(start.world, k);
    CleanCompletes(job, start, recs, a, k);
    RowsFromStart(job, start, recs, a, k);
    AtStart(job, start, recs);
    Still(job, start, recs, 0, a, k);
    Still(job, start, recs, a + 1, r, k);
    CleanRemoves(job, start, recs, k, u);
    ReusedRow(job.cfg, job.sets[k], RowsAt(eng.world.index, k), IndexAt(eng.world, k), k, Calls(recs, a, k),
              eng.world.next, EngineAt(job, start, recs, a + 1).world.next, u);
  }

  lemma CountReused(set_: Desired, rows: seq<Row>, changed: set<Uuid>)
    requires Distinct(rows)
    requires forall u: Uuid :: u in changed <==> Reused(set_, rows, u)
    ensures |changed| == ReuseCount(set_, rows)
  {
    hide MissingOf, Surplus;
    var reused := Surplus(set_, rows)[..ReuseCount(set_, rows)];
    forall u: Uuid ensures u in changed <==> u in Uuids(reused) {
      FirstIds(Surplus(set_, rows), ReuseCount(set_, rows), u);
    }
    SurplusDistinct(set_, rows);
    UuidCount(reused);
    assert changed == Uuids(reused);
  }

  lemma ChangedCount(job: Job, start: Engine, recs: seq<PhaseRec>, k: RowKey)
    requires RunOk(job, start, recs) && RunClean(job, start, recs) && Verified(recs) && k in job.sets
    ensures |Changed(At(start.world.table, k), At(EngineAt(job, start, recs, PHASES).world.table, k))| ==
            ReuseCount(job.sets[k], RowsAt(start.world.index, k))
  {
    hide PhaseEnd, PhaseOk, RunClean, JobOk, Reused, Changed;
    var changed := Changed(At(start.world.table, k), At(EngineAt(job, start, recs, PHASES).world.table, k));
    forall u: Uuid
      ensures u in changed <==> Reused(job.sets[k], RowsAt(start.world.index, k), u)
    {
      ChangedRow(job, start, recs, AddPhase(k), RemovePhase(k), k, u);
    }
    CountReused(job.sets[k], RowsAt(start.world.index, k), changed);
  }

  /**
   * Minimal change: in an error-free apply, a key whose existing rows carry distinct
   * targets E and that wants D costs exactly max(0, |D| - |E|) creates and
   * max(0, |E| - |D|) deletes over the whole run, hence never both, and of the rows that
   * are there before and after exactly min(|D - E|, |E - D|) carry another target.
   */
  lemma MinimalChange(job: Job, start: Engine, recs: seq<PhaseRec>, k: RowKey)
    requires RunOk(job, start, recs) && RunClean(job, start, recs) && Verified(recs) && k in job.sets
    requires DistinctRowTargets(At(start.world.table, k))
    ensures
      var wanted, existing := job.sets[k].targets, TargetsOf(At(start.world.table, k));
      var added := PlanAt(job, EngineAt(job, start, recs, AddPhase(k)), AddPhase(k), k).ops;
      && Adds(added) == Max0(|wanted| - |existing|)
      && |Calls(recs, AddPhase(k), k)| == |added|
      && |Calls(recs, RemovePhase(k), k)| == Max0(|existing| - |wanted|)
      && |Changed(At(start.world.table, k), At(EngineAt(job, start, recs, PHASES).world.table, k))|
         == Min(|wanted - existing|, |existing - wanted|)
  {
    hide PhaseOk, EngineAt, JobOk, PhaseClean, WorldInv;
    var a, r := AddPhase(k), RemovePhase(k);
    assert Agree(start.world, k);
    AddCounts(job.cfg, job.sets[k], RowsAt(start.world.index, k), At(start.world.table, k));
    RowsFromStart(job, start, recs, a, k);
    CallCounts(job, start, recs, a, r, k);
    ChangedCount(job, start, recs, k);
  }

  lemma CallCounts(job: Job, start: Engine, recs: seq<PhaseRec>, a: nat, r: nat, k: RowKey)
    requires RunOk(job, start, recs) && RunClean(job, start, recs) && Verified(recs)
    requires k in job.sets && a == AddPhase(k) && r == RemovePhase(k)
    ensures
      var rows := RowsAt(EngineAt(job, start, recs, a).world.index, k);
      && |Calls(recs, a, k)| == |PlanAt(job, EngineAt(job, start, recs, a), a, k).ops|
      && |Calls(recs, r, k)| == |Surplus(job.sets[k], rows)| - ReuseCount(job.sets[k], rows)
  {
    hide EngineAt, PhaseOk, PhaseClean, Completed, GoodIds, Lists, Surplus, AddPlan, MapOf, Agree;
    var eng, end := EngineAt(job, start, recs, a), EngineAt(job, start, recs, r);
    assert k in Selected(job, a) && k in Selected(job, r);
    CleanCompletes(job, start, recs, a, k);
    CleanCompletes(job, start, recs, r, k);
    Still(job, start, recs, a + 1, r, k);
    RemoveLength(job.sets[k], RowsAt(end.world.index, k));
    LeftoverCount(job.cfg, job.sets[k], RowsAt(eng.world.index, k), IndexAt(eng.world, k), RowsAt(end.world.index, k),
      k, Calls(recs, a, k), eng.world.next, EngineAt(job, start, recs, a + 1).world.next);
  }
}
