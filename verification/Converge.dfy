/** The index refines the table, and an apply that returns nil has converged it. */
module Converge {
  import opened Rows
  import opened Table
  import opened KeyPlan
  import opened Engine
  import opened Runs
  import opened Verify

  /** Every call on k up to the n-th of phase i was either acknowledged and applied, or neither. */
  ghost predicate Faithful(recs: seq<PhaseRec>, i: nat, n: nat, k: RowKey)
    requires i < |recs| && n <= |recs[i].events|
  {
    && (forall p, e | 0 <= p < i && e in Project(recs[p].events, k) :: e.acked == e.applied)
    && (forall e | e in Project(recs[i].events[..n], k) :: e.acked == e.applied)
  }

  lemma {:induction false} AgreeBetween(job: Job, start: Engine, recs: seq<PhaseRec>, i: nat, k: RowKey)
    requires RunOk(job, start, recs) && i <= PHASES
    requires forall p, e | 0 <= p < i && e in Project(recs[p].events, k) :: e.acked == e.applied
    ensures WorldInv(EngineAt(job, start, recs, i).world) && Agree(EngineAt(job, start, recs, i).world, k)
  {
    hide PhaseOk, JobOk, WorldInv, KeyAfter, MapOf, At, Project, PhaseEnd;
    if i > 0 {
      AgreeBetween(job, start, recs, i - 1, k);
      KeyPhase(job, start, recs, i - 1, k);
      KeyAfterSame(At(EngineAt(job, start, recs, i - 1).world.table, k), Calls(recs, i - 1, k));
    } else {
      assert Agree(start.world, k);
    }
  }

  /**
   * The in-place index refines the remote table: for a key with no failed, ambiguous or
   * lost write so far, it lists exactly the saved table's visible rows of that key.
   */
  lemma IndexRefinesTable(job: Job, start: Engine, recs: seq<PhaseRec>, i: nat, n: nat, k: RowKey)
    requires RunOk(job, start, recs) && i < PHASES && n <= |recs[i].events| && Faithful(recs, i, n, k)
    ensures WorldInv(WorldAt(job, start, recs, i, n))
    ensures Lists(RowsAt(WorldAt(job, start, recs, i, n).index, k), At(WorldAt(job, start, recs, i, n).table, k))
  {
    AgreeBetween(job, start, recs, i, k);
    RunTracks(job, start, recs, i, n);
    KeyAfterSame(At(EngineAt(job, start, recs, i).world.table, k), Project(recs[i].events[..n], k));
    assert IndexAt(WorldAt(job, start, recs, i, n), k) == At(WorldAt(job, start, recs, i, n).table, k);
  }

  /** The rows of one key are what the plan asked for: no other target, and every desired one with its columns. */
  ghost predicate KeyConverged(cfg: Config, set_: Desired, m: KeyRows) {
    && (forall u | u in m :: BareTarget(m[u]) in set_.targets)
    && (forall t | t in set_.targets :: exists u | u in m :: BareTarget(m[u]) == t && !Stale(cfg, set_, m[u], t))
  }

  ghost predicate Converged(job: Job, t: Table) {
    forall k | k in job.sets :: KeyConverged(job.cfg, job.sets[k], At(t, k))
  }

  /** A completed remove plan leaves exactly the rows with desired targets. */
  lemma RemoveResult(set_: Desired, rows: seq<Row>, m: KeyRows, k: RowKey, seg: seq<Event>, v: View, u: Uuid)
    requires Lists(rows, m) && !RemovePlan(set_, rows).blocked && Completed(RemovePlan(set_, rows), k, seg, v)
    requires DistinctIds(seg)
    ensures u in KeyAfter(m, seg, v) <==> u in m && BareTarget(m[u]) in set_.targets
    ensures u in KeyAfter(m, seg, v) ==> KeyAfter(m, seg, v)[u] == m[u]
  {
    var plan := RemovePlan(set_, rows);
    RemoveFacts(set_, rows, m);
    if j :| 0 <= j < |seg| && seg[j].id == u {
      KeyAfterOnce(m, seg, v, j);
      assert plan.ops[j] in plan.ops && seg[j] in seg;
    } else {
      KeyAfterUntouched(m, seg, v, u);
      if u in m && BareTarget(m[u]) !in set_.targets {
        assert HasUuid(rows, u);
        var i :| 0 <= i < |rows| && rows[i].uuid == u;
        assert Del(u) in plan.ops;
        var j := CallFor(plan, k, seg, v, Del(u));
        assert false;
      }
    }
  }

  // A run without errors.

  lemma NotLost(t: Table, rec: PhaseRec, e: Event)
    requires rec.readOk && e in rec.events && e.key !in LostKeys(t, rec)
    ensures !LostEvent(t, e)
  {
  }

  /**
   * A verified phase that neither erred on an agreeing key nor lost a write of it had every
   * call acknowledged and applied.
   */
  lemma SpotlessIsFaithful(job: Job, start: Engine, recs: seq<PhaseRec>, i: nat, k: RowKey)
    requires RunOk(job, start, recs) && i < PHASES && recs[i].readOk
    requires k in Selected(job, i) && !Gated(EngineAt(job, start, recs, i), i)
    requires !Errs(PlanAt(job, EngineAt(job, start, recs, i), i, k), Calls(recs, i, k))
    requires k !in LostKeys(EngineAt(job, start, recs, i + 1).world.table, recs[i])
    requires WorldInv(EngineAt(job, start, recs, i).world) && Agree(EngineAt(job, start, recs, i).world, k)
    ensures forall e | e in Calls(recs, i, k) :: e.acked && e.applied
  {
    hide PhaseOk, JobOk, WorldInv, MapOf, PhaseEnd, Errs, PlanAt, At, Follows, NotShown, Steps, GoodIds, KeyAfter;
    var eng, t := EngineAt(job, start, recs, i), EngineAt(job, start, recs, i + 1).world.table;
    ProjectMembers(recs[i].events, k);
    KeyFollows(job, start, recs, i, k);
    NoErrorCompletes(PlanAt(job, eng, i, k), k, Calls(recs, i, k));
    forall e | e in Calls(recs, i, k) ensures e.acked && e.applied {
      NotLost(t, recs[i], e);
      var j :| 0 <= j < |Calls(recs, i, k)| && Calls(recs, i, k)[j] == e;
      LossIsExact(job, start, recs, i, k, j);
    }
  }

  /**
   * In a clean phase with a successful verification read, every call on an agreeing key was
   * acknowledged and applied.
   */
  lemma CleanIsFaithful(job: Job, start: Engine, recs: seq<PhaseRec>, i: nat, k: RowKey)
    requires RunOk(job, start, recs) && i < PHASES && recs[i].readOk
    requires PhaseClean(job, EngineAt(job, start, recs, i), i, recs[i])
    requires WorldInv(EngineAt(job, start, recs, i).world) && Agree(EngineAt(job, start, recs, i).world, k)
    ensures forall e | e in Calls(recs, i, k) :: e.acked && e.applied
  {
    hide PhaseOk, JobOk, WorldInv, MapOf, PhaseEnd, Errs, PlanAt, At, LostKeys, Steps;
    NextWorld(job, start, recs, i);
    if Calls(recs, i, k) != [] {
      CallsMeanSelected(job, start, recs, i, k);
      assert k !in ConvergeErrors(job, EngineAt(job, start, recs, i), i, recs[i].events);
      SpotlessIsFaithful(job, start, recs, i, k);
    }
  }

  lemma {:induction false} CleanAgrees(job: Job, start: Engine, recs: seq<PhaseRec>, i: nat, k: RowKey)
    requires RunOk(job, start, recs) && i <= PHASES && CleanUpTo(job, start, recs, i) && Verified(recs)
    ensures WorldInv(EngineAt(job, start, recs, i).world) && Agree(EngineAt(job, start, recs, i).world, k)
    ensures forall p, e | 0 <= p < i && e in Project(recs[p].events, k) :: e.acked == e.applied
  {
    hide PhaseOk, JobOk, StartOk, WorldInv, Agree, PhaseClean, PhaseEnd, Project;
    if i > 0 {
      CleanAgrees(job, start, recs, i - 1, k);
      CleanIsFaithful(job, start, recs, i - 1, k);
    }
    AgreeBetween(job, start, recs, i, k);
  }

  lemma {:induction false} CleanNeverFails(job: Job, start: Engine, recs: seq<PhaseRec>, i: nat)
    requires RunOk(job, start, recs) && i <= PHASES && CleanUpTo(job, start, recs, i)
    ensures EngineAt(job, start, recs, i).failed == {}
  {
    if i > 0 {
      CleanNeverFails(job, start, recs, i - 1);
      assert PhaseClean(job, EngineAt(job, start, recs, i - 1), i - 1, recs[i - 1]);
    }
  }

  lemma CleanPhaseCompletes(job: Job, start: Engine, recs: seq<PhaseRec>, i: nat, k: RowKey)
    requires RunOk(job, start, recs) && i < PHASES && k in Selected(job, i)
    requires PhaseClean(job, EngineAt(job, start, recs, i), i, recs[i])
    ensures
      var eng, end := EngineAt(job, start, recs, i), EngineAt(job, start, recs, i + 1);
      && WorldInv(eng.world) && WorldInv(end.world)
      && Completed(PlanAt(job, eng, i, k), k, Calls(recs, i, k), Indexed) && !PlanAt(job, eng, i, k).blocked
      && GoodIds(Calls(recs, i, k), eng.world.next, end.world.next)
      && Lists(RowsAt(eng.world.index, k), IndexAt(eng.world, k))
      && (forall u | u in IndexAt(eng.world, k) :: u < eng.world.next)
      && IndexAt(end.world, k) == KeyAfter(IndexAt(eng.world, k), Calls(recs, i, k), Indexed)
  {
    var eng := EngineAt(job, start, recs, i);
    KeyFollows(job, start, recs, i, k);
    KeyPhase(job, start, recs, i, k);
    assert k !in ConvergeErrors(job, eng, i, recs[i].events);
    NoErrorCompletes(PlanAt(job, eng, i, k), k, Calls(recs, i, k));
  }

  /** In a clean run a selected key is acknowledged every call of its plan, and its index agrees before and after. */
  lemma CleanCompletes(job: Job, start: Engine, recs: seq<PhaseRec>, i: nat, k: RowKey)
    requires RunOk(job, start, recs) && i < PHASES && CleanUpTo(job, start, recs, i + 1) && Verified(recs)
    requires k in Selected(job, i)
    ensures
      var eng, end := EngineAt(job, start, recs, i), EngineAt(job, start, recs, i + 1);
      && WorldInv(eng.world) && WorldInv(end.world) && Agree(eng.world, k) && Agree(end.world, k)
      && Completed(PlanAt(job, eng, i, k), k, Calls(recs, i, k), Indexed) && !PlanAt(job, eng, i, k).blocked
      && GoodIds(Calls(recs, i, k), eng.world.next, end.world.next)
      && Lists(RowsAt(eng.world.index, k), IndexAt(eng.world, k))
      && (forall u | u in IndexAt(eng.world, k) :: u < eng.world.next)
      && IndexAt(end.world, k) == KeyAfter(IndexAt(eng.world, k), Calls(recs, i, k), Indexed)
      && eng.failed == {}
  {
    CleanNeverFails(job, start, recs, i);
    CleanAgrees(job, start, recs, i, k);
    CleanAgrees(job, start, recs, i + 1, k);
    CleanPhaseCompletes(job, start, recs, i, k);
  }

  /** After a clean add phase every desired target of a key has its row. */
  lemma CleanAdds(job: Job, start: Engine, recs: seq<PhaseRec>, k: RowKey, t: string)
    requires RunOk(job, start, recs) && RunClean(job, start, recs) && Verified(recs)
    requires k in job.sets && t in job.sets[k].targets
    ensures
      var m := At(EngineAt(job, start, recs, RemovePhase(k)).world.table, k);
      exists u | u in m :: BareTarget(m[u]) == t && !Stale(job.cfg, job.sets[k], m[u], t)
  {
    var a := AddPhase(k);
    var eng := EngineAt(job, start, recs, a);
    assert k in Selected(job, a);
    CleanCompletes(job, start, recs, a, k);
    Still(job, start, recs, a + 1, RemovePhase(k), k);
    AddCompletes(job.cfg, job.sets[k], RowsAt(eng.world.index, k), IndexAt(eng.world, k), k, Calls(recs, a, k), Indexed,
                 eng.world.next, EngineAt(job, start, recs, a + 1).world.next, t);
  }

  /** A clean remove phase leaves exactly the rows of a key with desired targets. */
  lemma CleanRemoves(job: Job, start: Engine, recs: seq<PhaseRec>, k: RowKey, u: Uuid)
    requires RunOk(job, start, recs) && RunClean(job, start, recs) && Verified(recs) && k in job.sets
    ensures
      var m := At(EngineAt(job, start, recs, RemovePhase(k)).world.table, k);
      var after := At(EngineAt(job, start, recs, PHASES).world.table, k);
      && (u in after <==> u in m && BareTarget(m[u]) in job.sets[k].targets)
      && (u in after ==> after[u] == m[u])
  {
    var r := RemovePhase(k);
    var eng := EngineAt(job, start, recs, r);
    assert k in Selected(job, r);
    CleanCompletes(job, start, recs, r, k);
    Still(job, start, recs, r + 1, PHASES, k);
    RemoveResult(job.sets[k], RowsAt(eng.world.index, k), IndexAt(eng.world, k), k, Calls(recs, r, k), Indexed, u);
  }

  /**
   * Nil means converged: if a run recorded no error and its verification reads succeeded,
   * then whatever the firewall did, every folded key has exactly its desired targets in
   * the saved table, each with a row of the desired ttl, description and addptr.
   */
  lemma NilMeansConverged(job: Job, start: Engine, recs: seq<PhaseRec>)
    requires RunOk(job, start, recs) && RunClean(job, start, recs) && Verified(recs)
    ensures Converged(job, EngineAt(job, start, recs, PHASES).world.table)
  {
    forall k | k in job.sets
      ensures KeyConverged(job.cfg, job.sets[k], At(EngineAt(job, start, recs, PHASES).world.table, k))
    {
      var after := At(EngineAt(job, start, recs, PHASES).world.table, k);
      forall u | u in after ensures BareTarget(after[u]) in job.sets[k].targets {
        CleanRemoves(job, start, recs, k, u);
      }
      forall t | t in job.sets[k].targets
        ensures exists u | u in after :: BareTarget(after[u]) == t && !Stale(job.cfg, job.sets[k], after[u], t)
      {
        CleanAdds(job, start, recs, k, t);
        var m := At(EngineAt(job, start, recs, RemovePhase(k)).world.table, k);
        var u :| u in m && BareTarget(m[u]) == t && !Stale(job.cfg, job.sets[k], m[u], t);
        CleanRemoves(job, start, recs, k, u);
      }
    }
  }
}
