/**
 * Invariant I1 over the folded sets: data rows are created after the registry rows that the
 * fold kept, and deleted before them.
 */
module Ownership {
  import opened Rows
  import opened Table
  import opened KeyPlan
  import opened Engine
  import opened Runs
  import opened Converge
  import opened NeverEmpty

  /** An open gate means its protective phase recorded no failure. */
  lemma GateOpen(job: Job, start: Engine, recs: seq<PhaseRec>, i: nat)
    requires RunOk(job, start, recs) && (i == TXT_ADD || i == DATA_REMOVE)
    requires !Gated(EngineAt(job, start, recs, i + 1), i + 1)
    ensures PhaseClean(job, EngineAt(job, start, recs, i), i, recs[i])
    ensures i == TXT_ADD ==> !job.rejected
  {
    assert EngineAt(job, start, recs, i + 1) == PhaseEnd(job, EngineAt(job, start, recs, i), i, recs[i]);
  }

  lemma NoRowsWithoutAdds(seg: seq<Event>, v: View)
    requires forall e | e in seg :: !e.op.Add?
    ensures KeyAfter(map[], seg, v) == map[]
  {
    if seg != [] { NoRowsWithoutAdds(seg[..|seg| - 1], v); }
  }

  /** Rows of a key are created only while its add phase runs. */
  lemma AddsOnlyInAddPhase(job: Job, start: Engine, recs: seq<PhaseRec>, i: nat, k: RowKey, e: Event)
    requires RunOk(job, start, recs) && i < PHASES && e in Project(recs[i].events, k) && e.op.Add?
    ensures i == AddPhase(k) && !Gated(EngineAt(job, start, recs, i), i)
  {
    CallFacts(job, start, recs, i, k, e);
  }

  lemma NoAddsNow(job: Job, start: Engine, recs: seq<PhaseRec>, i: nat, d: RowKey)
    requires RunOk(job, start, recs) && i < PHASES
    requires i != AddPhase(d) || Gated(EngineAt(job, start, recs, i), i)
    ensures forall e | e in Project(recs[i].events, d) :: !e.op.Add?
  {
    forall e | e in Project(recs[i].events, d) && e.op.Add? ensures false {
      AddsOnlyInAddPhase(job, start, recs, i, d, e);
    }
  }

  lemma EmptyStep(job: Job, start: Engine, recs: seq<PhaseRec>, i: nat, d: RowKey)
    requires RunOk(job, start, recs) && i < PHASES
    requires At(EngineAt(job, start, recs, i).world.table, d) == map[]
    requires i != AddPhase(d) || Gated(EngineAt(job, start, recs, i), i)
    ensures At(EngineAt(job, start, recs, i + 1).world.table, d) == map[]
  {
    KeyPhase(job, start, recs, i, d);
    NoAddsNow(job, start, recs, i, d);
    NoRowsWithoutAdds(Calls(recs, i, d), Saved);
  }

  lemma {:induction false} EmptyBetween(job: Job, start: Engine, recs: seq<PhaseRec>, i: nat, d: RowKey)
    requires RunOk(job, start, recs) && i <= PHASES && At(start.world.table, d) == map[]
    requires i <= AddPhase(d) || Gated(EngineAt(job, start, recs, AddPhase(d)), AddPhase(d))
    ensures At(EngineAt(job, start, recs, i).world.table, d) == map[]
  {
    if i > 0 {
      EmptyBetween(job, start, recs, i - 1, d);
      EmptyStep(job, start, recs, i - 1, d);
    }
  }

  /** A name without rows gets one only once its add phase has been let through. */
  lemma StaysEmpty(job: Job, start: Engine, recs: seq<PhaseRec>, i: nat, n: nat, d: RowKey)
    requires RunOk(job, start, recs) && i < PHASES && n <= |recs[i].events| && At(start.world.table, d) == map[]
    requires i < AddPhase(d) || Gated(EngineAt(job, start, recs, AddPhase(d)), AddPhase(d))
    ensures At(WorldAt(job, start, recs, i, n).table, d) == map[]
  {
    EmptyBetween(job, start, recs, i, d);
    RunTracks(job, start, recs, i, n);
    ProjectPrefix(recs[i].events, n, d);
    NoAddsNow(job, start, recs, i, d);
    assert forall e | e in Project(recs[i].events[..n], d) :: e in Project(recs[i].events, d);
    NoRowsWithoutAdds(Project(recs[i].events[..n], d), Saved);
  }

  // Creates.

  /** Once data creates are let through, every registry key has all its desired rows, and the index knows them. */
  lemma RegistryWritten(job: Job, start: Engine, recs: seq<PhaseRec>, t: RowKey, target: string)
    requires RunOk(job, start, recs) && recs[TXT_ADD].readOk
    requires !Gated(EngineAt(job, start, recs, DATA_ADD), DATA_ADD)
    requires t in job.sets && IsTXT(t.rr) && target in job.sets[t].targets
    ensures
      var w := EngineAt(job, start, recs, DATA_ADD).world;
      WorldInv(w) && Agree(w, t) && exists u | u in At(w.table, t) :: BareTarget(At(w.table, t)[u]) == target
  {
    var eng := EngineAt(job, start, recs, TXT_ADD);
    GateOpen(job, start, recs, TXT_ADD);
    assert t in Selected(job, TXT_ADD) && Agree(start.world, t);
    KeyFollows(job, start, recs, TXT_ADD, t);
    CleanIsFaithful(job, start, recs, TXT_ADD, t);
    KeyPhase(job, start, recs, TXT_ADD, t);
    KeyAfterSame(At(eng.world.table, t), Calls(recs, TXT_ADD, t));
    assert t !in ConvergeErrors(job, eng, TXT_ADD, recs[TXT_ADD].events);
    NoErrorCompletes(PlanAt(job, eng, TXT_ADD, t), t, Calls(recs, TXT_ADD, t));
    AddCompletes(job.cfg, job.sets[t], RowsAt(eng.world.index, t), IndexAt(eng.world, t), t, Calls(recs, TXT_ADD, t),
      Indexed, eng.world.next, EngineAt(job, start, recs, DATA_ADD).world.next, target);
  }

  /** From then on a registry row with a desired target is never touched again. */
  lemma RegistryStays(job: Job, start: Engine, recs: seq<PhaseRec>, i: nat, n: nat, t: RowKey, u: Uuid)
    requires RunOk(job, start, recs) && DATA_ADD <= i < PHASES && n <= |recs[i].events|
    requires t in job.sets && IsTXT(t.rr)
    requires WorldInv(EngineAt(job, start, recs, DATA_ADD).world) &&
      Agree(EngineAt(job, start, recs, DATA_ADD).world, t)
    requires u in At(EngineAt(job, start, recs, DATA_ADD).world.table, t)
    requires BareTarget(At(EngineAt(job, start, recs, DATA_ADD).world.table, t)[u]) in job.sets[t].targets
    ensures u in At(WorldAt(job, start, recs, i, n).table, t)
    ensures At(WorldAt(job, start, recs, i, n).table, t)[u] ==
      At(EngineAt(job, start, recs, DATA_ADD).world.table, t)[u]
  {
    Still(job, start, recs, DATA_ADD, i, t);
    RunTracks(job, start, recs, i, n);
    ProjectPrefix(recs[i].events, n, t);
    var seg := Project(recs[i].events[..n], t);
    forall e | e in seg ensures e.id != u {
      assert e in Project(recs[i].events, t);
      CallsMeanSelected(job, start, recs, i, t);
      if e.op.Del? {
        DeletesAreSurplus(job, start, recs, i, t, e);
      } else {
        OnlyDeletes(job, start, recs, i, t, e);
      }
    }
    KeyAfterUntouched(At(EngineAt(job, start, recs, i).world.table, t), seg, Saved, u);
  }

  lemma OnlyDeletes(job: Job, start: Engine, recs: seq<PhaseRec>, i: nat, k: RowKey, e: Event)
    requires RunOk(job, start, recs) && i < PHASES && e in Project(recs[i].events, k) && i == RemovePhase(k)
    ensures e.op.Del?
  {
    CallFacts(job, start, recs, i, k, e);
  }

  /**
   * Creating side of I1, for the keys of the folded sets. If a name that started without
   * data rows has one in any intermediate saved table, then no TXT target was rejected and
   * every registry key that the fold kept, whichever one claims the name, shows all its
   * desired targets in that same table. Only the first phase's verification read has to
   * succeed. What this says of the plan's endpoints is in PlanOwnership.
   */
  lemma DataNeedsRegistry(job: Job, start: Engine, recs: seq<PhaseRec>, i: nat, n: nat, d: RowKey)
    requires RunOk(job, start, recs) && recs[TXT_ADD].readOk && i < PHASES && n <= |recs[i].events|
    requires !IsTXT(d.rr) && At(start.world.table, d) == map[]
    requires At(WorldAt(job, start, recs, i, n).table, d) != map[]
    ensures !job.rejected
    ensures forall t, target | t in job.sets && IsTXT(t.rr) && target in job.sets[t].targets ::
      exists u | u in At(WorldAt(job, start, recs, i, n).table, t) ::
        BareTarget(At(WorldAt(job, start, recs, i, n).table, t)[u]) == target
  {
    if i < DATA_ADD || Gated(EngineAt(job, start, recs, DATA_ADD), DATA_ADD) {
      StaysEmpty(job, start, recs, i, n, d);
    }
    GateOpen(job, start, recs, TXT_ADD);
    forall t, target | t in job.sets && IsTXT(t.rr) && target in job.sets[t].targets
      ensures exists u | u in At(WorldAt(job, start, recs, i, n).table, t) ::
        BareTarget(At(WorldAt(job, start, recs, i, n).table, t)[u]) == target
    {
      RegistryWritten(job, start, recs, t, target);
      var before := At(EngineAt(job, start, recs, DATA_ADD).world.table, t);
      var u :| u in before && BareTarget(before[u]) == target;
      RegistryStays(job, start, recs, i, n, t, u);
    }
  }

  // Deletes.

  /** A key to be deleted needs no calls before its remove phase. */
  lemma NothingToAdd(cfg: Config, set_: Desired, rows: seq<Row>)
    requires set_.targets == {}
    ensures AddPlan(cfg, set_, rows) == []
  {
    assert SortedTargets(set_) == [];
  }

  lemma {:induction false} DeletedWaits(job: Job, start: Engine, recs: seq<PhaseRec>, i: nat, k: RowKey)
    requires RunOk(job, start, recs) && k in job.sets && job.sets[k].targets == {} && i <= RemovePhase(k)
    ensures WorldInv(EngineAt(job, start, recs, i).world) && Agree(EngineAt(job, start, recs, i).world, k)
    ensures At(EngineAt(job, start, recs, i).world.table, k) == At(start.world.table, k)
  {
    hide PhaseOk, JobOk, PhaseEnd, WorldInv, MapOf;
    if i > 0 {
      DeletedWaits(job, start, recs, i - 1, k);
      KeyPhase(job, start, recs, i - 1, k);
      NoAddCalls(job, start, recs, i - 1, k);
    } else {
      assert Agree(start.world, k);
    }
  }

  lemma NoAddCalls(job: Job, start: Engine, recs: seq<PhaseRec>, i: nat, k: RowKey)
    requires RunOk(job, start, recs) && k in job.sets && job.sets[k].targets == {} && i < RemovePhase(k)
    ensures Project(recs[i].events, k) == []
  {
    if Project(recs[i].events, k) != [] {
      CallsMeanSelected(job, start, recs, i, k);
      KeyFollows(job, start, recs, i, k);
      NothingToAdd(job.cfg, job.sets[k], RowsAt(EngineAt(job, start, recs, i).world.index, k));
    }
  }

  /** A deleted registry row goes only after the data removes were let through without a failure. */
  lemma RegistryGoesLast(job: Job, start: Engine, recs: seq<PhaseRec>, i: nat, n: nat, t: RowKey, u: Uuid)
    requires RunOk(job, start, recs) && i < PHASES && n <= |recs[i].events|
    requires t in job.sets && IsTXT(t.rr) && job.sets[t].targets == {}
    requires u in At(start.world.table, t) && u !in At(WorldAt(job, start, recs, i, n).table, t)
    ensures i == TXT_REMOVE && !Gated(EngineAt(job, start, recs, TXT_REMOVE), TXT_REMOVE)
  {
    DeletedWaits(job, start, recs, i, t);
    RunTracks(job, start, recs, i, n);
    ProjectPrefix(recs[i].events, n, t);
    if i < TXT_REMOVE {
      NoAddCalls(job, start, recs, i, t);
    }
    CallsMeanSelected(job, start, recs, i, t);
  }

  /**
   * A data key that is to be deleted, or whose add phase went through, reaches its remove
   * phase with its index right.
   */
  lemma DataAgrees(job: Job, start: Engine, recs: seq<PhaseRec>, d: RowKey)
    requires RunOk(job, start, recs) && recs[DATA_ADD].readOk
    requires d in job.sets && !IsTXT(d.rr)
    requires job.sets[d].targets == {} || d !in EngineAt(job, start, recs, DATA_REMOVE).failed
    ensures WorldInv(EngineAt(job, start, recs, DATA_REMOVE).world) &&
      Agree(EngineAt(job, start, recs, DATA_REMOVE).world, d)
  {
    hide PhaseOk, JobOk, WorldInv, PhaseEnd, MapOf, At, KeyAfter, PlanAt, Errs, LostKeys, Gated;
    if job.sets[d].targets == {} {
      DeletedWaits(job, start, recs, DATA_REMOVE, d);
    } else {
      assert Agree(start.world, d);
      Still(job, start, recs, 0, DATA_ADD, d);
      UnfailedMeansAdded(job, start, recs, d);
      SpotlessIsFaithful(job, start, recs, DATA_ADD, d);
      KeyPhase(job, start, recs, DATA_ADD, d);
      KeyAfterSame(At(EngineAt(job, start, recs, DATA_ADD).world.table, d), Calls(recs, DATA_ADD, d));
    }
  }

  /** In a clean, verified data-remove phase the deletes of such a key were all acknowledged and all applied. */
  lemma DataRemoveDone(job: Job, start: Engine, recs: seq<PhaseRec>, r: nat, d: RowKey)
    requires RunOk(job, start, recs) && r == DATA_REMOVE && recs[r].readOk
    requires PhaseClean(job, EngineAt(job, start, recs, r), r, recs[r])
    requires d in job.sets && !IsTXT(d.rr) && (job.sets[d].targets == {} || d !in EngineAt(job, start, recs, r).failed)
    requires WorldInv(EngineAt(job, start, recs, r).world) && Agree(EngineAt(job, start, recs, r).world, d)
    ensures
      var eng := EngineAt(job, start, recs, r);
      && Lists(RowsAt(eng.world.index, d), IndexAt(eng.world, d))
      && DistinctIds(Calls(recs, r, d))
      && !RemovePlan(job.sets[d], RowsAt(eng.world.index, d)).blocked
      && Completed(RemovePlan(job.sets[d], RowsAt(eng.world.index, d)), d, Calls(recs, r, d), Saved)
  {
    var eng := EngineAt(job, start, recs, r);
    assert d in Selected(job, r);
    KeyFollows(job, start, recs, r, d);
    CleanIsFaithful(job, start, recs, r, d);
    assert d !in ConvergeErrors(job, eng, r, recs[r].events);
    NoErrorCompletes(PlanAt(job, eng, r, d), d, Calls(recs, r, d));
  }

  ghost predicate HasUndesired(set_: Desired, m: KeyRows) {
    exists u | u in m :: BareTarget(m[u]) !in set_.targets
  }

  lemma DataRemoved(job: Job, start: Engine, recs: seq<PhaseRec>, r: nat, d: RowKey)
    requires RunOk(job, start, recs) && r == DATA_REMOVE && recs[r].readOk
    requires PhaseClean(job, EngineAt(job, start, recs, r), r, recs[r])
    requires d in job.sets && !IsTXT(d.rr) && (job.sets[d].targets == {} || d !in EngineAt(job, start, recs, r).failed)
    requires WorldInv(EngineAt(job, start, recs, r).world) && Agree(EngineAt(job, start, recs, r).world, d)
    ensures !HasUndesired(job.sets[d], At(EngineAt(job, start, recs, r + 1).world.table, d))
  {
    var eng, seg := EngineAt(job, start, recs, r), Calls(recs, r, d);
    var after := At(EngineAt(job, start, recs, r + 1).world.table, d);
    DataRemoveDone(job, start, recs, r, d);
    KeyPhase(job, start, recs, r, d);
    forall u | u in after ensures BareTarget(after[u]) in job.sets[d].targets {
      RemoveResult(job.sets[d], RowsAt(eng.world.index, d), IndexAt(eng.world, d), d, seg, Saved, u);
    }
  }

  /** A data key that failed and has targets is left as it is by the data removes. */
  lemma FailedIsKept(job: Job, start: Engine, recs: seq<PhaseRec>, d: RowKey)
    requires RunOk(job, start, recs) && d in job.sets && !IsTXT(d.rr)
    requires job.sets[d].targets != {} && d in EngineAt(job, start, recs, DATA_REMOVE).failed
    ensures At(EngineAt(job, start, recs, TXT_REMOVE).world.table, d) ==
      At(EngineAt(job, start, recs, DATA_REMOVE).world.table, d)
  {
    hide PhaseOk, JobOk, PhaseEnd, WorldInv, MapOf, At, Gated, GoodIds;
    KeyPhase(job, start, recs, DATA_REMOVE, d);
    if Calls(recs, DATA_REMOVE, d) != [] {
      CallsMeanSelected(job, start, recs, DATA_REMOVE, d);
      KeyFollows(job, start, recs, DATA_REMOVE, d);
    }
  }

  /**
   * What an open last gate says about any data key of the plan: it still has a row with an
   * undesired target exactly when it wants rows, its add phase failed, and it had such a
   * row when the data removes began. Keeping them does not count as a failure of the phase.
   */
  lemma KeptBehindTheGate(job: Job, start: Engine, recs: seq<PhaseRec>, d: RowKey)
    requires RunOk(job, start, recs) && recs[DATA_ADD].readOk && recs[DATA_REMOVE].readOk
    requires !Gated(EngineAt(job, start, recs, TXT_REMOVE), TXT_REMOVE)
    requires d in job.sets && !IsTXT(d.rr)
    ensures
      var eng := EngineAt(job, start, recs, DATA_REMOVE);
      HasUndesired(job.sets[d], At(EngineAt(job, start, recs, TXT_REMOVE).world.table, d)) <==>
        job.sets[d].targets != {} && d in eng.failed && HasUndesired(job.sets[d], At(eng.world.table, d))
  {
    hide PhaseOk, JobOk, PhaseEnd, WorldInv, Agree, PhaseClean, Gated, HasUndesired;
    GateOpen(job, start, recs, DATA_REMOVE);
    if job.sets[d].targets != {} && d in EngineAt(job, start, recs, DATA_REMOVE).failed {
      FailedIsKept(job, start, recs, d);
    } else {
      DataAgrees(job, start, recs, d);
      DataRemoved(job, start, recs, DATA_REMOVE, d);
    }
  }

  /** Data removes that recorded no failure and were verified left no row of a deleted data key. */
  lemma DataGone(job: Job, start: Engine, recs: seq<PhaseRec>, d: RowKey)
    requires RunOk(job, start, recs) && recs[DATA_REMOVE].readOk
    requires !Gated(EngineAt(job, start, recs, TXT_REMOVE), TXT_REMOVE)
    requires d in job.sets && !IsTXT(d.rr) && job.sets[d].targets == {}
    ensures At(EngineAt(job, start, recs, TXT_REMOVE).world.table, d) == map[]
  {
    hide PhaseOk, JobOk, PhaseEnd, WorldInv, Agree, PhaseClean, Gated, At, BareTarget;
    GateOpen(job, start, recs, DATA_REMOVE);
    DeletedWaits(job, start, recs, DATA_REMOVE, d);
    DataRemoved(job, start, recs, DATA_REMOVE, d);
    assert !HasUndesired(job.sets[d], At(EngineAt(job, start, recs, TXT_REMOVE).world.table, d));
  }

  /**
   * Deleting side of I1, for the keys of the folded sets. If any registry row of a deleted
   * registry key is gone from an intermediate saved table, then that table holds no row of
   * any deleted data key that the fold kept, whichever of them the registry row described.
   * Only the data-remove phase's verification read has to succeed.
   */
  lemma RegistryOutlivesData(job: Job, start: Engine, recs: seq<PhaseRec>, i: nat, n: nat, t: RowKey, u: Uuid,
      d: RowKey)
    requires RunOk(job, start, recs) && recs[DATA_REMOVE].readOk && i < PHASES && n <= |recs[i].events|
    requires t in job.sets && IsTXT(t.rr) && job.sets[t].targets == {}
    requires d in job.sets && !IsTXT(d.rr) && job.sets[d].targets == {}
    requires u in At(start.world.table, t) && u !in At(WorldAt(job, start, recs, i, n).table, t)
    ensures At(WorldAt(job, start, recs, i, n).table, d) == map[]
  {
    RegistryGoesLast(job, start, recs, i, n, t, u);
    DataGone(job, start, recs, d);
    RunTracks(job, start, recs, i, n);
    NoCalls(job, start, recs, i, n, d);
  }
}
