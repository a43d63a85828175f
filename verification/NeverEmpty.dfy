/** Invariant I2: a name that has a row and wants one never drops to zero rows. */
module NeverEmpty {
  import opened Rows
  import opened Table
  import opened KeyPlan
  import opened Engine
  import opened Runs

  /** No call of the run on key k deletes row u. */
  ghost predicate Spared(recs: seq<PhaseRec>, k: RowKey, u: Uuid) {
    forall i, e | 0 <= i < |recs| && e in Project(recs[i].events, k) && e.op.Del? :: e.id != u
  }

  /** Add phases delete nothing, and remove phases only rows with undesired targets. */
  lemma DeletesAreSurplus(job: Job, start: Engine, recs: seq<PhaseRec>, i: nat, k: RowKey, e: Event)
    requires RunOk(job, start, recs) && i < PHASES && e in Calls(recs, i, k) && e.op.Del?
    ensures k in job.sets && i == RemovePhase(k)
    ensures WorldInv(EngineAt(job, start, recs, i).world) && !Gated(EngineAt(job, start, recs, i), i)
    ensures e.op in PlanAt(job, EngineAt(job, start, recs, i), i, k).ops
    ensures DelOp(job.sets[k], IndexAt(EngineAt(job, start, recs, i).world, k), e.op) && e.id == e.op.uuid
    ensures job.sets[k].targets != {} ==> k !in EngineAt(job, start, recs, i).failed
  {
    CallFacts(job, start, recs, i, k, e);
  }

  /** A key whose add phase completed keeps an original row whose index entry now carries a desired target. */
  lemma KeptRow(job: Job, start: Engine, recs: seq<PhaseRec>, k: RowKey) returns (u: Uuid)
    requires RunOk(job, start, recs) && k in job.sets && job.sets[k].targets != {}
    requires At(start.world.table, k) != map[]
    requires k !in EngineAt(job, start, recs, RemovePhase(k)).failed
    ensures u in At(start.world.table, k)
    ensures WorldInv(EngineAt(job, start, recs, RemovePhase(k)).world)
    ensures
      var m := IndexAt(EngineAt(job, start, recs, RemovePhase(k)).world, k);
      u in m && BareTarget(m[u]) in job.sets[k].targets
  {
    hide PhaseOk, JobOk, WorldInv, MapOf, Errs, PlanAt, PhaseEnd, LostKeys, Project;
    var a := AddPhase(k);
    UnfailedMeansAdded(job, start, recs, k);
    Still(job, start, recs, 0, a, k);
    assert Agree(start.world, k);
    Still(job, start, recs, a + 1, RemovePhase(k), k);
    u := KeptInAddPhase(job, start, recs, a, k);
  }

  lemma KeptInAddPhase(job: Job, start: Engine, recs: seq<PhaseRec>, a: nat, k: RowKey) returns (u: Uuid)
    requires RunOk(job, start, recs) && k in job.sets && job.sets[k].targets != {} && a == AddPhase(k)
    requires !Gated(EngineAt(job, start, recs, a), a) &&
      !Errs(PlanAt(job, EngineAt(job, start, recs, a), a, k), Calls(recs, a, k))
    requires WorldInv(EngineAt(job, start, recs, a).world) && IndexAt(EngineAt(job, start, recs, a).world, k) != map[]
    ensures u in IndexAt(EngineAt(job, start, recs, a).world, k)
    ensures WorldInv(EngineAt(job, start, recs, a + 1).world)
    ensures
      var m := IndexAt(EngineAt(job, start, recs, a + 1).world, k);
      u in m && BareTarget(m[u]) in job.sets[k].targets
  {
    var eng, seg := EngineAt(job, start, recs, a), Calls(recs, a, k);
    KeyFollows(job, start, recs, a, k);
    KeyPhase(job, start, recs, a, k);
    NoErrorCompletes(PlanAt(job, eng, a, k), k, seg);
    u := AddKeepsOriginal(job.cfg, job.sets[k], RowsAt(eng.world.index, k), IndexAt(eng.world, k), k, seg, Indexed,
                          eng.world.next, EngineAt(job, start, recs, a + 1).world.next);
  }

  /** Some original row of the key is never the argument of a delete. */
  lemma SparedRow(job: Job, start: Engine, recs: seq<PhaseRec>, k: RowKey) returns (u: Uuid)
    requires RunOk(job, start, recs) && k in job.sets && job.sets[k].targets != {}
    requires At(start.world.table, k) != map[]
    ensures u in At(start.world.table, k) && Spared(recs, k, u)
  {
    var r := RemovePhase(k);
    if k in EngineAt(job, start, recs, r).failed {
      u :| u in At(start.world.table, k);
    } else {
      u := KeptRow(job, start, recs, k);
    }
    forall i, e | 0 <= i < |recs| && e in Project(recs[i].events, k) && e.op.Del? ensures e.id != u {
      DeletesAreSurplus(job, start, recs, i, k, e);
    }
  }

  lemma {:induction false} SparedStays(job: Job, start: Engine, recs: seq<PhaseRec>, k: RowKey, u: Uuid, i: nat)
    requires RunOk(job, start, recs) && i <= PHASES
    requires u in At(start.world.table, k) && Spared(recs, k, u)
    ensures u in At(EngineAt(job, start, recs, i).world.table, k)
  {
    if i > 0 {
      SparedStays(job, start, recs, k, u, i - 1);
      KeyPhase(job, start, recs, i - 1, k);
      KeyAfterKeeps(At(EngineAt(job, start, recs, i - 1).world.table, k), Calls(recs, i - 1, k), Saved, u);
    }
  }

  lemma SparedIsThere(job: Job, start: Engine, recs: seq<PhaseRec>, k: RowKey, u: Uuid, i: nat, n: nat)
    requires RunOk(job, start, recs) && i < PHASES && n <= |recs[i].events|
    requires u in At(start.world.table, k) && Spared(recs, k, u)
    ensures u in At(WorldAt(job, start, recs, i, n).table, k)
  {
    SparedStays(job, start, recs, k, u, i);
    RunTracks(job, start, recs, i, n);
    var seg := Project(recs[i].events[..n], k);
    ProjectPrefix(recs[i].events, n, k);
    forall e | e in seg && e.op.Del? ensures e.id != u {
      assert e in Project(recs[i].events, k);
    }
    KeyAfterKeeps(At(EngineAt(job, start, recs, i).world.table, k), seg, Saved, u);
  }

  /** No call of the run, whatever its key, deletes row u. */
  lemma SparedByAll(job: Job, start: Engine, recs: seq<PhaseRec>, k: RowKey, u: Uuid, i: nat, n: nat)
    requires RunOk(job, start, recs) && i < PHASES && n < |recs[i].events|
    requires u in At(start.world.table, k) && Spared(recs, k, u)
    ensures recs[i].events[n].op.Del? ==> recs[i].events[n].id != u
  {
    var w, e := WorldAt(job, start, recs, i, n), recs[i].events[n];
    SparedIsThere(job, start, recs, k, u, i, n);
    RunTracks(job, start, recs, i, n);
    LegalOnTable(w, e);
    ProjectMembers(recs[i].events, k);
  }

  /**
   * A record set that has a row at the start and a non-empty desired set keeps one
   * original row, undeleted and visible at the name, in every intermediate saved table:
   * whatever the calls' outcomes and interleaving, and even when verification reads fail
   * and lost writes go unseen.
   */
  lemma NeverEmpty(job: Job, start: Engine, recs: seq<PhaseRec>, k: RowKey)
    requires RunOk(job, start, recs) && k in job.sets && job.sets[k].targets != {}
    requires At(start.world.table, k) != map[]
    ensures exists u | u in At(start.world.table, k) ::
      && (forall i, n | 0 <= i < PHASES && 0 <= n <= |recs[i].events| ::
        u in At(WorldAt(job, start, recs, i, n).table, k))
      && (forall i, n | 0 <= i < PHASES && 0 <= n < |recs[i].events| && recs[i].events[n].op.Del? ::
        recs[i].events[n].id != u)
  {
    var u := SparedRow(job, start, recs, k);
    forall i, n | 0 <= i < PHASES && 0 <= n <= |recs[i].events|
      ensures u in At(WorldAt(job, start, recs, i, n).table, k)
    {
      SparedIsThere(job, start, recs, k, u, i, n);
    }
    forall i, n | 0 <= i < PHASES && 0 <= n < |recs[i].events| && recs[i].events[n].op.Del?
      ensures recs[i].events[n].id != u
    {
      SparedByAll(job, start, recs, k, u, i, n);
    }
  }
}
