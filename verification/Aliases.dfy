/** Which aliases keep a row from being deleted: those the firewall serves, and no others. */
module Aliases {
  import opened Rows
  import opened Table
  import opened KeyPlan
  import opened Engine
  import opened Runs
  import opened Converge
  import opened Ownership
  import opened Progress
  import opened Endpoints

  /** An alias that is switched off. */
  predicate SwitchedOff(c: Child) {
    c.enabled == "0" || c.enabled == ""
  }

  /** The view lists an alias copy of a row for every alias that is not switched off, and for no other. */
  lemma {:induction false} ServedAliases(r: Row, children: seq<Child>)
    ensures AliasParts(r, children) == [] <==> forall i | 0 <= i < |children| :: SwitchedOff(children[i])
  {
    if children != [] {
      ServedAliases(r, children[..|children| - 1]);
    }
  }

  /** Deletes of a key are blocked exactly when an undesired row has an alias that the view lists. */
  lemma BlockedByServedAlias(set_: Desired, rows: seq<Row>, m: KeyRows)
    requires Lists(rows, m)
    ensures RemovePlan(set_, rows).blocked <==>
      exists i | 0 <= i < |rows| ::
        BareTarget(CoreOf(rows[i])) !in set_.targets && AliasParts(rows[i], rows[i].children) != []
  {
    hide AliasParts, BareTarget, RemovePlan;
    RemoveFacts(set_, rows, m);
    forall i | 0 <= i < |rows|
      ensures EnabledChildren(rows[i].children) <==> AliasParts(rows[i], rows[i].children) != []
    {
      ServedAliases(rows[i], rows[i].children);
    }
  }

  /**
   * Aliases that are switched off hold nothing up: without faults, and behind an open gate
   * if it is a registry key, an apply that deletes a record set whose aliases are all
   * switched off leaves no row of it.
   */
  lemma SwitchedOffAliasesGo(job: Job, start: Engine, recs: seq<PhaseRec>, k: RowKey)
    requires RunOk(job, start, recs) && FaultFree(job, start, recs) && k in job.sets && job.sets[k].targets == {}
    requires IsTXT(k.rr) ==> !Gated(EngineAt(job, start, recs, TXT_REMOVE), TXT_REMOVE)
    requires forall u, i | u in At(start.world.table, k) && 0 <= i < |At(start.world.table, k)[u].children| ::
      SwitchedOff(At(start.world.table, k)[u].children[i])
    ensures At(EngineAt(job, start, recs, PHASES).world.table, k) == map[]
  {
    hide PhaseOk, JobOk, PhaseEnd, WorldInv, MapOf, At, SwitchedOff, EnabledChildren;
    var r := RemovePhase(k);
    DeletedWaits(job, start, recs, r, k);
    DeletedRemoved(job, start, recs, r, k);
    Still(job, start, recs, r + 1, PHASES, k);
  }

  lemma DeletedRemoved(job: Job, start: Engine, recs: seq<PhaseRec>, r: nat, k: RowKey)
    requires RunOk(job, start, recs) && FaultFree(job, start, recs) && k in job.sets && job.sets[k].targets == {}
    requires r == RemovePhase(k) && !Gated(EngineAt(job, start, recs, r), r)
    requires WorldInv(EngineAt(job, start, recs, r).world) && Agree(EngineAt(job, start, recs, r).world, k)
    requires forall u, i | u in At(EngineAt(job, start, recs, r).world.table, k)
      && 0 <= i < |At(EngineAt(job, start, recs, r).world.table, k)[u].children| ::
      SwitchedOff(At(EngineAt(job, start, recs, r).world.table, k)[u].children[i])
    ensures At(EngineAt(job, start, recs, r + 1).world.table, k) == map[]
  {
    hide PhaseOk, JobOk, PhaseEnd, WorldInv, SwitchedOff, AllFine, RemovePlan, AliasParts, BareTarget, KeyAfter,
         DelOp, AddOp;
    var eng, seg := EngineAt(job, start, recs, r), Calls(recs, r, k);
    var rows, m := RowsAt(eng.world.index, k), IndexAt(eng.world, k);
    assert k in Selected(job, r);
    KeyFollows(job, start, recs, r, k);
    BlockedByServedAlias(job.sets[k], rows, m);
    forall i | 0 <= i < |rows| ensures AliasParts(rows[i], rows[i].children) == [] {
      ServedAliases(rows[i], rows[i].children);
      assert m[rows[i].uuid].children == rows[i].children;
    }
    forall e | e in seg ensures e.acked && e.applied {
      CallFacts(job, start, recs, r, k, e);
      FaultFreeCall(job, start, recs, r, k, e);
    }
    AllAckedNoError(PlanAt(job, eng, r, k), k, seg);
    NoErrorCompletes(PlanAt(job, eng, r, k), k, seg);
    KeyPhase(job, start, recs, r, k);
    var after := At(EngineAt(job, start, recs, r + 1).world.table, k);
    forall u ensures u !in after { RemoveResult(job.sets[k], rows, m, k, seg, Saved, u); }
  }
}
