/** The safety theorems, read on the tables the firewall actually saved during one apply. */
module Safety {
  import opened Rows
  import opened Table
  import opened Engine
  import opened PhaseLog
  import opened Frame
  import NeverEmpty
  import opened Ownership

  /** A saved table that keeps what the plan must not take away, against the table t0 the apply began with. */
  ghost predicate Keeps(job: Job, t0: Table, t: Table) {
    // A record set that had rows and wants some has one.
    && (forall k | k in job.sets && job.sets[k].targets != {} && At(t0, k) != map[] :: At(t, k) != map[])
    // Rows outside the plan are as they were.
    && (forall u: Uuid | u in t0 && Foreign(job, t0[u]) :: u in t && t[u] == t0[u])
    // A row with an enabled alias is there, with its aliases.
    && (forall u: Uuid | u in t0 && EnabledChildren(t0[u].children) :: u in t && t[u].children == t0[u].children)
  }

  /** A data row at a name that had none stands beside every registry row the folded sets want. */
  ghost predicate Claimed(job: Job, t0: Table, t: Table) {
    forall d: RowKey | !IsTXT(d.rr) && At(t0, d) == map[] && At(t, d) != map[] :: !job.rejected && RegistryShown(job, t)
  }

  ghost predicate RegistryShown(job: Job, t: Table) {
    forall k, target | k in job.sets && IsTXT(k.rr) && target in job.sets[k].targets ::
      exists u | u in At(t, k) :: BareTarget(At(t, k)[u]) == target
  }

  /** While a deleted registry row is gone, no row of a data key that the folded sets delete is left. */
  ghost predicate Outlived(job: Job, t0: Table, t: Table) {
    forall k, d, u | k in job.sets && IsTXT(k.rr) && job.sets[k].targets == {} && d in job.sets && !IsTXT(d.rr) &&
      job.sets[d].targets == {}
      && u in At(t0, k) && u !in At(t, k) :: At(t, d) == map[]
  }

  lemma PointIsSafe(job: Job, start: Engine, recs: seq<PhaseRec>, i: nat, n: nat)
    requires RunOk(job, start, recs) && i < PHASES && n <= |recs[i].events|
    ensures Keeps(job, start.world.table, WorldAt(job, start, recs, i, n).table)
    ensures recs[TXT_ADD].readOk ==> Claimed(job, start.world.table, WorldAt(job, start, recs, i, n).table)
    ensures recs[DATA_REMOVE].readOk ==> Outlived(job, start.world.table, WorldAt(job, start, recs, i, n).table)
  {
    hide WorldAt, Foreign, EnabledChildren, At;
    var t0, t := start.world.table, WorldAt(job, start, recs, i, n).table;
    forall k | k in job.sets && job.sets[k].targets != {} && At(t0, k) != map[] ensures At(t, k) != map[] {
      NeverEmpty.NeverEmpty(job, start, recs, k);
    }
    forall u: Uuid | u in t0 && Foreign(job, t0[u])
      ensures u in t && t[u] == t0[u] { ForeignUntouched(job, start, recs, i, n, u); }
    forall u: Uuid | u in t0 && EnabledChildren(t0[u].children) ensures u in t && t[u].children == t0[u].children {
      AliasParentStays(job, start, recs, i, n, u);
    }
    if recs[TXT_ADD].readOk {
      forall d: RowKey | !IsTXT(d.rr) && At(t0, d) == map[] && At(t, d) != map[]
        ensures !job.rejected && RegistryShown(job, t)
      {
        DataNeedsRegistry(job, start, recs, i, n, d);
      }
    }
    if recs[DATA_REMOVE].readOk {
      forall k, d, u | k in job.sets && IsTXT(k.rr) && job.sets[k].targets == {} && d in job.sets && !IsTXT(d.rr) &&
        job.sets[d].targets == {}
        && u in At(t0, k) && u !in At(t, k)
        ensures At(t, d) == map[]
      {
        RegistryOutlivesData(job, start, recs, i, n, k, u, d);
      }
    }
  }

  /**
   * Every table saved while an apply runs is safe: no wanted name is ever without a row,
   * nothing outside the plan changes, no aliased row goes, and, as far as the protective
   * phases could re-read the table, no new data row is saved without the registry rows the
   * folded sets want, and no data row they delete outlives a registry row they delete.
   */
  lemma SavedTablesAreSafe(job: Job, start: Engine, recs: seq<PhaseRec>, before: seq<Table>, now: seq<Table>, j: nat)
    requires RunOk(job, start, recs) && Witnessed(job, start, recs, before, now) && |before| <= j < |now|
    ensures Keeps(job, start.world.table, now[j])
    ensures recs[TXT_ADD].readOk ==> Claimed(job, start.world.table, now[j])
    ensures recs[DATA_REMOVE].readOk ==> Outlived(job, start.world.table, now[j])
  {
    hide WorldAt, Keeps, Claimed, Outlived;
    var i: nat, n: nat :| i < |recs| && n <= |recs[i].events| && WorldAt(job, start, recs, i, n).table == now[j];
    PointIsSafe(job, start, recs, i, n);
  }
}
