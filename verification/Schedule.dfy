/** Within a phase the schedule of the workers and the fate of other keys do not matter to a key. */
module Schedule {
  import opened Rows
  import opened Table
  import opened KeyPlan
  import opened Engine
  import opened Runs

  /** What the firewall answered and did, call by call. */
  function Outcomes(seg: seq<Event>): seq<(bool, bool)> {
    seq(|seg|, j requires 0 <= j < |seg| => (seg[j].acked, seg[j].applied))
  }

  /** Two segments that make the same calls with the same outcomes, up to the identities of created rows. */
  ghost predicate Twins(a: seq<Event>, b: seq<Event>, lo: Uuid) {
    && |a| == |b|
    && forall j | 0 <= j < |a| ::
      && a[j].op == b[j].op && a[j].acked == b[j].acked && a[j].applied == b[j].applied
      && (a[j].op.Add? || a[j].id == b[j].id < lo)
      && (a[j].op.Add? ==> lo <= a[j].id && lo <= b[j].id)
  }

  /** The rows of m2 are the rows of m1 with each created row renamed. */
  ghost predicate Renamed(m1: KeyRows, m2: KeyRows, a: seq<Event>, b: seq<Event>, lo: Uuid)
    requires |a| == |b|
  {
    && (forall u: Uuid | u < lo :: (u in m1 <==> u in m2) && (u in m1 ==> m1[u] == m2[u]))
    && (forall j | 0 <= j < |a| && a[j].op.Add? ::
          (a[j].id in m1 <==> b[j].id in m2) && (a[j].id in m1 ==> m1[a[j].id] == m2[b[j].id]))
    && (forall u | u in m1 && lo <= u :: exists j | 0 <= j < |a| :: a[j].op.Add? && a[j].id == u)
    && (forall u | u in m2 && lo <= u :: exists j | 0 <= j < |b| :: b[j].op.Add? && b[j].id == u)
  }

  lemma SamePlanSameOps(plan: KeyPlan, k: RowKey, a: seq<Event>, b: seq<Event>, lo: Uuid, hiA: Uuid, hiB: Uuid)
    requires Follows(plan, k, a) && Follows(plan, k, b) && GoodIds(a, lo, hiA) && GoodIds(b, lo, hiB)
    requires Outcomes(a) == Outcomes(b)
    ensures Twins(a, b, lo)
    ensures Errs(plan, a) == Errs(plan, b)
  {
    assert |a| == |Outcomes(a)| == |b|;
    forall j | 0 <= j < |a| ensures a[j].acked == b[j].acked && a[j].applied == b[j].applied {
      assert Outcomes(a)[j] == Outcomes(b)[j];
    }
  }

  lemma NewRowsAreAdded(m: KeyRows, seg: seq<Event>, v: View, lo: Uuid, u: Uuid)
    requires (forall x | x in m :: x < lo) && u in KeyAfter(m, seg, v) && lo <= u
    ensures exists j | 0 <= j < |seg| :: seg[j].op.Add? && seg[j].id == u
  {
    AddedIsDesired(m, seg, v, u);
    var e :| e in seg && e.op.Add? && e.id == u;
    var j :| 0 <= j < |seg| && seg[j] == e;
  }

  lemma TwinRow(m: KeyRows, a: seq<Event>, b: seq<Event>, v: View, lo: Uuid, u: Uuid)
    requires Twins(a, b, lo) && DistinctIds(a) && DistinctIds(b) && u < lo
    ensures u in KeyAfter(m, a, v) <==> u in KeyAfter(m, b, v)
    ensures u in KeyAfter(m, a, v) ==> KeyAfter(m, a, v)[u] == KeyAfter(m, b, v)[u]
  {
    if j :| 0 <= j < |a| && a[j].id == u {
      KeyAfterOnce(m, a, v, j);
      KeyAfterOnce(m, b, v, j);
    } else {
      KeyAfterUntouched(m, a, v, u);
      forall e | e in b ensures e.id != u {
        var j :| 0 <= j < |b| && b[j] == e;
      }
      KeyAfterUntouched(m, b, v, u);
    }
  }

  lemma TwinsRename(m: KeyRows, a: seq<Event>, b: seq<Event>, v: View, lo: Uuid)
    requires Twins(a, b, lo) && DistinctIds(a) && DistinctIds(b) && forall u | u in m :: u < lo
    ensures Renamed(KeyAfter(m, a, v), KeyAfter(m, b, v), a, b, lo)
  {
    forall u: Uuid | u < lo { TwinRow(m, a, b, v, lo, u); }
    forall j | 0 <= j < |a| && a[j].op.Add?
      ensures a[j].id in KeyAfter(m, a, v) <==> b[j].id in KeyAfter(m, b, v)
      ensures a[j].id in KeyAfter(m, a, v) ==> KeyAfter(m, a, v)[a[j].id] == KeyAfter(m, b, v)[b[j].id]
    {
      KeyAfterOnce(m, a, v, j);
      KeyAfterOnce(m, b, v, j);
    }
    forall u | u in KeyAfter(m, a, v) && lo <= u ensures exists j | 0 <= j < |a| :: a[j].op.Add? && a[j].id == u {
      NewRowsAreAdded(m, a, v, lo, u);
    }
    forall u | u in KeyAfter(m, b, v) && lo <= u ensures exists j | 0 <= j < |b| :: b[j].op.Add? && b[j].id == u {
      NewRowsAreAdded(m, b, v, lo, u);
    }
  }

  /**
   * Schedule independence: take two courses of a phase from the same state, with any
   * interleavings, in which one key's calls met the same outcomes. Whatever happened to
   * the other keys, that key reports an error in both or in neither, and its saved rows
   * and its index entry come out the same, up to the identities of created rows.
   */
  lemma KeyIsIndependent(job: Job, eng: Engine, i: nat, events1: seq<Event>, events2: seq<Event>, k: RowKey)
    requires JobOk(job) && WorldInv(eng.world) && k in Selected(job, i)
    requires PhaseRuns(job, eng, i, events1) && PhaseRuns(job, eng, i, events2)
    requires Outcomes(Project(events1, k)) == Outcomes(Project(events2, k))
    ensures |Project(events1, k)| == |Project(events2, k)|
    ensures k in ConvergeErrors(job, eng, i, events1) <==> k in ConvergeErrors(job, eng, i, events2)
    ensures WorldInv(Steps(eng.world, events1)) && WorldInv(Steps(eng.world, events2))
    ensures Renamed(At(Steps(eng.world, events1).table, k), At(Steps(eng.world, events2).table, k),
                    Project(events1, k), Project(events2, k), eng.world.next)
    ensures Renamed(IndexAt(Steps(eng.world, events1), k), IndexAt(Steps(eng.world, events2), k),
                    Project(events1, k), Project(events2, k), eng.world.next)
  {
    var a, b, lo := Project(events1, k), Project(events2, k), eng.world.next;
    PhaseResult(job, eng, i, events1, k);
    PhaseResult(job, eng, i, events2, k);
    SamePlanSameOps(PlanAt(job, eng, i, k), k, a, b, lo, Steps(eng.world, events1).next,
      Steps(eng.world, events2).next);
    forall u | u in IndexAt(eng.world, k) ensures u < lo { SameChildren(eng.world, k, u); }
    TwinsRename(At(eng.world.table, k), a, b, Saved, lo);
    TwinsRename(IndexAt(eng.world, k), a, b, Indexed, lo);
  }

  lemma PhaseResult(job: Job, eng: Engine, i: nat, events: seq<Event>, k: RowKey)
    requires JobOk(job) && WorldInv(eng.world) && PhaseRuns(job, eng, i, events) && k in Selected(job, i)
    ensures WorldInv(Steps(eng.world, events)) && Follows(PlanAt(job, eng, i, k), k, Project(events, k))
    ensures GoodIds(Project(events, k), eng.world.next, Steps(eng.world, events).next)
    ensures At(Steps(eng.world, events).table, k) == KeyAfter(At(eng.world.table, k), Project(events, k), Saved)
    ensures IndexAt(Steps(eng.world, events), k) == KeyAfter(IndexAt(eng.world, k), Project(events, k), Indexed)
  {
    assert events[..|events|] == events;
    PhasePrefix(job, eng, i, events, |events|);
    PhaseIds(job, eng, i, events, |events|, k);
  }
}
