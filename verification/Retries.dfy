/** Successive applies of one plan against a firewall with a bounded number of faults. */
module Retries {
  import opened Rows
  import opened Table
  import opened KeyPlan
  import opened Engine
  import opened Runs
  import opened Converge
  import opened Progress

  /**
   * One apply as it went: its first read failed, or its phases ran and the trailing reload
   * succeeded or not. struck counts the faults the firewall used up meanwhile.
   */
  datatype Attempt = ReadFailed(struck: nat) | Ran(start: Engine, recs: seq<PhaseRec>, reloaded: bool, struck: nat)

  function TotalStruck(attempts: seq<Attempt>): nat {
    if attempts == [] then 0
    else TotalStruck(attempts[..|attempts| - 1]) + attempts[|attempts| - 1].struck
  }

  /** One apply of the plan takes the saved table from t to t2; nothing goes wrong by itself. */
  ghost predicate AttemptOk(job: Job, t: Table, t2: Table, a: Attempt) {
    match a
    case ReadFailed(struck) => t2 == t && struck > 0
    case Ran(start, recs, reloaded, struck) =>
      && RunOk(job, start, recs) && start.world.table == t && EngineAt(job, start, recs, PHASES).world.table == t2
      && (struck == 0 ==> FaultFree(job, start, recs) && reloaded)
  }

  ghost predicate Successive(job: Job, tables: seq<Table>, attempts: seq<Attempt>) {
    |tables| == |attempts| + 1 && forall j | 0 <= j < |attempts| ::
      AttemptOk(job, tables[j], tables[j + 1], attempts[j])
  }

  /** The apply returned nil. */
  predicate ReturnsNil(job: Job, a: Attempt) {
    a.Ran? && a.start.bad == [] && |a.recs| == PHASES && RunClean(job, a.start, a.recs) && a.reloaded
  }

  /** Every body the plan can write is one the firewall accepts. */
  predicate PlanAcceptable(job: Job) {
    forall k, t | k in job.sets && t in job.sets[k].targets :: Acceptable(FieldsFor(job.cfg, job.sets[k], t))
  }

  /** No row at a key of the plan has an enabled alias. */
  ghost predicate AliasFree(job: Job, t: Table) {
    forall k, u | k in job.sets && u in At(t, k) :: !EnabledChildren(At(t, k)[u].children)
  }

  lemma {:induction false} KeyAfterAliasFree(m: KeyRows, seg: seq<Event>, v: View, u: Uuid)
    requires forall x | x in m :: !EnabledChildren(m[x].children)
    ensures u in KeyAfter(m, seg, v) ==> !EnabledChildren(KeyAfter(m, seg, v)[u].children)
  {
    if seg != [] { KeyAfterAliasFree(m, seg[..|seg| - 1], v, u); }
  }

  lemma {:induction false} AliasFreeKept(job: Job, start: Engine, recs: seq<PhaseRec>, i: nat)
    requires RunOk(job, start, recs) && AliasFree(job, start.world.table) && i <= PHASES
    ensures AliasFree(job, EngineAt(job, start, recs, i).world.table)
  {
    hide PhaseOk, PhaseEnd, JobOk, WorldInv, Agree, KeyAfter, EnabledChildren;
    if i > 0 {
      AliasFreeKept(job, start, recs, i - 1);
      var before, after := EngineAt(job, start, recs, i - 1).world.table, EngineAt(job, start, recs, i).world.table;
      forall k, u | k in job.sets && u in At(after, k) ensures !EnabledChildren(At(after, k)[u].children) {
        KeyPhase(job, start, recs, i - 1, k);
        KeyAfterAliasFree(At(before, k), Calls(recs, i - 1, k), Saved, u);
      }
    }
  }

  /** An acceptable plan on a table without aliases at its keys is workable. */
  lemma AliasFreeIsWorkable(job: Job, w: World)
    requires WorldInv(w) && (forall k :: Agree(w, k)) && PlanAcceptable(job) && AliasFree(job, w.table)
    ensures AllWorkable(job, w.index)
  {
    forall k | k in job.sets ensures Workable(job.cfg, job.sets[k], RowsAt(w.index, k)) {
      var set_, rows, m := job.sets[k], RowsAt(w.index, k), IndexAt(w, k);
      assert Agree(w, k);
      forall op | op in AddPlan(job.cfg, set_, rows) && !op.Del? ensures Acceptable(op.f) {
        AddFacts(job.cfg, set_, rows, m, op);
      }
      forall i | ReuseCount(set_, rows) <= i < |Surplus(set_, rows)|
        ensures !EnabledChildren(Surplus(set_, rows)[i].children)
      {
        SurplusInMap(set_, rows, m, i);
        assert At(w.table, k)[Surplus(set_, rows)[i].uuid].children == Surplus(set_, rows)[i].children;
      }
    }
  }

  /**
   * An apply of an acceptable, alias-free plan that returns an error used up at least one
   * fault; one that used none returned nil and converged the table.
   */
  lemma ErrorCostsAFault(job: Job, t: Table, t2: Table, a: Attempt)
    requires AttemptOk(job, t, t2, a) && !job.rejected && PlanAcceptable(job) && AliasFree(job, t)
    ensures a.struck == 0 ==> ReturnsNil(job, a) && Converged(job, t2)
  {
    if a.struck == 0 {
      AliasFreeIsWorkable(job, a.start.world);
      FaultFreeIsCleanExactly(job, a.start, a.recs);
      NilMeansConverged(job, a.start, a.recs);
    }
  }

  /** What one apply's answer says about the saved table and about the firewall. */
  lemma AttemptMeans(job: Job, t: Table, t2: Table, a: Attempt)
    requires AttemptOk(job, t, t2, a)
    ensures ReturnsNil(job, a) && Verified(a.recs) ==> Converged(job, t2)
    ensures !job.rejected && PlanAcceptable(job) && AliasFree(job, t) && !ReturnsNil(job, a) ==> a.struck > 0
  {
    if a.Ran? && ReturnsNil(job, a) && Verified(a.recs) {
      NilMeansConverged(job, a.start, a.recs);
    }
    if !job.rejected && PlanAcceptable(job) && AliasFree(job, t) {
      ErrorCostsAFault(job, t, t2, a);
    }
  }

  lemma AliasFreeNext(job: Job, t: Table, t2: Table, a: Attempt)
    requires AttemptOk(job, t, t2, a) && AliasFree(job, t)
    ensures AliasFree(job, t2)
  {
    if a.Ran? {
      AliasFreeKept(job, a.start, a.recs, PHASES);
    }
  }

  lemma {:induction false} StepByStep(job: Job, tables: seq<Table>, j: nat)
    requires j < |tables| && AliasFree(job, tables[0])
    requires forall i, i' | 0 <= i < i' < |tables| && i' == i + 1 && AliasFree(job, tables[i]) ::
      AliasFree(job, tables[i'])
    ensures AliasFree(job, tables[j])
  {
    if j > 0 {
      StepByStep(job, tables, j - 1);
    }
  }

  lemma AliasFreeThroughout(job: Job, tables: seq<Table>, attempts: seq<Attempt>, j: nat)
    requires Successive(job, tables, attempts) && j <= |attempts| && AliasFree(job, tables[0])
    ensures AliasFree(job, tables[j])
  {
    forall i, i' | 0 <= i < i' < |tables| && i' == i + 1 && AliasFree(job, tables[i])
      ensures AliasFree(job, tables[i'])
    {
      AliasFreeNext(job, tables[i], tables[i'], attempts[i]);
    }
    StepByStep(job, tables, j);
  }

  lemma {:induction false} SomeFaultless(attempts: seq<Attempt>) returns (j: nat)
    requires TotalStruck(attempts) < |attempts|
    ensures j < |attempts| && attempts[j].struck == 0
  {
    if attempts[|attempts| - 1].struck == 0 {
      j := |attempts| - 1;
    } else {
      j := SomeFaultless(attempts[..|attempts| - 1]);
    }
  }

  /**
   * With n faults in total, one of any n+1 successive applies of a plan returns nil and
   * leaves the saved table converged, whatever was saved, lost or left half-done before.
   */
  lemma OneOfNPlusOneConverges(job: Job, tables: seq<Table>, attempts: seq<Attempt>, n: nat)
    requires Successive(job, tables, attempts) && |attempts| == n + 1 && TotalStruck(attempts) <= n
    requires !job.rejected && PlanAcceptable(job) && AliasFree(job, tables[0])
    ensures exists j | 0 <= j < |attempts| :: ReturnsNil(job, attempts[j]) && Converged(job, tables[j + 1])
  {
    var j := SomeFaultless(attempts);
    AliasFreeThroughout(job, tables, attempts, j);
    ErrorCostsAFault(job, tables[j], tables[j + 1], attempts[j]);
  }

  /** The exception: a data record with an empty target that no row carries is never workable, faults or not. */
  lemma EmptyTargetNeverWorks(cfg: Config, set_: Desired, rows: seq<Row>, m: KeyRows)
    requires Lists(rows, m) && "" in set_.targets && (set_.key.rr == TYPE_A || set_.key.rr == TYPE_AAAA)
    requires forall u | u in m :: BareTarget(m[u]) != ""
    ensures !Workable(cfg, set_, rows)
  {
    AddCovers(cfg, set_, rows, m, "");
    var op :| op in AddPlan(cfg, set_, rows) && !op.Del? && WriteTarget(op.f) == "";
    AddFacts(cfg, set_, rows, m, op);
  }
}
