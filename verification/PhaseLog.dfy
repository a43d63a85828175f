/** One phase, key by key. */
module PhaseLog {
  import opened Rows
  import opened Table
  import opened KeyPlan
  import opened Engine
  import opened Runs
  import opened Progress
  import opened CallLog

  // One phase.

  /** The keys of ks whose calls in events report an error. */
  ghost function Erred(job: Job, eng: Engine, i: nat, events: seq<Event>, ks: set<RowKey>): set<RowKey> {
    set k | k in job.sets && k in ks && Errs(PlanAt(job, eng, i, k), Project(events, k))
  }

  /** A phase with the keys of todo still to converge. */
  ghost predicate PhaseSoFar(job: Job, eng: Engine, i: nat, events: seq<Event>, todo: set<RowKey>, erred: set<RowKey>) {
    var done := Selected(job, i) - todo;
    && todo <= Selected(job, i)
    && (forall e | e in events :: e.key in done)
    && (forall k | k in done :: Follows(PlanAt(job, eng, i, k), k, Project(events, k)))
    && erred == Erred(job, eng, i, events, done)
  }

  lemma PhaseStarts(job: Job, eng: Engine, i: nat)
    ensures PhaseSoFar(job, eng, i, [], Selected(job, i), {})
  {
    assert Erred(job, eng, i, [], Selected(job, i) - Selected(job, i)) == {};
  }

  lemma ProjectsApart(events: seq<Event>, seg: seq<Event>, k: RowKey, l: RowKey)
    requires (forall e | e in events :: e.key != k) && (forall e | e in seg :: e.key == k)
    ensures Project(events + seg, l) == if l == k then seg else Project(events, l)
  {
    ProjectConcat(events, seg, l);
    if l == k {
      ProjectNone(events, k);
      ProjectOwn(seg, k);
      assert [] + seg == seg;
    } else {
      ProjectNone(seg, l);
      assert Project(events, l) + [] == Project(events, l);
    }
  }

  lemma FollowsKeys(plan: KeyPlan, k: RowKey, seg: seq<Event>)
    requires Follows(plan, k, seg)
    ensures forall e | e in seg :: e.key == k
  {
  }

  lemma PhaseNext(job: Job, eng: Engine, i: nat, events: seq<Event>, todo: set<RowKey>, erred: set<RowKey>, k: RowKey,
      seg: seq<Event>)
    requires PhaseSoFar(job, eng, i, events, todo, erred) && k in todo
    requires Follows(PlanAt(job, eng, i, k), k, seg)
    ensures PhaseSoFar(job, eng, i, events + seg, todo - {k}, erred + if Errs(PlanAt(job, eng, i, k), seg) then {k}
      else {})
  {
    hide PlanAt, Errs, Follows, Project, PhaseSelects;
    var all, rest := events + seg, todo - {k};
    var done, next := Selected(job, i) - todo, Selected(job, i) - rest;
    assert next == done + {k};
    FollowsKeys(PlanAt(job, eng, i, k), k, seg);
    forall l ensures Project(all, l) == if l == k then seg else Project(events, l) { ProjectsApart(events, seg, k, l); }
    assert Erred(job, eng, i, all, next) == Erred(job, eng, i, events, done) + if Errs(PlanAt(job, eng, i, k), seg)
      then {k} else {};
  }

  /** A key still to converge is planned from the state before the phase. */
  lemma PlanIsAt(job: Job, eng: Engine, i: nat, events: seq<Event>, todo: set<RowKey>, erred: set<RowKey>, k: RowKey)
    requires PhaseSoFar(job, eng, i, events, todo, erred) && k in todo
    ensures k in job.sets &&
      PlanFor(job.cfg, job.sets[k], PhaseMode(i), k in eng.failed + erred,
      RowsAt(Steps(eng.world, events).index, k)) == PlanAt(job, eng, i, k)
  {
    RowsUntouched(eng.world, events, k);
  }

  /** A phase that ran, as the engine sees it. */
  lemma PhaseEnded(job: Job, eng: Engine, i: nat, rec: PhaseRec, failed: set<RowKey>, erred: set<RowKey>,
      lost: set<RowKey>)
    requires |eng.bad| == i && !Gated(eng, i) && PhaseRuns(job, eng, i, rec.events)
    requires erred == ConvergeErrors(job, eng, i, rec.events) &&
      lost == LostKeys(Steps(eng.world, rec.events).table, rec)
    requires failed == eng.failed + erred + lost
    ensures PhaseOk(job, eng, i, rec)
    ensures PhaseEnd(job, eng, i, rec) ==
            Engine(Steps(eng.world, rec.events), failed,
              eng.bad + [erred != {} || lost != {} || (i == TXT_ADD && job.rejected)])
    ensures PhaseClean(job, eng, i, rec) <==> erred == {} && lost == {}
  {
  }

  /** A phase that was skipped, as the engine sees it. */
  lemma PhaseSkipped(job: Job, eng: Engine, i: nat)
    requires |eng.bad| == i && Gated(eng, i)
    ensures PhaseOk(job, eng, i, PhaseRec([], true)) && !PhaseClean(job, eng, i, PhaseRec([], true))
    ensures Quiet(eng.world, PhaseRec([], true))
    ensures PhaseEnd(job, eng, i, PhaseRec([], true)) ==
            Engine(eng.world, eng.failed + (set k | k in job.sets && PhaseSelects(i, k) && job.sets[k].targets != {}),
              eng.bad + [false])
  {
  }

  lemma PhaseDone(job: Job, eng: Engine, i: nat, events: seq<Event>, erred: set<RowKey>, quiet: bool)
    requires PhaseSoFar(job, eng, i, events, {}, erred) && Heard(eng.world, events, quiet)
    ensures PhaseRuns(job, eng, i, events) && erred == ConvergeErrors(job, eng, i, events)
  {
    assert Selected(job, i) - {} == Selected(job, i);
    assert Erred(job, eng, i, events, Selected(job, i)) == ConvergeErrors(job, eng, i, events);
  }

  // The phases so far.

  /** The first phases of an apply of job from start. */
  ghost predicate RunsTo(job: Job, start: Engine, recs: seq<PhaseRec>)
    requires start.bad == []
  {
    forall j | 0 <= j < |recs| :: PhaseOk(job, EngineAt(job, start, recs, j), j, recs[j])
  }

  /** The firewall was quiet in a phase: the read succeeded and every call went as it should. */
  ghost predicate Quiet(w: World, rec: PhaseRec) {
    rec.readOk && AllFine(w, rec.events)
  }

  ghost predicate QuietTo(job: Job, start: Engine, recs: seq<PhaseRec>)
    requires start.bad == []
  {
    forall j | 0 <= j < |recs| :: Quiet(EngineAt(job, start, recs, j).world, recs[j])
  }

  lemma {:induction false} EnginePrefix(job: Job, start: Engine, recs: seq<PhaseRec>, rec: PhaseRec, j: nat)
    requires start.bad == [] && j <= |recs|
    ensures EngineAt(job, start, recs + [rec], j) == EngineAt(job, start, recs, j)
  {
    if j > 0 {
      EnginePrefix(job, start, recs, rec, j - 1);
    }
  }

  lemma EngineNext(job: Job, start: Engine, recs: seq<PhaseRec>, j: nat)
    requires start.bad == [] && j < |recs|
    ensures EngineAt(job, start, recs, j + 1) == PhaseEnd(job, EngineAt(job, start, recs, j), j, recs[j])
  {
  }

  /** One more phase at the end of a run. */
  lemma PhaseAppended(job: Job, start: Engine, recs: seq<PhaseRec>, rec: PhaseRec)
    requires start.bad == []
    ensures
      var eng, all := EngineAt(job, start, recs, |recs|), recs + [rec];
      && EngineAt(job, start, all, |all|) == PhaseEnd(job, eng, |recs|, rec)
      && (RunsTo(job, start, all) <==> RunsTo(job, start, recs) && PhaseOk(job, eng, |recs|, rec))
      && (CleanUpTo(job, start, all, |all|) <==>
        CleanUpTo(job, start, recs, |recs|) && PhaseClean(job, eng, |recs|, rec))
      && (QuietTo(job, start, all) <==> QuietTo(job, start, recs) && Quiet(eng.world, rec))
  {
    hide EngineAt, PhaseEnd, PhaseOk, PhaseClean, Quiet;
    var all, n := recs + [rec], |recs|;
    EngineNext(job, start, all, n);
    forall j | 0 <= j <= n ensures EngineAt(job, start, all, j) == EngineAt(job, start, recs, j) {
      EnginePrefix(job, start, recs, rec, j);
    }
    assert all[n] == rec && forall j | 0 <= j < n :: all[j] == recs[j];
  }

  /** t is the saved table after some of the calls of some phase. */
  ghost predicate SeenIn(job: Job, start: Engine, recs: seq<PhaseRec>, t: Table)
    requires start.bad == []
  {
    exists i: nat, n: nat | i < |recs| && n <= |recs[i].events| :: WorldAt(job, start, recs, i, n).table == t
  }

  /** Every table saved since before is one the run passes through. */
  ghost predicate Witnessed(job: Job, start: Engine, recs: seq<PhaseRec>, before: seq<Table>, now: seq<Table>)
    requires start.bad == []
  {
    before <= now && forall j | |before| <= j < |now| :: SeenIn(job, start, recs, now[j])
  }

  lemma SeenStill(job: Job, start: Engine, recs: seq<PhaseRec>, rec: PhaseRec, t: Table)
    requires start.bad == [] && SeenIn(job, start, recs, t)
    ensures SeenIn(job, start, recs + [rec], t)
  {
    var i: nat, n: nat :| i < |recs| && n <= |recs[i].events| && WorldAt(job, start, recs, i, n).table == t;
    EnginePrefix(job, start, recs, rec, i);
    assert (recs + [rec])[i] == recs[i];
    assert WorldAt(job, start, recs + [rec], i, n).table == t;
  }

  lemma SeenNow(job: Job, start: Engine, recs: seq<PhaseRec>, rec: PhaseRec, t: Table)
    requires start.bad == [] && OnPath(t, EngineAt(job, start, recs, |recs|).world, rec.events)
    ensures SeenIn(job, start, recs + [rec], t)
  {
    var n: nat :| n <= |rec.events| && Steps(EngineAt(job, start, recs, |recs|).world, rec.events[..n]).table == t;
    EnginePrefix(job, start, recs, rec, |recs|);
    assert (recs + [rec])[|recs|] == rec;
    assert WorldAt(job, start, recs + [rec], |recs|, n).table == t;
  }

  /** What one more phase saved is seen in the longer run. */
  lemma WitnessAppended(job: Job, start: Engine, recs: seq<PhaseRec>, rec: PhaseRec, before: seq<Table>,
      mid: seq<Table>, now: seq<Table>)
    requires start.bad == [] && Witnessed(job, start, recs, before, mid)
    requires Path(mid, now, EngineAt(job, start, recs, |recs|).world, rec.events)
    ensures Witnessed(job, start, recs + [rec], before, now)
  {
    hide EngineAt, SeenIn, OnPath;
    forall j | |before| <= j < |now| ensures SeenIn(job, start, recs + [rec], now[j]) {
      if j < |mid| {
        SeenStill(job, start, recs, rec, mid[j]);
      } else {
        SeenNow(job, start, recs, rec, now[j]);
      }
    }
  }

  /** Four phases without an error from the firewall are a fault-free run. */
  lemma QuietIsFaultFree(job: Job, start: Engine, recs: seq<PhaseRec>)
    requires start.bad == [] && |recs| == PHASES && QuietTo(job, start, recs)
    ensures FaultFree(job, start, recs)
  {
    hide EngineAt;
    forall i | 0 <= i < PHASES ensures AllFine(EngineAt(job, start, recs, i).world, recs[i].events) {
      assert Quiet(EngineAt(job, start, recs, i).world, recs[i]);
    }
    forall i | 0 <= i < PHASES ensures recs[i].readOk { assert Quiet(EngineAt(job, start, recs, i).world, recs[i]); }
  }
}
