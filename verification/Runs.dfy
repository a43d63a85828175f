/** What every run of the four phases keeps, key by key. */
module Runs {
  import opened Names
  import opened Rows
  import opened Table
  import opened KeyPlan
  import opened Engine

  // Phases of a run.

  lemma NextWorld(job: Job, start: Engine, recs: seq<PhaseRec>, i: nat)
    requires RunOk(job, start, recs) && i < PHASES
    ensures EngineAt(job, start, recs, i + 1).world == Steps(EngineAt(job, start, recs, i).world, recs[i].events)
    ensures EngineAt(job, start, recs, i + 1).world == WorldAt(job, start, recs, i, |recs[i].events|)
  {
    assert recs[i].events[..|recs[i].events|] == recs[i].events;
  }

  lemma {:induction false} RunInv(job: Job, start: Engine, recs: seq<PhaseRec>, i: nat)
    requires RunOk(job, start, recs) && i <= PHASES
    ensures WorldInv(EngineAt(job, start, recs, i).world)
  {
    hide PhaseEnd, PhaseOk, WorldInv, JobOk, Steps, KeyAfter, Project, At;
    if i > 0 {
      RunInv(job, start, recs, i - 1);
      PhaseTracks(job, start, recs, i - 1, |recs[i - 1].events|);
      NextWorld(job, start, recs, i - 1);
    }
  }

  lemma PhaseTracks(job: Job, start: Engine, recs: seq<PhaseRec>, i: nat, n: nat)
    requires RunOk(job, start, recs) && i < PHASES && n <= |recs[i].events|
    requires WorldInv(EngineAt(job, start, recs, i).world)
    ensures Tracks(EngineAt(job, start, recs, i).world, recs[i].events[..n])
    ensures n < |recs[i].events| ==> Legal(WorldAt(job, start, recs, i, n), recs[i].events[n])
  {
    var eng := EngineAt(job, start, recs, i);
    assert PhaseOk(job, eng, i, recs[i]);
    if Gated(eng, i) {
      TracksNothing(eng.world, recs[i].events[..n]);
    } else {
      PhasePrefix(job, eng, i, recs[i].events, n);
    }
  }

  /** At every point of a run the pair is well-formed and follows the calls of the current phase. */
  lemma RunTracks(job: Job, start: Engine, recs: seq<PhaseRec>, i: nat, n: nat)
    requires RunOk(job, start, recs) && i < PHASES && n <= |recs[i].events|
    ensures WorldInv(EngineAt(job, start, recs, i).world)
    ensures Tracks(EngineAt(job, start, recs, i).world, recs[i].events[..n])
    ensures n < |recs[i].events| ==> Legal(WorldAt(job, start, recs, i, n), recs[i].events[n])
  {
    RunInv(job, start, recs, i);
    PhaseTracks(job, start, recs, i, n);
  }

  /** The calls of a phase on a key it does not select, or of a gated phase: none. */
  lemma NoCalls(job: Job, start: Engine, recs: seq<PhaseRec>, i: nat, n: nat, k: RowKey)
    requires RunOk(job, start, recs) && i < PHASES && n <= |recs[i].events|
    requires k !in Selected(job, i) || Gated(EngineAt(job, start, recs, i), i)
    ensures Project(recs[i].events[..n], k) == []
  {
    assert PhaseOk(job, EngineAt(job, start, recs, i), i, recs[i]);
    forall e | e in recs[i].events[..n] ensures e.key != k {
      assert e in recs[i].events;
    }
    ProjectNone(recs[i].events[..n], k);
  }

  lemma CallsMeanSelected(job: Job, start: Engine, recs: seq<PhaseRec>, i: nat, k: RowKey)
    requires RunOk(job, start, recs) && i < PHASES && Project(recs[i].events, k) != []
    ensures k in Selected(job, i) && !Gated(EngineAt(job, start, recs, i), i)
  {
    assert recs[i].events[..|recs[i].events|] == recs[i].events;
    if k !in Selected(job, i) || Gated(EngineAt(job, start, recs, i), i) {
      NoCalls(job, start, recs, i, |recs[i].events|, k);
    }
  }

  lemma StillInPhase(job: Job, start: Engine, recs: seq<PhaseRec>, i: nat, k: RowKey)
    requires RunOk(job, start, recs) && i < PHASES && k !in Selected(job, i)
    ensures WorldInv(EngineAt(job, start, recs, i).world) && WorldInv(EngineAt(job, start, recs, i + 1).world)
    ensures At(EngineAt(job, start, recs, i + 1).world.table, k) == At(EngineAt(job, start, recs, i).world.table, k)
    ensures IndexAt(EngineAt(job, start, recs, i + 1).world, k) == IndexAt(EngineAt(job, start, recs, i).world, k)
  {
    hide EngineAt, PhaseOk, JobOk, StartOk, WorldInv, MapOf, At, KeyStep, Steps, Project, Selected;
    var n := |recs[i].events|;
    RunTracks(job, start, recs, i, n);
    NoCalls(job, start, recs, i, n, k);
    NextWorld(job, start, recs, i);
  }

  /** Between two phases that do not select a key, nothing of it moves. */
  lemma {:induction false} Still(job: Job, start: Engine, recs: seq<PhaseRec>, i: nat, j: nat, k: RowKey)
    requires RunOk(job, start, recs) && i <= j <= PHASES
    requires forall p | i <= p < j :: k !in Selected(job, p)
    ensures WorldInv(EngineAt(job, start, recs, i).world) && WorldInv(EngineAt(job, start, recs, j).world)
    ensures At(EngineAt(job, start, recs, j).world.table, k) == At(EngineAt(job, start, recs, i).world.table, k)
    ensures IndexAt(EngineAt(job, start, recs, j).world, k) == IndexAt(EngineAt(job, start, recs, i).world, k)
  {
    hide EngineAt, PhaseOk, JobOk, StartOk, WorldInv, MapOf, At, Selected;
    RunInv(job, start, recs, i);
    if i < j {
      Still(job, start, recs, i, j - 1, k);
      StillInPhase(job, start, recs, j - 1, k);
    }
  }

  lemma RowsUntouched(w: World, tr: seq<Event>, k: RowKey)
    requires forall e | e in tr :: e.key != k
    ensures RowsAt(Steps(w, tr).index, k) == RowsAt(w.index, k)
  {
    if tr != [] { RowsUntouched(w, tr[..|tr| - 1], k); }
  }

  /** Before its add phase a key's index entry is the snapshot's, in the snapshot's order. */
  lemma {:induction false} RowsFromStart(job: Job, start: Engine, recs: seq<PhaseRec>, i: nat, k: RowKey)
    requires RunOk(job, start, recs) && i <= AddPhase(k)
    ensures RowsAt(EngineAt(job, start, recs, i).world.index, k) == RowsAt(start.world.index, k)
  {
    if i > 0 {
      RowsFromStart(job, start, recs, i - 1, k);
      NextWorld(job, start, recs, i - 1);
      assert PhaseOk(job, EngineAt(job, start, recs, i - 1), i - 1, recs[i - 1]);
      RowsUntouched(EngineAt(job, start, recs, i - 1).world, recs[i - 1].events, k);
    }
  }

  function AddPhase(k: RowKey): nat {
    if IsTXT(k.rr) then TXT_ADD else DATA_ADD
  }

  function RemovePhase(k: RowKey): nat {
    if IsTXT(k.rr) then TXT_REMOVE else DATA_REMOVE
  }

  // Identities.

  ghost predicate DistinctIds(seg: seq<Event>) {
    forall i, j | 0 <= i < j < |seg| :: seg[i].id != seg[j].id
  }

  /** The identities of a segment: each row is named once, and a created row gets one from lo on. */
  ghost predicate GoodIds(seg: seq<Event>, lo: Uuid, hi: Uuid) {
    && DistinctIds(seg)
    && forall i | 0 <= i < |seg| :: seg[i].id < hi && (seg[i].op.Add? <==> lo <= seg[i].id)
  }

  lemma GoodIdsAppend(seg: seq<Event>, e: Event, lo: Uuid, hi: Uuid, hi': Uuid)
    requires GoodIds(seg, lo, hi) && lo <= hi <= hi'
    requires e.op.Add? ==> hi <= e.id < hi'
    requires !e.op.Add? ==> e.id < lo && forall j | 0 <= j < |seg| && !seg[j].op.Add? :: seg[j].id != e.id
    ensures GoodIds(seg + [e], lo, hi')
  {
  }

  lemma EarlierOps(plan: KeyPlan, k: RowKey, seg: seq<Event>, n: nat)
    requires Follows(plan, k, seg) && DistinctRows(plan.ops) && n < |seg| && !seg[n].op.Add?
    ensures forall e | e in seg[..n] && !e.op.Add? :: e.id != seg[n].id
  {
    forall e | e in seg[..n] && !e.op.Add? ensures e.id != seg[n].id {
      var j :| 0 <= j < n && seg[j] == e;
      assert plan.ops[j] == e.op && plan.ops[n] == seg[n].op;
    }
  }

  /** The next call of a key names a row no earlier call of the phase wrote for it. */
  lemma NextIsNew(job: Job, eng: Engine, i: nat, events: seq<Event>, n: nat)
    requires JobOk(job) && WorldInv(eng.world) && PhaseRuns(job, eng, i, events) && n < |events|
    requires !events[n].op.Add?
    ensures events[n].id < eng.world.next
    ensures forall e | e in Project(events[..n], events[n].key) && !e.op.Add? :: e.id != events[n].id
  {
    var k := events[n].key;
    CallInPlan(job, eng, i, events, n);
    PlanLegal(job, eng, i, k);
    SameChildren(eng.world, k, events[n].id);
    EarlierOps(PlanAt(job, eng, i, k), k, Project(events, k), |Project(events[..n], k)|);
  }

  ghost predicate IdsOk(w: World, tr: seq<Event>, k: RowKey) {
    w.next <= Steps(w, tr).next && GoodIds(Project(tr, k), w.next, Steps(w, tr).next)
  }

  lemma IdsStep(w: World, tr: seq<Event>, e: Event, k: RowKey)
    requires IdsOk(w, tr, k) && Answered(Steps(w, tr), e)
    requires e.key == k && !e.op.Add? ==> e.id < w.next && forall x | x in Project(tr, k) && !x.op.Add? :: x.id != e.id
    ensures IdsOk(w, tr + [e], k)
  {
    StepsStep(w, tr, e);
    ProjectStep(tr, e, k);
    if e.key == k {
      GoodIdsAppend(Project(tr, k), e, w.next, Steps(w, tr).next, Step(Steps(w, tr), e).next);
    } else {
      assert Project(tr, k) + [] == Project(tr, k);
    }
  }

  lemma IdsNext(w: World, events: seq<Event>, n: nat, k: RowKey)
    requires n < |events| && IdsOk(w, events[..n], k) && Answered(Steps(w, events[..n]), events[n])
    requires events[n].key == k && !events[n].op.Add? ==>
      events[n].id < w.next && forall x | x in Project(events[..n], k) && !x.op.Add? :: x.id != events[n].id
    ensures IdsOk(w, events[..n + 1], k)
  {
    IdsStep(w, events[..n], events[n], k);
    assert events[..n + 1] == events[..n] + [events[n]];
  }

  lemma NoIds(w: World, k: RowKey)
    ensures IdsOk(w, [], k)
  {
  }

  /** Within a phase no row is written twice and new rows get new identities. */
  lemma {:induction false} PhaseIds(job: Job, eng: Engine, i: nat, events: seq<Event>, n: nat, k: RowKey)
    requires JobOk(job) && WorldInv(eng.world) && PhaseRuns(job, eng, i, events) && n <= |events|
    ensures IdsOk(eng.world, events[..n], k)
  {
    hide WorldInv, AllAnswered, Answered, IdsOk, Follows, PlanAt, Steps, JobOk, Project;
    if n == 0 {
      NoIds(eng.world, k);
      assert events[..0] == [];
    } else {
      PhaseIds(job, eng, i, events, n - 1, k);
      if events[n - 1].key == k && !events[n - 1].op.Add? {
        NextIsNew(job, eng, i, events, n - 1);
      }
      AnsweredAt(eng.world, events, n - 1);
      IdsNext(eng.world, events, n - 1, k);
    }
  }

  // Results of one key's calls.

  /** All the calls of a plan, each of them counting in the view. */
  ghost predicate Completed(plan: KeyPlan, k: RowKey, seg: seq<Event>, v: View) {
    Follows(plan, k, seg) && |seg| == |plan.ops| && forall e | e in seg :: Counts(v, e)
  }

  lemma CallFor(plan: KeyPlan, k: RowKey, seg: seq<Event>, v: View, op: Op) returns (j: int)
    requires Completed(plan, k, seg, v) && op in plan.ops
    ensures 0 <= j < |seg| && seg[j].op == op && Counts(v, seg[j]) && (op.Add? || seg[j].id == op.uuid)
  {
    j :| 0 <= j < |plan.ops| && plan.ops[j] == op;
    assert seg[j] in seg;
  }

  /** Where a completed add plan leaves one original row: gone nowhere, and reading what was written into it. */
  lemma AddResultRow(cfg: Config, set_: Desired, rows: seq<Row>, m: KeyRows, k: RowKey, seg: seq<Event>, v: View,
      lo: Uuid, hi: Uuid, u: Uuid)
    requires Lists(rows, m) && Completed(KeyPlan(AddPlan(cfg, set_, rows), false), k, seg, v)
    requires GoodIds(seg, lo, hi) && u in m && u < lo
    ensures u in KeyAfter(m, seg, v)
    ensures
      var c := KeyAfter(m, seg, v)[u];
      || (c == m[u] && forall e | e in seg :: e.id != u)
      || (exists op | op in AddPlan(cfg, set_, rows) ::
        op.Set? && op.uuid == u && AddOp(cfg, set_, m, op) && c == CoreWrite(m[u], op.f))
  {
    if j :| 0 <= j < |seg| && seg[j].id == u {
      KeyAfterOnce(m, seg, v, j);
      assert seg[j] in seg && seg[j].op in AddPlan(cfg, set_, rows);
      AddFacts(cfg, set_, rows, m, seg[j].op);
    } else {
      KeyAfterUntouched(m, seg, v, u);
    }
  }

  /** After a completed add plan, original rows with a desired target still carry it and reused rows carry one. */
  lemma AddKeepsTargets(cfg: Config, set_: Desired, rows: seq<Row>, m: KeyRows, k: RowKey, seg: seq<Event>, v: View,
      lo: Uuid, hi: Uuid, u: Uuid)
    requires Lists(rows, m) && Completed(KeyPlan(AddPlan(cfg, set_, rows), false), k, seg, v)
    requires GoodIds(seg, lo, hi) && u in m && u < lo
    ensures u in KeyAfter(m, seg, v)
    ensures
      var c := KeyAfter(m, seg, v)[u];
      && c.children == m[u].children
      && (BareTarget(m[u]) in set_.targets ==> BareTarget(c) == BareTarget(m[u]))
      && ((exists op | op in AddPlan(cfg, set_, rows) :: op.Set? && op.uuid == u) ==> BareTarget(c) in set_.targets)
  {
    AddResultRow(cfg, set_, rows, m, k, seg, v, lo, hi, u);
    if op :| op in AddPlan(cfg, set_, rows) && op.Set? && op.uuid == u {
      var j := CallFor(KeyPlan(AddPlan(cfg, set_, rows), false), k, seg, v, op);
      assert seg[j] in seg;
    }
  }

  /** A call of a completed add plan leaves a row that reads as it wrote. */
  lemma AddWrites(cfg: Config, set_: Desired, rows: seq<Row>, m: KeyRows, k: RowKey, seg: seq<Event>, v: View,
      lo: Uuid, hi: Uuid, op: Op)
    returns (u: Uuid)
    requires Lists(rows, m) && Completed(KeyPlan(AddPlan(cfg, set_, rows), false), k, seg, v)
    requires GoodIds(seg, lo, hi) && op in AddPlan(cfg, set_, rows) && !op.Del?
    ensures u in KeyAfter(m, seg, v)
    ensures
      var c, t := KeyAfter(m, seg, v)[u], WriteTarget(op.f);
      t in set_.targets && c == CoreWrite(c, FieldsFor(cfg, set_, t))
  {
    AddFacts(cfg, set_, rows, m, op);
    var j := CallFor(KeyPlan(AddPlan(cfg, set_, rows), false), k, seg, v, op);
    u := seg[j].id;
    KeyAfterOnce(m, seg, v, j);
  }

  /** A row written with a clamped TTL is not stale. */
  lemma WrittenIsFresh(cfg: Config, set_: Desired, t: string, c: Core)
    requires 0 <= set_.ttl <= MAX_TTL
    requires c == CoreWrite(c, FieldsFor(cfg, set_, t))
    ensures BareTarget(c) == t && !Stale(cfg, set_, c, t)
  {
    TTLRoundTrip(set_.ttl);
  }

  /** After a completed add plan every desired target has a row with the desired columns. */
  lemma AddCompletes(cfg: Config, set_: Desired, rows: seq<Row>, m: KeyRows, k: RowKey, seg: seq<Event>, v: View,
      lo: Uuid, hi: Uuid, t: string)
    requires Lists(rows, m) && Completed(KeyPlan(AddPlan(cfg, set_, rows), false), k, seg, v)
    requires GoodIds(seg, lo, hi) && (forall u | u in m :: u < lo) && t in set_.targets && 0 <= set_.ttl <= MAX_TTL
    ensures exists u | u in KeyAfter(m, seg, v) ::
              BareTarget(KeyAfter(m, seg, v)[u]) == t && !Stale(cfg, set_, KeyAfter(m, seg, v)[u], t)
  {
    AddCovers(cfg, set_, rows, m, t);
    if op :| op in AddPlan(cfg, set_, rows) && !op.Del? && WriteTarget(op.f) == t {
      var u := AddWrites(cfg, set_, rows, m, k, seg, v, lo, hi, op);
      WrittenIsFresh(cfg, set_, t, KeyAfter(m, seg, v)[u]);
    } else {
      var u :| u in m && BareTarget(m[u]) == t && !Stale(cfg, set_, m[u], t);
      AddResultRow(cfg, set_, rows, m, k, seg, v, lo, hi, u);
    }
  }

  /** A key with rows that wants some keeps an original row, and its index entry then carries a desired target. */
  lemma AddKeepsOriginal(cfg: Config, set_: Desired, rows: seq<Row>, m: KeyRows, k: RowKey, seg: seq<Event>, v: View,
      lo: Uuid, hi: Uuid)
    returns (u: Uuid)
    requires Lists(rows, m) && Completed(KeyPlan(AddPlan(cfg, set_, rows), false), k, seg, v)
    requires GoodIds(seg, lo, hi) && (forall u | u in m :: u < lo) && m != map[] && set_.targets != {}
    ensures u in m && u in KeyAfter(m, seg, v) && BareTarget(KeyAfter(m, seg, v)[u]) in set_.targets
  {
    u :| u in m;
    assert HasUuid(rows, u);
    AddKeepsOne(cfg, set_, rows, m);
    if v :| v in m && BareTarget(m[v]) in set_.targets {
      u := v;
    } else {
      var op :| op in AddPlan(cfg, set_, rows) && op.Set?;
      AddFacts(cfg, set_, rows, m, op);
      u := op.uuid;
    }
    AddKeepsTargets(cfg, set_, rows, m, k, seg, v, lo, hi, u);
  }

  /** A row that a completed add plan created carries a desired target. */
  lemma {:induction false} AddedIsDesired(m: KeyRows, seg: seq<Event>, v: View, u: Uuid)
    requires u !in m && u in KeyAfter(m, seg, v)
    ensures exists e | e in seg :: e.op.Add? && e.id == u
  {
    if seg != [] {
      var front, e := seg[..|seg| - 1], seg[|seg| - 1];
      if u in KeyAfter(m, front, v) {
        AddedIsDesired(m, front, v, u);
        var x :| x in front && x.op.Add? && x.id == u;
        assert x in seg;
      } else {
        assert e in seg;
      }
    }
  }

  // One key's two phases.

  /** The calls of k in phase i. */
  function Calls(recs: seq<PhaseRec>, i: nat, k: RowKey): seq<Event>
    requires i < |recs|
  {
    Project(recs[i].events, k)
  }

  /** Across a phase a key's rows follow its calls: all the phase's calls on it, in both views. */
  lemma KeyPhase(job: Job, start: Engine, recs: seq<PhaseRec>, i: nat, k: RowKey)
    requires RunOk(job, start, recs) && i < PHASES
    ensures WorldInv(EngineAt(job, start, recs, i).world) && WorldInv(EngineAt(job, start, recs, i + 1).world)
    ensures At(EngineAt(job, start, recs, i + 1).world.table, k) ==
            KeyAfter(At(EngineAt(job, start, recs, i).world.table, k), Calls(recs, i, k), Saved)
    ensures IndexAt(EngineAt(job, start, recs, i + 1).world, k) ==
            KeyAfter(IndexAt(EngineAt(job, start, recs, i).world, k), Calls(recs, i, k), Indexed)
  {
    var n := |recs[i].events|;
    RunTracks(job, start, recs, i, n);
    NextWorld(job, start, recs, i);
    RunInv(job, start, recs, i + 1);
    assert recs[i].events[..n] == recs[i].events;
  }

  /** In a phase that runs a selected key, its calls follow its plan and name distinct rows. */
  lemma KeyFollows(job: Job, start: Engine, recs: seq<PhaseRec>, i: nat, k: RowKey)
    requires RunOk(job, start, recs) && i < PHASES && k in Selected(job, i)
    requires !Gated(EngineAt(job, start, recs, i), i)
    ensures
      var eng := EngineAt(job, start, recs, i);
      && WorldInv(eng.world)
      && Follows(PlanAt(job, eng, i, k), k, Calls(recs, i, k))
      && GoodIds(Calls(recs, i, k), eng.world.next, EngineAt(job, start, recs, i + 1).world.next)
      && Lists(RowsAt(eng.world.index, k), IndexAt(eng.world, k))
      && forall u | u in IndexAt(eng.world, k) :: u < eng.world.next
  {
    var eng, events := EngineAt(job, start, recs, i), recs[i].events;
    assert PhaseOk(job, eng, i, recs[i]);
    RunInv(job, start, recs, i);
    PhaseIds(job, eng, i, events, |events|, k);
    assert events[..|events|] == events;
    NextWorld(job, start, recs, i);
    forall u | u in IndexAt(eng.world, k) ensures u < eng.world.next { SameChildren(eng.world, k, u); }
  }

  /** A key without a converge error was acknowledged every call of its plan. */
  lemma NoErrorCompletes(plan: KeyPlan, k: RowKey, seg: seq<Event>)
    requires Follows(plan, k, seg) && !Errs(plan, seg)
    ensures Completed(plan, k, seg, Indexed) && !plan.blocked
  {
    forall e | e in seg ensures e.acked {
      var j :| 0 <= j < |seg| && seg[j] == e;
    }
  }

  /** A key that reaches its remove phase unfailed, with targets, had its add phase run to the end. */
  lemma UnfailedMeansAdded(job: Job, start: Engine, recs: seq<PhaseRec>, k: RowKey)
    requires RunOk(job, start, recs) && k in job.sets && job.sets[k].targets != {}
    requires k !in EngineAt(job, start, recs, RemovePhase(k)).failed
    ensures
      var eng := EngineAt(job, start, recs, AddPhase(k));
      && !Gated(eng, AddPhase(k))
      && !Errs(PlanAt(job, eng, AddPhase(k), k), Calls(recs, AddPhase(k), k))
      && k !in LostKeys(EngineAt(job, start, recs, AddPhase(k) + 1).world.table, recs[AddPhase(k)])
  {
    var a := AddPhase(k);
    FailedGrows(job, start, recs, a + 1, RemovePhase(k), k);
    var eng := EngineAt(job, start, recs, a);
    var end := EngineAt(job, start, recs, a + 1);
    assert end == PhaseEnd(job, eng, a, recs[a]);
  }

  lemma {:induction false} FailedGrows(job: Job, start: Engine, recs: seq<PhaseRec>, i: nat, j: nat, k: RowKey)
    requires start.bad == [] && i <= j <= |recs|
    ensures k in EngineAt(job, start, recs, i).failed ==> k in EngineAt(job, start, recs, j).failed
  {
    if i < j {
      FailedGrows(job, start, recs, i, j - 1, k);
    }
  }

  /** What a call of the run is: a call of its key's plan, on a row indexed when the phase began. */
  lemma CallFacts(job: Job, start: Engine, recs: seq<PhaseRec>, i: nat, k: RowKey, e: Event)
    requires RunOk(job, start, recs) && i < PHASES && e in Calls(recs, i, k)
    ensures k in Selected(job, i) && !Gated(EngineAt(job, start, recs, i), i)
    ensures WorldInv(EngineAt(job, start, recs, i).world)
    ensures
      var m := IndexAt(EngineAt(job, start, recs, i).world, k);
      && e.op in PlanAt(job, EngineAt(job, start, recs, i), i, k).ops
      && (e.op.Add? || (e.id == e.op.uuid && e.id in m))
      && (if PhaseMode(i).AddSet? then AddOp(job.cfg, job.sets[k], m, e.op) else DelOp(job.sets[k], m, e.op))
  {
    var eng := EngineAt(job, start, recs, i);
    CallsMeanSelected(job, start, recs, i, k);
    KeyFollows(job, start, recs, i, k);
    PlanLegal(job, eng, i, k);
    var j :| 0 <= j < |Calls(recs, i, k)| && Calls(recs, i, k)[j] == e;
    assert PlanAt(job, eng, i, k).ops[j] in PlanAt(job, eng, i, k).ops;
  }
}
