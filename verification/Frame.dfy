/** What an apply leaves alone: rows outside the plan, disabled rows, and rows with aliases. */
module Frame {
  import opened Rows
  import opened Table
  import opened Engine
  import opened Runs

  /** A row no key of the plan owns: hidden, or filed under a name and type the plan does not mention. */
  predicate Foreign(job: Job, r: Row) {
    !Visible(r) || KeyOf(r) !in job.sets
  }

  lemma CallIsOurs(job: Job, start: Engine, recs: seq<PhaseRec>, i: nat, n: nat)
    requires RunOk(job, start, recs) && i < PHASES && n < |recs[i].events|
    ensures recs[i].events[n].key in Selected(job, i) && !Gated(EngineAt(job, start, recs, i), i)
    ensures recs[i].events[n] in Project(recs[i].events, recs[i].events[n].key)
  {
    assert recs[i].events[n] in recs[i].events;
    assert PhaseOk(job, EngineAt(job, start, recs, i), i, recs[i]);
    ProjectMembers(recs[i].events, recs[i].events[n].key);
  }

  /** The n-th call takes the n-th world to the next one. */
  lemma NextCall(job: Job, start: Engine, recs: seq<PhaseRec>, i: nat, n: nat)
    requires RunOk(job, start, recs) && i < PHASES && n < |recs[i].events|
    ensures WorldAt(job, start, recs, i, n + 1) == Step(WorldAt(job, start, recs, i, n), recs[i].events[n])
    ensures WorldInv(WorldAt(job, start, recs, i, n)) && Legal(WorldAt(job, start, recs, i, n), recs[i].events[n])
  {
    RunTracks(job, start, recs, i, n);
    StepsNext(EngineAt(job, start, recs, i).world, recs[i].events, n);
  }

  lemma FirstWorld(job: Job, start: Engine, recs: seq<PhaseRec>, i: nat)
    requires RunOk(job, start, recs) && i < PHASES
    ensures WorldAt(job, start, recs, i, 0) == EngineAt(job, start, recs, i).world
  {
    assert recs[i].events[..0] == [];
  }

  lemma ForeignStep(job: Job, w: World, e: Event, u: Uuid)
    requires WorldInv(w) && Legal(w, e) && e.key in job.sets && u in w.table && Foreign(job, w.table[u])
    ensures u in Step(w, e).table && Step(w, e).table[u] == w.table[u]
  {
    LegalOnTable(w, e);
  }

  lemma {:induction false} ForeignInPhase(job: Job, start: Engine, recs: seq<PhaseRec>, i: nat, n: nat, u: Uuid)
    requires RunOk(job, start, recs) && i < PHASES && n <= |recs[i].events|
    requires u in EngineAt(job, start, recs, i).world.table &&
      Foreign(job, EngineAt(job, start, recs, i).world.table[u])
    ensures u in WorldAt(job, start, recs, i, n).table
    ensures WorldAt(job, start, recs, i, n).table[u] == EngineAt(job, start, recs, i).world.table[u]
  {
    if n > 0 {
      ForeignInPhase(job, start, recs, i, n - 1, u);
      NextCall(job, start, recs, i, n - 1);
      CallIsOurs(job, start, recs, i, n - 1);
      ForeignStep(job, WorldAt(job, start, recs, i, n - 1), recs[i].events[n - 1], u);
    } else {
      FirstWorld(job, start, recs, i);
    }
  }

  lemma {:induction false} ForeignBetween(job: Job, start: Engine, recs: seq<PhaseRec>, i: nat, u: Uuid)
    requires RunOk(job, start, recs) && i <= PHASES
    requires u in start.world.table && Foreign(job, start.world.table[u])
    ensures u in EngineAt(job, start, recs, i).world.table
    ensures EngineAt(job, start, recs, i).world.table[u] == start.world.table[u]
  {
    if i > 0 {
      ForeignBetween(job, start, recs, i - 1, u);
      ForeignInPhase(job, start, recs, i - 1, |recs[i - 1].events|, u);
      NextWorld(job, start, recs, i - 1);
    }
  }

  /** A row outside the plan is byte-identical in every intermediate saved table of every run. */
  lemma ForeignUntouched(job: Job, start: Engine, recs: seq<PhaseRec>, i: nat, n: nat, u: Uuid)
    requires RunOk(job, start, recs) && i < PHASES && n <= |recs[i].events|
    requires u in start.world.table && Foreign(job, start.world.table[u])
    ensures u in WorldAt(job, start, recs, i, n).table
    ensures WorldAt(job, start, recs, i, n).table[u] == start.world.table[u]
  {
    ForeignBetween(job, start, recs, i, u);
    ForeignInPhase(job, start, recs, i, n, u);
  }

  /** Every row of t that has aliases had them at the start. */
  ghost predicate AliasesFrom(start: Table, t: Table) {
    forall u | u in t && t[u].children != [] :: u in start && start[u].children == t[u].children
  }

  lemma {:induction false} StepsKeepAliases(start: Table, w: World, tr: seq<Event>)
    requires AliasesFrom(start, w.table)
    ensures AliasesFrom(start, Steps(w, tr).table)
  {
    if tr != [] { StepsKeepAliases(start, w, tr[..|tr| - 1]); }
  }

  /** No run gives a row aliases. */
  lemma {:induction false} NoNewAliases(job: Job, start: Engine, recs: seq<PhaseRec>, i: nat)
    requires RunOk(job, start, recs) && i <= PHASES
    ensures AliasesFrom(start.world.table, EngineAt(job, start, recs, i).world.table)
  {
    hide PhaseOk, JobOk, PhaseEnd, StartOk;
    if i > 0 {
      NoNewAliases(job, start, recs, i - 1);
      NextWorld(job, start, recs, i - 1);
      StepsKeepAliases(start.world.table, EngineAt(job, start, recs, i - 1).world, recs[i - 1].events);
    }
  }

  /** A delete the engine issues never names a saved row with an enabled alias. */
  lemma NoAliasDelete(job: Job, start: Engine, recs: seq<PhaseRec>, i: nat, n: nat, u: Uuid)
    requires RunOk(job, start, recs) && i < PHASES && n < |recs[i].events|
    requires u in EngineAt(job, start, recs, i).world.table &&
      EnabledChildren(EngineAt(job, start, recs, i).world.table[u].children)
    ensures recs[i].events[n].op.Del? ==> recs[i].events[n].id != u
  {
    var e := recs[i].events[n];
    CallIsOurs(job, start, recs, i, n);
    CallFacts(job, start, recs, i, e.key, e);
    if e.op.Del? {
      SameChildren(EngineAt(job, start, recs, i).world, e.key, e.id);
    }
  }

  lemma StepKeepsChildren(w: World, e: Event, u: Uuid)
    requires WorldInv(w) && Legal(w, e) && u in w.table && (e.op.Del? ==> e.id != u)
    ensures u in Step(w, e).table && Step(w, e).table[u].children == w.table[u].children
  {
    LegalOnTable(w, e);
  }

  /**
   * A row with an enabled alias is never deleted and keeps its aliases, in every
   * intermediate saved table of every run.
   */
  lemma {:induction false} AliasParentStays(job: Job, start: Engine, recs: seq<PhaseRec>, i: nat, n: nat, u: Uuid)
    requires RunOk(job, start, recs) && i < PHASES && n <= |recs[i].events|
    requires u in start.world.table && EnabledChildren(start.world.table[u].children)
    ensures
      var t := WorldAt(job, start, recs, i, n).table;
      u in t && t[u].children == start.world.table[u].children
    decreases i, n
  {
    hide PhaseEnd, Steps, WorldInv, Legal, PhaseOk, EnabledChildren, WorldAt, Step, JobOk, Agree;
    if n > 0 {
      AliasParentStays(job, start, recs, i, 0, u);
      AliasParentStays(job, start, recs, i, n - 1, u);
      FirstWorld(job, start, recs, i);
      NextCall(job, start, recs, i, n - 1);
      NoAliasDelete(job, start, recs, i, n - 1, u);
      StepKeepsChildren(WorldAt(job, start, recs, i, n - 1), recs[i].events[n - 1], u);
    } else {
      FirstWorld(job, start, recs, i);
      if i > 0 {
        AliasParentStays(job, start, recs, i - 1, |recs[i - 1].events|, u);
        NextWorld(job, start, recs, i - 1);
      }
    }
  }

  /** Within a phase a row that was there stays filed under its key while it is there. */
  lemma {:induction false} RowKeepsKey(job: Job, start: Engine, recs: seq<PhaseRec>, i: nat, n: nat, u: Uuid, k: RowKey)
    requires RunOk(job, start, recs) && i < PHASES && n <= |recs[i].events|
    requires u < EngineAt(job, start, recs, i).world.next
    ensures EngineAt(job, start, recs, i).world.next <= WorldAt(job, start, recs, i, n).next
    ensures
      var t0, t := EngineAt(job, start, recs, i).world.table, WorldAt(job, start, recs, i, n).table;
      u in t ==> u in t0 && (VisibleAt(t0[u], k) ==> VisibleAt(t[u], k))
  {
    FirstWorld(job, start, recs, i);
    if n > 0 {
      RowKeepsKey(job, start, recs, i, n - 1, u, k);
      NextCall(job, start, recs, i, n - 1);
      LegalOnTable(WorldAt(job, start, recs, i, n - 1), recs[i].events[n - 1]);
    }
  }
}
