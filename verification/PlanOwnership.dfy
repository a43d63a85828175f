/**
 * Invariant I1 read on the plan itself: which registry rows stand beside new data rows, and
 * which data rows go before registry rows, when the fold may have dropped some of them.
 */
module PlanOwnership {
  import opened Names
  import opened Rows
  import opened Table
  import opened KeyPlan
  import opened Engine
  import opened Runs
  import opened Converge
  import opened Ownership
  import opened PhaseLog
  import opened ReadBack
  import opened Progress
  import opened Fold
  import opened TableSnapshot
  import opened SmallRuns

  // When an apply creates data rows.

  /** The first row a data key without rows would get is one the firewall accepts. */
  predicate Creatable(job: Job, d: RowKey) {
    && d in job.sets && !IsTXT(d.rr) && job.sets[d].targets != {}
    && Acceptable(FieldsFor(job.cfg, job.sets[d], SortedTargets(job.sets[d])[0]))
  }

  lemma {:induction false} NobodyCarries(rows: seq<Row>, ts: seq<string>, cfg: Config, set_: Desired)
    requires rows == []
    ensures Refreshes(cfg, set_, rows, ts) == [] && Missing(rows, ts) == ts
  {
    if ts != [] {
      NobodyCarries(rows, ts[..|ts| - 1], cfg, set_);
    }
  }

  /** A key without rows gets one per target, in order. */
  lemma EmptyPlan(cfg: Config, set_: Desired)
    ensures AddPlan(cfg, set_, []) == Creates(cfg, set_, SortedTargets(set_))
  {
    NobodyCarries([], SortedTargets(set_), cfg, set_);
  }

  lemma NoRowsUnapplied(seg: seq<Event>)
    requires forall e | e in seg :: !(e.op.Add? && e.applied)
    ensures KeyAfter(map[], seg, Saved) == map[]
  {
    if seg != [] { NoRowsUnapplied(seg[..|seg| - 1]); }
  }

  lemma FirstListed(rows: seq<Row>, m: KeyRows)
    requires Lists(rows, m)
    ensures rows != [] ==> rows[0].uuid in m
  {
  }

  lemma EmptyEntry(w: World, k: RowKey)
    requires WorldInv(w) && Agree(w, k) && At(w.table, k) == map[]
    ensures RowsAt(w.index, k) == []
  {
    FirstListed(RowsAt(w.index, k), IndexAt(w, k));
  }

  /** No create of a key is applied that starts without rows and whose first body is refused. */
  lemma FirstRefused(job: Job, start: Engine, recs: seq<PhaseRec>, i: nat, d: RowKey, e: Event)
    requires RunOk(job, start, recs) && i < PHASES && At(start.world.table, d) == map[]
    requires !IsTXT(d.rr) && !Creatable(job, d) && e in Calls(recs, i, d) && e.op.Add?
    ensures !e.applied
  {
    hide PhaseOk, JobOk, PhaseEnd, WorldInv, MapOf, At, GoodIds, Acceptable;
    AddsOnlyInAddPhase(job, start, recs, i, d, e);
    CallFacts(job, start, recs, i, d, e);
    KeyFollows(job, start, recs, i, d);
    RowsFromStart(job, start, recs, i, d);
    assert Agree(start.world, d);
    EmptyEntry(start.world, d);
    EmptyPlan(job.cfg, job.sets[d]);
    var seg := Calls(recs, i, d);
    var n := CallPosition(job, start, recs, i, d, seg[0]);
    FirstAnswer(job, start, recs, i, n);
  }

  lemma FirstAnswer(job: Job, start: Engine, recs: seq<PhaseRec>, i: nat, n: nat)
    requires RunOk(job, start, recs) && i < PHASES && n < |recs[i].events|
    ensures Answered(WorldAt(job, start, recs, i, n), recs[i].events[n])
  {
    hide JobOk, StartOk, Follows, Answered;
    assert PhaseOk(job, EngineAt(job, start, recs, i), i, recs[i]);
    AnsweredAt(EngineAt(job, start, recs, i).world, recs[i].events, n);
  }

  lemma {:induction false} RefusedBetween(job: Job, start: Engine, recs: seq<PhaseRec>, i: nat, d: RowKey)
    requires RunOk(job, start, recs) && i <= PHASES && At(start.world.table, d) == map[]
    requires !IsTXT(d.rr) && !Creatable(job, d)
    ensures At(EngineAt(job, start, recs, i).world.table, d) == map[]
  {
    hide PhaseOk, JobOk, PhaseEnd, WorldInv, At, KeyAfter, Creatable;
    if i > 0 {
      RefusedBetween(job, start, recs, i - 1, d);
      KeyPhase(job, start, recs, i - 1, d);
      forall e | e in Calls(recs, i - 1, d) && e.op.Add?
        ensures !e.applied { FirstRefused(job, start, recs, i - 1, d, e); }
      NoRowsUnapplied(Calls(recs, i - 1, d));
    }
  }

  /** A name without rows gets none, unless its data key has a first body the firewall accepts. */
  lemma RefusedStaysEmpty(job: Job, start: Engine, recs: seq<PhaseRec>, i: nat, n: nat, d: RowKey)
    requires RunOk(job, start, recs) && i < PHASES && n <= |recs[i].events| && At(start.world.table, d) == map[]
    requires !IsTXT(d.rr) && !Creatable(job, d)
    ensures At(WorldAt(job, start, recs, i, n).table, d) == map[]
  {
    hide PhaseOk, JobOk, PhaseEnd, WorldInv, At, KeyAfter, Creatable;
    RefusedBetween(job, start, recs, i, d);
    RunTracks(job, start, recs, i, n);
    ProjectPrefix(recs[i].events, n, d);
    var seg := Project(recs[i].events[..n], d);
    forall e | e in seg && e.op.Add? ensures !e.applied {
      assert e in Calls(recs, i, d);
      FirstRefused(job, start, recs, i, d, e);
    }
    NoRowsUnapplied(seg);
  }

  // A run that creates an unclaimed data row.

  /** The first create of a key without rows: it takes effect and its answer is lost. */
  function FirstCreate(job: Job, d: RowKey, id: Uuid): Event
    requires d in job.sets && job.sets[d].targets != {}
  {
    Event(d, Add(FieldsFor(job.cfg, job.sets[d], SortedTargets(job.sets[d])[0])), id, false, true)
  }

  function OneCreate(e: Event): seq<PhaseRec> {
    [PhaseRec([], true), PhaseRec([e], true), PhaseRec([], true), PhaseRec([], true)]
  }

  lemma CreateFollows(job: Job, eng: Engine, d: RowKey)
    requires JobOk(job) && Creatable(job, d) && RowsAt(eng.world.index, d) == []
    ensures
      var e, plan := FirstCreate(job, d, eng.world.next), PlanAt(job, eng, DATA_ADD, d);
      && Follows(plan, d, [e]) && Errs(plan, [e]) && Answered(eng.world, e) && Legal(eng.world, e)
  {
    EmptyPlan(job.cfg, job.sets[d]);
  }

  /** Every other key idle, the run whose only call is that create. */
  lemma CreateRun(job: Job, start: Engine, d: RowKey)
    requires StartOk(start) && JobOk(job) && !job.rejected && Creatable(job, d) && RowsAt(start.world.index, d) == []
    requires forall x | x in job.sets && x != d :: Idle(job, start.world.index, x)
    ensures
      var recs := OneCreate(FirstCreate(job, d, start.world.next));
      RunOk(job, start, recs) && EngineAt(job, start, recs, DATA_ADD).world == start.world
  {
    hide Idle, AddPlan, RemovePlan, Acceptable, JobOk, WorldInv, Agree, PlanAt, PhaseOk, PhaseEnd, Follows, Errs,
         Answered, Legal, Gated, WrittenFor;
    var e := FirstCreate(job, d, start.world.next);
    var recs := OneCreate(e);
    var eng0, eng1 := EngineAt(job, start, recs, 0), EngineAt(job, start, recs, 1);
    AllIdle(job, eng0, TXT_ADD, d);
    QuietPhase(job, eng0, TXT_ADD);
    AllIdle(job, eng1, DATA_ADD, d);
    CreateFollows(job, eng1, d);
    NoGate(eng1, DATA_ADD);
    SmallPhase(job, eng1, DATA_ADD, d, [e]);
    var eng2, eng3 := EngineAt(job, start, recs, 2), EngineAt(job, start, recs, 3);
    assert eng2 == PhaseEnd(job, eng1, DATA_ADD, recs[1]);
    SameIndex(start.world, e);
    AllIdle(job, eng2, DATA_REMOVE, d);
    FailedIsIdle(job, eng2, DATA_REMOVE, d);
    QuietPhase(job, eng2, DATA_REMOVE);
    AllIdle(job, eng3, TXT_REMOVE, d);
    QuietPhase(job, eng3, TXT_REMOVE);
  }

  lemma SameIndex(w: World, e: Event)
    ensures !e.acked ==> Step(w, e).index == w.index
  {
  }

  lemma NoGate(eng: Engine, i: nat)
    requires |eng.bad| == i && (i > 0 ==> !eng.bad[i - 1])
    ensures !Gated(eng, i)
  {
  }

  lemma AllIdle(job: Job, eng: Engine, i: nat, d: RowKey)
    requires forall x | x in job.sets && x != d :: Idle(job, eng.world.index, x)
    ensures forall x | x in Selected(job, i) && x != d :: PlanAt(job, eng, i, x) == NO_CALLS
    ensures i < PHASES && !(PhaseSelects(i, d)) ==> d !in Selected(job, i)
  {
    hide Idle, PlanAt;
    forall x | x in Selected(job, i) && x != d ensures PlanAt(job, eng, i, x) == NO_CALLS { IdlePlan(job, eng, i, x); }
  }

  lemma FailedIsIdle(job: Job, eng: Engine, i: nat, d: RowKey)
    requires d in job.sets && job.sets[d].targets != {} && d in eng.failed && i > DATA_ADD
    ensures PlanAt(job, eng, i, d) == NO_CALLS
  {
  }

  /** A run in which a data row of d appears while nothing is filed at k. */
  lemma UnclaimedRun(job: Job, d: RowKey, k: RowKey) returns (start: Engine, recs: seq<PhaseRec>)
    requires JobOk(job) && !job.rejected && Creatable(job, d)
    requires IsTXT(k.rr) && (k !in job.sets || job.sets[k].targets == {})
    ensures RunOk(job, start, recs) && Verified(recs) && |recs[DATA_ADD].events| == 1
    ensures At(start.world.table, d) == map[] && At(WorldAt(job, start, recs, DATA_ADD, 1).table, d) != map[]
    ensures At(WorldAt(job, start, recs, DATA_ADD, 1).table, k) == map[]
  {
    hide AddPlan, RemovePlan, At, Acceptable, JobOk, PhaseOk, PhaseEnd, Idle, PlanAt, WorldInv, Agree, IndexOf, Step,
         KeyConverged, Legal;
    var idle := job.sets.Keys - {d};
    var q := Enumerated(Wanting(job, idle));
    var listing := SettledRows(job, q);
    assert listing + [] == listing;
    start := StartOf(listing);
    StartOfIsOk(listing);
    SettledKey(job, idle, q, [], d);
    SettledKey(job, idle, q, [], k);
    EmptyEntry(start.world, d);
    forall x | x in job.sets && x != d ensures Idle(job, start.world.index, x) { SettledIsIdle(job, idle, q, [], x); }
    var e := FirstCreate(job, d, start.world.next);
    recs := OneCreate(e);
    CreateRun(job, start, d);
    CreateFollows(job, start.(bad := [false]), d);
    OneCall(start.world, e);
    assert [e][..1] == [e];
    AtStep(start.world, e, d);
    AtStep(start.world, e, k);
    assert e.id in KeyStep(map[], e);
    WantsNothing(job, k, At(start.world.table, k));
  }

  lemma WantsNothing(job: Job, k: RowKey, m: KeyRows)
    requires k in job.sets && KeyConverged(job.cfg, job.sets[k], m) ==> job.sets[k].targets == {}
    ensures k in job.sets && KeyConverged(job.cfg, job.sets[k], m) ==> m == map[]
  {
  }

  // A run that strands a data row.

  /** The registry row with identity u goes. */
  function RowGone(t: RowKey, u: Uuid): Event {
    Event(t, Del(u), u, true, true)
  }

  function OneDelete(e: Event): seq<PhaseRec> {
    [PhaseRec([], true), PhaseRec([], true), PhaseRec([], true), PhaseRec([e], true)]
  }

  lemma DeleteFollows(job: Job, eng: Engine, t: RowKey, r: Row)
    requires t in job.sets && IsTXT(t.rr) && job.sets[t].targets == {} && r.children == []
    requires RowsAt(eng.world.index, t) == [r]
    ensures
      var e, plan := RowGone(t, r.uuid), PlanAt(job, eng, TXT_REMOVE, t);
      && Follows(plan, t, [e]) && !Errs(plan, [e]) && Answered(eng.world, e) && Legal(eng.world, e)
      && !LostEvent(TableStep(eng.world.table, e), e)
    ensures PlanAt(job, eng, TXT_ADD, t) == NO_CALLS
  {
    hide AddPlan, RemovePlan;
    NothingToAdd(job.cfg, job.sets[t], [r]);
    OneRowRemoved(job.sets[t], r);
    assert [r][0].uuid == r.uuid;
  }

  /** Every other key idle, the run whose only call is that delete. */
  lemma DeleteRun(job: Job, start: Engine, t: RowKey, r: Row)
    requires StartOk(start) && JobOk(job) && t in job.sets && IsTXT(t.rr) && job.sets[t].targets == {}
    requires RowsAt(start.world.index, t) == [r] && r.children == []
    requires forall x | x in job.sets && x != t :: Idle(job, start.world.index, x)
    ensures
      var recs := OneDelete(RowGone(t, r.uuid));
      RunOk(job, start, recs) && EngineAt(job, start, recs, TXT_REMOVE).world == start.world
  {
    hide Idle, AddPlan, RemovePlan, JobOk, WorldInv, Agree, PlanAt, PhaseOk, PhaseEnd, Follows, Errs, Answered, Legal,
         Gated, LostEvent, TableStep;
    var e := RowGone(t, r.uuid);
    var recs := OneDelete(e);
    var eng0, eng1 := EngineAt(job, start, recs, 0), EngineAt(job, start, recs, 1);
    AllIdle(job, eng0, TXT_ADD, t);
    DeleteFollows(job, eng0, t, r);
    QuietPhase(job, eng0, TXT_ADD);
    AllIdle(job, eng1, DATA_ADD, t);
    QuietPhase(job, eng1, DATA_ADD);
    var eng2, eng3 := EngineAt(job, start, recs, 2), EngineAt(job, start, recs, 3);
    AllIdle(job, eng2, DATA_REMOVE, t);
    QuietPhase(job, eng2, DATA_REMOVE);
    AllIdle(job, eng3, TXT_REMOVE, t);
    DeleteFollows(job, eng3, t, r);
    NoGate(eng3, TXT_REMOVE);
    SmallPhase(job, eng3, TXT_REMOVE, t, [e]);
  }

  lemma OneElement(rows: seq<Row>, r: Row)
    requires Distinct(rows) && r in rows && forall i | 0 <= i < |rows| :: rows[i] == r
    ensures rows == [r]
  {
    assert |rows| > 1 ==> rows[0].uuid != rows[1].uuid;
  }

  /** A row of a listing that is the only one visible at its key is the whole entry of the key. */
  lemma OnlyRow(listing: seq<Row>, j: nat, k: RowKey)
    requires Distinct(listing) && j < |listing| && VisibleAt(listing[j], k)
    requires forall i | 0 <= i < |listing| && i != j :: !VisibleAt(listing[i], k)
    ensures RowsAt(IndexOf(listing), k) == [listing[j]]
  {
    hide IndexOf, Visible, KeyOf;
    var rows := RowsAt(IndexOf(listing), k);
    IndexOfFacts(listing);
    assert listing[j] in listing;
    forall i | 0 <= i < |rows| ensures rows[i] == listing[j] {
      assert rows[i] in listing && VisibleAt(rows[i], k);
      var x :| 0 <= x < |listing| && listing[x] == rows[i];
    }
    OneElement(rows, listing[j]);
  }

  /** A data row outside the plan, filed at k. */
  function StrandedRow(id: Uuid, k: RowKey, hostname: string, domain: string): Row {
    Row(id, "1", hostname, domain, k.rr, "", "", "", "", "", "1", "", false, [])
  }

  /**
   * A run in which a row of the deleted registry key t goes while data rows stay filed at k,
   * which the plan's sets do not mention.
   */
  lemma StrandedRun(job: Job, t: RowKey, k: RowKey, hostname: string, domain: string)
      returns (start: Engine, recs: seq<PhaseRec>, u: Uuid)
    requires JobOk(job) && t in job.sets && IsTXT(t.rr) && job.sets[t].targets == {}
    requires k !in job.sets && !IsTXT(k.rr) && JoinName(hostname, domain) == k.name
    ensures RunOk(job, start, recs) && Verified(recs) && |recs[TXT_REMOVE].events| == 1
    ensures u in At(start.world.table, t) && u !in At(WorldAt(job, start, recs, TXT_REMOVE, 1).table, t)
    ensures At(WorldAt(job, start, recs, TXT_REMOVE, 1).table, k) != map[]
  {
    hide AddPlan, RemovePlan, JobOk, PhaseOk, PhaseEnd, Idle, PlanAt, WorldInv, Agree, IndexOf, Step, Legal, Wanting,
         StrandedRow;
    hide VisibleAt, SettledRows, At, IndexStep, TableStep;
    var idle := job.sets.Keys - {t};
    var q := Enumerated(Wanting(job, idle));
    WantingKeys(job, idle, q);
    var listing, r, z := StrandedListing(job, q, t, k, hostname, domain);
    start := StartOf(listing);
    StartOfIsOk(listing);
    StrandedFacts(job, q, listing, r, z, t, k);
    forall x | x in job.sets && x != t
      ensures Idle(job, start.world.index, x) { SettledIsIdle(job, idle, q, [r, z], x); }
    var e := RowGone(t, r.uuid);
    u, recs := r.uuid, OneDelete(e);
    DeleteRun(job, start, t, r);
    DeleteFollows(job, start.(bad := [false, false, false]), t, r);
    OneCall(start.world, e);
    assert [e][..1] == [e];
    AtStep(start.world, e, t);
    AtStep(start.world, e, k);
  }

  lemma WantingKeys(job: Job, idle: set<RowKey>, q: seq<Want>)
    requires forall w :: w in q <==> w in Wanting(job, idle)
    ensures forall w | w in q :: w.key in job.sets && w.key in idle
  {
  }

  lemma StrandedFacts(job: Job, q: seq<Want>, listing: seq<Row>, r: Row, z: Row, t: RowKey, k: RowKey)
    requires JobOk(job) && (forall w | w in q :: w.key in job.sets && w.key != t) && k != t && k !in job.sets
    requires listing == SettledRows(job, q) + [r, z] && Numbered(listing)
    requires forall x :: (VisibleAt(r, x) <==> x == t) && (VisibleAt(z, x) <==> x == k)
    ensures RowsAt(IndexOf(listing), t) == [r]
    ensures r.uuid in At(TableOf(listing), t) && z.uuid in At(TableOf(listing), k)
  {
    hide VisibleAt, IndexOf, FieldsFor, JobOk;
    forall i | 0 <= i < |q| ensures !VisibleAt(listing[i], t) {
      SettledElsewhere(job, q[i], i, t);
    }
    assert listing[|q|] == r && listing[|q| + 1] == z;
    OnlyRow(listing, |q|, t);
  }

  lemma SettledElsewhere(job: Job, w: Want, id: Uuid, k: RowKey)
    requires JobOk(job) && w.key in job.sets && w.key != k
    ensures !VisibleAt(SavedRow(id, FieldsFor(job.cfg, job.sets[w.key], w.target), []), k)
  {
    SettledRow(job, w, id);
  }

  /** The settled rows, one row of the registry key t, and one data row at k. */
  lemma StrandedListing(job: Job, q: seq<Want>, t: RowKey, k: RowKey, hostname: string, domain: string)
      returns (listing: seq<Row>, r: Row, z: Row)
    requires JobOk(job) && t in job.sets && k !in job.sets && !IsTXT(k.rr) && JoinName(hostname, domain) == k.name
    requires forall w | w in q :: w.key in job.sets && w.key != t
    ensures listing == SettledRows(job, q) + [r, z] && Numbered(listing)
    ensures forall x :: (VisibleAt(r, x) <==> x == t) && (VisibleAt(z, x) <==> x == k)
    ensures r.children == []
  {
    SettledRow(job, Want(t, "owner"), |q|);
    r := SavedRow(|q|, FieldsFor(job.cfg, job.sets[t], "owner"), []);
    z := StrandedRow(|q| + 1, k, hostname, domain);
    listing := SettledRows(job, q) + [r, z];
  }

  // Registry rows beside data rows.

  /** Some endpoint of e's record set is accepted, and none disagrees with it. */
  ghost predicate FoldKeeps(cfg: Config, c: Changes, e: Endpoint) {
    && !Disagree(PlanDefinitions(cfg, c), KeyFor(e))
    && exists x | x in Wanted(c) :: KeyFor(x) == KeyFor(e) && DefinitionOf(cfg, x, false).Wants?
  }

  /** The plan has a data record set to write whose targets are all ones the firewall accepts. */
  predicate CreatesData(job: Job) {
    exists d | d in job.sets :: CreatesAt(job, d)
  }

  predicate CreatesAt(job: Job, d: RowKey) {
    d in job.sets && !IsTXT(d.rr) && job.sets[d].targets != {} && "" !in job.sets[d].targets
  }

  /** The table shows a registry endpoint: a row at its name, and a row for each of its targets. */
  ghost predicate Registered(t: Table, e: Endpoint) {
    && At(t, KeyFor(e)) != map[]
    && forall x | x in StoredTargets(e) :: exists u | u in At(t, KeyFor(e)) :: BareTarget(At(t, KeyFor(e))[u]) == x
  }

  /** A point of a run at which a name has data rows that had none at the start. */
  ghost predicate NewData(job: Job, start: Engine, recs: seq<PhaseRec>, i: nat, n: nat, d: RowKey) {
    && RunOk(job, start, recs) && i < PHASES && n <= |recs[i].events| && recs[TXT_ADD].readOk
    && !IsTXT(d.rr) && At(start.world.table, d) == map[] && At(WorldAt(job, start, recs, i, n).table, d) != map[]
  }

  /** In every run, every intermediate table with a new data row shows e. */
  ghost predicate RegisteredFirst(job: Job, e: Endpoint) {
    forall start, recs, i: nat, n: nat, d ::
      NewData(job, start, recs, i, n, d) ==> Registered(WorldAt(job, start, recs, i, n).table, e)
  }

  /** The sets hold a record set with targets exactly when the fold keeps some endpoint of it that is to be written. */
  lemma KeptHasSet(cfg: Config, c: Changes, e: Endpoint)
    ensures
      var sets := FoldOf(PlanDefinitions(cfg, c)).sets;
      FoldKeeps(cfg, c, e) <==> KeyFor(e) in sets && sets[KeyFor(e)].targets != {}
  {
    hide FoldOf, PlanDefinitions, DefinitionOf, Disagree;
    var defs, k := PlanDefinitions(cfg, c), KeyFor(e);
    PlanConsistent(cfg, c);
    FoldMeans(defs, k);
    if FoldKeeps(cfg, c, e) {
      var x :| x in Wanted(c) && KeyFor(x) == k && DefinitionOf(cfg, x, false).Wants?;
      WantedIsDefined(cfg, c, x);
      WantsShape(cfg, x, false);
      assert AsksFor(defs, k, DefinitionOf(cfg, x, false).set_);
    }
    if k in FoldOf(defs).sets && FoldOf(defs).sets[k].targets != {} {
      var x := DefinedBy(cfg, c, FoldOf(defs).sets[k]);
    }
  }

  /** What the sets want of a kept registry key covers each of its endpoints, unless one is rejected. */
  lemma KeptCovers(cfg: Config, c: Changes, e: Endpoint)
    requires e in Wanted(c) && IsTXT(e.recordType) && FoldKeeps(cfg, c, e) &&
      FoldOf(PlanDefinitions(cfg, c)).rejectedTXT == {}
    ensures KeyFor(e) in FoldOf(PlanDefinitions(cfg, c)).sets
    ensures StoredTargets(e) <= FoldOf(PlanDefinitions(cfg, c)).sets[KeyFor(e)].targets
  {
    hide FoldOf, PlanDefinitions, Disagree, StoredTargets;
    var defs, k, d := PlanDefinitions(cfg, c), KeyFor(e), DefinitionOf(cfg, e, false);
    KeptHasSet(cfg, c, e);
    PlanConsistent(cfg, c);
    FoldMeans(defs, k);
    RejectedMeans(defs, k);
    WantedIsDefined(cfg, c, e);
    if d.Wants? {
      WantsShape(cfg, e, false);
      assert AsksFor(defs, k, d.set_);
    } else {
      var x :| x in Wanted(c) && KeyFor(x) == k && DefinitionOf(cfg, x, false).Wants?;
      NothingStored(e);
    }
  }

  lemma NothingStored(e: Endpoint)
    ensures e.targets == [] ==> StoredTargets(e) == {}
  {
  }

  /** The first body of a data set is one the firewall accepts exactly when none of its targets is empty. */
  lemma CreatableMeans(cfg: Config, c: Changes, d: RowKey)
    requires NormalDomains(cfg.domains) && JobOk(JobOf(cfg, c))
    ensures Creatable(JobOf(cfg, c), d) <==> CreatesAt(JobOf(cfg, c), d)
  {
    hide FoldOf, PlanDefinitions, DefinitionOf, JobOk, Acceptable, FieldsFor, NormalDomains;
    if d in JobOf(cfg, c).sets && !IsTXT(d.rr) && JobOf(cfg, c).sets[d].targets != {} {
      var s := JobOf(cfg, c).sets[d];
      PlanConsistent(cfg, c);
      FoldMeans(PlanDefinitions(cfg, c), d);
      var e := DefinedBy(cfg, c, s);
      FoldedSetsAreWritable(cfg, c, JobOf(cfg, c).rejected);
      BodyIsAcceptable(cfg, e, s, SortedTargets(s)[0]);
      DataIsAddress(cfg, e, s);
      EmptyIsFirst(s);
    }
  }

  lemma DataIsAddress(cfg: Config, e: Endpoint, s: Desired)
    requires DefinitionOf(cfg, e, false) == Wants(s) && !IsTXT(s.key.rr)
    ensures IsAddress(e.recordType)
  {
  }

  lemma EmptyIsFirst(s: Desired)
    requires s.targets != {}
    ensures SortedTargets(s)[0] == "" <==> "" in s.targets
  {
    TargetsIncrease(s);
    var ts := SortedTargets(s);
    if "" in s.targets {
      var i :| 0 <= i < |ts| && ts[i] == "";
    }
  }

  /** New data rows stand beside the kept registry rows. */
  lemma KeptIsRegistered(cfg: Config, c: Changes, e: Endpoint, start: Engine, recs: seq<PhaseRec>, i: nat, n: nat,
      d: RowKey)
    requires e in Wanted(c) && IsTXT(e.recordType) && NewData(JobOf(cfg, c), start, recs, i, n, d)
    ensures !JobOf(cfg, c).rejected && Creatable(JobOf(cfg, c), d)
    ensures FoldKeeps(cfg, c, e) ==> Registered(WorldAt(JobOf(cfg, c), start, recs, i, n).table, e)
  {
    hide FoldOf, PlanDefinitions, FoldKeeps, RunOk, WorldAt, At, StoredTargets, Creatable, BareTarget;
    var job, k := JobOf(cfg, c), KeyFor(e);
    if !Creatable(job, d) {
      RefusedStaysEmpty(job, start, recs, i, n, d);
    }
    DataNeedsRegistry(job, start, recs, i, n, d);
    if FoldKeeps(cfg, c, e) {
      KeptHasSet(cfg, c, e);
      KeptCovers(cfg, c, e);
      var x :| x in job.sets[k].targets;
    }
  }

  /**
   * Invariant I1 of a plan, creating side. In every run of the plan, every new data row
   * stands beside the rows of a registry endpoint to be written, exactly when the fold
   * keeps that endpoint's record set, or rejected some TXT definition, or the plan has no
   * data row to create. A registry endpoint dropped for a conflict, for having no targets
   * or for its name shuts no gate.
   */
  lemma RegistryFirstExactly(cfg: Config, c: Changes, e: Endpoint)
    requires NormalDomains(cfg.domains) && JobOk(JobOf(cfg, c)) && e in Wanted(c) && IsTXT(e.recordType)
    ensures RegisteredFirst(JobOf(cfg, c), e) <==>
      FoldKeeps(cfg, c, e) || JobOf(cfg, c).rejected || !CreatesData(JobOf(cfg, c))
  {
    hide FoldOf, PlanDefinitions, FoldKeeps, JobOk, PhaseOk, WorldInv, Agree, WorldAt, At, Registered, Creatable;
    var job := JobOf(cfg, c);
    forall d ensures Creatable(job, d) <==> CreatesAt(job, d) { CreatableMeans(cfg, c, d); }
    forall start, recs, i: nat, n: nat, d
      ensures NewData(job, start, recs, i, n, d) ==> !job.rejected && Creatable(job, d)
      ensures NewData(job, start, recs, i, n, d) && FoldKeeps(cfg, c, e) ==>
        Registered(WorldAt(job, start, recs, i, n).table, e)
    {
      if NewData(job, start, recs, i, n, d) { KeptIsRegistered(cfg, c, e, start, recs, i, n, d); }
    }
    if !FoldKeeps(cfg, c, e) && !job.rejected && CreatesData(job) {
      var d :| d in job.sets && CreatesAt(job, d);
      KeptHasSet(cfg, c, e);
      var start, recs := UnclaimedRun(job, d, KeyFor(e));
      UnclaimedIsNew(job, start, recs, d, e);
    }
  }

  lemma UnclaimedIsNew(job: Job, start: Engine, recs: seq<PhaseRec>, d: RowKey, e: Endpoint)
    requires RunOk(job, start, recs) && Verified(recs) && |recs[DATA_ADD].events| == 1 && !IsTXT(d.rr)
    requires At(start.world.table, d) == map[] && At(WorldAt(job, start, recs, DATA_ADD, 1).table, d) != map[]
    requires At(WorldAt(job, start, recs, DATA_ADD, 1).table, KeyFor(e)) == map[]
    ensures NewData(job, start, recs, DATA_ADD, 1, d) && !Registered(WorldAt(job, start, recs, DATA_ADD, 1).table, e)
  {
  }

  /** For an endpoint with targets, off rejections, kept means accepted and not in conflict. */
  lemma KeptWhenAccepted(cfg: Config, c: Changes, e: Endpoint)
    requires e in Wanted(c) && IsTXT(e.recordType) && e.targets != [] && !JobOf(cfg, c).rejected
    ensures FoldKeeps(cfg, c, e) <==>
      DefinitionOf(cfg, e, false).Wants? && !Disagree(PlanDefinitions(cfg, c), KeyFor(e))
  {
    hide FoldOf, PlanDefinitions, Disagree, StoredTargets;
    var defs, k := PlanDefinitions(cfg, c), KeyFor(e);
    PlanConsistent(cfg, c);
    FoldMeans(defs, k);
    RejectedMeans(defs, k);
    WantedIsDefined(cfg, c, e);
  }

  // Data rows before registry rows.

  /** A point of a run at which a row of a registry key to be deleted is gone. */
  ghost predicate RegistryGone(job: Job, start: Engine, recs: seq<PhaseRec>, i: nat, n: nat, t: RowKey, u: Uuid) {
    && RunOk(job, start, recs) && i < PHASES && n <= |recs[i].events| && recs[DATA_REMOVE].readOk
    && t in job.sets && IsTXT(t.rr) && job.sets[t].targets == {}
    && u in At(start.world.table, t) && u !in At(WorldAt(job, start, recs, i, n).table, t)
  }

  /** In every run no intermediate table that lacks a deleted registry row has a row of x left. */
  ghost predicate DataGoneFirst(job: Job, x: Endpoint) {
    forall start, recs, i: nat, n: nat, t, u ::
      RegistryGone(job, start, recs, i, n, t, u) ==> At(WorldAt(job, start, recs, i, n).table, KeyFor(x)) == map[]
  }

  /** The plan has a registry record set to delete. */
  predicate DeletesRegistry(job: Job) {
    exists t | t in job.sets :: IsTXT(t.rr) && job.sets[t].targets == {}
  }

  /** The fold takes a delete in: its name is accepted and nothing disagrees with it. */
  ghost predicate FoldDeletes(cfg: Config, c: Changes, x: Endpoint) {
    DefinitionOf(cfg, x, true).Wants? && !Disagree(PlanDefinitions(cfg, c), KeyFor(x))
  }

  lemma DeletedHasSet(cfg: Config, c: Changes, x: Endpoint)
    requires x in c.delete
    ensures
      var sets := FoldOf(PlanDefinitions(cfg, c)).sets;
      && (FoldDeletes(cfg, c, x) <==> KeyFor(x) in sets)
      && (KeyFor(x) in sets ==> sets[KeyFor(x)].targets == {})
  {
    hide FoldOf, Disagree, SplitOf, StoredTargets;
    var defs, k, d := PlanDefinitions(cfg, c), KeyFor(x), DefinitionOf(cfg, x, true);
    PlanConsistent(cfg, c);
    FoldMeans(defs, k);
    var j :| 0 <= j < |c.delete| && c.delete[j] == x;
    assert defs[j] == d;
    if d.Wants? {
      assert AsksFor(defs, k, d.set_);
    } else if k in FoldOf(defs).sets {
      PlanWants(cfg, c, Wants(FoldOf(defs).sets[k]));
    }
  }

  lemma BareJoin(s: string)
    ensures JoinName("", s) == NormaliseName(s)
  {
    assert NormaliseName("") == "";
  }

  lemma DeletedGoesFirst(cfg: Config, c: Changes, x: Endpoint, start: Engine, recs: seq<PhaseRec>, i: nat, n: nat,
      t: RowKey, u: Uuid)
    requires x in c.delete && !IsTXT(x.recordType) && RegistryGone(JobOf(cfg, c), start, recs, i, n, t, u)
    ensures DeletesRegistry(JobOf(cfg, c))
    ensures FoldDeletes(cfg, c, x) ==> At(WorldAt(JobOf(cfg, c), start, recs, i, n).table, KeyFor(x)) == map[]
  {
    hide FoldOf, PlanDefinitions, RunOk, WorldAt, At, FoldDeletes;
    DeletedHasSet(cfg, c, x);
    if FoldDeletes(cfg, c, x) {
      RegistryOutlivesData(JobOf(cfg, c), start, recs, i, n, t, u, KeyFor(x));
    }
  }

  /**
   * Invariant I1 of a plan, deleting side. In every run of the plan, no row of a deleted
   * data endpoint is left once a deleted registry row is gone, exactly when the fold takes
   * that delete in, or the plan deletes no registry rows. A data delete dropped for a
   * conflict or for its name shuts no gate.
   */
  lemma DataGoneFirstExactly(cfg: Config, c: Changes, x: Endpoint)
    requires JobOk(JobOf(cfg, c)) && x in c.delete && !IsTXT(x.recordType)
    ensures DataGoneFirst(JobOf(cfg, c), x) <==> FoldDeletes(cfg, c, x) || !DeletesRegistry(JobOf(cfg, c))
  {
    hide FoldOf, PlanDefinitions, FoldDeletes, JobOk, PhaseOk, WorldInv, Agree, WorldAt, At, JoinName, NormaliseName;
    var job := JobOf(cfg, c);
    forall start, recs, i: nat, n: nat, t, u
      ensures RegistryGone(job, start, recs, i, n, t, u) ==> DeletesRegistry(job)
      ensures RegistryGone(job, start, recs, i, n, t, u) && FoldDeletes(cfg, c, x) ==>
        At(WorldAt(job, start, recs, i, n).table, KeyFor(x)) == map[]
    {
      if RegistryGone(job, start, recs, i, n, t, u) { DeletedGoesFirst(cfg, c, x, start, recs, i, n, t, u); }
    }
    if !FoldDeletes(cfg, c, x) && DeletesRegistry(job) {
      var t :| t in job.sets && IsTXT(t.rr) && job.sets[t].targets == {};
      DeletedHasSet(cfg, c, x);
      BareJoin(x.dnsName);
      var start, recs, u := StrandedRun(job, t, KeyFor(x), "", x.dnsName);
      assert RegistryGone(job, start, recs, TXT_REMOVE, 1, t, u);
    }
  }

  // Tables that were saved.

  /** Every new data row of t stands beside the rows of every registry endpoint the fold keeps. */
  ghost predicate PlanClaimed(cfg: Config, c: Changes, t0: Table, t: Table) {
    forall d: RowKey, e | !IsTXT(d.rr) && At(t0, d) == map[] && At(t, d) != map[]
      && e in Wanted(c) && IsTXT(e.recordType) && FoldKeeps(cfg, c, e) :: Registered(t, e)
  }

  /** If a deleted registry row is gone from t, so are the rows of every data delete the fold takes in. */
  ghost predicate PlanOutlived(cfg: Config, c: Changes, t0: Table, t: Table) {
    forall k, u, x | k in JobOf(cfg, c).sets && IsTXT(k.rr) && JobOf(cfg, c).sets[k].targets == {} &&
      u in At(t0, k) && u !in At(t, k)
      && x in c.delete && !IsTXT(x.recordType) && FoldDeletes(cfg, c, x) :: At(t, KeyFor(x)) == map[]
  }

  /** Every table saved while a plan is applied keeps I1 for the endpoints that the fold keeps. */
  lemma SavedTablesKeepPlan(cfg: Config, c: Changes, start: Engine, recs: seq<PhaseRec>, before: seq<Table>,
      now: seq<Table>, j: nat)
    requires RunOk(JobOf(cfg, c), start, recs) && Witnessed(JobOf(cfg, c), start, recs, before, now) &&
      |before| <= j < |now|
    ensures recs[TXT_ADD].readOk ==> PlanClaimed(cfg, c, start.world.table, now[j])
    ensures recs[DATA_REMOVE].readOk ==> PlanOutlived(cfg, c, start.world.table, now[j])
  {
    hide FoldOf, PlanDefinitions, FoldKeeps, FoldDeletes, WorldAt, At, Registered, PhaseOk, JobOk, StartOk;
    var job, t0, t := JobOf(cfg, c), start.world.table, now[j];
    var i: nat, n: nat :| i < |recs| && n <= |recs[i].events| && WorldAt(job, start, recs, i, n).table == t;
    if recs[TXT_ADD].readOk {
      forall d: RowKey, e | !IsTXT(d.rr) && At(t0, d) == map[] && At(t, d) != map[]
        && e in Wanted(c) && IsTXT(e.recordType) && FoldKeeps(cfg, c, e)
        ensures Registered(t, e)
      {
        KeptIsRegistered(cfg, c, e, start, recs, i, n, d);
      }
    }
    if recs[DATA_REMOVE].readOk {
      forall k, u, x | k in job.sets && IsTXT(k.rr) && job.sets[k].targets == {} && u in At(t0, k) && u !in At(t, k)
        && x in c.delete && !IsTXT(x.recordType) && FoldDeletes(cfg, c, x)
        ensures At(t, KeyFor(x)) == map[]
      {
        DeletedGoesFirst(cfg, c, x, start, recs, i, n, k, u);
      }
    }
  }

  // Plans that break the order.

  lemma FoldOfThree(x: Definition, y: Definition, z: Definition)
    ensures FoldOf([x, y]) == FoldStep(FoldStep(FoldOf([]), x), y)
    ensures FoldOf([x, y, z]) == FoldStep(FoldOf([x, y]), z)
  {
    FoldNext([], x);
    FoldNext([x], y);
    FoldNext([x, y], z);
    assert [] + [x] == [x] && [x] + [y] == [x, y] && [x, y] + [z] == [x, y, z];
  }

  lemma ThreeCreates(cfg: Config, a: Endpoint, b: Endpoint, d: Endpoint)
    ensures PlanDefinitions(cfg, Changes([a, b, d], [], [], [])) ==
            [DefinitionOf(cfg, a, false), DefinitionOf(cfg, b, false), DefinitionOf(cfg, d, false)]
  {
    hide DefinitionOf;
  }

  /** Two registry endpoints that disagree are both dropped, and a data row of the same plan is created unclaimed. */
  lemma ConflictLeavesUnclaimed(cfg: Config, a: Endpoint, b: Endpoint, d: Endpoint)
    requires NormalDomains(cfg.domains) && IsTXT(a.recordType) && KeyFor(a) == KeyFor(b)
    requires DefinitionOf(cfg, a, false).Wants? && DefinitionOf(cfg, b, false).Wants?
    requires !SameSet(DefinitionOf(cfg, a, false).set_, DefinitionOf(cfg, b, false).set_)
    requires DefinitionOf(cfg, d, false).Wants? && !IsTXT(d.recordType) && "" !in d.targets
    requires SetOk(DefinitionOf(cfg, d, false).set_, KeyFor(d))
    ensures
      var job := JobOf(cfg, Changes([a, b, d], [], [], []));
      !job.rejected && !RegisteredFirst(job, a) && !RegisteredFirst(job, b)
  {
    hide DefinitionOf, SetOk, RegisteredFirst, NormalDomains, StoredTargets;
    var c := Changes([a, b, d], [], [], []);
    var x, y, z := DefinitionOf(cfg, a, false), DefinitionOf(cfg, b, false), DefinitionOf(cfg, d, false);
    ThreeCreates(cfg, a, b, d);
    WantsShape(cfg, a, false);
    WantsShape(cfg, b, false);
    WantsShape(cfg, d, false);
    FoldOfThree(x, y, z);
    var job := JobOf(cfg, c);
    assert job.sets == map[KeyFor(d) := z.set_] && !job.rejected;
    StoredPlain(cfg, d);
    assert CreatesAt(job, KeyFor(d));
    assert Wanted(c)[0] == a && Wanted(c)[1] == b;
    KeptHasSet(cfg, c, a);
    KeptHasSet(cfg, c, b);
    RegistryFirstExactly(cfg, c, a);
    RegistryFirstExactly(cfg, c, b);
  }

  lemma StoredPlain(cfg: Config, d: Endpoint)
    requires DefinitionOf(cfg, d, false).Wants? && !IsTXT(d.recordType) && "" !in d.targets
    ensures "" !in DefinitionOf(cfg, d, false).set_.targets
  {
  }

  /** A registry endpoint without targets is dropped, and a data row of the same plan is created unclaimed. */
  lemma NoTargetsLeavesUnclaimed(cfg: Config, e: Endpoint, d: Endpoint)
    requires NormalDomains(cfg.domains) && IsTXT(e.recordType) && e.targets == []
    requires DefinitionOf(cfg, d, false).Wants? && !IsTXT(d.recordType) && "" !in d.targets
    requires SetOk(DefinitionOf(cfg, d, false).set_, KeyFor(d))
    ensures
      var job := JobOf(cfg, Changes([e, d], [], [], []));
      !job.rejected && !RegisteredFirst(job, e)
  {
    hide SetOk, RegisteredFirst, NormalDomains, StoredTargets, SplitOf;
    var c := Changes([e, d], [], [], []);
    var x, z := DefinitionOf(cfg, e, false), DefinitionOf(cfg, d, false);
    assert PlanDefinitions(cfg, c) == [x, z];
    WantsShape(cfg, d, false);
    FoldOfThree(x, z, z);
    var job := JobOf(cfg, c);
    assert job.sets == map[KeyFor(d) := z.set_] && !job.rejected;
    StoredPlain(cfg, d);
    assert CreatesAt(job, KeyFor(d));
    assert Wanted(c)[0] == e;
    KeptHasSet(cfg, c, e);
    RegistryFirstExactly(cfg, c, e);
  }

  /**
   * Two deletes of one data record set with different TTLs are both dropped, and the
   * registry rows of the same plan go before its rows.
   */
  lemma ConflictLeavesStranded(cfg: Config, x: Endpoint, y: Endpoint, t: Endpoint)
    requires !IsTXT(x.recordType) && KeyFor(x) == KeyFor(y) && ClampTTL(x.recordTTL) != ClampTTL(y.recordTTL)
    requires DefinitionOf(cfg, x, true).Wants? && DefinitionOf(cfg, t, true).Wants? && IsTXT(t.recordType)
    requires SetOk(DefinitionOf(cfg, t, true).set_, KeyFor(t))
    ensures
      var job := JobOf(cfg, Changes([], [], [], [x, y, t]));
      !job.rejected && !DataGoneFirst(job, x)
  {
    hide SetOk, DataGoneFirst, StoredTargets, SplitOf;
    var c := Changes([], [], [], [x, y, t]);
    var a, b, z := DefinitionOf(cfg, x, true), DefinitionOf(cfg, y, true), DefinitionOf(cfg, t, true);
    assert PlanDefinitions(cfg, c) == [a, b, z];
    FoldOfThree(a, b, z);
    var job := JobOf(cfg, c);
    assert job.sets == map[KeyFor(t) := z.set_] && !job.rejected;
    assert c.delete[0] == x;
    DeletedHasSet(cfg, c, x);
    DataGoneFirstExactly(cfg, c, x);
  }
}
