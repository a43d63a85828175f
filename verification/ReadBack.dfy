/** What was written comes back: a converged record set reads as the endpoint that asked for it. */
module ReadBack {
  import opened Names
  import opened Order
  import opened Rows
  import opened Table
  import opened KeyPlan
  import opened Engine
  import opened Converge
  import opened Minimal
  import opened Frame
  import opened Progress
  import opened Retries
  import opened Fold
  import opened TableSnapshot
  import opened Endpoints
  import opened Canonical

  /** No enabled alias is served at k. */
  predicate NoAliasAt(t: Table, k: RowKey) {
    forall u | u in t && Visible(t[u]) && Mapped(t[u].rr) :: AliasesAvoid(t[u], k)
  }

  predicate AliasesAvoid(r: Row, k: RowKey) {
    forall i | 0 <= i < |r.children| && IsEnabled(r.children[i].enabled) ::
      RowKey(AliasName(r, r.children[i]), r.rr) != k
  }

  /** Stored targets as the view shows them: quoted again for TXT. */
  function Shown(rr: string, targets: set<string>): set<string> {
    set t | t in targets :: if rr == TYPE_TXT then RestoreTXTQuotes(t) else t
  }

  lemma {:induction false} AliasPartsAvoid(r: Row, children: seq<Child>, k: RowKey)
    requires forall i | 0 <= i < |children| && IsEnabled(children[i].enabled) ::
      RowKey(AliasName(r, children[i]), r.rr) != k
    ensures forall p | p in AliasParts(r, children) :: p.key != k
  {
    if children != [] { AliasPartsAvoid(r, children[..|children| - 1], k); }
  }

  predicate Writable(rr: string) {
    rr == TYPE_A || rr == TYPE_AAAA || rr == TYPE_TXT
  }

  /** The parts at k are those of the visible rows of k. */
  lemma PartIsRow(t: Table, listing: seq<Row>, k: RowKey, p: Part)
    requires Listing(listing, t) && NoAliasAt(t, k) && Writable(k.rr)
    ensures p in PartsFor(Parts(listing), k) <==>
      exists u | u in At(t, k) :: p == Part(k, PublishedTarget(t[u]), ParseTTL(t[u].ttl))
  {
    hide PublishedTarget, ParseTTL, AliasName, JoinName, AliasParts, CoreOf, Parts, PartsFor;
    PartsForMembers(Parts(listing), k, p);
    PartsMembers(listing, p);
    if p in Parts(listing) && p.key == k {
      var r :| r in listing && p in RowParts(r);
      var i :| 0 <= i < |listing| && listing[i] == r;
      assert r.uuid in t && t[r.uuid] == r && AliasesAvoid(r, k);
      AliasPartsAvoid(r, r.children, k);
      assert r.uuid in At(t, k);
    }
    if u :| u in At(t, k) && p == Part(k, PublishedTarget(t[u]), ParseTTL(t[u].ttl)) {
      assert HasUuid(listing, u);
      var i :| 0 <= i < |listing| && listing[i].uuid == u;
      assert listing[i] in listing && p in RowParts(listing[i]);
    }
  }

  /** On a converged key without twins every row is as the plan wants it. */
  lemma EveryRowIsFresh(cfg: Config, set_: Desired, m: KeyRows, u: Uuid)
    requires KeyConverged(cfg, set_, m) && DistinctRowTargets(m) && u in m
    ensures BareTarget(m[u]) in set_.targets && ParseTTL(m[u].ttl) == set_.ttl
  {
    var v :| v in m && BareTarget(m[v]) == BareTarget(m[u]) && !Stale(cfg, set_, m[v], BareTarget(m[u]));
    assert u == v;
  }

  lemma {:induction false} SameTTL(ps: seq<Part>, ttl: nat)
    requires ps != [] && forall p | p in ps :: p.ttl == ttl
    ensures LeastTTL(ps) == ttl
  {
    LeastFacts(ps);
    assert ps[0] in ps;
    if LeastTTL(ps) != 0 {
      var i :| 0 <= i < |ps| && ps[i].ttl == LeastTTL(ps);
      assert ps[i] in ps;
    }
  }

  /** The shown targets of a converged key are its desired ones. */
  lemma ShownTargets(cfg: Config, set_: Desired, t: Table, listing: seq<Row>, k: RowKey)
    requires Listing(listing, t) && NoAliasAt(t, k) && Writable(k.rr) && set_.key == k
    requires KeyConverged(cfg, set_, At(t, k)) && DistinctRowTargets(At(t, k))
    ensures TargetSet(PartsFor(Parts(listing), k)) == Shown(k.rr, set_.targets)
    ensures forall p | p in PartsFor(Parts(listing), k) :: p.ttl == set_.ttl
  {
    hide Parts, PartsFor, AliasName, RestoreTXTQuotes, ParseTTL, NoAliasAt, JoinName, FieldsFor;
    var ps, m := PartsFor(Parts(listing), k), At(t, k);
    forall p | p in ps ensures p.target in Shown(k.rr, set_.targets) && p.ttl == set_.ttl {
      PartIsRow(t, listing, k, p);
      var u :| u in m && p == Part(k, PublishedTarget(t[u]), ParseTTL(t[u].ttl));
      EveryRowIsFresh(cfg, set_, m, u);
      assert BareTarget(m[u]) in set_.targets;
    }
    forall x | x in Shown(k.rr, set_.targets) ensures x in TargetSet(ps) {
      var d :| d in set_.targets && x == if k.rr == TYPE_TXT then RestoreTXTQuotes(d) else d;
      var u :| u in m && BareTarget(m[u]) == d && !Stale(cfg, set_, m[u], d);
      var p := Part(k, PublishedTarget(t[u]), ParseTTL(t[u].ttl));
      PartIsRow(t, listing, k, p);
      assert p.target == x;
    }
  }

  /**
   * A converged record set, with no two rows for one target and no alias at its name, is
   * one endpoint of the view, with its name, type, targets and TTL.
   */
  lemma ConvergedReadsBack(cfg: Config, set_: Desired, t: Table, listing: seq<Row>, k: RowKey) returns (i: nat)
    requires Listing(listing, t) && NoAliasAt(t, k) && Writable(k.rr) && set_.key == k && set_.targets != {} &&
      0 <= set_.ttl
    requires KeyConverged(cfg, set_, At(t, k)) && DistinctRowTargets(At(t, k))
    ensures i < |EndpointsOf(listing)|
    ensures EndpointsOf(listing)[i] == Endpoint(k.name, k.rr, SortedSet(Shown(k.rr, set_.targets)), set_.ttl, "")
    ensures forall j | 0 <= j < |EndpointsOf(listing)| && EndpointKey(EndpointsOf(listing)[j]) == k :: j == i
  {
    hide Parts, PartsFor, KeyConverged, DistinctRowTargets, Listing, NoAliasAt, LeastTTL, Less, KeyLess, At, Stale;
    var ps := PartsFor(Parts(listing), k);
    ShownTargets(cfg, set_, t, listing, k);
    var d :| d in set_.targets;
    assert (if k.rr == TYPE_TXT then RestoreTXTQuotes(d) else d) in TargetSet(ps);
    SameTTL(ps, set_.ttl);
    PartsForMembers(Parts(listing), k, ps[0]);
    i := EndpointOf(listing, k);
    KeysIncrease(listing);
    KeyLessIsStrictTotal();
  }

  /** Quoting the stored targets of an endpoint gives back its targets. */
  lemma ShownIsAsked(e: Endpoint)
    requires Writable(e.recordType) && (e.recordType == TYPE_TXT ==> forall t | t in e.targets :: ValidTXT(t))
    ensures Shown(e.recordType, StoredTargets(e)) == SetOf(e.targets)
  {
    if e.recordType == TYPE_TXT {
      forall x | x in Shown(e.recordType, StoredTargets(e)) ensures x in SetOf(e.targets) {
        var b :| b in StoredTargets(e) && x == RestoreTXTQuotes(b);
        var t :| t in e.targets && ValidTXT(t) && b == BareTXT(t);
        TXTRoundTrip(t);
      }
      forall t | t in e.targets ensures t in Shown(e.recordType, StoredTargets(e)) {
        TXTRoundTrip(t);
        assert BareTXT(t) in StoredTargets(e);
      }
    }
  }

  // From the start of an apply to the view after it.

  lemma AliasedIsForeign(job: Job, t: Table, u: Uuid)
    requires AliasFree(job, t) && u in t && EnabledChildren(t[u].children)
    ensures Foreign(job, t[u])
  {
    assert u in At(t, KeyOf(t[u])) <==> Visible(t[u]);
  }

  /** Aliases at the end of a run are those of rows the plan does not own, and these are as they were. */
  lemma NoAliasAtEnd(job: Job, start: Engine, recs: seq<PhaseRec>, k: RowKey)
    requires RunOk(job, start, recs) && AliasFree(job, start.world.table) && NoAliasAt(start.world.table, k)
    ensures NoAliasAt(EngineAt(job, start, recs, PHASES).world.table, k)
  {
    hide PhaseOk, JobOk, PhaseEnd, AliasName, JoinName;
    var t0, t := start.world.table, EngineAt(job, start, recs, PHASES).world.table;
    NoNewAliases(job, start, recs, PHASES);
    forall u | u in t && Visible(t[u]) && Mapped(t[u].rr) && EnabledChildren(t[u].children)
      ensures AliasesAvoid(t[u], k)
    {
      AliasedIsForeign(job, t0, u);
      ForeignBetween(job, start, recs, PHASES, u);
    }
  }

  /** Among the endpoints exactly one, the i-th, is e's record set, and it reads as e asks. */
  predicate ReadsBack(e: Endpoint, out: seq<Endpoint>, i: nat) {
    && i < |out|
    && out[i].dnsName == NormaliseName(e.dnsName) && out[i].recordType == e.recordType
    && SetOf(out[i].targets) == SetOf(e.targets) && out[i].recordTTL == ClampTTL(e.recordTTL)
    && forall j | 0 <= j < |out| && EndpointKey(out[j]) == KeyFor(e) :: j == i
  }

  /** Every name and type the plan wants starts without aliases, and without two rows for one target. */
  ghost predicate TwinFree(job: Job, t: Table, k: RowKey) {
    AliasFree(job, t) && NoAliasAt(t, k) && DistinctRowTargets(At(t, k))
  }

  /**
   * Write, then read: after an apply that folded cleanly and recorded no error, an endpoint
   * the plan wants comes back as exactly one endpoint, with its normalised name, its type,
   * its clamped TTL and its own targets, TXT quoted as it was. Asked of the table before
   * the apply: no aliases at the plan's keys or at this name, and no two rows of this key
   * with one target.
   */
  lemma WriteThenRead(cfg: Config, c: Changes, start: Engine, recs: seq<PhaseRec>, e: Endpoint, listing: seq<Row>)
      returns (i: nat)
    requires e in Wanted(c) && FoldOf(PlanDefinitions(cfg, c)).errs == []
    requires
      var job := JobOf(cfg, c);
      && RunOk(job, start, recs) && RunClean(job, start, recs) && Verified(recs)
      && TwinFree(job, start.world.table, KeyFor(e))
      && Listing(listing, EngineAt(job, start, recs, PHASES).world.table)
    ensures ReadsBack(e, EndpointsOf(listing), i)
  {
    hide PhaseEnd, RunClean, EndpointsOf, FoldOf, PlanDefinitions, NoAliasAt, Listing, PhaseOk, JobOk,
         DistinctRowTargets, AliasFree, At, KeyConverged;
    var job, k := JobOf(cfg, c), KeyFor(e);
    var t := EngineAt(job, start, recs, PHASES).world.table;
    SetFor(cfg, c, e);
    NoAliasAtEnd(job, start, recs, k);
    NilMeansConverged(job, start, recs);
    CleanKeepsDistinct(job, start, recs, k);
    i := ConvergedReadsBack(cfg, job.sets[k], t, listing, k);
  }

  /** The set a cleanly folded plan holds for a wanted endpoint, and its targets as the view shows them. */
  lemma SetFor(cfg: Config, c: Changes, e: Endpoint)
    requires e in Wanted(c) && FoldOf(PlanDefinitions(cfg, c)).errs == []
    ensures
      var sets := FoldOf(PlanDefinitions(cfg, c)).sets;
      && KeyFor(e) in sets && Writable(e.recordType)
      && var s := sets[KeyFor(e)];
      && s.key == KeyFor(e) && s.targets != {} && s.ttl == ClampTTL(e.recordTTL) && 0 <= s.ttl
      && Shown(e.recordType, s.targets) == SetOf(e.targets)
      && SplitOf(s.key.name, cfg.domains) == Split(s.host, s.domain)
  {
    hide FoldOf, PlanDefinitions, SplitOf, Shown, StoredTargets, ValidTXT;
    FoldedAsAsked(cfg, c, e);
    WantsShape(cfg, e, false);
    ShownIsAsked(e);
  }

  /** The endpoints of a list have keys of their own and something to write. */
  predicate Unrelated(es: seq<Endpoint>) {
    && (forall i, j | 0 <= i < j < |es| :: KeyFor(es[i]) != KeyFor(es[j]))
    && (forall e | e in es :: e.targets != [])
  }

  /** Nothing is saved or aliased at the names and types of a list. */
  ghost predicate Vacant(t: Table, es: seq<Endpoint>) {
    forall e | e in es :: At(t, KeyFor(e)) == map[] && NoAliasAt(t, KeyFor(e))
  }

  /** The plan that creates what the filter keeps of a list. */
  function CreatePlan(cfg: Config, es: seq<Endpoint>): Changes {
    Changes(Adjust(cfg, es), [], [], [])
  }

  lemma VacantIsTwinFree(cfg: Config, es: seq<Endpoint>, t: Table, a: Endpoint)
    requires Vacant(t, Adjust(cfg, es)) && a in Adjust(cfg, es)
    ensures TwinFree(JobOf(cfg, CreatePlan(cfg, es)), t, KeyFor(a))
  {
    hide FoldOf, PlanDefinitions, NoAliasAt, KeyFor, At;
    var job := JobOf(cfg, CreatePlan(cfg, es));
    forall k | k in job.sets ensures At(t, k) == map[] {
      var e := SetsComeFrom(cfg, CreatePlan(cfg, es), k);
    }
  }

  /**
   * Filter, apply, read: whatever list the filter is given, if what it keeps has distinct
   * names and targets and nothing is there yet, then after an apply without errors every
   * kept endpoint comes back as exactly one endpoint, just as it was kept.
   */
  lemma KeptReadsBack(cfg: Config, es: seq<Endpoint>, start: Engine, recs: seq<PhaseRec>, listing: seq<Row>,
      a: Endpoint) returns (i: nat)
    requires NormalDomains(cfg.domains) && Unrelated(Adjust(cfg, es)) && Vacant(start.world.table, Adjust(cfg, es))
    requires
      var job := JobOf(cfg, CreatePlan(cfg, es));
      && RunOk(job, start, recs) && RunClean(job, start, recs) && Verified(recs)
      && Listing(listing, EngineAt(job, start, recs, PHASES).world.table)
    requires a in Adjust(cfg, es)
    ensures ReadsBack(a, EndpointsOf(listing), i)
  {
    hide Adjust, JobOf, RunOk, RunClean, EngineAt, EndpointsOf, Vacant, TwinFree, FoldOf, PlanDefinitions;
    KeptFoldsCleanly(cfg, es);
    VacantIsTwinFree(cfg, es, start.world.table, a);
    i := WriteThenRead(cfg, CreatePlan(cfg, es), start, recs, a, listing);
  }

  // Plans the firewall accepts.

  /** A body written for a wanted endpoint is one the firewall accepts, unless it is an address with an empty target. */
  lemma BodyIsAcceptable(cfg: Config, e: Endpoint, s: Desired, t: string)
    requires NormalDomains(cfg.domains) && DefinitionOf(cfg, e, false) == Wants(s) && GoodHost(s.host) && t in s.targets
    ensures Acceptable(FieldsFor(cfg, s, t)) <==> !(IsAddress(e.recordType) && t == "")
  {
    hide NormaliseName, MatchesDomain, TTLField, ClampTTL, Printable;
    WantsShape(cfg, e, false);
    assert s.domain != "";
    if IsTXT(e.recordType) {
      assert s.targets == BareSet(e.targets);
      var x :| x in e.targets && ValidTXT(x) && BareTXT(x) == t;
    }
  }

  lemma AcceptableSet(cfg: Config, c: Changes, e: Endpoint)
    requires NormalDomains(cfg.domains) && JobOk(JobOf(cfg, c)) && FoldOf(PlanDefinitions(cfg, c)).errs == []
    requires e in Wanted(c)
    ensures KeyFor(e) in JobOf(cfg, c).sets
    ensures
      var s := JobOf(cfg, c).sets[KeyFor(e)];
      (forall t | t in s.targets :: Acceptable(FieldsFor(cfg, s, t))) <==> !(IsAddress(e.recordType) && "" in e.targets)
  {
    hide FoldOf, PlanDefinitions, Acceptable, FieldsFor, JobOk, DefinitionOf, NormalDomains, GoodHost, ValidTXT;
    FoldedAsAsked(cfg, c, e);
    FoldedSetsAreWritable(cfg, c, JobOf(cfg, c).rejected);
    var s := JobOf(cfg, c).sets[KeyFor(e)];
    forall t | t in s.targets ensures Acceptable(FieldsFor(cfg, s, t)) <==> !(IsAddress(e.recordType) && t == "") {
      BodyIsAcceptable(cfg, e, s, t);
    }
    assert IsAddress(e.recordType) ==> ("" in s.targets <==> "" in e.targets);
  }

  /**
   * An address record with an empty target is the only body a cleanly folded plan can hold
   * that the firewall turns down.
   */
  lemma FoldedIsAcceptable(cfg: Config, c: Changes)
    requires NormalDomains(cfg.domains) && JobOk(JobOf(cfg, c)) && FoldOf(PlanDefinitions(cfg, c)).errs == []
    ensures PlanAcceptable(JobOf(cfg, c)) <==> forall e | e in Wanted(c) && IsAddress(e.recordType) :: "" !in e.targets
  {
    hide FoldOf, PlanDefinitions, Acceptable, FieldsFor, Wanted, KeyFor;
    var job := JobOf(cfg, c);
    forall e | e in Wanted(c)
      ensures KeyFor(e) in job.sets
      ensures (forall t | t in job.sets[KeyFor(e)].targets :: Acceptable(FieldsFor(cfg, job.sets[KeyFor(e)], t)))
         <==> !(IsAddress(e.recordType) && "" in e.targets)
    {
      AcceptableSet(cfg, c, e);
    }
    forall k, t | k in job.sets && t in job.sets[k].targets ensures exists e :: e in Wanted(c) && KeyFor(e) == k {
      var e := SetsComeFrom(cfg, c, k);
    }
  }

  /**
   * The same against a firewall that does not misbehave: then no error is recorded unless an
   * address target is empty.
   */
  lemma FaultFreeReadsBack(cfg: Config, es: seq<Endpoint>, start: Engine, recs: seq<PhaseRec>, listing: seq<Row>,
      a: Endpoint) returns (i: nat)
    requires NormalDomains(cfg.domains) && Unrelated(Adjust(cfg, es)) && Vacant(start.world.table, Adjust(cfg, es))
    requires forall e | e in Adjust(cfg, es) && IsAddress(e.recordType) :: "" !in e.targets
    requires
      var job := JobOf(cfg, CreatePlan(cfg, es));
      RunOk(job, start, recs) && FaultFree(job, start, recs) &&
        Listing(listing, EngineAt(job, start, recs, PHASES).world.table)
    requires a in Adjust(cfg, es)
    ensures ReadsBack(a, EndpointsOf(listing), i)
  {
    hide Adjust, PhaseEnd, EndpointsOf, Vacant, FoldOf, PlanDefinitions, PhaseOk, PlanAcceptable, JobOk, AllFine,
         WorldInv, Agree, AliasFree, CleanUpTo;
    var c := CreatePlan(cfg, es);
    KeptFoldsCleanly(cfg, es);
    FoldsCleanly(PlanDefinitions(cfg, c));
    FoldedIsAcceptable(cfg, c);
    VacantIsTwinFree(cfg, es, start.world.table, a);
    AliasFreeIsWorkable(JobOf(cfg, c), start.world);
    FaultFreeIsCleanExactly(JobOf(cfg, c), start, recs);
    i := KeptReadsBack(cfg, es, start, recs, listing, a);
  }
}
