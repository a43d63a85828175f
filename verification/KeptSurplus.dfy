/**
 * One run that shows how far the gates reach: a failed update keeps the row it no longer
 * wants, that does not count as a failure of the data removes, and a registry row deleted
 * by the same plan goes all the same.
 */
module KeptSurplus {
  import opened Rows
  import opened Table
  import opened KeyPlan
  import opened Engine
  import opened Ownership
  import opened SmallRuns

  /**
   * A name with one data row and one registry row; the plan changes the data target from was
   * to wanted and deletes the registry.
   */
  datatype Case = Case(cfg: Config, data: Desired, old_: Desired, was: string, wanted: string, registry: Desired,
      claim: Desired, owner: string)

  predicate Posed(c: Case) {
    && SetOk(c.data, c.data.key) && SetOk(c.old_, c.data.key) && !IsTXT(c.data.key.rr)
    && SetOk(c.registry, c.registry.key) && SetOk(c.claim, c.registry.key) && IsTXT(c.registry.key.rr)
    && c.data.targets == {c.wanted} && c.was != c.wanted && c.registry.targets == {}
  }

  function Plan(c: Case): Job {
    Job(c.cfg, map[c.data.key := c.data, c.registry.key := c.registry], false)
  }

  function DataRow(c: Case): Row {
    SavedRow(0, FieldsFor(c.cfg, c.old_, c.was), [])
  }

  function RegistryRow(c: Case): Row {
    SavedRow(1, FieldsFor(c.cfg, c.claim, c.owner), [])
  }

  function Saved0(c: Case): Table {
    map[0 := DataRow(c), 1 := RegistryRow(c)]
  }

  function Start(c: Case): Engine {
    Engine(World(Saved0(c), map[c.data.key := [DataRow(c)], c.registry.key := [RegistryRow(c)]], 2), {}, [])
  }

  /** The update gets no answer and does not take effect; the registry row's delete succeeds. */
  function Unanswered(c: Case): Event {
    Event(c.data.key, Set(0, FieldsFor(c.cfg, c.data, c.wanted)), 0, false, false)
  }

  function Deleted(c: Case): Event {
    Event(c.registry.key, Del(1), 1, true, true)
  }

  function Recs(c: Case): seq<PhaseRec> {
    [PhaseRec([], true), PhaseRec([Unanswered(c)], true), PhaseRec([], true), PhaseRec([Deleted(c)], true)]
  }

  lemma RowsAreFiled(c: Case)
    requires Posed(c)
    ensures VisibleAt(DataRow(c), c.data.key) && VisibleAt(RegistryRow(c), c.registry.key)
    ensures BareTarget(CoreOf(DataRow(c))) == c.was && DataRow(c).uuid == 0 && RegistryRow(c).uuid == 1
    ensures !VisibleAt(DataRow(c), c.registry.key)
    ensures DataRow(c).children == [] && RegistryRow(c).children == []
  {
  }

  lemma OneRowListed(t: Table, r: Row, k: RowKey)
    requires VisibleAt(r, k) && r.uuid in t && t[r.uuid] == r && forall u | u in t && u != r.uuid :: !VisibleAt(t[u], k)
    ensures Lists([r], At(t, k))
  {
    hide VisibleAt, CoreOf;
    assert [r][0].uuid == r.uuid;
  }

  lemma NoRowListed(t: Table, k: RowKey)
    requires forall u | u in t :: !VisibleAt(t[u], k)
    ensures Lists([], At(t, k))
  {
  }

  lemma StartWorld(c: Case)
    requires Posed(c)
    ensures WorldInv(Start(c).world)
  {
    hide DataRow, RegistryRow, VisibleAt, SetOk;
    RowsAreFiled(c);
  }

  lemma StartIsOk(c: Case)
    requires Posed(c)
    ensures StartOk(Start(c))
  {
    hide DataRow, RegistryRow, CoreOf, WorldInv, SetOk, Lists, At, Visible;
    RowsAreFiled(c);
    StartWorld(c);
    var w := Start(c).world;
    forall k ensures Agree(w, k) {
      if k == c.data.key {
        OneRowListed(w.table, DataRow(c), k);
      } else if k == c.registry.key {
        OneRowListed(w.table, RegistryRow(c), k);
      } else {
        NoRowListed(w.table, k);
      }
      ListsUnique(RowsAt(w.index, k), IndexAt(w, k), At(w.table, k));
    }
  }

  /** A row whose target is not the one wanted is rewritten to carry it. */
  lemma OneRowPlan(cfg: Config, set_: Desired, r: Row, wanted: string)
    requires set_.targets == {wanted} && TargetOf(r) != wanted
    ensures AddPlan(cfg, set_, [r]) == [Set(r.uuid, FieldsFor(cfg, set_, wanted))]
  {
    hide FieldsFor, Stale, TargetOf, CoreOf;
    var rows, ts := [r], SortedTargets(set_);
    assert ts == [wanted];
    assert ts[..0] == [] && rows[..0] == [];
    assert LastWith(rows, wanted) == -1;
    assert Missing(rows, ts[..0]) == [] && Refreshes(cfg, set_, rows, ts[..0]) == [];
    assert Missing(rows, ts) == [wanted] && Refreshes(cfg, set_, rows, ts) == [];
    assert Surplus(set_, rows) == [r];
    assert CreatePart(cfg, set_, rows) == [];
  }

  /** The states between the phases. */
  function Stage(c: Case, i: nat): Engine
    requires i <= PHASES
  {
    var s := Start(c);
    if i == 0 then s
    else if i == 1 then s.(bad := [false])
    else if i == 2 then s.(failed := {c.data.key}, bad := [false, true])
    else if i == 3 then s.(failed := {c.data.key}, bad := [false, true, false])
    else Engine(Step(s.world, Deleted(c)), {c.data.key}, [false, true, false, false])
  }

  lemma PhasePlan(c: Case, i: nat, k: RowKey)
    requires Posed(c) && i < PHASES && k in Plan(c).sets && PhaseSelects(i, k)
    ensures PlanAt(Plan(c), Stage(c, i), i, k) ==
            KeyPlan(if i == DATA_ADD then [Unanswered(c).op] else if i == TXT_REMOVE then [Del(1)] else [], false)
  {
    hide DataRow, RegistryRow, FieldsFor, AddPlan, RemovePlan;
    RowsAreFiled(c);
    OneRowPlan(c.cfg, c.data, DataRow(c), c.wanted);
    NothingToAdd(c.cfg, c.registry, [RegistryRow(c)]);
    OneRowRemoved(c.registry, RegistryRow(c));
  }

  lemma QuietPhaseGoes(c: Case, i: nat)
    requires Posed(c) && (i == TXT_ADD || i == DATA_REMOVE)
    ensures PhaseOk(Plan(c), Stage(c, i), i, Recs(c)[i])
    ensures PhaseEnd(Plan(c), Stage(c, i), i, Recs(c)[i]) == Stage(c, i + 1)
  {
    hide PlanAt, PhaseOk, PhaseEnd, SetOk, Start;
    var k := if i == TXT_ADD then c.registry.key else c.data.key;
    StartBad(c);
    assert Selected(Plan(c), i) == {k};
    PhasePlan(c, i, k);
    SmallPhase(Plan(c), Stage(c, i), i, k, []);
  }

  lemma StartBad(c: Case)
    ensures Start(c).bad == [] && Start(c).failed == {}
  {
  }

  lemma UpdateGoes(c: Case)
    requires Posed(c)
    ensures PhaseOk(Plan(c), Stage(c, DATA_ADD), DATA_ADD, Recs(c)[DATA_ADD])
    ensures PhaseEnd(Plan(c), Stage(c, DATA_ADD), DATA_ADD, Recs(c)[DATA_ADD]) == Stage(c, DATA_REMOVE)
  {
    hide PlanAt, PhaseOk, PhaseEnd, SetOk, FieldsFor;
    assert Selected(Plan(c), DATA_ADD) == {c.data.key};
    PhasePlan(c, DATA_ADD, c.data.key);
    SmallPhase(Plan(c), Stage(c, DATA_ADD), DATA_ADD, c.data.key, [Unanswered(c)]);
  }

  lemma DeleteGoes(c: Case)
    requires Posed(c)
    ensures PhaseOk(Plan(c), Stage(c, TXT_REMOVE), TXT_REMOVE, Recs(c)[TXT_REMOVE])
    ensures PhaseEnd(Plan(c), Stage(c, TXT_REMOVE), TXT_REMOVE, Recs(c)[TXT_REMOVE]) == Stage(c, PHASES)
  {
    hide PlanAt, PhaseOk, PhaseEnd, SetOk, Step;
    assert Selected(Plan(c), TXT_REMOVE) == {c.registry.key};
    PhasePlan(c, TXT_REMOVE, c.registry.key);
    SmallPhase(Plan(c), Stage(c, TXT_REMOVE), TXT_REMOVE, c.registry.key, [Deleted(c)]);
  }

  lemma PhaseGoes(c: Case, i: nat)
    requires Posed(c) && i < PHASES
    ensures PhaseOk(Plan(c), Stage(c, i), i, Recs(c)[i])
    ensures PhaseEnd(Plan(c), Stage(c, i), i, Recs(c)[i]) == Stage(c, i + 1)
  {
    hide PhaseOk, PhaseEnd, Between, Plan, Posed;
    if i == DATA_ADD {
      UpdateGoes(c);
    } else if i == TXT_REMOVE {
      DeleteGoes(c);
    } else {
      QuietPhaseGoes(c, i);
    }
  }

  lemma RunGoes(c: Case, i: nat)
    requires Posed(c) && i <= PHASES
    ensures EngineAt(Plan(c), Start(c), Recs(c), i) == Stage(c, i)
  {
    hide PhaseOk, PhaseEnd, Start;
    if i > 0 {
      RunGoes(c, i - 1);
      PhaseGoes(c, i - 1);
    }
  }

  /**
   * A data key whose update went unanswered keeps the row it no longer wants, behind an
   * open last gate, while the registry row the plan deletes goes.
   */
  lemma RegistryGoesSurplusStays(c: Case)
    requires Posed(c)
    ensures RunOk(Plan(c), Start(c), Recs(c)) && Verified(Recs(c))
    ensures !Gated(EngineAt(Plan(c), Start(c), Recs(c), TXT_REMOVE), TXT_REMOVE)
    ensures
      var t := EngineAt(Plan(c), Start(c), Recs(c), PHASES).world.table;
      && At(Start(c).world.table, c.registry.key) != map[] && At(t, c.registry.key) == map[]
      && HasUndesired(c.data, At(t, c.data.key))
  {
    hide PhaseOk, PhaseEnd, StartOk, Start, Between, HasUndesired, At, SetOk;
    StartIsOk(c);
    StartBad(c);
    forall i | 0 <= i <= PHASES ensures EngineAt(Plan(c), Start(c), Recs(c), i) == Stage(c, i) { RunGoes(c, i); }
    forall i | 0 <= i < PHASES ensures PhaseOk(Plan(c), Stage(c, i), i, Recs(c)[i]) { PhaseGoes(c, i); }
    LastTables(c);
  }

  lemma LastTables(c: Case)
    requires Posed(c)
    ensures Start(c).bad == [] && !Gated(Stage(c, TXT_REMOVE), TXT_REMOVE)
    ensures
      var t := Stage(c, PHASES).world.table;
      && At(Start(c).world.table, c.registry.key) != map[] && At(t, c.registry.key) == map[]
      && HasUndesired(c.data, At(t, c.data.key))
  {
    hide DataRow, RegistryRow, FieldsFor, SetOk, CoreOf, BareTarget, VisibleAt;
    RowsAreFiled(c);
    var t := Stage(c, PHASES).world.table;
    assert t == map[0 := DataRow(c)];
    assert 0 in At(t, c.data.key);
    assert 1 in At(Start(c).world.table, c.registry.key);
  }
}
