/** The calls one record set needs in one phase (addSet and removeSurplus of internal/opnsense/apply.go). */
module KeyPlan {
  import opened Names
  import opened Order
  import opened Rows
  import opened Table

  /** The settings the write path reads. */
  datatype Config = Config(domains: seq<string>, ownerMarker: string, addPtr: bool)

  /** The target set one record set should end up with; no targets means it is deleted. */
  datatype Desired = Desired(key: RowKey, host: string, domain: string, targets: set<string>, ttl: int)

  datatype Mode = AddSet | Remove

  /** Calls in order, and whether a row with alias children stops the key after them. */
  datatype KeyPlan = KeyPlan(ops: seq<Op>, blocked: bool)

  /** The write body for one target of the set. */
  function FieldsFor(cfg: Config, set_: Desired, t: string): (f: Fields)
    ensures WriteTarget(f) == t && f.rr == set_.key.rr
  {
    var isTxt := IsTXT(set_.key.rr);
    Fields("1", set_.host, set_.domain, set_.key.rr, if isTxt then "" else t, if isTxt then t else "",
           TTLField(set_.ttl), if cfg.addPtr && !isTxt then "1" else "0", cfg.ownerMarker)
  }

  /** A row that carries a desired target but not the columns the plan wants with it. */
  predicate Stale(cfg: Config, set_: Desired, c: Core, t: string) {
    var f := FieldsFor(cfg, set_, t);
    !(ParseTTL(c.ttl) == set_.ttl && c.description == f.description && c.addPtr == f.addPtr)
  }

  function TargetOf(r: Row): string {
    BareTarget(CoreOf(r))
  }

  /** The position of the last row carrying target t, or -1: a later row overwrites an earlier one in the lookup. */
  function LastWith(rows: seq<Row>, t: string): (i: int)
    ensures -1 <= i < |rows|
    ensures i >= 0 ==> TargetOf(rows[i]) == t
    ensures i < 0 ==> forall j | 0 <= j < |rows| :: TargetOf(rows[j]) != t
  {
    if rows == [] then -1
    else if TargetOf(rows[|rows| - 1]) == t then |rows| - 1
    else LastWith(rows[..|rows| - 1], t)
  }

  /** Rows already carrying a desired target are brought into line. */
  function Refreshes(cfg: Config, set_: Desired, rows: seq<Row>, ts: seq<string>): seq<Op> {
    if ts == [] then []
    else
      var t := ts[|ts| - 1];
      var i := LastWith(rows, t);
      Refreshes(cfg, set_, rows, ts[..|ts| - 1])
      + if i >= 0 && Stale(cfg, set_, CoreOf(rows[i]), t) then [Set(rows[i].uuid, FieldsFor(cfg, set_, t))] else []
  }

  /** The desired targets no row carries. */
  function Missing(rows: seq<Row>, ts: seq<string>): seq<string> {
    if ts == [] then []
    else
      var t := ts[|ts| - 1];
      Missing(rows, ts[..|ts| - 1]) + if LastWith(rows, t) < 0 then [t] else []
  }

  /** The rows whose target the plan no longer names. */
  function Surplus(set_: Desired, rows: seq<Row>): (out: seq<Row>)
    ensures forall r :: r in out <==> r in rows && TargetOf(r) !in set_.targets
  {
    if rows == [] then []
    else
      var front, last := rows[..|rows| - 1], rows[|rows| - 1];
      assert rows == front + [last];
      Surplus(set_, front) + if TargetOf(last) in set_.targets then [] else [last]
  }

  /** The first n missing targets take over the first n surplus rows. */
  function Reuses(cfg: Config, set_: Desired, surplus: seq<Row>, missing: seq<string>, n: nat): seq<Op>
    requires n <= |surplus| && n <= |missing|
  {
    seq(n, i requires 0 <= i < n => Set(surplus[i].uuid, FieldsFor(cfg, set_, missing[i])))
  }

  function Creates(cfg: Config, set_: Desired, missing: seq<string>): seq<Op> {
    seq(|missing|, i requires 0 <= i < |missing| => Add(FieldsFor(cfg, set_, missing[i])))
  }

  function SortedTargets(set_: Desired): (ts: seq<string>)
    ensures |ts| == |set_.targets| && forall t :: t in ts <==> t in set_.targets
  {
    LessIsStrictTotal();
    SortSet(Less, set_.targets)
  }

  lemma TargetsIncrease(set_: Desired)
    ensures Increasing(Less, SortedTargets(set_))
  {
    LessIsStrictTotal();
    SortSetIncreases(Less, set_.targets);
  }

  function MissingOf(set_: Desired, rows: seq<Row>): seq<string> {
    Missing(rows, SortedTargets(set_))
  }

  function ReuseCount(set_: Desired, rows: seq<Row>): nat {
    Min(|MissingOf(set_, rows)|, |Surplus(set_, rows)|)
  }

  function RefreshPart(cfg: Config, set_: Desired, rows: seq<Row>): seq<Op> {
    Refreshes(cfg, set_, rows, SortedTargets(set_))
  }

  function ReusePart(cfg: Config, set_: Desired, rows: seq<Row>): seq<Op> {
    Reuses(cfg, set_, Surplus(set_, rows), MissingOf(set_, rows), ReuseCount(set_, rows))
  }

  function CreatePart(cfg: Config, set_: Desired, rows: seq<Row>): seq<Op> {
    Creates(cfg, set_, MissingOf(set_, rows)[ReuseCount(set_, rows)..])
  }

  /** addSet's calls: refresh, then reuse surplus rows, then create what is still missing. */
  function AddPlan(cfg: Config, set_: Desired, rows: seq<Row>): seq<Op> {
    RefreshPart(cfg, set_, rows) + ReusePart(cfg, set_, rows) + CreatePart(cfg, set_, rows)
  }

  /** removeSurplus's calls: deletes in row order, up to the first row with an enabled alias. */
  function RemovePlan(set_: Desired, rows: seq<Row>): KeyPlan {
    if rows == [] then KeyPlan([], false)
    else
      var p, r := RemovePlan(set_, rows[..|rows| - 1]), rows[|rows| - 1];
      if p.blocked || TargetOf(r) in set_.targets then p
      else if EnabledChildren(r.children) then KeyPlan(p.ops, true)
      else KeyPlan(p.ops + [Del(r.uuid)], false)
  }

  function PlanFor(cfg: Config, set_: Desired, mode: Mode, failed: bool, rows: seq<Row>): KeyPlan {
    match mode
    case AddSet => KeyPlan(AddPlan(cfg, set_, rows), false)
    case Remove =>
      if set_.targets != {} && failed then KeyPlan([], false) else RemovePlan(set_, rows)
  }

  // What the plans promise, in terms of the rows m they are made for.

  /** An add-phase call: it writes a desired target, into a stale or surplus row or as a new one. */
  ghost predicate AddOp(cfg: Config, set_: Desired, m: KeyRows, op: Op) {
    && !op.Del?
    && var t := WriteTarget(op.f);
    && t in set_.targets && op.f == FieldsFor(cfg, set_, t)
    && (op.Set? ==> op.uuid in m)
    && (op.Set? && BareTarget(m[op.uuid]) in set_.targets ==>
          BareTarget(m[op.uuid]) == t && Stale(cfg, set_, m[op.uuid], t))
    && (op.Add? || BareTarget(m[op.uuid]) !in set_.targets ==> forall u | u in m :: BareTarget(m[u]) != t)
  }

  /** A remove-phase call: it deletes a row with an undesired target and no enabled alias. */
  ghost predicate DelOp(set_: Desired, m: KeyRows, op: Op) {
    op.Del? && op.uuid in m && BareTarget(m[op.uuid]) !in set_.targets && !EnabledChildren(m[op.uuid].children)
  }

  ghost predicate DistinctTargets(ops: seq<Op>) {
    forall i, j | 0 <= i < j < |ops| && !ops[i].Del? && !ops[j].Del? :: WriteTarget(ops[i].f) != WriteTarget(ops[j].f)
  }

  ghost predicate DistinctRows(ops: seq<Op>) {
    forall i, j | 0 <= i < j < |ops| && !ops[i].Add? && !ops[j].Add? :: ops[i].uuid != ops[j].uuid
  }

  lemma NoneDistinct()
    ensures DistinctTargets([])
  {
  }

  lemma DistinctAppend(ops: seq<Op>, op: Op)
    requires !op.Del? && DistinctTargets(ops) && forall x | x in ops && !x.Del? :: WriteTarget(x.f) != WriteTarget(op.f)
    ensures DistinctTargets(ops + [op])
  {
    assert forall i | 0 <= i < |ops| :: ops[i] in ops;
  }

  lemma {:induction false} RefreshFacts(cfg: Config, set_: Desired, rows: seq<Row>, ts: seq<string>)
    requires Increasing(Less, ts)
    ensures forall op | op in Refreshes(cfg, set_, rows, ts) ::
      && op.Set? && WriteTarget(op.f) in ts && op.f == FieldsFor(cfg, set_, WriteTarget(op.f))
      && var i := LastWith(rows, WriteTarget(op.f));
      && i >= 0 && op.uuid == rows[i].uuid && Stale(cfg, set_, CoreOf(rows[i]), WriteTarget(op.f))
    ensures forall t | t in ts ::
      var i := LastWith(rows, t);
      i >= 0 && Stale(cfg, set_, CoreOf(rows[i]), t) ==>
        Set(rows[i].uuid, FieldsFor(cfg, set_, t)) in Refreshes(cfg, set_, rows, ts)
    ensures DistinctTargets(Refreshes(cfg, set_, rows, ts))
  {
    hide Less, Stale, TargetOf, CoreOf, LastWith, WriteTarget, FieldsFor, DistinctTargets;
    if ts != [] {
      var front, t := ts[..|ts| - 1], ts[|ts| - 1];
      assert ts == front + [t];
      RefreshFacts(cfg, set_, rows, front);
      LessIsStrictTotal();
      assert t !in front;
      var i := LastWith(rows, t);
      if i >= 0 {
        DistinctAppend(Refreshes(cfg, set_, rows, front), Set(rows[i].uuid, FieldsFor(cfg, set_, t)));
      }
      assert Refreshes(cfg, set_, rows, front) + [] == Refreshes(cfg, set_, rows, front);
    } else {
      NoneDistinct();
    }
  }

  lemma {:induction false} MissingFacts(rows: seq<Row>, ts: seq<string>)
    requires Increasing(Less, ts)
    ensures forall t :: t in Missing(rows, ts) <==> t in ts && LastWith(rows, t) < 0
    ensures Increasing(Less, Missing(rows, ts))
  {
    if ts != [] {
      var front, t := ts[..|ts| - 1], ts[|ts| - 1];
      assert ts == front + [t];
      MissingFacts(rows, front);
      var before := Missing(rows, front);
      assert forall i | 0 <= i < |before| :: before[i] in before;
    }
  }

  lemma {:induction false} SurplusDistinct(set_: Desired, rows: seq<Row>)
    requires Distinct(rows)
    ensures Distinct(Surplus(set_, rows))
  {
    if rows != [] {
      var front, last := rows[..|rows| - 1], rows[|rows| - 1];
      SurplusDistinct(set_, front);
      forall r | r in Surplus(set_, front) ensures r.uuid != last.uuid {
        var i :| 0 <= i < |front| && front[i] == r;
        assert rows[i].uuid != rows[|rows| - 1].uuid;
      }
    }
  }

  lemma {:induction false} RemoveFacts(set_: Desired, rows: seq<Row>, m: KeyRows)
    requires Distinct(rows)
    requires forall i | 0 <= i < |rows| :: rows[i].uuid in m && m[rows[i].uuid] == CoreOf(rows[i])
    ensures forall op | op in RemovePlan(set_, rows).ops :: DelOp(set_, m, op) && HasUuid(rows, op.uuid)
    ensures DistinctRows(RemovePlan(set_, rows).ops)
    ensures !RemovePlan(set_, rows).blocked ==>
      forall i | 0 <= i < |rows| && TargetOf(rows[i]) !in set_.targets ::
        Del(rows[i].uuid) in RemovePlan(set_, rows).ops
    ensures RemovePlan(set_, rows).blocked <==>
      exists i | 0 <= i < |rows| :: TargetOf(rows[i]) !in set_.targets && EnabledChildren(rows[i].children)
  {
    if rows != [] {
      var front, r := rows[..|rows| - 1], rows[|rows| - 1];
      RemoveFacts(set_, front, m);
      var p := RemovePlan(set_, front);
      forall op | op in p.ops ensures HasUuid(rows, op.uuid) && op.uuid != r.uuid {
        var i :| 0 <= i < |front| && front[i].uuid == op.uuid;
        assert rows[i].uuid == op.uuid;
      }
      assert HasUuid(rows, r.uuid);
      assert forall i | 0 <= i < |p.ops| :: p.ops[i] in p.ops;
    }
  }

  lemma HasRow(rows: seq<Row>, m: KeyRows, u: Uuid) returns (i: int)
    requires Lists(rows, m) && u in m
    ensures 0 <= i < |rows| && rows[i].uuid == u && CoreOf(rows[i]) == m[u]
  {
    assert HasUuid(rows, u);
    i :| 0 <= i < |rows| && rows[i].uuid == u;
  }

  lemma RefreshPartFacts(cfg: Config, set_: Desired, rows: seq<Row>, m: KeyRows, op: Op)
    requires Lists(rows, m) && op in RefreshPart(cfg, set_, rows)
    ensures op.Set? && op.uuid in m && BareTarget(m[op.uuid]) == WriteTarget(op.f)
    ensures AddOp(cfg, set_, m, op)
  {
    TargetsIncrease(set_);
    RefreshFacts(cfg, set_, rows, SortedTargets(set_));
  }

  lemma MissingHasNoRow(set_: Desired, rows: seq<Row>, m: KeyRows, t: string)
    requires Lists(rows, m) && t in MissingOf(set_, rows)
    ensures t in set_.targets && forall u | u in m :: BareTarget(m[u]) != t
  {
    TargetsIncrease(set_);
    MissingFacts(rows, SortedTargets(set_));
    forall u | u in m ensures BareTarget(m[u]) != t {
      var i := HasRow(rows, m, u);
      assert TargetOf(rows[i]) != t;
    }
  }

  lemma ReusePartFacts(cfg: Config, set_: Desired, rows: seq<Row>, m: KeyRows, i: int)
    requires Lists(rows, m) && 0 <= i < |ReusePart(cfg, set_, rows)|
    ensures
      var op := ReusePart(cfg, set_, rows)[i];
      && op.Set? && op.uuid in m && BareTarget(m[op.uuid]) !in set_.targets && AddOp(cfg, set_, m, op)
      && op.uuid == Surplus(set_, rows)[i].uuid && WriteTarget(op.f) == MissingOf(set_, rows)[i]
  {
    var t, r := MissingOf(set_, rows)[i], Surplus(set_, rows)[i];
    MissingHasNoRow(set_, rows, m, t);
    assert r in Surplus(set_, rows);
  }

  lemma CreatePartFacts(cfg: Config, set_: Desired, rows: seq<Row>, m: KeyRows, i: int)
    requires Lists(rows, m) && 0 <= i < |CreatePart(cfg, set_, rows)|
    ensures
      var op := CreatePart(cfg, set_, rows)[i];
      && op.Add? && AddOp(cfg, set_, m, op)
      && WriteTarget(op.f) == MissingOf(set_, rows)[ReuseCount(set_, rows) + i]
  {
    MissingHasNoRow(set_, rows, m, MissingOf(set_, rows)[ReuseCount(set_, rows) + i]);
  }

  /** Every call of an add plan writes one desired target, into a stale row, a surplus row or a new one. */
  lemma AddFacts(cfg: Config, set_: Desired, rows: seq<Row>, m: KeyRows, op: Op)
    requires Lists(rows, m) && op in AddPlan(cfg, set_, rows)
    ensures AddOp(cfg, set_, m, op)
  {
    InAddPlan(cfg, set_, rows, op);
    if op in RefreshPart(cfg, set_, rows) {
      RefreshPartFacts(cfg, set_, rows, m, op);
    } else if op in ReusePart(cfg, set_, rows) {
      var i :| 0 <= i < |ReusePart(cfg, set_, rows)| && ReusePart(cfg, set_, rows)[i] == op;
      ReusePartFacts(cfg, set_, rows, m, i);
    } else {
      var i :| 0 <= i < |CreatePart(cfg, set_, rows)| && CreatePart(cfg, set_, rows)[i] == op;
      CreatePartFacts(cfg, set_, rows, m, i);
    }
  }

  lemma InAddPlan(cfg: Config, set_: Desired, rows: seq<Row>, op: Op)
    ensures op in AddPlan(cfg, set_, rows) <==>
      op in RefreshPart(cfg, set_, rows) || op in ReusePart(cfg, set_, rows) || op in CreatePart(cfg, set_, rows)
  {
  }

  /** A call of an add plan that refreshes a row which carries its target already. */
  ghost predicate Refreshing(set_: Desired, m: KeyRows, op: Op) {
    op.Set? && op.uuid in m && BareTarget(m[op.uuid]) == WriteTarget(op.f) && WriteTarget(op.f) in set_.targets
  }

  /** A call of an add plan that writes its j-th missing target. */
  ghost predicate Filling(set_: Desired, rows: seq<Row>, m: KeyRows, op: Op, j: int) {
    && !op.Del? && 0 <= j < |MissingOf(set_, rows)| && WriteTarget(op.f) == MissingOf(set_, rows)[j]
    && (op.Set? ==> && j < ReuseCount(set_, rows) && op.uuid == Surplus(set_, rows)[j].uuid
                    && op.uuid in m && BareTarget(m[op.uuid]) !in set_.targets)
  }

  lemma ReuseFills(cfg: Config, set_: Desired, rows: seq<Row>, m: KeyRows, j: int)
    requires Lists(rows, m) && 0 <= j < |ReusePart(cfg, set_, rows)|
    ensures Filling(set_, rows, m, ReusePart(cfg, set_, rows)[j], j)
  {
    ReusePartFacts(cfg, set_, rows, m, j);
  }

  lemma CreateFills(cfg: Config, set_: Desired, rows: seq<Row>, m: KeyRows, j: int)
    requires Lists(rows, m) && 0 <= j < |CreatePart(cfg, set_, rows)|
    ensures Filling(set_, rows, m, CreatePart(cfg, set_, rows)[j], ReuseCount(set_, rows) + j)
  {
    CreatePartFacts(cfg, set_, rows, m, j);
  }

  lemma PartsAt(set_: Desired, rows: seq<Row>, m: KeyRows, a: seq<Op>, b: seq<Op>, c: seq<Op>, i: int)
    requires forall j | 0 <= j < |a| :: Refreshing(set_, m, a[j])
    requires forall j | 0 <= j < |b| :: Filling(set_, rows, m, b[j], j)
    requires forall j | 0 <= j < |c| :: Filling(set_, rows, m, c[j], |b| + j)
    requires 0 <= i < |a + b + c|
    ensures if i < |a| then (a + b + c)[i] == a[i] && Refreshing(set_, m, a[i])
      else Filling(set_, rows, m, (a + b + c)[i], i - |a|)
  {
  }

  /** The i-th call of an add plan: a refresh, or the writing of the next missing target. */
  lemma AddAt(cfg: Config, set_: Desired, rows: seq<Row>, m: KeyRows, i: int)
    requires Lists(rows, m) && 0 <= i < |AddPlan(cfg, set_, rows)|
    ensures
      var op, a := AddPlan(cfg, set_, rows)[i], |RefreshPart(cfg, set_, rows)|;
      if i < a then op == RefreshPart(cfg, set_, rows)[i] && Refreshing(set_, m, op)
      else Filling(set_, rows, m, op, i - a)
  {
    hide RefreshPart, CreatePart, Filling, Lists, MissingOf, Surplus;
    var a, b, c := RefreshPart(cfg, set_, rows), ReusePart(cfg, set_, rows), CreatePart(cfg, set_, rows);
    forall j | 0 <= j < |a| ensures Refreshing(set_, m, a[j]) {
      RefreshPartFacts(cfg, set_, rows, m, a[j]);
    }
    forall j | 0 <= j < |b| ensures Filling(set_, rows, m, b[j], j) {
      ReuseFills(cfg, set_, rows, m, j);
    }
    forall j | 0 <= j < |c| ensures Filling(set_, rows, m, c[j], |b| + j) {
      CreateFills(cfg, set_, rows, m, j);
    }
    PartsAt(set_, rows, m, a, b, c, i);
  }

  lemma AddPairDistinct(cfg: Config, set_: Desired, rows: seq<Row>, m: KeyRows, i: int, j: int)
    requires Lists(rows, m) && 0 <= i < j < |AddPlan(cfg, set_, rows)|
    ensures
      var x, y := AddPlan(cfg, set_, rows)[i], AddPlan(cfg, set_, rows)[j];
      !x.Del? && !y.Del? && WriteTarget(x.f) != WriteTarget(y.f) && (x.Set? && y.Set? ==> x.uuid != y.uuid)
  {
    var x, y, a := AddPlan(cfg, set_, rows)[i], AddPlan(cfg, set_, rows)[j], |RefreshPart(cfg, set_, rows)|;
    AddAt(cfg, set_, rows, m, i);
    AddAt(cfg, set_, rows, m, j);
    if j < a {
      TargetsIncrease(set_);
      RefreshFacts(cfg, set_, rows, SortedTargets(set_));
    } else if i < a {
      MissingHasNoRow(set_, rows, m, WriteTarget(y.f));
    } else {
      TargetsIncrease(set_);
      MissingFacts(rows, SortedTargets(set_));
      SurplusDistinct(set_, rows);
      LessIsStrictTotal();
    }
  }

  /** No target is written twice and no row is written twice. */
  lemma AddDistinct(cfg: Config, set_: Desired, rows: seq<Row>, m: KeyRows)
    requires Lists(rows, m)
    ensures DistinctRows(AddPlan(cfg, set_, rows)) && DistinctTargets(AddPlan(cfg, set_, rows))
  {
    var ops := AddPlan(cfg, set_, rows);
    forall i, j | 0 <= i < j < |ops| && !ops[i].Add? && !ops[j].Add? ensures ops[i].uuid != ops[j].uuid {
      AddPairDistinct(cfg, set_, rows, m, i, j);
    }
    forall i, j | 0 <= i < j < |ops| && !ops[i].Del? && !ops[j].Del?
      ensures WriteTarget(ops[i].f) != WriteTarget(ops[j].f)
    {
      AddPairDistinct(cfg, set_, rows, m, i, j);
    }
  }

  /** A desired target no row carries is written by some call. */
  lemma MissingIsWritten(cfg: Config, set_: Desired, rows: seq<Row>, m: KeyRows, t: string)
    requires Lists(rows, m) && t in MissingOf(set_, rows)
    ensures exists op | op in AddPlan(cfg, set_, rows) :: !op.Del? && WriteTarget(op.f) == t
  {
    hide RefreshPart, Refreshes, Missing, Surplus, FieldsFor, Stale, BareTarget, Lists;
    var j :| 0 <= j < |MissingOf(set_, rows)| && MissingOf(set_, rows)[j] == t;
    var n := ReuseCount(set_, rows);
    var op := if j < n then ReusePart(cfg, set_, rows)[j] else CreatePart(cfg, set_, rows)[j - n];
    if j < n {
      ReusePartFacts(cfg, set_, rows, m, j);
    } else {
      CreatePartFacts(cfg, set_, rows, m, j - n);
    }
    InAddPlan(cfg, set_, rows, op);
  }

  /** Every desired target has a row that already reads right, or a call that writes it. */
  lemma AddCovers(cfg: Config, set_: Desired, rows: seq<Row>, m: KeyRows, t: string)
    requires Lists(rows, m) && t in set_.targets
    ensures (exists u | u in m :: BareTarget(m[u]) == t && !Stale(cfg, set_, m[u], t))
         || (exists op | op in AddPlan(cfg, set_, rows) :: !op.Del? && WriteTarget(op.f) == t)
  {
    var i := LastWith(rows, t);
    if i < 0 {
      TargetsIncrease(set_);
      MissingFacts(rows, SortedTargets(set_));
      MissingIsWritten(cfg, set_, rows, m, t);
    } else if Stale(cfg, set_, CoreOf(rows[i]), t) {
      TargetsIncrease(set_);
      RefreshFacts(cfg, set_, rows, SortedTargets(set_));
      InAddPlan(cfg, set_, rows, Set(rows[i].uuid, FieldsFor(cfg, set_, t)));
    } else {
      assert rows[i].uuid in m;
    }
  }

  /** A key that has a row and wants one keeps an original row: one with a desired target, or one it reuses. */
  lemma AddKeepsOne(cfg: Config, set_: Desired, rows: seq<Row>, m: KeyRows)
    requires Lists(rows, m) && rows != [] && set_.targets != {}
    ensures (exists u | u in m :: BareTarget(m[u]) in set_.targets)
         || (exists op | op in AddPlan(cfg, set_, rows) :: op.Set?)
  {
    if TargetOf(rows[0]) in set_.targets {
      assert rows[0].uuid in m;
    } else {
      var t :| t in set_.targets;
      TargetsIncrease(set_);
      MissingFacts(rows, SortedTargets(set_));
      assert rows[0] in Surplus(set_, rows);
      if LastWith(rows, t) >= 0 {
        assert rows[LastWith(rows, t)].uuid in m;
      } else {
        assert t in MissingOf(set_, rows);
        InAddPlan(cfg, set_, rows, ReusePart(cfg, set_, rows)[0]);
      }
    }
  }
}
