/** The plans of a key, call by call, as the loops of addSet and removeSurplus build them. */
module PlanSteps {
  import opened Order
  import opened Rows
  import opened Table
  import opened KeyPlan
  import opened Engine
  import opened CallLog

  lemma {:induction false} RefreshesPrefix(cfg: Config, set_: Desired, rows: seq<Row>, ts: seq<string>, n: nat)
    requires n <= |ts|
    ensures Refreshes(cfg, set_, rows, ts[..n]) <= Refreshes(cfg, set_, rows, ts)
  {
    if n < |ts| {
      assert ts[..|ts| - 1][..n] == ts[..n];
      RefreshesPrefix(cfg, set_, rows, ts[..|ts| - 1], n);
    } else {
      assert ts[..n] == ts;
    }
  }

  lemma ReusesNext(cfg: Config, set_: Desired, rows: seq<Row>, missing: seq<string>, n: nat, i: nat, ops: seq<Op>)
    requires i < n <= |rows| && n <= |missing|
    ensures ops + Reuses(cfg, set_, rows, missing, i) + [Set(rows[i].uuid, FieldsFor(cfg, set_, missing[i]))] ==
            ops + Reuses(cfg, set_, rows, missing, i + 1)
    ensures ops + Reuses(cfg, set_, rows, missing, i + 1) <= ops + Reuses(cfg, set_, rows, missing, n)
  {
  }

  lemma CreatesNext(cfg: Config, set_: Desired, missing: seq<string>, i: nat, ops: seq<Op>)
    requires i < |missing|
    ensures
      var all := Creates(cfg, set_, missing);
      && ops + all[..i] + [Add(FieldsFor(cfg, set_, missing[i]))] == ops + all[..i + 1]
      && ops + all[..i + 1] <= ops + all
  {
  }

  lemma AllIndexed(rows: seq<Row>)
    ensures forall j | 0 <= j < |rows| :: HasUuid(rows, rows[j].uuid)
  {
  }

  lemma AddCut(cfg: Config, set_: Desired, rows: seq<Row>, seg: seq<Event>, ops: seq<Op>)
    requires Cut(ops, set_.key, seg) && ops <= AddPlan(cfg, set_, rows)
    ensures
      var plan := KeyPlan(AddPlan(cfg, set_, rows), false);
      Follows(plan, set_.key, seg) && Errs(plan, seg)
  {
    CutFollows(KeyPlan(AddPlan(cfg, set_, rows), false), set_.key, ops, seg);
  }

  /** Refreshing moves no target, so the surplus rows are the same before and after it. */
  lemma {:induction false} SurplusSame(set_: Desired, before: seq<Row>, now: seq<Row>)
    requires SameTargets(before, now)
    ensures SameTargets(Surplus(set_, before), Surplus(set_, now))
  {
    if now != [] {
      SurplusSame(set_, before[..|before| - 1], now[..|now| - 1]);
      SurplusLast(set_, before);
      SurplusLast(set_, now);
    }
  }

  lemma SurplusLast(set_: Desired, rows: seq<Row>)
    requires rows != []
    ensures
      var r := rows[|rows| - 1];
      Surplus(set_, rows) == if TargetOf(r) in set_.targets then Surplus(set_, rows[..|rows| - 1])
        else Surplus(set_, rows[..|rows| - 1]) + [r]
  {
  }

  predicate SameTargets(before: seq<Row>, now: seq<Row>) {
    |now| == |before| && forall j | 0 <= j < |now| ::
      now[j].uuid == before[j].uuid && TargetOf(now[j]) == TargetOf(before[j])
  }

  lemma AddPlanParts(cfg: Config, set_: Desired, rows: seq<Row>, n: nat)
    requires n == ReuseCount(set_, rows)
    ensures
      var missing, surplus := Missing(rows, SortedTargets(set_)), Surplus(set_, rows);
      var a, b := Refreshes(cfg, set_, rows, SortedTargets(set_)), Reuses(cfg, set_, surplus, missing, n);
      a <= AddPlan(cfg, set_, rows) && a + b <= AddPlan(cfg, set_, rows) &&
        AddPlan(cfg, set_, rows) == a + b + Creates(cfg, set_, missing[n..])
  {
  }

  lemma RemovePlanNext(set_: Desired, rows: seq<Row>, i: nat)
    requires i < |rows| && !RemovePlan(set_, rows[..i]).blocked
    ensures
      var p, q, r := RemovePlan(set_, rows[..i]), RemovePlan(set_, rows[..i + 1]), rows[i];
      && q == (if TargetOf(r) in set_.targets then p
               else if EnabledChildren(r.children) then KeyPlan(p.ops, true)
               else KeyPlan(p.ops + [Del(r.uuid)], false))
      && q.ops <= RemovePlan(set_, rows).ops && (q.blocked ==> RemovePlan(set_, rows) == q)
  {
    var next := rows[..i + 1];
    assert next[..i] == rows[..i] && next[i] == rows[i];
    RemovePlanPrefix(set_, rows, i + 1);
  }

  lemma {:induction false} RemovePlanPrefix(set_: Desired, rows: seq<Row>, n: nat)
    requires n <= |rows|
    ensures RemovePlan(set_, rows[..n]).ops <= RemovePlan(set_, rows).ops
    ensures RemovePlan(set_, rows[..n]).blocked ==> RemovePlan(set_, rows) == RemovePlan(set_, rows[..n])
  {
    if n < |rows| {
      assert rows[..|rows| - 1][..n] == rows[..n];
      RemovePlanPrefix(set_, rows[..|rows| - 1], n);
    } else {
      assert rows[..n] == rows;
    }
  }

  lemma LastWithNext(rows: seq<Row>, i: nat)
    requires i < |rows|
    ensures forall t :: LastWith(rows[..i + 1], t) == if TargetOf(rows[i]) == t then i else LastWith(rows[..i], t)
  {
    var next := rows[..i + 1];
    assert next[..i] == rows[..i] && next[i] == rows[i];
    forall t ensures LastWith(next, t) == if TargetOf(rows[i]) == t then i else LastWith(rows[..i], t) { }
  }

  lemma SurplusNext(set_: Desired, rows: seq<Row>, r: Row)
    ensures Surplus(set_, rows + [r]) == Surplus(set_, rows) + if TargetOf(r) in set_.targets then [] else [r]
  {
    assert (rows + [r])[..|rows|] == rows;
  }

  lemma RefreshesNext(cfg: Config, set_: Desired, rows: seq<Row>, ts: seq<string>, i: nat)
    requires i < |ts| && Increasing(Less, ts)
    ensures
      var j := LastWith(rows, ts[i]);
      Refreshes(cfg, set_, rows, ts[..i + 1]) == Refreshes(cfg, set_, rows, ts[..i])
        + if j >= 0 && Stale(cfg, set_, CoreOf(rows[j]), ts[i]) then [Set(rows[j].uuid, FieldsFor(cfg, set_, ts[i]))]
          else []
    ensures Refreshes(cfg, set_, rows, ts[..i + 1]) <= Refreshes(cfg, set_, rows, ts)
    ensures ts[i] !in ts[..i] && ts[..i + 1] == ts[..i] + [ts[i]]
  {
    assert ts[..i + 1][..i] == ts[..i];
    RefreshesPrefix(cfg, set_, rows, ts, i + 1);
    LessIsStrictTotal();
  }

  /** Rows now against rows before: no target moved, and only rows with the targets seen so far were written. */
  predicate Refreshed(before: seq<Row>, now: seq<Row>, seen: seq<string>) {
    && |now| == |before|
    && forall j | 0 <= j < |now| ::
         now[j].uuid == before[j].uuid && TargetOf(now[j]) == TargetOf(before[j]) &&
           (TargetOf(before[j]) !in seen ==> now[j] == before[j])
  }

  lemma RefreshedStart(before: seq<Row>)
    ensures Refreshed(before, before, [])
  {
  }

  lemma RefreshedMore(before: seq<Row>, now: seq<Row>, seen: seq<string>, t: string)
    requires Refreshed(before, now, seen)
    ensures Refreshed(before, now, seen + [t])
  {
  }

  lemma RefreshedNext(before: seq<Row>, now: seq<Row>, seen: seq<string>, t: string, j: nat, f: Fields)
    requires Refreshed(before, now, seen) && j < |before| && TargetOf(before[j]) == t == WriteTarget(f) && t !in seen
    ensures |now| == |before| && now[j] == before[j] && Refreshed(before, now[j := Retargeted(now[j], f)], seen + [t])
  {
  }

  /** What a desired set writes belongs to its key. */
  lemma FieldsAreWritten(cfg: Config, set_: Desired, t: string)
    requires SetOk(set_, set_.key)
    ensures WrittenFor(FieldsFor(cfg, set_, t), set_.key)
  {
  }
}
