/** What a stretch of calls of one apply has in common, and how it follows a plan. */
module CallLog {
  import opened Rows
  import opened Table
  import opened KeyPlan
  import opened Engine
  import opened Fold

  /** An acknowledged write and, in its operation, what the table must show for it. */
  datatype WriteRecord = WriteRecord(key: RowKey, op: Op, uuid: Uuid)

  datatype ApplyError = FoldFailed(why: FoldError) | WriteFailed(key: RowKey) | AliasBlocked(key: RowKey, uuid: Uuid)
                      | Lost(write: WriteRecord) | ReloadFailed

  function Records(seg: seq<Event>): seq<WriteRecord> {
    if seg == [] then []
    else
      var e := seg[|seg| - 1];
      Records(seg[..|seg| - 1]) + if e.acked then [WriteRecord(e.key, e.op, e.id)] else []
  }

  lemma RecordsStep(seg: seq<Event>, e: Event)
    ensures Records(seg + [e]) == Records(seg) + if e.acked then [WriteRecord(e.key, e.op, e.id)] else []
  {
    assert (seg + [e])[..|seg|] == seg;
  }

  lemma {:induction false} RecordsConcat(a: seq<Event>, b: seq<Event>)
    ensures Records(a + b) == Records(a) + Records(b)
  {
    if b == [] {
      assert a + b == a;
    } else {
      assert (a + b)[..|a + b| - 1] == a + b[..|b| - 1];
      RecordsConcat(a, b[..|b| - 1]);
    }
  }

  // What the calls of a stretch have in common.

  /** The firewall answered every call of seg, and every one of them fine if it was quiet. */
  ghost predicate Heard(w: World, seg: seq<Event>, quiet: bool) {
    AllAnswered(w, seg) && (quiet ==> AllFine(w, seg))
  }

  lemma HeardStep(w: World, seg: seq<Event>, e: Event, quiet: bool)
    requires Heard(w, seg, quiet) && Answered(Steps(w, seg), e) && (quiet ==> Fine(Steps(w, seg).table, e))
    ensures Heard(w, seg + [e], quiet)
  {
    hide Answered, Fine, Steps;
    var all := seg + [e];
    forall n: nat | n < |all| ensures AnsweredHere(w, all, n) && (quiet ==> FineHere(w, all, n)) {
      assert all[..n] == seg[..n];
      if n < |seg| {
        AnsweredAt(w, seg, n);
        if quiet { FineAt(w, seg, n); }
      } else {
        assert seg[..n] == seg;
      }
    }
  }

  lemma HeardConcat(w: World, a: seq<Event>, b: seq<Event>, quiet: bool)
    requires Heard(w, a, quiet) && Heard(Steps(w, a), b, quiet)
    ensures Heard(w, a + b, quiet)
  {
    hide Answered, Fine, Steps;
    var all := a + b;
    forall n: nat | n < |all| ensures AnsweredHere(w, all, n) && (quiet ==> FineHere(w, all, n)) {
      if n < |a| {
        assert all[..n] == a[..n];
        AnsweredAt(w, a, n);
        if quiet { FineAt(w, a, n); }
      } else {
        assert all[..n] == a + b[..n - |a|];
        StepsConcat(w, a, b[..n - |a|]);
        AnsweredAt(Steps(w, a), b, n - |a|);
        if quiet { FineAt(Steps(w, a), b, n - |a|); }
      }
    }
  }

  /** seg is the calls of ops on k, all of them acknowledged. */
  predicate Done(ops: seq<Op>, k: RowKey, seg: seq<Event>) {
    |seg| == |ops| && forall i | 0 <= i < |seg| :: IsCall(ops[i], k, seg[i]) && seg[i].acked
  }

  /** seg is the calls of ops on k, and the last one was not acknowledged. */
  predicate Cut(ops: seq<Op>, k: RowKey, seg: seq<Event>) {
    && |seg| == |ops| > 0
    && (forall i | 0 <= i < |seg| :: IsCall(ops[i], k, seg[i]))
    && (forall i | 0 <= i < |seg| - 1 :: seg[i].acked)
    && !seg[|seg| - 1].acked
  }

  /** e is a call of op on k. */
  predicate IsCall(op: Op, k: RowKey, e: Event) {
    e.key == k && e.op == op && (op.Add? || e.id == op.uuid)
  }

  /**
   * The error a key's converge returns: its last call was not acknowledged, or all were and
   * an alias blocks the next delete.
   */
  predicate Explains(err: ApplyError, k: RowKey, seg: seq<Event>) {
    match err
    case WriteFailed(key) => key == k && seg != [] && !seg[|seg| - 1].acked
    case AliasBlocked(key, _) => key == k && (seg == [] || seg[|seg| - 1].acked)
    case _ => false
  }

  lemma CutExplains(ops: seq<Op>, k: RowKey, seg: seq<Event>)
    requires Cut(ops, k, seg)
    ensures Explains(WriteFailed(k), k, seg)
  {
  }

  lemma DoneExplains(ops: seq<Op>, k: RowKey, seg: seq<Event>, u: Uuid)
    requires Done(ops, k, seg)
    ensures Explains(AliasBlocked(k, u), k, seg)
  {
  }

  lemma DoneFollows(plan: KeyPlan, k: RowKey, seg: seq<Event>)
    requires Done(plan.ops, k, seg)
    ensures Follows(plan, k, seg) && (Errs(plan, seg) <==> plan.blocked)
  {
  }

  lemma CutFollows(plan: KeyPlan, k: RowKey, ops: seq<Op>, seg: seq<Event>)
    requires Cut(ops, k, seg) && ops <= plan.ops
    ensures Follows(plan, k, seg) && Errs(plan, seg)
  {
  }

  lemma StepDone(ops: seq<Op>, k: RowKey, seg: seq<Event>, op: Op, e: Event)
    requires Done(ops, k, seg) && IsCall(op, k, e)
    ensures if e.acked then Done(ops + [op], k, seg + [e]) else Cut(ops + [op], k, seg + [e])
  {
  }

  // What was saved on the way.

  /** t is the saved table after some of the calls of seg. */
  ghost predicate OnPath(t: Table, w: World, seg: seq<Event>) {
    exists n | 0 <= n <= |seg| :: Steps(w, seg[..n]).table == t
  }

  /** Every table saved since before is one the calls of seg pass through. */
  ghost predicate Path(before: seq<Table>, now: seq<Table>, w: World, seg: seq<Event>) {
    before <= now && forall j | |before| <= j < |now| :: OnPath(now[j], w, seg)
  }

  lemma PathOn(w: World, seg: seq<Event>, e: Event, t: Table)
    requires OnPath(t, w, seg) || t == Step(Steps(w, seg), e).table
    ensures OnPath(t, w, seg + [e])
  {
    var all := seg + [e];
    if OnPath(t, w, seg) {
      var n :| 0 <= n <= |seg| && Steps(w, seg[..n]).table == t;
      assert all[..n] == seg[..n];
    } else {
      StepsStep(w, seg, e);
      assert all[..|all|] == all;
    }
  }

  lemma PathStep(before: seq<Table>, mid: seq<Table>, now: seq<Table>, w: World, seg: seq<Event>, e: Event)
    requires Path(before, mid, w, seg) && Between(mid, now, Steps(w, seg).table, Step(Steps(w, seg), e).table)
    ensures Path(before, now, w, seg + [e])
  {
    forall j | |before| <= j < |now| ensures OnPath(now[j], w, seg + [e]) {
      if now[j] == Steps(w, seg).table { assert seg[..|seg|] == seg; }
      PathOn(w, seg, e, now[j]);
    }
  }

  lemma PathConcat(before: seq<Table>, mid: seq<Table>, now: seq<Table>, w: World, a: seq<Event>, b: seq<Event>)
    requires Path(before, mid, w, a) && Path(mid, now, Steps(w, a), b)
    ensures Path(before, now, w, a + b)
  {
    var all := a + b;
    forall j | |before| <= j < |now| ensures OnPath(now[j], w, all) {
      if j < |mid| {
        assert now[j] == mid[j];
        var n :| 0 <= n <= |a| && Steps(w, a[..n]).table == now[j];
        assert all[..n] == a[..n];
      } else {
        var n :| 0 <= n <= |b| && Steps(Steps(w, a), b[..n]).table == now[j];
        assert all[..|a| + n] == a + b[..n];
        StepsConcat(w, a, b[..n]);
      }
    }
  }

  /** A point of an apply: the pair, the faults so far, the writes recorded in the phase and what has been saved. */
  datatype Mark = Mark(pair: World, struck: nat, writes: seq<WriteRecord>, history: seq<Table>)

  lemma LegalSet(w: World, k: RowKey, u: Uuid, f: Fields, e: Event)
    requires IsCall(Set(u, f), k, e) && HasUuid(RowsAt(w.index, k), u) && WrittenFor(f, k)
    ensures Legal(w, e)
  {
  }

  lemma LegalAdd(w: World, k: RowKey, f: Fields, e: Event)
    requires IsCall(Add(f), k, e) && Answered(w, e) && WrittenFor(f, k)
    ensures Legal(w, e)
  {
  }

  lemma LegalDel(w: World, k: RowKey, u: Uuid, e: Event)
    requires IsCall(Del(u), k, e) && HasUuid(RowsAt(w.index, k), u)
    ensures Legal(w, e)
    ensures forall v | HasUuid(RowsAt(w.index, k), v) && v != u :: HasUuid(RowsAt(Step(w, e).index, k), v)
  {
    var rows := RowsAt(w.index, k);
    forall v | HasUuid(rows, v) && v != u ensures HasUuid(Without(rows, u), v) {
      var i :| 0 <= i < |rows| && rows[i].uuid == v;
      assert rows[i] in Without(rows, u);
    }
  }

  lemma Extend(w: World, seg: seq<Event>, e: Event, quiet: bool, quiet': bool, pre: seq<WriteRecord>)
    requires WorldInv(Steps(w, seg)) && Legal(Steps(w, seg), e)
    requires Heard(w, seg, quiet) && Answered(Steps(w, seg), e) && (quiet' ==> quiet && Fine(Steps(w, seg).table, e))
    ensures Steps(w, seg + [e]) == Step(Steps(w, seg), e) && WorldInv(Steps(w, seg + [e])) &&
      Heard(w, seg + [e], quiet')
    ensures pre + Records(seg + [e]) == pre + Records(seg) + if e.acked then [WriteRecord(e.key, e.op, e.id)] else []
  {
    hide Step, Answered, Fine, Legal, WorldInv, Heard;
    StepsStep(w, seg, e);
    WorldStep(Steps(w, seg), e);
    HeardWeaker(w, seg, quiet, quiet');
    HeardStep(w, seg, e, quiet');
    RecordsStep(seg, e);
  }

  lemma HeardWeaker(w: World, seg: seq<Event>, quiet: bool, quiet': bool)
    requires Heard(w, seg, quiet) && (quiet' ==> quiet)
    ensures Heard(w, seg, quiet')
  {
  }

  lemma NothingDone(k: RowKey)
    ensures Done([], k, []) && forall set_ :: RemovePlan(set_, []) == KeyPlan([], false)
  {
  }
}
