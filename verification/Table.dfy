/** The saved table, the provider's index of it, and what one write call does to each. */
module Table {
  import opened Rows

  type Table = map<Uuid, Row>
  type Index = map<RowKey, seq<Row>>

  /** The rows of one record set, as the apply path sees them. */
  type KeyRows = map<Uuid, Core>

  datatype Op = Add(f: Fields) | Set(uuid: Uuid, f: Fields) | Del(uuid: Uuid)

  /**
   * One write call of the client: the record set it was issued for, the row it concerns
   * (a new identity for an add), whether the firewall acknowledged it and whether the
   * saved table took it. The two flags are independent: a lost write is acknowledged and
   * not applied, a lost response is applied and not acknowledged.
   */
  datatype Event = Event(key: RowKey, op: Op, id: Uuid, acked: bool, applied: bool)

  // The saved table.

  function OrDefault(v: string, d: string): string {
    if v == "" then d else v
  }

  function SavedRow(id: Uuid, f: Fields, children: seq<Child>): Row {
    Row(id, OrDefault(f.enabled, "1"), f.hostname, f.domain, f.rr, f.server, f.txtData, "", "",
        f.ttl, OrDefault(f.addPtr, "1"), f.description, false, children)
  }

  /** The committed effect of an operation on the row it concerns. */
  function Commit(t: Table, op: Op, id: Uuid): Table {
    match op
    case Add(f) => t[id := SavedRow(id, f, [])]
    case Set(_, f) => if id in t then t[id := SavedRow(id, f, t[id].children)] else t
    case Del(_) => t - {id}
  }

  function TableStep(t: Table, e: Event): Table {
    if e.applied then Commit(t, e.op, e.id) else t
  }

  /** The visible rows of one key. */
  function At(t: Table, k: RowKey): KeyRows {
    map u | u in t && VisibleAt(t[u], k) :: CoreOf(t[u])
  }

  /** What was saved meanwhile is what was saved before or after: nothing in between. */
  predicate Between(before: seq<Table>, now: seq<Table>, t: Table, t2: Table) {
    before <= now && forall j | |before| <= j < |now| :: now[j] == t || now[j] == t2
  }

  // The index.

  function RowsAt(index: Index, k: RowKey): seq<Row> {
    if k in index then index[k] else []
  }

  function IndexRow(id: Uuid, f: Fields): Row {
    Row(id, f.enabled, f.hostname, f.domain, f.rr, f.server, f.txtData, "", "",
        f.ttl, f.addPtr, f.description, false, [])
  }

  function Retargeted(r: Row, f: Fields): Row {
    r.(hostname := f.hostname, domain := f.domain, rr := f.rr, server := f.server,
       txtData := f.txtData, ttl := f.ttl, addPtr := f.addPtr, description := f.description)
  }

  function RetargetIn(rows: seq<Row>, u: Uuid, f: Fields): seq<Row> {
    seq(|rows|, i requires 0 <= i < |rows| => if rows[i].uuid == u then Retargeted(rows[i], f) else rows[i])
  }

  function Without(rows: seq<Row>, u: Uuid): (out: seq<Row>)
    ensures forall r :: r in out <==> r in rows && r.uuid != u
  {
    if rows == [] then []
    else
      var front, last := rows[..|rows| - 1], rows[|rows| - 1];
      assert rows == front + [last];
      Without(front, u) + if last.uuid == u then [] else [last]
  }

  /** What an acknowledged call does to the index entry of its key. */
  function RowsStep(rows: seq<Row>, e: Event): seq<Row> {
    match e.op
    case Add(f) => rows + [IndexRow(e.id, f)]
    case Set(_, f) => RetargetIn(rows, e.id, f)
    case Del(_) => Without(rows, e.id)
  }

  function IndexStep(index: Index, e: Event): Index {
    if e.acked then index[e.key := RowsStep(RowsAt(index, e.key), e)] else index
  }

  /** An index entry lists the rows of m, each once. */
  ghost predicate Lists(rows: seq<Row>, m: KeyRows) {
    && Distinct(rows)
    && (forall i | 0 <= i < |rows| :: rows[i].uuid in m && m[rows[i].uuid] == CoreOf(rows[i]))
    && (forall u | u in m :: HasUuid(rows, u))
  }

  /** An index entry as rows by identity. */
  ghost function MapOf(rows: seq<Row>): (m: KeyRows)
    requires Distinct(rows)
    ensures Lists(rows, m)
  {
    var m := map i | 0 <= i < |rows| :: rows[i].uuid := CoreOf(rows[i]);
    assert forall u | u in m :: HasUuid(rows, u);
    m
  }

  // One record set.

  /** The effect of an operation on the rows of its own key. */
  function KeyStep(m: KeyRows, e: Event): KeyRows {
    match e.op
    case Add(f) => m[e.id := CoreNew(f)]
    case Set(_, f) => if e.id in m then m[e.id := CoreWrite(m[e.id], f)] else m
    case Del(_) => m - {e.id}
  }

  /** Which of a call's two effects a replay follows: the saved table's or the index's. */
  datatype View = Saved | Indexed

  predicate Counts(v: View, e: Event) {
    match v
    case Saved => e.applied
    case Indexed => e.acked
  }

  /** The rows of a key after its calls, in the saved table or in the index. */
  function KeyAfter(m: KeyRows, seg: seq<Event>, v: View): KeyRows {
    if seg == [] then m
    else
      var before, e := KeyAfter(m, seg[..|seg| - 1], v), seg[|seg| - 1];
      if Counts(v, e) then KeyStep(before, e) else before
  }

  /** The calls of one key, in order. */
  function Project(tr: seq<Event>, k: RowKey): (seg: seq<Event>)
    ensures |seg| <= |tr|
  {
    if tr == [] then []
    else Project(tr[..|tr| - 1], k) + if tr[|tr| - 1].key == k then [tr[|tr| - 1]] else []
  }

  // The pair.

  /** The saved table, the provider's index and the next identity the firewall will hand out. */
  datatype World = World(table: Table, index: Index, next: Uuid)

  predicate WrittenFor(f: Fields, k: RowKey) {
    FieldsKey(f) == k && f.enabled == "1" && f.addPtr != ""
  }

  /** A call the apply path can issue: it names a row indexed under the key it works on. */
  predicate Legal(w: World, e: Event) {
    match e.op
    case Add(f) => w.next <= e.id && WrittenFor(f, e.key)
    case Set(u, f) => u == e.id && HasUuid(RowsAt(w.index, e.key), u) && WrittenFor(f, e.key)
    case Del(u) => u == e.id && HasUuid(RowsAt(w.index, e.key), u)
  }

  function Step(w: World, e: Event): World {
    World(TableStep(w.table, e), IndexStep(w.index, e), if e.op.Add? then e.id + 1 else w.next)
  }

  function Steps(w: World, tr: seq<Event>): World {
    if tr == [] then w else Step(Steps(w, tr[..|tr| - 1]), tr[|tr| - 1])
  }

  /** An index row agrees with the saved row of the same identity on where it is filed and on its aliases. */
  ghost predicate FiledRight(t: Table, r: Row, k: RowKey) {
    VisibleAt(r, k) && (r.uuid in t ==> VisibleAt(t[r.uuid], k) && t[r.uuid].children == r.children)
  }

  ghost predicate WorldInv(w: World) {
    && (forall u | u in w.table :: w.table[u].uuid == u && u < w.next)
    && (forall k | k in w.index :: Distinct(w.index[k]))
    && (forall k, i | k in w.index && 0 <= i < |w.index[k]| ::
          w.index[k][i].uuid < w.next && FiledRight(w.table, w.index[k][i], k))
  }

  /** The index's rows of a key. */
  ghost function IndexAt(w: World, k: RowKey): KeyRows
    requires WorldInv(w)
  {
    MapOf(RowsAt(w.index, k))
  }

  /** The index of a key lists exactly the saved rows of that key. */
  ghost predicate Agree(w: World, k: RowKey)
    requires WorldInv(w)
  {
    IndexAt(w, k) == At(w.table, k)
  }

  // Lists and maps.

  lemma RetargetedCore(r: Row, f: Fields)
    ensures CoreOf(Retargeted(r, f)) == CoreWrite(CoreOf(r), f) && Retargeted(r, f).uuid == r.uuid
  {
  }

  lemma ListsRetarget(rows: seq<Row>, m: KeyRows, u: Uuid, f: Fields)
    requires Lists(rows, m)
    ensures Lists(RetargetIn(rows, u, f), if u in m then m[u := CoreWrite(m[u], f)] else m)
  {
    hide CoreOf, CoreWrite, Retargeted;
    var out := RetargetIn(rows, u, f);
    forall i | 0 <= i < |rows|
      ensures out[i].uuid == rows[i].uuid
      ensures CoreOf(out[i]) == if rows[i].uuid == u then CoreWrite(CoreOf(rows[i]), f) else CoreOf(rows[i])
    {
      RetargetedCore(rows[i], f);
    }
    forall v | HasUuid(rows, v) ensures HasUuid(out, v) {
      var i :| 0 <= i < |rows| && rows[i].uuid == v;
      assert out[i].uuid == v;
    }
  }

  lemma {:induction false} WithoutDistinct(rows: seq<Row>, u: Uuid)
    requires Distinct(rows)
    ensures Distinct(Without(rows, u))
  {
    if rows != [] {
      var front, last := rows[..|rows| - 1], rows[|rows| - 1];
      WithoutDistinct(front, u);
      forall r | r in Without(front, u) ensures r.uuid != last.uuid {
        var i :| 0 <= i < |front| && front[i] == r;
        assert rows[i].uuid != rows[|rows| - 1].uuid;
      }
    }
  }

  lemma ListsWithout(rows: seq<Row>, m: KeyRows, u: Uuid)
    requires Lists(rows, m)
    ensures Lists(Without(rows, u), m - {u})
  {
    var out := Without(rows, u);
    WithoutDistinct(rows, u);
    forall v | v in m && v != u ensures HasUuid(out, v) {
      var i :| 0 <= i < |rows| && rows[i].uuid == v;
      assert rows[i] in out;
    }
    forall i | 0 <= i < |out| ensures out[i].uuid in m - {u} && m[out[i].uuid] == CoreOf(out[i]) {
      assert out[i] in out;
    }
  }

  /** The index entry of a key moves the way its rows do. */
  lemma ListsStep(rows: seq<Row>, m: KeyRows, e: Event)
    requires Lists(rows, m) && (e.op.Add? ==> e.id !in m)
    ensures Lists(RowsStep(rows, e), KeyStep(m, e))
  {
    match e.op
    case Add(f) =>
      var out := rows + [IndexRow(e.id, f)];
      forall v | HasUuid(rows, v) ensures HasUuid(out, v) {
        var i :| 0 <= i < |rows| && rows[i].uuid == v;
        assert out[i].uuid == v;
      }
      assert out[|rows|].uuid == e.id;
    case Set(_, f) => ListsRetarget(rows, m, e.id, f);
    case Del(_) => ListsWithout(rows, m, e.id);
  }

  // One call.

  lemma LegalOnTable(w: World, e: Event)
    requires WorldInv(w) && Legal(w, e)
    ensures e.op.Add? ==> e.id !in w.table
    ensures !e.op.Add? && e.id in w.table ==> VisibleAt(w.table[e.id], e.key)
  {
    if !e.op.Add? {
      var rows := RowsAt(w.index, e.key);
      var i :| 0 <= i < |rows| && rows[i].uuid == e.id;
      assert FiledRight(w.table, w.index[e.key][i], e.key);
    }
  }

  /** A row written for a key is visible there, with the columns of the body. */
  lemma SavedCore(id: Uuid, op: Op, k: RowKey, children: seq<Child>)
    ensures !op.Del? && WrittenFor(op.f, k) ==>
      var r := SavedRow(id, op.f, children);
      && Visible(r) && KeyOf(r) == k && r.children == children
      && (children == [] ==> CoreOf(r) == CoreNew(op.f))
      && forall c: Core | c.children == children :: CoreOf(r) == CoreWrite(c, op.f)
  {
  }

  lemma RowStep(w: World, e: Event, k: RowKey, u: Uuid)
    requires WorldInv(w) && Legal(w, e)
    ensures
      var before, after := At(w.table, k), At(Step(w, e).table, k);
      var want := if e.key == k && e.applied then KeyStep(before, e) else before;
      (u in after <==> u in want) && (u in after ==> after[u] == want[u])
  {
    hide WorldInv, RowsAt, IndexStep, KeyOf, Visible, WrittenFor, CoreWrite, SavedRow;
    LegalOnTable(w, e);
    SavedCore(e.id, e.op, e.key, if e.id in w.table then w.table[e.id].children else []);
  }

  /** A call moves the saved rows of its own key and of no other. */
  lemma AtStep(w: World, e: Event, k: RowKey)
    requires WorldInv(w) && Legal(w, e)
    ensures At(Step(w, e).table, k) ==
            if e.key == k && e.applied then KeyStep(At(w.table, k), e) else At(w.table, k)
  {
    forall u { RowStep(w, e, k, u); }
  }

  lemma FiledKept(w: World, e: Event, r: Row, k: RowKey)
    requires WorldInv(w) && Legal(w, e) && FiledRight(w.table, r, k) && r.uuid < w.next
    ensures FiledRight(Step(w, e).table, r, k)
  {
    LegalOnTable(w, e);
  }

  lemma FiledRetargeted(w: World, e: Event, r: Row, k: RowKey)
    requires WorldInv(w) && Legal(w, e) && FiledRight(w.table, r, k) && r.uuid < w.next
    requires e.op.Set? && e.key == k && r.uuid == e.id
    ensures FiledRight(Step(w, e).table, Retargeted(r, e.op.f), k)
  {
    FiledKept(w, e, r, k);
  }

  lemma FiledAdded(w: World, e: Event, k: RowKey)
    requires WorldInv(w) && Legal(w, e) && e.op.Add? && e.key == k
    ensures FiledRight(Step(w, e).table, IndexRow(e.id, e.op.f), k)
  {
    LegalOnTable(w, e);
    SavedCore(e.id, e.op, k, []);
  }

  /** The rows of an entry are filed right. */
  lemma RowsFiled(w: World, k: RowKey)
    requires WorldInv(w)
    ensures forall j | 0 <= j < |RowsAt(w.index, k)| ::
      FiledRight(w.table, RowsAt(w.index, k)[j], k) && RowsAt(w.index, k)[j].uuid < w.next
  {
  }

  lemma FiledStep(w: World, e: Event, k: RowKey, i: int)
    requires WorldInv(w) && Legal(w, e)
    requires 0 <= i < |RowsAt(Step(w, e).index, k)|
    ensures RowsAt(Step(w, e).index, k)[i].uuid < Step(w, e).next
    ensures FiledRight(Step(w, e).table, RowsAt(Step(w, e).index, k)[i], k)
  {
    hide FiledRight, TableStep, Retargeted, KeyOf, WrittenFor, Distinct;
    var rows, r := RowsAt(w.index, k), RowsAt(Step(w, e).index, k)[i];
    RowsFiled(w, k);
    if !e.acked || e.key != k {
      FiledKept(w, e, rows[i], k);
    } else {
      match e.op
      case Add(_) =>
        if i < |rows| { FiledKept(w, e, rows[i], k); } else { FiledAdded(w, e, k); }
      case Set(_, f) =>
        RetargetedCore(rows[i], f);
        if rows[i].uuid == e.id { FiledRetargeted(w, e, rows[i], k); } else { FiledKept(w, e, rows[i], k); }
      case Del(_) =>
        assert r in Without(rows, e.id);
        FiledKept(w, e, r, k);
    }
  }

  lemma DistinctStep(w: World, e: Event, k: RowKey)
    requires WorldInv(w) && Legal(w, e)
    ensures Distinct(RowsAt(Step(w, e).index, k))
  {
    var rows := RowsAt(w.index, k);
    if e.acked && e.key == k {
      match e.op
      case Add(f) => forall i | 0 <= i < |rows| ensures rows[i].uuid != e.id { assert w.index[k][i].uuid < w.next; }
      case Set(_, f) =>
      case Del(_) => WithoutDistinct(rows, e.id);
    }
  }

  lemma WorldStep(w: World, e: Event)
    requires WorldInv(w) && Legal(w, e)
    ensures WorldInv(Step(w, e))
  {
    var x := Step(w, e);
    forall k | k in x.index ensures Distinct(x.index[k]) { DistinctStep(w, e, k); }
    forall k, i | k in x.index && 0 <= i < |x.index[k]|
      ensures x.index[k][i].uuid < x.next && FiledRight(x.table, x.index[k][i], k)
    {
      FiledStep(w, e, k, i);
    }
    LegalOnTable(w, e);
  }

  lemma ListsUnique(rows: seq<Row>, m: KeyRows, n: KeyRows)
    requires Lists(rows, m) && Lists(rows, n)
    ensures m == n
  {
    forall u ensures (u in m <==> u in n) && (u in m ==> m[u] == n[u]) {
      if u in m || u in n {
        assert HasUuid(rows, u);
        var i :| 0 <= i < |rows| && rows[i].uuid == u;
      }
    }
  }

  /** The index entry of a key follows the calls acknowledged for it. */
  lemma IndexAtStep(w: World, e: Event, k: RowKey)
    requires WorldInv(w) && Legal(w, e)
    ensures WorldInv(Step(w, e))
    ensures IndexAt(Step(w, e), k) == if e.key == k && e.acked then KeyStep(IndexAt(w, k), e) else IndexAt(w, k)
  {
    WorldStep(w, e);
    var rows, m := RowsAt(w.index, k), IndexAt(w, k);
    if e.key == k && e.acked {
      forall u | u in m ensures u < w.next {
        var i :| 0 <= i < |rows| && rows[i].uuid == u;
        assert w.index[k][i].uuid < w.next;
      }
      ListsStep(rows, m, e);
      ListsUnique(RowsStep(rows, e), KeyStep(m, e), IndexAt(Step(w, e), k));
    }
  }

  /** An index row and the saved row of the same identity carry the same aliases. */
  lemma SameChildren(w: World, k: RowKey, u: Uuid)
    requires WorldInv(w) && u in IndexAt(w, k)
    ensures u < w.next
    ensures u in w.table ==> VisibleAt(w.table[u], k) && w.table[u].children == IndexAt(w, k)[u].children
  {
    var rows := RowsAt(w.index, k);
    assert HasUuid(rows, u);
    var i :| 0 <= i < |rows| && rows[i].uuid == u;
    assert FiledRight(w.table, w.index[k][i], k);
  }

  // Replays of one key.

  lemma KeyAfterStep(m: KeyRows, seg: seq<Event>, e: Event, v: View)
    ensures KeyAfter(m, seg + [e], v) ==
            if Counts(v, e) then KeyStep(KeyAfter(m, seg, v), e) else KeyAfter(m, seg, v)
  {
    assert (seg + [e])[..|seg|] == seg;
  }

  lemma ProjectStep(tr: seq<Event>, e: Event, k: RowKey)
    ensures Project(tr + [e], k) == Project(tr, k) + if e.key == k then [e] else []
  {
    assert (tr + [e])[..|tr|] == tr;
  }

  lemma StepsStep(w: World, tr: seq<Event>, e: Event)
    ensures Steps(w, tr + [e]) == Step(Steps(w, tr), e)
  {
    assert (tr + [e])[..|tr|] == tr;
  }

  lemma StepsNext(w: World, tr: seq<Event>, n: nat)
    requires n < |tr|
    ensures Steps(w, tr[..n + 1]) == Step(Steps(w, tr[..n]), tr[n])
  {
    assert tr[..n + 1] == tr[..n] + [tr[n]];
    StepsStep(w, tr[..n], tr[n]);
  }

  lemma KeyAfterUntouched(m: KeyRows, seg: seq<Event>, v: View, u: Uuid)
    requires forall e | e in seg :: e.id != u
    ensures u in KeyAfter(m, seg, v) <==> u in m
    ensures u in m ==> KeyAfter(m, seg, v)[u] == m[u]
  {
    if seg != [] { KeyAfterUntouched(m, seg[..|seg| - 1], v, u); }
  }

  lemma KeyAfterKeeps(m: KeyRows, seg: seq<Event>, v: View, u: Uuid)
    requires u in m && forall e | e in seg && e.op.Del? :: e.id != u
    ensures u in KeyAfter(m, seg, v)
  {
    if seg != [] { KeyAfterKeeps(m, seg[..|seg| - 1], v, u); }
  }

  lemma {:induction false} KeyAfterConcat(m: KeyRows, a: seq<Event>, b: seq<Event>, v: View)
    ensures KeyAfter(m, a + b, v) == KeyAfter(KeyAfter(m, a, v), b, v)
  {
    if b == [] {
      assert a + b == a;
    } else {
      assert (a + b)[..|a + b| - 1] == a + b[..|b| - 1];
      KeyAfterConcat(m, a, b[..|b| - 1], v);
    }
  }

  /** A row touched by one call of a segment ends up as that call leaves it. */
  lemma {:induction false} KeyAfterOnce(m: KeyRows, seg: seq<Event>, v: View, i: int)
    requires 0 <= i < |seg|
    requires forall j | 0 <= j < |seg| && j != i :: seg[j].id != seg[i].id
    ensures
      var u, after := seg[i].id, if Counts(v, seg[i]) then KeyStep(m, seg[i]) else m;
      && (u in KeyAfter(m, seg, v) <==> u in after)
      && (u in after ==> KeyAfter(m, seg, v)[u] == after[u])
  {
    var front := seg[..|seg| - 1];
    if i == |seg| - 1 {
      KeyAfterUntouched(m, front, v, seg[i].id);
    } else {
      KeyAfterOnce(m, front, v, i);
    }
  }

  /** The two views of a segment agree while every call of it is both acknowledged and applied, or neither. */
  lemma KeyAfterSame(m: KeyRows, seg: seq<Event>)
    requires forall e | e in seg :: e.acked == e.applied
    ensures KeyAfter(m, seg, Saved) == KeyAfter(m, seg, Indexed)
  {
    if seg != [] { KeyAfterSame(m, seg[..|seg| - 1]); }
  }

  lemma {:induction false} ProjectConcat(a: seq<Event>, b: seq<Event>, k: RowKey)
    ensures Project(a + b, k) == Project(a, k) + Project(b, k)
  {
    if b == [] {
      assert a + b == a;
    } else {
      assert (a + b)[..|a + b| - 1] == a + b[..|b| - 1];
      ProjectConcat(a, b[..|b| - 1], k);
    }
  }

  lemma ProjectMembers(tr: seq<Event>, k: RowKey)
    ensures forall e :: e in Project(tr, k) <==> e in tr && e.key == k
  {
    if tr != [] {
      ProjectMembers(tr[..|tr| - 1], k);
      assert tr == tr[..|tr| - 1] + [tr[|tr| - 1]];
    }
  }

  lemma ProjectOwn(tr: seq<Event>, k: RowKey)
    requires forall e | e in tr :: e.key == k
    ensures Project(tr, k) == tr
  {
    if tr != [] {
      ProjectOwn(tr[..|tr| - 1], k);
      assert tr == tr[..|tr| - 1] + [tr[|tr| - 1]];
    }
  }

  lemma ProjectNone(tr: seq<Event>, k: RowKey)
    requires forall e | e in tr :: e.key != k
    ensures Project(tr, k) == []
  {
    if tr != [] { ProjectNone(tr[..|tr| - 1], k); }
  }

  lemma {:induction false} StepsConcat(w: World, a: seq<Event>, b: seq<Event>)
    ensures Steps(w, a + b) == Steps(Steps(w, a), b)
  {
    if b == [] {
      assert a + b == a;
    } else {
      assert (a + b)[..|a + b| - 1] == a + b[..|b| - 1];
      StepsConcat(w, a, b[..|b| - 1]);
    }
  }
}
