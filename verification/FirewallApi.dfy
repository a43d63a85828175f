/** The firewall's settings API as an environment with faults (test/fake/fake.go). */
module FirewallApi {
  import opened Rows
  import opened Table
  import opened Engine
  import opened Order
  import Paging

  /** A host alias attached to a row. */
  datatype Alias = Alias(host: Uuid, enabled: string, hostname: string, domain: string)

  /** One rendered local-data entry. */
  datatype Served = Served(name: string, ttl: string, rr: string, value: string)

  /**
   * What happens to a request that would succeed: nothing unusual, an acknowledgement
   * without a save, an HTTP error, a broken connection, or an unreadable answer; the last
   * three strike before or after the commit.
   */
  datatype Fault = NoFault | LostWrite | Status(code: nat, after: bool) | Broken(after: bool) | Garbled(after: bool)

  /** An answer as the client sees it. */
  datatype Response = Saved(uuid: Uuid) | Updated | Deleted | NotFound | Failed | StatusOk
                    | Listed(page: Paging.Answer) | Data(entries: seq<Served>)
                    | Http(code: nat) | NetworkError | Unreadable

  datatype Request = Write(op: Op) | Reload | Search(n: nat, pageSize: nat) | LocalData

  const TOO_MANY_REQUESTS := 429

  /** A 429 is answered before the request is processed. */
  predicate FaultOk(f: Fault) {
    f.Status? ==> f.code >= 400 && (f.code == TOO_MANY_REQUESTS ==> !f.after)
  }

  /** The fault the j-th request from here on meets. */
  function Upcoming(faults: seq<Fault>, j: nat): Fault {
    if j < |faults| then faults[j] else NoFault
  }

  function Later(faults: seq<Fault>, n: nat): seq<Fault> {
    if n <= |faults| then faults[n..] else []
  }

  predicate Commits(f: Fault) {
    match f
    case NoFault => true
    case LostWrite => false
    case Status(_, after) => after
    case Broken(after) => after
    case Garbled(after) => after
  }

  /** The answer to a request that would be answered with good. */
  function Answer(f: Fault, good: Response): Response {
    match f
    case NoFault => good
    case LostWrite => good
    case Status(code, _) => Http(code)
    case Broken(_) => NetworkError
    case Garbled(_) => Unreadable
  }

  predicate Good(r: Response) {
    r.Saved? || r.Updated? || r.Deleted? || r.NotFound? || r.StatusOk? || r.Listed? || r.Data?
  }

  /**
   * What a fault does: only a lost write is acknowledged without having taken effect, and
   * only a failure after the commit takes effect without being acknowledged.
   */
  lemma FaultEffects(f: Fault, good: Response)
    requires Good(good)
    ensures Commits(f) && Good(Answer(f, good)) <==> f == NoFault
    ensures !Commits(f) && Good(Answer(f, good)) <==> f == LostWrite
    ensures Commits(f) && !Good(Answer(f, good)) <==> !f.NoFault? && !f.LostWrite? && f.after
    ensures Good(Answer(f, good)) ==> Answer(f, good) == good
  {
  }

  function ChildrenOf(aliases: seq<Alias>, u: Uuid): seq<Child> {
    if aliases == [] then []
    else
      var a := aliases[|aliases| - 1];
      ChildrenOf(aliases[..|aliases| - 1], u) + if a.host == u then [Child(a.enabled, a.hostname, a.domain)] else []
  }

  function WithChildren(r: Row, aliases: seq<Alias>): Row {
    r.(children := ChildrenOf(aliases, r.uuid))
  }

  /** The position of a row, or -1. */
  function FindIn(rows: seq<Row>, u: Uuid): (i: int)
    ensures -1 <= i < |rows|
    ensures i >= 0 ==> rows[i].uuid == u
    ensures i < 0 ==> forall j | 0 <= j < |rows| :: rows[j].uuid != u
  {
    if rows == [] then -1
    else
      var i := FindIn(rows[..|rows| - 1], u);
      if i >= 0 then i else if rows[|rows| - 1].uuid == u then |rows| - 1 else -1
  }

  /** A row of the config with its aliases. */
  function RowOf(rows: seq<Row>, aliases: seq<Alias>, u: Uuid): Option<Row> {
    var i := FindIn(rows, u);
    if i < 0 then None else Some(WithChildren(rows[i], aliases))
  }

  /** The rows of the config with their aliases, by identity. */
  ghost function TableOf(rows: seq<Row>, aliases: seq<Alias>): (t: Table)
    ensures forall u :: u in t <==> RowOf(rows, aliases, u).Some?
    ensures forall u | u in t :: Some(t[u]) == RowOf(rows, aliases, u)
  {
    var ids := set i | 0 <= i < |rows| :: rows[i].uuid;
    assert forall u | FindIn(rows, u) >= 0 :: rows[FindIn(rows, u)].uuid in ids;
    map u | u in ids :: RowOf(rows, aliases, u).value
  }

  function ServedName(host: string, domain: string): string {
    if host == "" then domain + "." else host + "." + domain + "."
  }

  function ServedValue(r: Row): string {
    if r.rr == TYPE_TXT then "\"" + r.txtData + "\""
    else if r.rr == TYPE_MX then r.mxPrio + " " + r.mx
    else r.server
  }

  function ServedAt(r: Row, host: string, domain: string): Served {
    Served(ServedName(host, domain), OrDefault(r.ttl, "3600"), r.rr, ServedValue(r))
  }

  /** A row's aliases as they are served: a copy of the row at each enabled alias name. */
  function ServedAliases(r: Row, aliases: seq<Alias>): seq<Served> {
    if aliases == [] then []
    else
      var a := aliases[|aliases| - 1];
      ServedAliases(r, aliases[..|aliases| - 1])
      + if a.host == r.uuid && a.enabled != "0"
        then [ServedAt(r, OrDefault(a.hostname, r.hostname), OrDefault(a.domain, r.domain))] else []
  }

  /** What a reload publishes: each enabled row at its own name and at its aliases. */
  function Publish(rows: seq<Row>, aliases: seq<Alias>): seq<Served> {
    if rows == [] then []
    else
      var r := rows[|rows| - 1];
      Publish(rows[..|rows| - 1], aliases)
      + if r.enabled == "0" then [] else [ServedAt(r, r.hostname, r.domain)] + ServedAliases(r, aliases)
  }

  function KeptAliases(aliases: seq<Alias>, host: Uuid): seq<Alias> {
    if aliases == [] then []
    else
      var a := aliases[|aliases| - 1];
      KeptAliases(aliases[..|aliases| - 1], host) + if a.host == host then [] else [a]
  }

  lemma {:induction false} KeptChildren(aliases: seq<Alias>, host: Uuid, u: Uuid)
    requires u != host
    ensures ChildrenOf(KeptAliases(aliases, host), u) == ChildrenOf(aliases, u)
  {
    if aliases != [] {
      var front, a := aliases[..|aliases| - 1], aliases[|aliases| - 1];
      KeptChildren(front, host, u);
      var kept := KeptAliases(front, host);
      if a.host != host {
        assert (kept + [a])[..|kept|] == kept;
      } else {
        assert kept + [] == kept;
      }
    }
  }

  lemma {:induction false} NoChildren(aliases: seq<Alias>, u: Uuid)
    requires forall i | 0 <= i < |aliases| :: aliases[i].host != u
    ensures ChildrenOf(aliases, u) == []
  {
    if aliases != [] { NoChildren(aliases[..|aliases| - 1], u); }
  }

  /** An order by sort columns and then identity: it tells any two rows with different identities apart. */
  ghost predicate RowOrder(order: (Row, Row) -> bool) {
    && (forall a :: !order(a, a))
    && (forall a: Row, b: Row | a.uuid != b.uuid :: order(a, b) || order(b, a))
    && (forall a, b, c :: order(a, b) && order(b, c) ==> order(a, c))
  }

  lemma RowsAreOrdered(order: (Row, Row) -> bool, rows: seq<Row>, aliases: seq<Alias>)
    requires RowOrder(order) && Distinct(rows)
    ensures StrictTotalOn(order, set i | 0 <= i < |rows| :: WithChildren(rows[i], aliases))
  {
  }

  /** The rows of the config with their aliases, in order: what a search lists. */
  function Sorted(order: (Row, Row) -> bool, rows: seq<Row>, aliases: seq<Alias>): seq<Row>
    requires RowOrder(order) && Distinct(rows)
  {
    RowsAreOrdered(order, rows, aliases);
    SortSet(order, set i | 0 <= i < |rows| :: WithChildren(rows[i], aliases))
  }

  /** The faults in a queue that are faults. */
  function Harmful(faults: seq<Fault>): nat {
    if faults == [] then 0 else Harmful(faults[1..]) + if faults[0].NoFault? then 0 else 1
  }

  class Firewall {
    /** The order a search lists rows in: a composite of the sort columns and the identity. */
    const order: (Row, Row) -> bool
    /** The saved config, without children. */
    var rows: seq<Row>
    var aliases: seq<Alias>
    /** What the last reload published. */
    var served: seq<Served>
    /** The faults to come, one per request that would succeed; none once it is used up. */
    var faults: seq<Fault>
    /** The next identity to hand out. */
    var next: Uuid
    /** How many faults have struck so far. */
    ghost var struck: nat
    /** How many there are in all: those that have struck and those still to come. */
    ghost const total: nat
    /** The saved table as each write request left it. */
    ghost var history: seq<Table>

    ghost predicate Valid()
      reads this
    {
      && RowOrder(order)
      && Distinct(rows)
      && (forall i | 0 <= i < |rows| :: rows[i].uuid < next)
      && (forall i | 0 <= i < |aliases| :: aliases[i].host < next)
      && (forall i | 0 <= i < |faults| :: FaultOk(faults[i]))
      && struck + Harmful(faults) == total
    }

    ghost function Saved(): Table
      reads this
    {
      TableOf(rows, aliases)
    }

    ghost predicate Published()
      reads this
    {
      served == Publish(rows, aliases)
    }

    constructor (order: (Row, Row) -> bool, rows: seq<Row>, aliases: seq<Alias>, faults: seq<Fault>, next: Uuid)
      requires RowOrder(order)
      requires Distinct(rows) && forall i | 0 <= i < |rows| :: rows[i].uuid < next
      requires forall i | 0 <= i < |aliases| :: aliases[i].host < next
      requires forall i | 0 <= i < |faults| :: FaultOk(faults[i])
      ensures Valid() && Saved() == TableOf(rows, aliases) && Published()
      ensures this.faults == faults && this.next == next && struck == 0 && total == Harmful(faults)
    {
      this.order := order;
      this.rows, this.aliases, this.faults, this.next := rows, aliases, faults, next;
      served := Publish(rows, aliases);
      struck, history, total := 0, [], Harmful(faults);
    }

    method TakeFault() returns (f: Fault)
      requires Valid()
      modifies this`faults, this`struck
      ensures Valid() && FaultOk(f)
      ensures if old(faults) == [] then f == NoFault && faults == []
        else f == old(faults)[0] && faults == old(faults)[1..]
      ensures struck == old(struck) + if f.NoFault? then 0 else 1
    {
      if faults == [] {
        return NoFault;
      }
      f := faults[0];
      faults := faults[1..];
      if f != NoFault {
        struck := struck + 1;
      }
    }

    method NewUuid() returns (id: Uuid)
      requires Valid()
      modifies this`next
      ensures Valid() && id == old(next) && next == id + 1
    {
      id := next;
      next := next + 1;
    }

    function Find(u: Uuid): (i: int)
      reads this
      ensures -1 <= i < |rows|
      ensures i >= 0 ==> rows[i].uuid == u
      ensures i < 0 ==> forall j | 0 <= j < |rows| :: rows[j].uuid != u
    {
      FindIn(rows, u)
    }

    /** addHostOverride: refused bodies are turned down; otherwise the row is appended, unless a fault intervenes. */
    method HandleAdd(f: Fields) returns (resp: Response, id: Uuid, ghost fault: Fault)
      requires Valid()
      modifies this
      ensures Valid() && id == old(next) && next == id + 1 && served == old(served) && FaultOk(fault)
      ensures history == old(history) + [Saved()]
      ensures struck == old(struck) + if fault.NoFault? then 0 else 1
      ensures !Acceptable(f) ==> resp == Failed && fault.NoFault? && Saved() == old(Saved())
      ensures Acceptable(f) ==>
        resp == Answer(fault, Response.Saved(id)) && Saved() == if Commits(fault)
          then Commit(old(Saved()), Add(f), id) else old(Saved())
    {
      hide TableOf, ChildrenOf, KeptAliases;
      fault := NoFault;
      id := NewUuid();
      if !Acceptable(f) {
        history := history + [Saved()];
        return Failed, id, fault;
      }
      var ft := TakeFault();
      fault := ft;
      resp := Answer(ft, Response.Saved(id));
      if Commits(ft) {
        NoChildren(aliases, id);
        rows := rows + [SavedRow(id, f, [])];
        assert Saved() == Commit(old(Saved()), Add(f), id) by {
          AppendedTable(old(rows), aliases, SavedRow(id, f, []));
        }
      }
      history := history + [Saved()];
    }

    /** setHostOverride: an unknown row or a refused body is turned down; otherwise the row is edited in place. */
    method HandleSet(u: Uuid, f: Fields) returns (resp: Response, ghost fault: Fault)
      requires Valid()
      modifies this
      ensures Valid() && next == old(next) && served == old(served) && FaultOk(fault)
      ensures history == old(history) + [Saved()]
      ensures struck == old(struck) + if fault.NoFault? then 0 else 1
      ensures Refused(old(Saved()), Set(u, f)) ==> resp == Failed && fault.NoFault? && Saved() == old(Saved())
      ensures !Refused(old(Saved()), Set(u, f)) ==>
        resp == Answer(fault, Updated) && Saved() == if Commits(fault) then Commit(old(Saved()), Set(u, f), u)
          else old(Saved())
    {
      hide TableOf, KeptAliases, ChildrenOf;
      fault := NoFault;
      var i := Find(u);
      if i < 0 || !Acceptable(f) {
        history := history + [Saved()];
        return Failed, fault;
      }
      var ft := TakeFault();
      fault := ft;
      resp := Answer(ft, Updated);
      if Commits(ft) {
        rows := rows[i := SavedRow(u, f, [])];
        assert Saved() == Commit(old(Saved()), Set(u, f), u) by {
          EditedTable(old(rows), aliases, i, f);
        }
      }
      history := history + [Saved()];
    }

    /** delHostOverride: the row goes together with its aliases. */
    method HandleDel(u: Uuid) returns (resp: Response, ghost fault: Fault)
      requires Valid()
      modifies this
      ensures Valid() && next == old(next) && served == old(served) && FaultOk(fault)
      ensures history == old(history) + [Saved()]
      ensures struck == old(struck) + if fault.NoFault? then 0 else 1
      ensures if u in old(Saved()) then fault == Upcoming(old(faults), 0) && faults == Later(old(faults), 1)
        else faults == old(faults)
      ensures u !in old(Saved()) ==> resp == NotFound && fault.NoFault? && Saved() == old(Saved())
      ensures u in old(Saved()) ==>
        resp == Answer(fault, Deleted) && Saved() == if Commits(fault) then Commit(old(Saved()), Del(u), u)
          else old(Saved())
    {
      hide TableOf, ChildrenOf, KeptAliases, SavedRow;
      fault := NoFault;
      var i := Find(u);
      if i < 0 {
        history := history + [Saved()];
        return NotFound, fault;
      }
      var ft := TakeFault();
      fault := ft;
      resp := Answer(ft, Deleted);
      if Commits(ft) {
        Splice(rows, aliases, i, next);
        rows := rows[..i] + rows[i + 1..];
        aliases := KeptAliases(aliases, u);
      }
      history := history + [Saved()];
    }

    /** searchHostOverride: one page of the rows in order, or the fault that struck. */
    method HandleSearch(n: nat, pageSize: nat) returns (resp: Response)
      requires Valid()
      modifies this`faults, this`struck
      ensures Valid() && struck >= old(struck)
      ensures resp == Answer(Upcoming(old(faults), 0), Listed(Paging.PageOf(Sorted(order, rows, aliases), n, pageSize)))
      ensures faults == Later(old(faults), 1) && (!Good(resp) ==> struck > old(struck))
    {
      var ft := TakeFault();
      resp := Answer(ft, Listed(Paging.PageOf(Sorted(order, rows, aliases), n, pageSize)));
    }

    /** listlocaldata: what is served, or the fault that struck. */
    method HandleLocalData() returns (resp: Response)
      requires Valid()
      modifies this`faults, this`struck
      ensures Valid() && struck >= old(struck)
      ensures resp == Answer(Upcoming(old(faults), 0), Data(served)) && faults == Later(old(faults), 1)
      ensures !Good(resp) ==> struck > old(struck)
    {
      var ft := TakeFault();
      resp := Answer(ft, Data(served));
    }

    /** service/reconfigure: publishes the saved config. */
    method HandleReload() returns (resp: Response, ghost fault: Fault)
      requires Valid()
      modifies this`served, this`faults, this`struck
      ensures Valid() && FaultOk(fault)
      ensures struck == old(struck) + if fault.NoFault? then 0 else 1
      ensures resp == Answer(fault, StatusOk) && !fault.LostWrite?
      ensures if Commits(fault) then Published() else served == old(served)
    {
      var ft := TakeFault();
      // A reload has no save to lose.
      if ft.LostWrite? {
        ft := Broken(false);
      }
      fault := ft;
      resp := Answer(ft, StatusOk);
      if Commits(ft) {
        served := Publish(rows, aliases);
      }
    }
  }

  /** Splicing a row out, and its aliases with it, keeps the config well-formed and removes exactly that row. */
  lemma Splice(rows: seq<Row>, aliases: seq<Alias>, i: int, next: Uuid)
    requires Distinct(rows) && 0 <= i < |rows| && (forall j | 0 <= j < |rows| :: rows[j].uuid < next)
    requires forall j | 0 <= j < |aliases| :: aliases[j].host < next
    ensures
      var spliced, kept := rows[..i] + rows[i + 1..], KeptAliases(aliases, rows[i].uuid);
      && Distinct(spliced) && (forall j | 0 <= j < |spliced| :: spliced[j].uuid < next)
      && (forall j | 0 <= j < |kept| :: kept[j].host < next)
      && TableOf(spliced, kept) == Commit(TableOf(rows, aliases), Del(rows[i].uuid), rows[i].uuid)
  {
    var kept := KeptAliases(aliases, rows[i].uuid);
    KeptHosts(aliases, rows[i].uuid);
    forall j | 0 <= j < |kept| ensures kept[j].host < next { assert kept[j] in kept; }
    FindSpliced(rows, i, rows[i].uuid);
    SplicedTable(rows, aliases, i);
  }

  lemma {:induction false} KeptHosts(aliases: seq<Alias>, host: Uuid)
    ensures forall a | a in KeptAliases(aliases, host) :: a in aliases
  {
    if aliases != [] { KeptHosts(aliases[..|aliases| - 1], host); }
  }

  lemma FindUnique(rows: seq<Row>, u: Uuid, j: int)
    requires Distinct(rows) && 0 <= j < |rows| && rows[j].uuid == u
    ensures FindIn(rows, u) == j
  {
  }

  lemma FindAppended(rows: seq<Row>, r: Row, u: Uuid)
    requires FindIn(rows, r.uuid) < 0
    ensures FindIn(rows + [r], u) == if u == r.uuid then |rows| else FindIn(rows, u)
  {
    assert (rows + [r])[..|rows|] == rows;
  }

  lemma FindEdited(rows: seq<Row>, i: int, r: Row, u: Uuid)
    requires Distinct(rows) && 0 <= i < |rows| && r.uuid == rows[i].uuid
    ensures FindIn(rows[i := r], u) == FindIn(rows, u)
  {
    var j := FindIn(rows, u);
    if j >= 0 {
      FindUnique(rows[i := r], u, j);
    } else {
      assert forall p | 0 <= p < |rows| :: rows[p].uuid != u;
    }
  }

  lemma FindSpliced(rows: seq<Row>, i: int, u: Uuid)
    requires Distinct(rows) && 0 <= i < |rows|
    ensures Distinct(rows[..i] + rows[i + 1..])
    ensures
      var spliced, j := rows[..i] + rows[i + 1..], FindIn(rows, u);
      FindIn(spliced, u) == if j < 0 || j == i then -1 else if j < i then j else j - 1
  {
    var spliced, j := rows[..i] + rows[i + 1..], FindIn(rows, u);
    assert forall p | 0 <= p < |spliced| :: spliced[p] == rows[if p < i then p else p + 1];
    if j >= 0 && j != i {
      FindUnique(spliced, u, if j < i then j else j - 1);
    }
  }

  lemma SplicedRow(rows: seq<Row>, aliases: seq<Alias>, i: int, u: Uuid)
    requires Distinct(rows) && 0 <= i < |rows|
    ensures RowOf(rows[..i] + rows[i + 1..], KeptAliases(aliases, rows[i].uuid), u) ==
            if u == rows[i].uuid then None else RowOf(rows, aliases, u)
  {
    FindSpliced(rows, i, u);
    FindUnique(rows, rows[i].uuid, i);
    if u != rows[i].uuid {
      KeptChildren(aliases, rows[i].uuid, u);
    }
  }

  lemma EditedRow(rows: seq<Row>, aliases: seq<Alias>, i: int, r: Row, u: Uuid)
    requires Distinct(rows) && 0 <= i < |rows| && r.uuid == rows[i].uuid
    ensures RowOf(rows[i := r], aliases, u) == if u == r.uuid then Some(WithChildren(r, aliases))
      else RowOf(rows, aliases, u)
  {
    FindEdited(rows, i, r, u);
    FindUnique(rows, r.uuid, i);
  }

  lemma AppendedRow(rows: seq<Row>, aliases: seq<Alias>, r: Row, u: Uuid)
    requires FindIn(rows, r.uuid) < 0 && ChildrenOf(aliases, r.uuid) == [] && r.children == []
    ensures RowOf(rows + [r], aliases, u) == if u == r.uuid then Some(r) else RowOf(rows, aliases, u)
  {
    FindAppended(rows, r, u);
  }

  /** Two configs that show the same rows are the same table. */
  lemma SameTable(rows: seq<Row>, aliases: seq<Alias>, t: Table)
    requires forall u :: RowOf(rows, aliases, u) == if u in t then Some(t[u]) else None
    ensures TableOf(rows, aliases) == t
  {
  }

  lemma AppendedTable(rows: seq<Row>, aliases: seq<Alias>, r: Row)
    requires FindIn(rows, r.uuid) < 0 && ChildrenOf(aliases, r.uuid) == [] && r.children == []
    ensures TableOf(rows + [r], aliases) == TableOf(rows, aliases)[r.uuid := r]
  {
    hide TableOf, RowOf, FindIn, ChildrenOf;
    forall u { AppendedRow(rows, aliases, r, u); }
    SameTable(rows + [r], aliases, TableOf(rows, aliases)[r.uuid := r]);
  }

  lemma EditedTable(rows: seq<Row>, aliases: seq<Alias>, i: int, f: Fields)
    requires Distinct(rows) && 0 <= i < |rows|
    ensures
      var u := rows[i].uuid;
      TableOf(rows[i := SavedRow(u, f, [])], aliases) ==
        TableOf(rows, aliases)[u := SavedRow(u, f, ChildrenOf(aliases, u))]
  {
    var r := SavedRow(rows[i].uuid, f, []);
    var t := TableOf(rows, aliases)[r.uuid := WithChildren(r, aliases)];
    forall u ensures RowOf(rows[i := r], aliases, u) == if u in t then Some(t[u]) else None {
      EditedRow(rows, aliases, i, r, u);
    }
    SameTable(rows[i := r], aliases, t);
  }

  lemma SplicedTable(rows: seq<Row>, aliases: seq<Alias>, i: int)
    requires Distinct(rows) && 0 <= i < |rows|
    ensures TableOf(rows[..i] + rows[i + 1..], KeptAliases(aliases, rows[i].uuid)) ==
      TableOf(rows, aliases) - {rows[i].uuid}
  {
    forall u { SplicedRow(rows, aliases, i, u); }
    SameTable(rows[..i] + rows[i + 1..], KeptAliases(aliases, rows[i].uuid), TableOf(rows, aliases) - {rows[i].uuid});
  }
}
