/** Offset-paginated reads of the table and the rules for accepting one (internal/opnsense/snapshot.go). */
module Paging {
  import opened Order
  import opened Rows

  /** What the server answers to one page request. */
  datatype Answer = Failed | Page(total: int, rows: seq<Row>)

  datatype ReadResult = Accepted(rows: seq<Row>) | ReadError | Inconsistent

  /** The answers to the page requests of one read. */
  type Answers = seq<Answer>

  /** A server's answers to the successive requests of one read, numbered from 0. */
  type Server = nat -> Answer

  /** Go's integer division truncates toward zero. */
  function GoDiv(a: int, b: int): int
    requires b > 0
  {
    if a >= 0 then a / b else -(-a / b)
  }

  function MaxPages(total: int, pageSize: int): int
    requires pageSize > 0
  {
    GoDiv(total + pageSize - 1, pageSize) + 1
  }

  /** The rows collected so far plus those of a page not collected yet. */
  function Collect(rows: seq<Row>, page: seq<Row>): seq<Row> {
    if page == [] then rows
    else
      var got, r := Collect(rows, page[..|page| - 1]), page[|page| - 1];
      if HasUuid(got, r.uuid) then got else got + [r]
  }

  /** What one page does to a read: end it, or go on with more rows. */
  datatype Verdict = Done(result: ReadResult) | More(total: int, rows: seq<Row>)

  /** The acceptance rules, applied to page number current. */
  function Judge(a: Answer, pageSize: int, current: nat, total0: int, rows: seq<Row>): Verdict
    requires pageSize > 0
  {
    if a.Failed? then Done(ReadError)
    else if total0 >= 0 && a.total != total0 then Done(Inconsistent)
    else
      var total := if total0 < 0 then a.total else total0;
      if total == 0 then Done(Accepted([]))
      else if current > MaxPages(total, pageSize) then Done(Inconsistent)
      else if a.rows == [] then Done(if |rows| == total then Accepted(rows) else Inconsistent)
      else
        var got := Collect(rows, a.rows);
        if |got| > total then Done(Inconsistent)
        else if |got| == total then Done(Accepted(got))
        else More(total, got)
  }

  /** A read from page number current on, and the number of its last request. */
  function ReadFrom(server: Server, pageSize: int, current: nat, total: int, rows: seq<Row>): (r: (ReadResult, nat))
    requires pageSize > 0 && current >= 1 && (total < 0 || current > 1)
    decreases if total < 0 then 1 else 0, if total < 0 then 0 else MaxPages(total, pageSize) + 1 - current
  {
    match Judge(server(current - 1), pageSize, current, total, rows)
    case Done(result) => (result, current)
    case More(t, got) => ReadFrom(server, pageSize, current + 1, t, got)
  }

  /** What readAll answers against a server, and how many pages it asks for. */
  function ReadSpec(server: Server, pageSize: int): (ReadResult, nat)
    requires pageSize > 0
  {
    ReadFrom(server, pageSize, 1, -1, [])
  }

  /** The identities collected so far, one per row. */
  ghost predicate Tally(seen: set<Uuid>, rows: seq<Row>) {
    (forall u :: u in seen <==> HasUuid(rows, u)) && |seen| == |rows|
  }

  /** The row loop of readAll: rows of a page not seen before are kept. */
  method CollectPage(seen0: set<Uuid>, rows0: seq<Row>, page: seq<Row>) returns (seen: set<Uuid>, rows: seq<Row>)
    requires Tally(seen0, rows0)
    ensures rows == Collect(rows0, page) && Tally(seen, rows)
  {
    seen, rows := seen0, rows0;
    for i := 0 to |page|
      invariant rows == Collect(rows0, page[..i]) && Tally(seen, rows)
    {
      assert page[..i + 1][..i] == page[..i];
      var row := page[i];
      if row.uuid !in seen {
        var grown := rows + [row];
        forall u ensures u in seen + {row.uuid} <==> HasUuid(grown, u) {
          if j :| 0 <= j < |rows| && rows[j].uuid == u { assert grown[j].uuid == u; }
          if u == row.uuid { assert grown[|rows|].uuid == u; }
        }
        seen := seen + {row.uuid};
        rows := grown;
      }
    }
    assert page[..|page|] == page;
  }

  /** The server that gave these answers and fails from then on. */
  function ServerOf(answers: Answers): Server {
    (n: nat) => if n < |answers| then answers[n] else Failed
  }

  /** A server whose first answers are these. */
  predicate Gave(server: Server, answers: Answers) {
    forall n: nat | n < |answers| :: server(n) == answers[n]
  }

  /** A read against any server that gave these answers has come this far. */
  ghost predicate ReadSoFar(answers: Answers, pageSize: int, total: int, rows: seq<Row>)
    requires pageSize > 0 && (total < 0 || answers != [])
  {
    forall server: Server | Gave(server, answers) ::
      ReadSpec(server, pageSize) == ReadFrom(server, pageSize, |answers| + 1, total, rows)
  }

  lemma ReadStarts(pageSize: int)
    requires pageSize > 0
    ensures ReadSoFar([], pageSize, -1, [])
  {
  }

  /** The next answer ends the read, or takes it one page on. */
  lemma ReadNext(answers: Answers, pageSize: int, total: int, rows: seq<Row>, a: Answer)
    requires pageSize > 0 && (total < 0 || answers != []) && ReadSoFar(answers, pageSize, total, rows)
    ensures
      match Judge(a, pageSize, |answers| + 1, total, rows)
      case Done(result) => ReadSpec(ServerOf(answers + [a]), pageSize) == (result, |answers| + 1)
      case More(t, got) => ReadSoFar(answers + [a], pageSize, t, got)
  {
    hide Judge;
    var all := answers + [a];
    forall server: Server | Gave(server, all) ensures Gave(server, answers) && server(|answers|) == a {
      assert all[|answers|] == a && server(|answers|) == all[|answers|];
      forall n: nat | n < |answers|
        ensures server(n) == answers[n] { assert all[n] == answers[n] && server(n) == all[n]; }
    }
    assert Gave(ServerOf(all), all);
  }

  // Termination.

  lemma {:induction false} StopsFrom(server: Server, pageSize: int, current: nat, total: int, rows: seq<Row>)
    requires pageSize > 0 && current > 1 && total > 0 && current <= MaxPages(total, pageSize) + 1
    ensures ReadFrom(server, pageSize, current, total, rows).1 <= MaxPages(total, pageSize) + 1
    decreases MaxPages(total, pageSize) + 1 - current
  {
    var v := Judge(server(current - 1), pageSize, current, total, rows);
    if v.More? {
      StopsFrom(server, pageSize, current + 1, v.total, v.rows);
    }
  }

  /** Against any server at all, a read stops within ceil(total/pageSize) + 2 requests of the first total it is told. */
  lemma ReadStops(server: Server, pageSize: int)
    requires pageSize > 0
    ensures server(0).Failed? || server(0).total <= 0 ==> ReadSpec(server, pageSize).1 == 1
    ensures server(0).Page? && server(0).total > 0 ==>
      ReadSpec(server, pageSize).1 <= GoDiv(server(0).total + pageSize - 1, pageSize) + 2
  {
    var v := Judge(server(0), pageSize, 1, -1, []);
    if v.More? {
      StopsFrom(server, pageSize, 2, v.total, v.rows);
    }
  }

  /**
   * How long a read goes on: a page that brings new rows but not all of them is followed by
   * another one up to one page beyond the number that holds the total, and by none after that.
   */
  lemma PageLimit(a: Answer, pageSize: int, current: nat, total: int, rows: seq<Row>)
    requires pageSize > 0 && total > 0 && a.Page? && a.total == total && a.rows != [] && |Collect(rows, a.rows)| < total
    ensures
      var limit := (total + pageSize - 1) / pageSize + 1;
      Judge(a, pageSize, current, total, rows) ==
        if current <= limit then More(total, Collect(rows, a.rows)) else Done(Inconsistent)
  {
  }

  /** Division truncates toward zero: the remainder is smaller than the divisor and has the dividend's sign. */
  lemma GoDivExactly(a: int, b: int)
    requires b > 0
    ensures
      var r := a - GoDiv(a, b) * b;
      if a >= 0 then 0 <= r < b else -b < r <= 0
  {
  }

  // Exactness.

  /** Request n of a table listed in a fixed order. */
  function PageOf(listing: seq<Row>, n: nat, pageSize: nat): Answer {
    var lo, hi := Min(n * pageSize, |listing|), Min((n + 1) * pageSize, |listing|);
    assert lo <= hi by { assert (n + 1) * pageSize == n * pageSize + pageSize; }
    Page(|listing|, listing[lo..hi])
  }

  lemma {:induction false} CollectFacts(rows: seq<Row>, page: seq<Row>)
    requires Distinct(rows)
    ensures Distinct(Collect(rows, page))
    ensures forall r | r in Collect(rows, page) :: r in rows || r in page
    ensures Distinct(rows + page) ==> Collect(rows, page) == rows + page
  {
    if page == [] {
      assert rows + page == rows;
    } else {
      var front, r := page[..|page| - 1], page[|page| - 1];
      CollectFacts(rows, front);
      assert rows + page == rows + front + [r];
      assert page == front + [r];
      var got := Collect(rows, front);
      if Distinct(rows + page) {
        assert Distinct(rows + front) by {
          forall i, j | 0 <= i < j < |rows + front| ensures (rows + front)[i].uuid != (rows + front)[j].uuid {
            assert (rows + page)[i] == (rows + front)[i] && (rows + page)[j] == (rows + front)[j];
          }
        }
        forall i | 0 <= i < |got| ensures got[i].uuid != r.uuid {
          assert (rows + page)[i] == got[i] && (rows + page)[|got|] == r;
        }
      }
    }
  }

  lemma MulMono(a: int, b: int, p: int)
    requires a <= b && p >= 0
    ensures a * p <= b * p
  {
    assert b * p - a * p == (b - a) * p;
  }

  lemma CeilOf(n: int, p: int, c: int)
    requires p > 0 && c >= 1 && (c - 1) * p < n
    ensures c <= (n + p - 1) / p
    ensures n <= c * p ==> (n + p - 1) / p == c
  {
    var q := (n + p - 1) / p;
    assert n - 1 < q * p + p <= n + p - 1 + p;
    if q <= c - 1 {
      MulMono(q, c - 1, p);
    }
    if c + 1 <= q {
      MulMono(c + 1, q, p);
      assert (c + 1) * p == c * p + p;
    }
  }

  /** One page of an unchanging table extends what was read by that page, and the last page ends the read. */
  lemma JudgeStatic(listing: seq<Row>, pageSize: int, current: nat, lo: nat, hi: nat, total: int)
    requires pageSize > 0 && Distinct(listing) && lo < hi <= |listing|
    requires total < 0 || total == |listing|
    requires current <= (|listing| + pageSize - 1) / pageSize
    ensures Judge(Page(|listing|, listing[lo..hi]), pageSize, current, total, listing[..lo]) ==
            if hi < |listing| then More(|listing|, listing[..hi]) else Done(Accepted(listing))
  {
    assert listing[..lo] + listing[lo..hi] == listing[..hi];
    CollectFacts(listing[..lo], listing[lo..hi]);
    assert listing[..|listing|] == listing;
  }

  lemma PageBounds(listing: seq<Row>, pageSize: int, current: nat, lo: nat)
    requires pageSize > 0 && current >= 1 && lo == (current - 1) * pageSize < |listing|
    ensures current * pageSize == lo + pageSize
    ensures PageOf(listing, current - 1, pageSize) == Page(|listing|, listing[lo..Min(lo + pageSize, |listing|)])
  {
    assert current * pageSize == (current - 1) * pageSize + pageSize;
  }

  /** From a page boundary on, a read of an unchanging table ends with exactly the table unless a request fails. */
  lemma {:induction false} StaticFrom(listing: seq<Row>, server: Server, pageSize: int, current: nat, lo: nat,
      total: int)
    requires pageSize > 0 && current >= 1 && Distinct(listing) && lo == (current - 1) * pageSize < |listing|
    requires forall n: nat :: server(n).Failed? || server(n) == PageOf(listing, n, pageSize)
    requires if current == 1 then total < 0 else total == |listing|
    ensures
      var got := ReadFrom(server, pageSize, current, total, listing[..lo]);
      || (got.0 == ReadError && exists n: nat :: server(n).Failed?)
      || got == (Accepted(listing), (|listing| + pageSize - 1) / pageSize)
    decreases |listing| - lo
  {
    hide Distinct, MaxPages, Collect;
    if server(current - 1).Page? {
      var hi := Min(lo + pageSize, |listing|);
      PageBounds(listing, pageSize, current, lo);
      CeilOf(|listing|, pageSize, current);
      assert server(current - 1) == Page(|listing|, listing[lo..hi]);
      JudgeStatic(listing, pageSize, current, lo, hi, total);
      if hi < |listing| {
        StaticFrom(listing, server, pageSize, current + 1, hi, |listing|);
      }
    }
  }

  /**
   * On an unchanging table a read whose requests succeed returns exactly the table, in
   * ceil(total/pageSize) requests, one when it is empty; if a request fails it may return
   * an error instead, and never anything else.
   */
  lemma StaticReadIsComplete(listing: seq<Row>, server: Server, pageSize: int)
    requires pageSize > 0 && Distinct(listing)
    requires forall n: nat :: server(n).Failed? || server(n) == PageOf(listing, n, pageSize)
    ensures
      || (ReadSpec(server, pageSize).0 == ReadError && exists n: nat :: server(n).Failed?)
      || ReadSpec(server, pageSize) ==
        (Accepted(listing), if listing == [] then 1 else (|listing| + pageSize - 1) / pageSize)
  {
    assert server(0).Failed? || server(0) == PageOf(listing, 0, pageSize);
    if listing != [] {
      StaticFrom(listing, server, pageSize, 1, 0, -1);
    }
  }

  /** What acceptance says: one total on every page, that many rows, each once, each from some page. */
  lemma {:induction false} AcceptedFacts(server: Server, pageSize: int, current: nat, total: int, rows: seq<Row>)
    requires pageSize > 0 && current >= 1 && (total < 0 || current > 1) && Distinct(rows)
    ensures
      var (r, f) := ReadFrom(server, pageSize, current, total, rows);
      && f >= current
      && (r.Accepted? ==>
            && Distinct(r.rows)
            && (forall n | current - 1 <= n < f :: server(n).Page? && server(n).total == |r.rows|)
            && (total >= 0 ==> total == |r.rows|)
            && (forall x | x in r.rows :: x in rows || exists n | current - 1 <= n < f ::
              server(n).Page? && x in server(n).rows))
    decreases if total < 0 then 1 else 0, if total < 0 then 0 else MaxPages(total, pageSize) + 1 - current
  {
    var a := server(current - 1);
    var v := Judge(a, pageSize, current, total, rows);
    if a.Page? { CollectFacts(rows, a.rows); }
    if v.More? {
      AcceptedFacts(server, pageSize, current + 1, v.total, v.rows);
    }
  }

  lemma SubsetSameSize(a: set<Uuid>, b: set<Uuid>)
    requires a <= b && |a| == |b|
    ensures a == b
  {
    assert b == a + (b - a);
  }

  /** Other writers edit rows at will between requests and, besides, only insert rows, or only delete them. */
  ghost predicate OneWay(versions: nat -> seq<Row>) {
    || (forall m: nat, n: nat | m <= n :: Uuids(versions(m)) <= Uuids(versions(n)))
    || (forall m: nat, n: nat | m <= n :: Uuids(versions(n)) <= Uuids(versions(m)))
  }

  /**
   * An accepted read is exact under interference: if rows are edited arbitrarily between
   * requests and additionally only inserted, or only deleted, then the rows returned are
   * distinct and their identities are exactly the table's, the same at every request.
   */
  lemma AcceptedReadIsExact(server: Server, versions: nat -> seq<Row>, pageSize: int)
    requires pageSize > 0 && OneWay(versions) && forall n: nat :: Distinct(versions(n))
    requires forall n: nat :: server(n).Failed? || server(n) == PageOf(versions(n), n, pageSize)
    requires ReadSpec(server, pageSize).0.Accepted?
    ensures
      var (r, f) := ReadSpec(server, pageSize);
      Distinct(r.rows) && f >= 1 && forall n: nat | n < f :: Uuids(versions(n)) == Uuids(r.rows)
  {
    var (r, f) := ReadSpec(server, pageSize);
    AcceptedFacts(server, pageSize, 1, -1, []);
    UuidCount(r.rows);
    forall n: nat | n < f ensures Uuids(versions(n)) == Uuids(versions(0)) && |Uuids(versions(n))| == |r.rows| {
      assert server(n) == PageOf(versions(n), n, pageSize) && server(0) == PageOf(versions(0), 0, pageSize);
      UuidCount(versions(n));
      UuidCount(versions(0));
      if Uuids(versions(0)) <= Uuids(versions(n)) {
        SubsetSameSize(Uuids(versions(0)), Uuids(versions(n)));
      } else {
        SubsetSameSize(Uuids(versions(n)), Uuids(versions(0)));
      }
    }
    forall i | 0 <= i < |r.rows| ensures r.rows[i].uuid in Uuids(versions(0)) {
      var x := r.rows[i];
      assert x in r.rows;
      var n: nat :| n < f && server(n).Page? && x in server(n).rows;
      PageRow(versions(n), n, pageSize, x);
    }
    SubsetSameSize(Uuids(r.rows), Uuids(versions(0)));
  }

  lemma PageRow(listing: seq<Row>, n: nat, pageSize: nat, x: Row)
    requires x in PageOf(listing, n, pageSize).rows
    ensures x.uuid in Uuids(listing)
  {
    assert x in listing;
  }
}
