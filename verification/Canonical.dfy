/** What the endpoint view promises whatever the rows are (Endpoints of internal/opnsense/snapshot.go). */
module Canonical {
  import opened Order
  import opened Rows
  import opened Fold
  import opened Endpoints

  function EndpointKey(e: Endpoint): RowKey {
    RowKey(e.dnsName, e.recordType)
  }

  /** The i-th endpoint is that of the i-th key. */
  lemma EndpointAt(rows: seq<Row>, i: nat)
    requires i < |EndpointsOf(rows)|
    ensures
      var e, k := EndpointsOf(rows)[i], EndpointKey(EndpointsOf(rows)[i]);
      && k in Keys(Parts(rows)) && k == SortedKeys(Keys(Parts(rows)))[i]
      && e == EndpointFor(k, PartsFor(Parts(rows), k))
  {
    assert SortedKeys(Keys(Parts(rows)))[i] in SortedKeys(Keys(Parts(rows)));
  }

  /** Every record set with a part has its endpoint. */
  lemma EndpointOf(rows: seq<Row>, k: RowKey) returns (i: nat)
    requires k in Keys(Parts(rows))
    ensures i < |EndpointsOf(rows)| && EndpointsOf(rows)[i] == EndpointFor(k, PartsFor(Parts(rows), k))
  {
    var keys := SortedKeys(Keys(Parts(rows)));
    i :| i < |keys| && keys[i] == k;
  }

  /** One endpoint per record set, in strictly increasing order of name and type. */
  lemma KeysIncrease(rows: seq<Row>)
    ensures forall i, j | 0 <= i < j < |EndpointsOf(rows)| ::
      var a, b := EndpointsOf(rows)[i], EndpointsOf(rows)[j];
      && KeyLess(EndpointKey(a), EndpointKey(b))
      && (Less(a.dnsName, b.dnsName) || (a.dnsName == b.dnsName && Less(a.recordType, b.recordType)))
    ensures forall k :: k in Keys(Parts(rows)) <==> exists i | 0 <= i < |EndpointsOf(rows)| ::
      EndpointKey(EndpointsOf(rows)[i]) == k
  {
    hide Less, Parts, PartsFor, LeastTTL;
    SortedIncrease({}, Keys(Parts(rows)));
    forall i | 0 <= i < |EndpointsOf(rows)|
      ensures EndpointKey(EndpointsOf(rows)[i]) == SortedKeys(Keys(Parts(rows)))[i]
    {
      EndpointAt(rows, i);
    }
    forall k | k in Keys(Parts(rows))
      ensures exists i | 0 <= i < |EndpointsOf(rows)| :: EndpointKey(EndpointsOf(rows)[i]) == k
    {
      var i := EndpointOf(rows, k);
    }
    forall i | 0 <= i < |EndpointsOf(rows)|
      ensures EndpointKey(EndpointsOf(rows)[i]) in Keys(Parts(rows)) { EndpointAt(rows, i); }
  }

  /**
   * Each endpoint is canonical: its targets strictly increase and are exactly those of its
   * parts, and its TTL is the least explicit one, 0 only when no part has one.
   */
  lemma EndpointIsCanonical(rows: seq<Row>, i: nat)
    requires i < |EndpointsOf(rows)|
    ensures
      var e, parts := EndpointsOf(rows)[i], Parts(rows);
      var k := EndpointKey(e);
      && Increasing(Less, e.targets) && e.targets != []
      && (forall t :: t in e.targets <==> exists p | p in parts :: p.key == k && p.target == t)
      && (e.recordTTL != 0 ==> exists p | p in parts :: p.key == k && p.ttl == e.recordTTL)
      && (forall p | p in parts && p.key == k && p.ttl != 0 :: 0 < e.recordTTL <= p.ttl)
  {
    hide Parts, PartsFor, LeastTTL, Less, EndpointsOf;
    EndpointAt(rows, i);
    var parts, e := Parts(rows), EndpointsOf(rows)[i];
    var k, ps := EndpointKey(e), PartsFor(Parts(rows), EndpointKey(e));
    forall p ensures p in ps <==> p in parts && p.key == k { PartsForMembers(parts, k, p); }
    LeastFacts(ps);
    SortedIncrease(TargetSet(ps), {});
    var q :| q in parts && q.key == k;
    assert q.target in TargetSet(ps) && q.target in e.targets;
    if e.recordTTL != 0 {
      var j :| 0 <= j < |ps| && ps[j].ttl == LeastTTL(ps);
      assert ps[j] in parts;
    }
    forall p | p in parts && p.key == k && p.ttl != 0 ensures 0 < e.recordTTL <= p.ttl {
      var j :| 0 <= j < |ps| && ps[j] == p;
    }
    forall t | t in e.targets ensures exists p | p in parts :: p.key == k && p.target == t {
      var p :| p in ps && p.target == t;
    }
  }

  // The order of the rows.

  lemma {:induction false} PartsMembers(rows: seq<Row>, p: Part)
    ensures p in Parts(rows) <==> exists r | r in rows :: p in RowParts(r)
  {
    if rows != [] {
      var front, last := rows[..|rows| - 1], rows[|rows| - 1];
      PartsMembers(front, p);
      assert rows == front + [last];
      assert last in rows;
    }
  }

  lemma LeastIsUnique(a: seq<Part>, b: seq<Part>)
    requires forall p :: p in a <==> p in b
    ensures LeastTTL(a) == LeastTTL(b)
  {
    LeastFacts(a);
    LeastFacts(b);
    if LeastTTL(a) != 0 {
      var i :| 0 <= i < |a| && a[i].ttl == LeastTTL(a);
      assert a[i] in b;
    }
    if LeastTTL(b) != 0 {
      var i :| 0 <= i < |b| && b[i].ttl == LeastTTL(b);
      assert b[i] in a;
    }
  }

  /** The view depends on which rows there are, not on the order in which they were read. */
  lemma EndpointsIgnoreOrder(a: seq<Row>, b: seq<Row>)
    requires forall r :: r in a <==> r in b
    ensures EndpointsOf(a) == EndpointsOf(b)
  {
    forall p ensures p in Parts(a) <==> p in Parts(b) {
      PartsMembers(a, p);
      PartsMembers(b, p);
    }
    assert Keys(Parts(a)) == Keys(Parts(b));
    forall k ensures EndpointFor(k, PartsFor(Parts(a), k)) == EndpointFor(k, PartsFor(Parts(b), k)) {
      var x, y := PartsFor(Parts(a), k), PartsFor(Parts(b), k);
      forall p ensures p in x <==> p in y {
        PartsForMembers(Parts(a), k, p);
        PartsForMembers(Parts(b), k, p);
      }
      assert TargetSet(x) == TargetSet(y);
      LeastIsUnique(x, y);
    }
  }
}
