/** The canonical endpoint view of a snapshot (group.add and Endpoints of internal/opnsense/snapshot.go). */
module Endpoints {
  import opened Names
  import opened Order
  import opened Rows
  import opened Table
  import opened Fold

  /** One row, or one alias copy of it, as it counts towards a record set. */
  datatype Part = Part(key: RowKey, target: string, ttl: nat)

  predicate Mapped(rr: string) {
    rr == TYPE_A || rr == TYPE_AAAA || rr == TYPE_TXT || rr == TYPE_MX
  }

  /** Where an alias of a row is served: what it leaves empty it inherits. */
  function AliasName(r: Row, c: Child): string {
    JoinName(OrDefault(c.hostname, r.hostname), OrDefault(c.domain, r.domain))
  }

  function AliasParts(r: Row, children: seq<Child>): seq<Part> {
    if children == [] then []
    else
      var c := children[|children| - 1];
      AliasParts(r, children[..|children| - 1])
      + if IsEnabled(c.enabled) then [Part(RowKey(AliasName(r, c), r.rr), PublishedTarget(r), ParseTTL(r.ttl))] else []
  }

  function RowParts(r: Row): seq<Part> {
    if Visible(r) && Mapped(r.rr)
    then [Part(KeyOf(r), PublishedTarget(r), ParseTTL(r.ttl))] + AliasParts(r, r.children)
    else []
  }

  function Parts(rows: seq<Row>): seq<Part> {
    if rows == [] then [] else Parts(rows[..|rows| - 1]) + RowParts(rows[|rows| - 1])
  }

  function Keys(parts: seq<Part>): set<RowKey> {
    set p | p in parts :: p.key
  }

  function PartsFor(parts: seq<Part>, k: RowKey): seq<Part> {
    if parts == [] then []
    else PartsFor(parts[..|parts| - 1], k) + if parts[|parts| - 1].key == k then [parts[|parts| - 1]] else []
  }

  function TargetSet(ps: seq<Part>): set<string> {
    set p | p in ps :: p.target
  }

  /** The smaller of two TTLs, where 0 is no TTL at all. */
  function Tighter(a: nat, b: nat): nat {
    if a == 0 then b else if b == 0 || a < b then a else b
  }

  function LeastTTL(ps: seq<Part>): nat {
    if ps == [] then 0 else Tighter(LeastTTL(ps[..|ps| - 1]), ps[|ps| - 1].ttl)
  }

  predicate Differ(ps: seq<Part>) {
    exists i, j | 0 <= i < |ps| && 0 <= j < |ps| :: ps[i].ttl != ps[j].ttl
  }

  predicate HasUnset(ps: seq<Part>) {
    exists i | 0 <= i < |ps| :: ps[i].ttl == 0
  }

  predicate KeyLess(a: RowKey, b: RowKey) {
    Less(a.name, b.name) || (a.name == b.name && Less(a.rr, b.rr))
  }

  lemma KeyLessIsStrictTotal()
    ensures StrictTotal(KeyLess)
  {
    LessIsStrictTotal();
  }

  function SortedSet(s: set<string>): seq<string> {
    LessIsStrictTotal();
    SortSet(Less, s)
  }

  lemma SortedIncrease(s: set<string>, ks: set<RowKey>)
    ensures Increasing(Less, SortedSet(s)) && Increasing(KeyLess, SortedKeys(ks))
  {
    LessIsStrictTotal();
    KeyLessIsStrictTotal();
    SortSetIncreases(Less, s);
    SortSetIncreases(KeyLess, ks);
  }

  function SortedKeys(s: set<RowKey>): seq<RowKey> {
    KeyLessIsStrictTotal();
    SortSet(KeyLess, s)
  }

  function EndpointFor(k: RowKey, ps: seq<Part>): Endpoint {
    Endpoint(k.name, k.rr, SortedSet(TargetSet(ps)), LeastTTL(ps), "")
  }

  /** The endpoints of a listing: one per record set, in order. */
  function EndpointsOf(rows: seq<Row>): seq<Endpoint> {
    var parts, ks := Parts(rows), SortedKeys(Keys(Parts(rows)));
    seq(|ks|, i requires 0 <= i < |ks| => EndpointFor(ks[i], PartsFor(parts, ks[i])))
  }

  lemma PartsForNext(parts: seq<Part>, p: Part, k: RowKey)
    ensures PartsFor(parts + [p], k) == PartsFor(parts, k) + if p.key == k then [p] else []
  {
    assert (parts + [p])[..|parts|] == parts;
  }

  lemma {:induction false} PartsForMembers(parts: seq<Part>, k: RowKey, p: Part)
    ensures p in PartsFor(parts, k) <==> p in parts && p.key == k
  {
    if parts != [] {
      PartsForMembers(parts[..|parts| - 1], k, p);
      assert parts == parts[..|parts| - 1] + [parts[|parts| - 1]];
    }
  }

  lemma LeastNext(ps: seq<Part>, p: Part)
    ensures LeastTTL(ps + [p]) == Tighter(LeastTTL(ps), p.ttl)
  {
    assert (ps + [p])[..|ps|] == ps;
  }

  /** The least TTL is explicit if any is, and then no explicit one is smaller. */
  lemma {:induction false} LeastFacts(ps: seq<Part>)
    ensures LeastTTL(ps) != 0 ==> exists i | 0 <= i < |ps| :: ps[i].ttl == LeastTTL(ps)
    ensures forall i | 0 <= i < |ps| && ps[i].ttl != 0 :: 0 < LeastTTL(ps) <= ps[i].ttl
  {
    if ps != [] {
      var front := ps[..|ps| - 1];
      LeastFacts(front);
      if LeastTTL(front) != 0 {
        var i :| 0 <= i < |front| && front[i].ttl == LeastTTL(front);
        assert ps[i] == front[i];
      }
      assert forall i | 0 <= i < |front| :: ps[i] == front[i];
    }
  }

  /** The accumulator of one record set. */
  class Group {
    var targets: seq<string>
    var seen: set<string>
    var ttl: nat
    var haveTTL: bool
    var sawUnset: bool
    var differs: bool
    /** What has been added, in order. */
    ghost var parts: seq<Part>

    ghost predicate Valid()
      reads this
    {
      && seen == TargetSet(parts) && (forall t :: t in targets <==> t in seen)
      && (forall i, j | 0 <= i < j < |targets| :: targets[i] != targets[j])
      && ttl == LeastTTL(parts) && (haveTTL <==> ttl != 0)
      && (sawUnset <==> HasUnset(parts))
      && (differs <==> Differ(parts))
    }

    constructor ()
      ensures Valid() && parts == []
    {
      targets, seen, ttl, haveTTL, sawUnset, differs, parts := [], {}, 0, false, false, false, [];
    }

    /** add: a repeated target is not listed again, but its TTL still counts. */
    method Add(ghost p: Part, target: string, ttl: nat)
      requires Valid() && p.target == target && p.ttl == ttl
      modifies this
      ensures Valid() && parts == old(parts) + [p]
    {
      hide TargetSet, LeastTTL, Differ, HasUnset;
      LeastNext(parts, p);
      DifferNext(parts, p);
      UnsetNext(parts, p);
      TargetNext(parts, p);
      parts := parts + [p];
      if target !in seen {
        seen := seen + {target};
        targets := targets + [target];
      }
      if ttl == 0 {
        sawUnset := true;
        if haveTTL {
          differs := true;
        }
        return;
      }
      if !haveTTL {
        this.ttl := ttl;
        haveTTL := true;
        if sawUnset {
          differs := true;
        }
      } else if ttl != this.ttl {
        differs := true;
        if ttl < this.ttl {
          this.ttl := ttl;
        }
      }
    }
  }

  lemma TargetNext(ps: seq<Part>, p: Part)
    ensures TargetSet(ps + [p]) == TargetSet(ps) + {p.target}
  {
  }

  lemma UnsetNext(ps: seq<Part>, p: Part)
    ensures HasUnset(ps + [p]) <==> p.ttl == 0 || HasUnset(ps)
  {
    if i :| 0 <= i < |ps| && ps[i].ttl == 0 { assert (ps + [p])[i].ttl == 0; }
    if p.ttl == 0 { assert (ps + [p])[|ps|].ttl == 0; }
  }

  lemma DifferAppend(ps: seq<Part>, p: Part)
    ensures Differ(ps + [p]) <==> Differ(ps) || exists i | 0 <= i < |ps| :: ps[i].ttl != p.ttl
  {
    var all := ps + [p];
    if i, j :| 0 <= i < |ps| && 0 <= j < |ps| && ps[i].ttl != ps[j].ttl { assert all[i].ttl != all[j].ttl; }
    if i :| 0 <= i < |ps| && ps[i].ttl != p.ttl { assert all[i].ttl != all[|ps|].ttl; }
  }

  lemma NoTTL(ps: seq<Part>)
    requires ps != [] && LeastTTL(ps) == 0
    ensures HasUnset(ps)
  {
    LeastFacts(ps);
    assert ps[0].ttl == 0;
  }

  /**
   * A part makes a set differ if it is unset among explicit ones, the first explicit one
   * among unset ones, or another explicit one.
   */
  lemma DifferNext(ps: seq<Part>, p: Part)
    ensures Differ(ps + [p]) <==>
      || Differ(ps)
      || (p.ttl == 0 && LeastTTL(ps) != 0)
      || (p.ttl != 0 && (if LeastTTL(ps) == 0 then HasUnset(ps) else p.ttl != LeastTTL(ps)))
  {
    DifferAppend(ps, p);
    LeastFacts(ps);
    if ps != [] && LeastTTL(ps) == 0 { NoTTL(ps); }
  }

  /** The groups of one call of Endpoints. */
  class Grouper {
    var groups: map<RowKey, Group>
    ghost var parts: seq<Part>

    ghost predicate Valid()
      reads this, groups.Values
    {
      && groups.Keys == Keys(parts)
      && (forall k | k in groups :: groups[k].Valid() && groups[k].parts == PartsFor(parts, k))
      && (forall k, l | k in groups && l in groups && k != l :: groups[k] != groups[l])
    }

    constructor ()
      ensures Valid() && parts == [] && groups == map[]
    {
      groups, parts := map[], [];
    }

    /** put: one contribution, into the group of its key. */
    method Put(k: RowKey, target: string, ttl: nat)
      requires Valid()
      modifies this, groups.Values
      ensures Valid() && parts == old(parts) + [Part(k, target, ttl)]
      ensures fresh(groups.Values - old(groups.Values))
    {
      hide Group.Valid, PartsFor, Keys;
      ghost var p := Part(k, target, ttl);
      forall l { PartsForNext(parts, p, l); }
      PartsForEmpty(parts, k);
      KeysNext(parts, p);
      if k !in groups {
        var g := new Group();
        groups := groups[k := g];
      }
      groups[k].Add(p, target, ttl);
      parts := parts + [p];
    }

    /** The rows of a snapshot, and their aliases, one by one. */
    method PutAll(rows: seq<Row>)
      requires Valid() && parts == []
      modifies this, groups.Values
      ensures Valid() && parts == Parts(rows)
    {
      for i := 0 to |rows|
        invariant Valid() && parts == Parts(rows[..i]) && fresh(groups.Values - old(groups.Values))
      {
        var r := rows[i];
        assert rows[..i + 1][..i] == rows[..i];
        if IsEnabled(r.enabled) && !r.isAlias && Mapped(r.rr) {
          PutRow(r);
        } else {
          assert parts + [] == parts;
        }
      }
      assert rows[..|rows|] == rows;
    }

    method PutRow(r: Row)
      requires Valid() && Visible(r) && Mapped(r.rr)
      modifies this, groups.Values
      ensures Valid() && parts == old(parts) + RowParts(r)
      ensures fresh(groups.Values - old(groups.Values))
    {
      hide Grouper.Valid, PublishedTarget, ParseTTL, JoinName, Visible, Mapped;
      var target, ttl := PublishedTarget(r), ParseTTL(r.ttl);
      Put(RowKey(JoinName(r.hostname, r.domain), r.rr), target, ttl);
      ghost var first := parts;
      for i := 0 to |r.children|
        invariant Valid() && parts == first + AliasParts(r, r.children[..i]) &&
          fresh(groups.Values - old(groups.Values))
      {
        var c := r.children[i];
        assert r.children[..i + 1][..i] == r.children[..i];
        if IsEnabled(c.enabled) {
          var host, domain := c.hostname, c.domain;
          if host == "" {
            host := r.hostname;
          }
          if domain == "" {
            domain := r.domain;
          }
          Put(RowKey(JoinName(host, domain), r.rr), target, ttl);
        }
      }
      assert r.children[..|r.children|] == r.children;
    }
  }

  lemma KeysNext(parts: seq<Part>, p: Part)
    ensures Keys(parts + [p]) == Keys(parts) + {p.key}
  {
  }

  lemma PartsForEmpty(parts: seq<Part>, k: RowKey)
    ensures k !in Keys(parts) ==> PartsFor(parts, k) == []
  {
    if k !in Keys(parts) && PartsFor(parts, k) != [] {
      PartsForMembers(parts, k, PartsFor(parts, k)[0]);
    }
  }

  /** The keys whose parts do not all have one TTL. */
  ghost function Disagreeing(parts: seq<Part>, keys: seq<RowKey>): set<RowKey> {
    set k | k in keys && Differ(PartsFor(parts, k))
  }

  lemma DisagreeingNext(parts: seq<Part>, keys: seq<RowKey>, i: nat)
    requires i < |keys|
    ensures Disagreeing(parts, keys[..i + 1]) == Disagreeing(parts, keys[..i]) + if Differ(PartsFor(parts, keys[i]))
      then {keys[i]} else {}
  {
    assert keys[..i + 1] == keys[..i] + [keys[i]];
  }

  lemma EndpointsNext(rows: seq<Row>, keys: seq<RowKey>, i: nat)
    requires keys == SortedKeys(Keys(Parts(rows))) && i < |keys|
    ensures |EndpointsOf(rows)| == |keys| && keys[i] in Keys(Parts(rows))
    ensures EndpointsOf(rows)[..i + 1] ==
      EndpointsOf(rows)[..i] + [EndpointFor(keys[i], PartsFor(Parts(rows), keys[i]))]
  {
    hide EndpointFor, PartsFor, Parts, KeyLess, Keys;
    assert keys[i] in keys;
  }

  lemma GroupFacts(grouper: Grouper, k: RowKey)
    requires grouper.Valid() && k in grouper.groups
    ensures
      var g, ps := grouper.groups[k], PartsFor(grouper.parts, k);
      && Endpoint(k.name, k.rr, SortedSet(set t | t in g.targets), g.ttl, "") == EndpointFor(k, ps)
      && (g.differs <==> Differ(ps))
  {
    var g := grouper.groups[k];
    assert (set t | t in g.targets) == TargetSet(g.parts);
  }

  lemma AllKeys(parts: seq<Part>, keys: seq<RowKey>)
    requires keys == SortedKeys(Keys(parts))
    ensures forall k :: k in Disagreeing(parts, keys) <==> k in Keys(parts) && Differ(PartsFor(parts, k))
  {
  }

  /** Endpoints: the endpoints in order, and the keys whose rows disagree on the TTL, which are logged. */
  method EndpointsFor(rows: seq<Row>) returns (out: seq<Endpoint>, warned: set<RowKey>)
    ensures out == EndpointsOf(rows)
    ensures forall k :: k in warned <==> k in Keys(Parts(rows)) && Differ(PartsFor(Parts(rows), k))
  {
    hide Group.Valid, PartsFor, Parts, Keys, Differ, EndpointsOf, EndpointFor, SortedKeys, SortedSet, Disagreeing;
    var grouper := new Grouper();
    grouper.PutAll(rows);
    var keys := SortedKeys(grouper.groups.Keys);
    AllKeys(grouper.parts, keys);
    out, warned := [], {};
    NoEndpoints(rows, keys);
    for i := 0 to |keys|
      invariant grouper.Valid() && grouper.parts == Parts(rows) && |out| == i && |EndpointsOf(rows)| == |keys|
      invariant out == EndpointsOf(rows)[..i]
      invariant warned == Disagreeing(grouper.parts, keys[..i])
    {
      var k := keys[i];
      EndpointsNext(rows, keys, i);
      DisagreeingNext(grouper.parts, keys, i);
      GroupFacts(grouper, k);
      var g := grouper.groups[k];
      if g.differs {
        warned := warned + {k};
      }
      out := out + [Endpoint(k.name, k.rr, SortedSet(set t | t in g.targets), g.ttl, "")];
    }
    assert keys[..|keys|] == keys;
    assert EndpointsOf(rows)[..|keys|] == EndpointsOf(rows);
  }

  lemma NoEndpoints(rows: seq<Row>, keys: seq<RowKey>)
    requires keys == SortedKeys(Keys(Parts(rows)))
    ensures |EndpointsOf(rows)| == |keys| && Disagreeing(Parts(rows), keys[..0]) == {}
  {
  }
}
