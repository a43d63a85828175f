/** The provider's snapshot of the table and the index it edits in place (internal/opnsense/snapshot.go). */
module TableSnapshot {
  import opened Names
  import opened Rows
  import opened Table

  /** A row of the snapshot; a write the firewall accepts is recorded in it in place. */
  class HostRow {
    const uuid: Uuid
    const enabled: string
    const mx: string
    const mxPrio: string
    const isAlias: bool
    const children: seq<Child>
    var hostname: string
    var domain: string
    var rr: string
    var server: string
    var txtData: string
    var ttl: string
    var addPtr: string
    var description: string

    constructor (r: Row)
      ensures View() == r
    {
      uuid, enabled, mx, mxPrio, isAlias, children := r.uuid, r.enabled, r.mx, r.mxPrio, r.isAlias, r.children;
      hostname, domain, rr, server, txtData := r.hostname, r.domain, r.rr, r.server, r.txtData;
      ttl, addPtr, description := r.ttl, r.addPtr, r.description;
    }

    function View(): Row
      reads this
    {
      Row(uuid, enabled, hostname, domain, rr, server, txtData, mx, mxPrio, ttl, addPtr, description, isAlias, children)
    }

    method Write(f: Fields)
      modifies this
      ensures View() == Retargeted(old(View()), f)
    {
      hostname, domain, rr := f.hostname, f.domain, f.rr;
      server, txtData := f.server, f.txtData;
      ttl, addPtr, description := f.ttl, f.addPtr, f.description;
    }
  }

  function Views(rows: seq<HostRow>): seq<Row>
    reads rows
  {
    seq(|rows|, i requires 0 <= i < |rows| reads rows => rows[i].View())
  }

  lemma ViewsAppend(rows: seq<HostRow>, r: HostRow)
    ensures Views(rows + [r]) == Views(rows) + [r.View()]
  {
  }

  /** The rows of an entry other than u, in order. */
  function Others(entry: seq<HostRow>, u: Uuid): seq<HostRow> {
    if entry == [] then []
    else
      var r := entry[|entry| - 1];
      Others(entry[..|entry| - 1], u) + if r.uuid != u then [r] else []
  }

  lemma {:induction false} OthersViews(entry: seq<HostRow>, u: Uuid)
    ensures Views(Others(entry, u)) == Without(Views(entry), u)
  {
    if entry != [] {
      var front, r := entry[..|entry| - 1], entry[|entry| - 1];
      OthersViews(front, u);
      assert Views(entry)[..|entry| - 1] == Views(front);
      ViewsAppend(Others(front, u), r);
    }
  }

  lemma {:induction false} OthersOnce(entry: seq<HostRow>, u: Uuid)
    requires OnceEach(entry)
    ensures OnceEach(Others(entry, u))
    ensures forall r | r in Others(entry, u) :: r in entry
  {
    if entry != [] {
      var front, r := entry[..|entry| - 1], entry[|entry| - 1];
      OthersOnce(front, u);
      var others := Others(front, u);
      assert entry == front + [r];
      assert r !in front;
      assert forall i | 0 <= i < |others| :: others[i] in front;
    }
  }

  /** Part of an array, from the start: what the index holds of a key. */
  datatype Slice = Slice(slots: array<HostRow?>, len: nat)

  /** The rows a slice holds, one by one. */
  ghost predicate Holds(s: Slice, entry: seq<HostRow>)
    reads s.slots
  {
    s.len == |entry| <= s.slots.Length && forall i | 0 <= i < |entry| :: s.slots[i] == entry[i]
  }

  /** append: in place while there is room, else in an array twice as long. */
  method Append(s: Slice, ghost entry: seq<HostRow>, p: HostRow) returns (out: Slice)
    requires Holds(s, entry)
    modifies s.slots
    ensures Holds(out, entry + [p]) && (out.slots == s.slots || fresh(out.slots))
    ensures out.slots != s.slots ==> s.slots[..] == old(s.slots[..])
  {
    if s.len < s.slots.Length {
      s.slots[s.len] := p;
      return Slice(s.slots, s.len + 1);
    }
    var slots := new HostRow?[2 * s.len + 1];
    for i := 0 to s.len
      invariant forall j | 0 <= j < i :: slots[j] == entry[j]
      invariant s.slots[..] == old(s.slots[..])
    {
      slots[i] := s.slots[i];
    }
    slots[s.len] := p;
    out := Slice(slots, s.len + 1);
  }

  /**
   * remove, on the slice the index holds: the rows kept move to the front in order and the
   * tail is cleared, in the very storage every other holder of the slice looks at.
   */
  method CompactInPlace(s: Slice, ghost entry: seq<HostRow>, u: Uuid) returns (kept: nat)
    requires Holds(s, entry)
    modifies s.slots
    ensures Holds(Slice(s.slots, kept), Others(entry, u)) && kept <= s.len
    ensures forall i | kept <= i < s.len :: s.slots[i] == null
    ensures forall i | s.len <= i < s.slots.Length :: s.slots[i] == old(s.slots[i])
  {
    kept := 0;
    for i := 0 to s.len
      invariant kept == |Others(entry[..i], u)| <= i
      invariant forall j | 0 <= j < kept :: s.slots[j] == Others(entry[..i], u)[j]
      invariant forall j | i <= j < |entry| :: s.slots[j] == entry[j]
      invariant forall j | s.len <= j < s.slots.Length :: s.slots[j] == old(s.slots[j])
    {
      assert entry[..i + 1][..i] == entry[..i];
      var r := s.slots[i];
      if r.uuid != u {
        s.slots[kept] := r;
        kept := kept + 1;
      }
    }
    assert entry[..|entry|] == entry;
    ClearFrom(s, kept);
  }

  /** clear: the slots of a slice from one position on are emptied. */
  method ClearFrom(s: Slice, from: nat)
    requires from <= s.len <= s.slots.Length
    modifies s.slots
    ensures forall i | from <= i < s.len :: s.slots[i] == null
    ensures forall i | 0 <= i < s.slots.Length && !(from <= i < s.len) :: s.slots[i] == old(s.slots[i])
  {
    for i := from to s.len
      invariant forall j | from <= j < i :: s.slots[j] == null
      invariant forall j | 0 <= j < s.slots.Length && !(from <= j < i) :: s.slots[j] == old(s.slots[j])
    {
      s.slots[i] := null;
    }
  }

  lemma {:induction false} OthersBefore(entry: seq<HostRow>, u: Uuid)
    requires forall i | 0 <= i < |entry| :: entry[i].uuid != u
    ensures Others(entry, u) == entry
  {
    if entry != [] { OthersBefore(entry[..|entry| - 1], u); }
  }

  /**
   * Removing the row at position i moves every later row one place down. In the shared
   * slice the next row then stands at i, which a walk of the slice itself would pass by:
   * removeSurplus has to walk a copy.
   */
  lemma {:induction false} RemovalShifts(entry: seq<HostRow>, i: nat)
    requires i < |entry| && forall j | 0 <= j < |entry| && j != i :: entry[j].uuid != entry[i].uuid
    ensures Others(entry, entry[i].uuid) == entry[..i] + entry[i + 1..]
    ensures i + 1 < |entry| ==> Others(entry, entry[i].uuid)[i] == entry[i + 1]
  {
    var front, last := entry[..|entry| - 1], entry[|entry| - 1];
    if i == |entry| - 1 {
      OthersBefore(front, entry[i].uuid);
    } else {
      RemovalShifts(front, i);
      assert entry[i + 1..] == front[i + 1..] + [last];
    }
  }

  lemma OnceMore(entry: seq<HostRow>, p: HostRow)
    ensures OnceEach(entry) && p !in entry ==> OnceEach(entry + [p])
    ensures OnceEach([])
  {
  }

  predicate OnceEach(rows: seq<HostRow>) {
    forall i, j | 0 <= i < j < |rows| :: rows[i] != rows[j]
  }

  /** Filing a row under its key; hidden rows and aliases are left out. */
  function Filed(index: Index, r: Row): Index {
    if Visible(r) then index[KeyOf(r) := RowsAt(index, KeyOf(r)) + [r]] else index
  }

  /** The index of a listing. */
  function IndexOf(listing: seq<Row>): Index {
    if listing == [] then map[] else Filed(IndexOf(listing[..|listing| - 1]), listing[|listing| - 1])
  }

  class Snapshot {
    var rows: seq<HostRow>
    var byKey: map<RowKey, Slice>
    /** The rows of each slice. */
    ghost var entries: map<RowKey, seq<HostRow>>
    /** The rows the snapshot owns. */
    ghost var owned: set<HostRow>
    /** The arrays the slices are part of. */
    ghost var arrays: set<array<HostRow?>>
    /** The entry each indexed row hangs off. */
    ghost var home: map<HostRow, RowKey>

    /** Every row belongs to the snapshot and hangs off one place of the index at most. */
    ghost predicate Filing()
      reads this
    {
      && (forall k, i | k in entries && 0 <= i < |entries[k]| ::
        entries[k][i] in owned && entries[k][i] in home && home[entries[k][i]] == k)
      && (forall k | k in entries :: OnceEach(entries[k]))
      && home.Keys <= owned
      && (forall i | 0 <= i < |rows| :: rows[i] in owned)
    }

    /** The slices hold the entries, each in an array of its own. */
    ghost predicate Stored()
      reads this`byKey, this`entries, this`arrays, arrays
    {
      && byKey.Keys == entries.Keys
      && (forall k | k in byKey :: byKey[k].slots in arrays && Holds(byKey[k], entries[k]))
      && (forall k, l | k in byKey && l in byKey && k != l :: byKey[k].slots != byKey[l].slots)
    }

    ghost predicate Valid()
      reads this, arrays
    {
      Filing() && Stored()
    }

    /** Rows and arrays come, and those that come are new. */
    twostate predicate Grown()
      reads this
    {
      && owned >= old(owned) && (forall r | r in owned && r !in old(owned) :: fresh(r))
      && arrays >= old(arrays) && (forall a | a in arrays && a !in old(arrays) :: fresh(a))
    }

    /** No row or array has come. */
    twostate predicate Same()
      reads this
    {
      owned == old(owned) && arrays == old(arrays)
    }

    /** The index as values. */
    ghost function Index(): Index
      requires Filing()
      reads this, owned
    {
      map k | k in entries :: Views(entries[k])
    }

    /** buildSnapshot: one pass over the listing, indexing as it goes. */
    constructor (listing: seq<Row>)
      ensures Valid() && fresh(owned) && fresh(arrays) && Index() == IndexOf(listing)
      ensures |rows| == |listing| && Views(rows) == listing
    {
      hide Filed, OnceEach, Holds;
      rows, byKey, entries, owned, arrays, home := [], map[], map[], {}, {}, map[];
      new;
      for i := 0 to |listing|
        invariant Valid() && fresh(owned) && fresh(arrays) && |rows| == i && Views(rows) == listing[..i]
        invariant Index() == IndexOf(listing[..i])
      {
        assert listing[..i + 1][..i] == listing[..i];
        Add(listing[i]);
      }
      assert listing[..|listing|] == listing;
    }

    /** The rows filed under a key. */
    ghost function RowsFor(k: RowKey): seq<HostRow>
      reads this
    {
      if k in entries then entries[k] else []
    }

    /** rowsFor, copied: what a caller may walk while rows are removed. */
    method CopyRows(k: RowKey) returns (copy: seq<HostRow>)
      requires Valid()
      ensures copy == RowsFor(k)
    {
      copy := [];
      if k in byKey {
        for i := 0 to byKey[k].len
          invariant copy == entries[k][..i]
        {
          copy := copy + [byKey[k].slots[i]];
        }
      }
    }

    /** An entry of the index, before and after any change, is what its rows show. */
    lemma EntryViews(k: RowKey)
      requires Filing()
      ensures RowsAt(Index(), k) == Views(RowsFor(k))
    {
    }

    lemma IndexIs(before: Index, k: RowKey, rows: seq<Row>)
      requires Filing() && entries.Keys == before.Keys + {k} && Views(entries[k]) == rows
      requires forall l | l in before && l != k :: Views(entries[l]) == before[l]
      ensures Index() == before[k := rows]
    {
    }

    /** The slices other than k's hold their entries, and none of them is part of array a. */
    ghost predicate StoredBut(k: RowKey, a: array<HostRow?>)
      reads this, arrays
    {
      && byKey.Keys == entries.Keys
      && (forall l | l in byKey && l != k ::
        byKey[l].slots in arrays && byKey[l].slots != a && Holds(byKey[l], entries[l]))
      && (forall l, m | l in byKey && m in byKey && l != k && m != k && l != m :: byKey[l].slots != byKey[m].slots)
    }

    /** The slice of a key, an empty one if it has none. */
    method SliceOf(k: RowKey) returns (s: Slice)
      requires Stored()
      ensures Holds(s, RowsFor(k)) && StoredBut(k, s.slots)
      ensures s.slots in arrays || fresh(s.slots)
    {
      if k in byKey {
        return byKey[k];
      }
      var none := new HostRow?[0];
      s := Slice(none, 0);
    }

    method Store(k: RowKey, s: Slice, ghost entry: seq<HostRow>)
      requires StoredBut(k, s.slots) && Holds(s, entry)
      modifies this`byKey, this`entries, this`arrays
      ensures Stored() && entries == old(entries)[k := entry] && arrays == old(arrays) + {s.slots}
    {
      byKey, entries, arrays := byKey[k := s], entries[k := entry], arrays + {s.slots};
    }

    method AppendTo(k: RowKey, p: HostRow)
      requires Stored()
      modifies this`byKey, this`entries, this`arrays, arrays
      ensures Stored() && entries == old(entries)[k := old(RowsFor(k)) + [p]]
      ensures fresh(arrays - old(arrays)) && arrays >= old(arrays)
    {
      hide Holds;
      ghost var entry := RowsFor(k);
      var s := SliceOf(k);
      s := Append(s, entry, p);
      Store(k, s, entry + [p]);
    }

    method CompactAt(k: RowKey, u: Uuid)
      requires Stored()
      modifies this`byKey, this`entries, this`arrays, arrays
      ensures Stored() && entries == old(entries)[k := Others(old(RowsFor(k)), u)]
      ensures fresh(arrays - old(arrays)) && arrays >= old(arrays)
    {
      hide Holds;
      ghost var entry := RowsFor(k);
      var s := SliceOf(k);
      var kept := CompactInPlace(s, entry, u);
      Store(k, Slice(s.slots, kept), Others(entry, u));
    }

    /** Hangs a row off the entry of a key. */
    method Place(k: RowKey, p: HostRow)
      requires Valid() && p in owned && p !in home
      modifies this`byKey, this`entries, this`home, this`arrays, arrays
      ensures Valid() && entries == old(entries)[k := old(RowsFor(k)) + [p]]
      ensures fresh(arrays - old(arrays)) && arrays >= old(arrays)
    {
      hide Stored, OnceEach;
      ghost var entry := RowsFor(k);
      OnceMore(entry, p);
      home := home[p := k];
      AppendTo(k, p);
    }

    /** index: files a row under its key; hidden rows and aliases are left out. */
    method File(p: HostRow)
      requires Valid() && p in owned && p !in home
      modifies this`byKey, this`entries, this`home, this`arrays, arrays
      ensures Valid() && Index() == Filed(old(Index()), p.View())
      ensures fresh(arrays - old(arrays)) && arrays >= old(arrays)
    {
      hide JoinName, IsEnabled, Views, Stored, OnceEach;
      if !IsEnabled(p.enabled) || p.isAlias {
        return;
      }
      var k := RowKey(JoinName(p.hostname, p.domain), p.rr);
      ghost var before, entry := Index(), RowsFor(k);
      EntryViews(k);
      Place(k, p);
      ViewsAppend(entry, p);
      IndexIs(before, k, Views(entry) + [p.View()]);
    }

    /** add: records a row at the end of its key's entry. */
    method Add(r: Row)
      requires Valid()
      modifies this, arrays
      ensures Valid() && Grown()
      ensures Index() == Filed(old(Index()), r)
      ensures |rows| == old(|rows|) + 1 && Views(rows) == old(Views(rows)) + [r]
    {
      hide Stored, Filed, OnceEach;
      ghost var before := Index();
      var p := new HostRow(r);
      ViewsAppend(rows, p);
      rows, owned := rows + [p], owned + {p};
      assert Index() == before;
      File(p);
    }

    /** remove: forgets a deleted row by compacting its key's slice in place. */
    method Remove(k: RowKey, u: Uuid)
      requires Valid()
      modifies this`byKey, this`entries, this`arrays, arrays
      ensures Valid() && fresh(arrays - old(arrays)) && arrays >= old(arrays)
      ensures Index() == old(Index())[k := Without(RowsAt(old(Index()), k), u)]
    {
      hide JoinName, Visible, KeyOf, Filed, Without, Views, Stored;
      ghost var before, entry := Index(), RowsFor(k);
      EntryViews(k);
      assert OnceEach(entry);
      CompactAt(k, u);
      OthersViews(entry, u);
      OthersOnce(entry, u);
      ghost var others := Others(entry, u);
      assert forall i | 0 <= i < |others| :: others[i] in others;
      IndexIs(before, k, Views(others));
    }

    /** A row hangs off one entry only. */
    lemma OneHome(k: RowKey, l: RowKey, row: HostRow)
      requires Filing() && row in RowsFor(k) && k != l
      ensures row !in RowsFor(l)
    {
    }

    /** Records an accepted write against an indexed row; the row stays under its key. */
    method Retarget(k: RowKey, row: HostRow, f: Fields)
      requires Valid() && FieldsKey(f) == k
      requires row in RowsFor(k) && Distinct(Views(RowsFor(k)))
      modifies row
      ensures Valid() && Index() == old(Index())[k := RetargetIn(RowsAt(old(Index()), k), row.uuid, f)]
      ensures row.View() == Retargeted(old(row.View()), f)
    {
      hide Retargeted, RetargetIn, KeyOf, FieldsKey;
      ghost var before, entry, was := Index(), RowsFor(k), Views(RowsFor(k));
      row.Write(f);
      EntryRetargeted(entry, was, row, f);
      forall l | l in before && l != k ensures Views(entries[l]) == before[l] {
        OneHome(k, l, row);
      }
      IndexIs(before, k, Views(entry));
    }
  }

  lemma EntryRetargeted(entry: seq<HostRow>, was: seq<Row>, row: HostRow, f: Fields)
    requires |was| == |entry| && row in entry && Distinct(was)
    requires forall i | 0 <= i < |entry| :: was[i].uuid == entry[i].uuid
    requires forall i | 0 <= i < |entry| ::
      entry[i].View() == if entry[i] == row then Retargeted(was[i], f) else was[i]
    ensures Views(entry) == RetargetIn(was, row.uuid, f)
  {
  }

  // The index of a fresh listing.

  /** A listing shows every saved row once. */
  ghost predicate Listing(listing: seq<Row>, t: Table) {
    && Distinct(listing)
    && (forall i | 0 <= i < |listing| :: listing[i].uuid in t && t[listing[i].uuid] == listing[i])
    && (forall u | u in t :: HasUuid(listing, u))
  }

  ghost predicate FreshIndex(index: Index, listing: seq<Row>) {
    && (forall k, i | k in index && 0 <= i < |index[k]| :: index[k][i] in listing && VisibleAt(index[k][i], k))
    && (forall k :: Distinct(RowsAt(index, k)))
    && (forall r | r in listing && Visible(r) :: r in RowsAt(index, KeyOf(r)))
  }

  lemma FiledFacts(index: Index, front: seq<Row>, r: Row)
    requires FreshIndex(index, front) && forall x | x in front :: x.uuid != r.uuid
    ensures FreshIndex(Filed(index, r), front + [r])
  {
    hide JoinName, KeyOf;
    var after := Filed(index, r);
    forall k ensures Distinct(RowsAt(after, k)) {
      assert forall i | 0 <= i < |RowsAt(index, k)| :: RowsAt(index, k)[i] in front;
    }
    forall x | x in front + [r] && Visible(x) ensures x in RowsAt(after, KeyOf(x)) {
      assert x in front || x == r;
      assert r in RowsAt(index, KeyOf(r)) + [r];
    }
  }

  lemma {:induction false} IndexOfFacts(listing: seq<Row>)
    requires Distinct(listing)
    ensures FreshIndex(IndexOf(listing), listing)
  {
    if listing != [] {
      var front, r := listing[..|listing| - 1], listing[|listing| - 1];
      IndexOfFacts(front);
      forall x | x in front ensures x.uuid != r.uuid {
        var j :| 0 <= j < |front| && front[j] == x;
        assert listing[j] == x;
      }
      FiledFacts(IndexOf(front), front, r);
      assert listing == front + [r];
    }
  }

  /** A fresh snapshot starts an apply: the pair is well-formed and every key's entry lists exactly its saved rows. */
  lemma FreshSnapshotAgrees(listing: seq<Row>, t: Table, next: Uuid)
    requires Listing(listing, t) && forall u | u in t :: t[u].uuid == u && u < next
    ensures WorldInv(World(t, IndexOf(listing), next))
    ensures forall k :: Agree(World(t, IndexOf(listing), next), k)
  {
    var index := IndexOf(listing);
    var w := World(t, index, next);
    IndexOfFacts(listing);
    forall k, i | k in index && 0 <= i < |index[k]| ensures index[k][i].uuid < next && FiledRight(t, index[k][i], k) {
      var j :| 0 <= j < |listing| && listing[j] == index[k][i];
    }
    assert WorldInv(w);
    forall k ensures Agree(w, k) {
      EntryLists(listing, t, k);
      ListsUnique(RowsAt(index, k), IndexAt(w, k), At(t, k));
    }
  }

  lemma EntryLists(listing: seq<Row>, t: Table, k: RowKey)
    requires Listing(listing, t)
    ensures Lists(RowsAt(IndexOf(listing), k), At(t, k))
  {
    var rows := RowsAt(IndexOf(listing), k);
    IndexOfFacts(listing);
    forall i | 0 <= i < |rows| ensures rows[i].uuid in At(t, k) && At(t, k)[rows[i].uuid] == CoreOf(rows[i]) {
      var j :| 0 <= j < |listing| && listing[j] == rows[i];
    }
    forall u | u in At(t, k) ensures HasUuid(rows, u) {
      var j :| 0 <= j < |listing| && listing[j].uuid == u;
      assert listing[j] in listing;
      assert listing[j] in rows;
    }
  }
}
