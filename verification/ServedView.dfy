/**
 * What is served and what is shown: after a reload the endpoint view and the served entries
 * agree, name by name and value by value (publishLocked of test/fake/fake.go, Endpoints of
 * internal/opnsense/snapshot.go, the startup check of internal/opnsense/provider.go).
 */
module ServedView {
  import opened Names
  import opened Spelling
  import opened Rows
  import opened Table
  import opened Fold
  import opened FirewallApi
  import opened TableSnapshot
  import opened Endpoints
  import opened Canonical

  // Names.

  /** Where a served entry counts: its name as the provider compares it, and its type. */
  function ServedKey(d: Served): RowKey {
    RowKey(NormaliseName(d.name), d.rr)
  }

  /** A hostname and a domain that are served under the name they are filed under. */
  predicate SpelledOut(host: string, domain: string) {
    if host == "" then Blank(domain) || GoodHost(domain)
    else GoodHost(host) && GoodHost(domain) && domain[0] !in BLANKS
  }

  /**
   * Normalising never lengthens what is left after the leading blanks, and keeps its length
   * exactly if it ends well.
   */
  lemma NormalLength(s: string)
    ensures |NormaliseName(s)| <= |TrimLeft(s)|
    ensures |NormaliseName(s)| == |TrimLeft(s)| <==> Blank(s) || GoodHost(s)
    ensures |NormaliseName(s)| == |TrimLeft(s)| ==> NormaliseName(s) == ToLower(TrimLeft(s))
    ensures TrimLeft(s) == "" <==> Blank(s)
  {
    hide TrimLeft, TrimRight, IsSpace, LowerChar, Blank, GoodHost;
    var l := TrimLeft(s);
    LeftOfBlank(s);
    TrimRightFacts(l);
    if l != "" {
      EndsAlike(s);
      EndsWell(l);
    }
  }

  lemma LeftOfBlank(s: string)
    ensures TrimLeft(s) == "" <==> Blank(s)
    ensures TrimLeft("") == ""
  {
    var a := TrimLeftParts(s);
    TrimLeftFacts(s);
    if TrimLeft(s) != "" {
      SpaceIsBlank(TrimLeft(s)[0]);
      assert s[|a|] == TrimLeft(s)[0];
    } else {
      assert a + "" == a;
    }
  }

  lemma EndsAlike(s: string)
    requires TrimLeft(s) != ""
    ensures GoodHost(s) <==> GoodHost(TrimLeft(s))
  {
    TrimLeftFacts(s);
  }

  /** Trimming the end and one final dot keeps the length exactly of a text that ends in neither. */
  lemma EndsWell(l: string)
    requires l != ""
    ensures |TrimDot(TrimRight(l))| <= |l|
    ensures |TrimDot(TrimRight(l))| == |l| <==> GoodHost(l)
    ensures |TrimDot(TrimRight(l))| == |l| ==> TrimDot(TrimRight(l)) == l
  {
    TrimRightFacts(l);
  }

  lemma {:induction false} TrimLeftAppend(s: string, c: string)
    ensures TrimLeft(s + c) == if TrimLeft(s) == "" then TrimLeft(c) else TrimLeft(s) + c
  {
    if s != "" && IsSpace(s[0]) {
      assert (s + c)[1..] == s[1..] + c;
      TrimLeftAppend(s[1..], c);
    } else if s == "" {
      assert s + c == c;
    }
  }

  /** Normalising a served text takes its final dot off and little else. */
  lemma NormalOfServed(s: string)
    ensures NormaliseName(s + ".") == ToLower(TrimLeft(s))
  {
    hide LowerChar, TrimLeft, TrimRight, TrimDot;
    TrimLeftAppend(s, ".");
    DotStays();
    EndsInDot(TrimLeft(s));
    assert "" + "." == ".";
  }

  lemma DotStays()
    ensures TrimLeft(".") == "."
  {
  }

  lemma EndsInDot(t: string)
    ensures TrimDot(TrimRight(t + ".")) == t
  {
    assert TrimRight(t + ".") == t + ".";
  }

  lemma ToLowerAppend(a: string, b: string)
    ensures ToLower(a + b) == ToLower(a) + ToLower(b)
  {
  }

  /** The name served for a hostname and a domain, as the provider compares it. */
  lemma NormalOfPair(host: string, domain: string)
    ensures
      var served := NormaliseName(ServedName(host, domain));
      if host == "" then served == ToLower(TrimLeft(domain))
      else served == ToLower(TrimLeft(host)) + "." + ToLower(domain)
  {
    if host == "" {
      NormalOfServed(domain);
    } else {
      NormalOfServed(host + "." + domain);
      assert host + "." + domain == host + ("." + domain);
      TrimLeftAppend(host, "." + domain);
      assert TrimLeft("." + domain) == "." + domain;
      ToLowerAppend(TrimLeft(host), "." + domain);
      ToLowerAppend(".", domain);
      assert ToLower(".") == ".";
      assert ToLower(TrimLeft(host)) + "." + ToLower(domain) == ToLower(TrimLeft(host)) + ("." + ToLower(domain));
    }
  }

  /** A pair is served under the name it is filed under exactly when it is spelled out. */
  lemma ServedUnderKey(host: string, domain: string)
    ensures NormaliseName(ServedName(host, domain)) == JoinName(host, domain) <==> SpelledOut(host, domain)
  {
    hide NormaliseName, ServedName, JoinName;
    NormalOfPair(host, domain);
    NormalLength(host);
    NormalLength(domain);
    JoinsExactly(host, domain);
    var h, d := NormaliseName(host), NormaliseName(domain);
    if host == "" {
      assert TrimLeft("") == "";
      assert JoinName(host, domain) == d;
      assert |ToLower(TrimLeft(domain))| == |TrimLeft(domain)|;
    } else {
      DomainLength(domain);
      NormalHost(host);
      assert |JoinName(host, domain)| <= |h| + 1 + |d|;
    }
  }

  /** A domain keeps its length when normalised exactly if it has no blank at its ends and no final dot, or is empty. */
  lemma DomainLength(domain: string)
    ensures |NormaliseName(domain)| <= |domain|
    ensures |NormaliseName(domain)| == |domain| <==> domain == "" || (GoodHost(domain) && domain[0] !in BLANKS)
    ensures |NormaliseName(domain)| == |domain| ==> NormaliseName(domain) == ToLower(domain)
  {
    hide NormaliseName;
    NormalLength(domain);
    TrimLeftFacts(domain);
    if domain != "" {
      SpaceIsBlank(domain[0]);
      SpaceIsBlank(domain[|domain| - 1]);
    }
  }

  lemma NormalHost(host: string)
    ensures GoodHost(host) ==>
      NormaliseName(host) == ToLower(TrimLeft(host)) && exists i | 0 <= i < |NormaliseName(host)| ::
        NormaliseName(host)[i] != '.'
  {
    hide NormaliseName;
    NormalLength(host);
    assert Blank(host) && host != "" ==> host[|host| - 1] in BLANKS;
    if GoodHost(host) {
      TrimLeftFacts(host);
      SpaceIsBlank(host[|host| - 1]);
      var t := TrimLeft(host);
      assert t[|t| - 1] == host[|host| - 1];
      assert LowerChar(t[|t| - 1]) != '.';
      assert NormaliseName(host)[|t| - 1] != '.';
    }
  }

  // Entries.

  /** What a row is served as at one name: TXT in quotes, MX as priority and exchanger, otherwise the server. */
  function EntryAt(r: Row, host: string, domain: string): Served {
    Served(if host == "" then domain + "." else host + "." + domain + ".", if r.ttl == "" then "3600" else r.ttl, r.rr,
           if r.rr == "TXT" then "\"" + r.txtData + "\"" else if r.rr == "MX" then r.mxPrio + " " + r.mx else r.server)
  }

  function Or(v: string, d: string): string {
    if v == "" then d else v
  }

  /** An entry of a row: at its own name, or at the name of an alias of it that is not switched off. */
  predicate EntryOf(r: Row, aliases: seq<Alias>, d: Served) {
    || d == EntryAt(r, r.hostname, r.domain)
    || exists j | 0 <= j < |aliases| ::
         && aliases[j].host == r.uuid && aliases[j].enabled != "0"
         && d == EntryAt(r, Or(aliases[j].hostname, r.hostname), Or(aliases[j].domain, r.domain))
  }

  lemma OrIs(v: string, d: string)
    ensures OrDefault(v, d) == Or(v, d)
  {
  }

  lemma EntryIs(r: Row, host: string, domain: string)
    ensures ServedAt(r, host, domain) == EntryAt(r, host, domain)
  {
  }

  lemma {:induction false} AliasEntries(r: Row, aliases: seq<Alias>, d: Served)
    ensures d in FirewallApi.ServedAliases(r, aliases) <==> exists j | 0 <= j < |aliases| ::
      && aliases[j].host == r.uuid && aliases[j].enabled != "0"
      && d == EntryAt(r, Or(aliases[j].hostname, r.hostname), Or(aliases[j].domain, r.domain))
  {
    hide EntryAt, ServedAt, Or, OrDefault;
    if aliases != [] {
      var a := aliases[|aliases| - 1];
      AliasEntries(r, aliases[..|aliases| - 1], d);
      OrIs(a.hostname, r.hostname);
      OrIs(a.domain, r.domain);
      EntryIs(r, Or(a.hostname, r.hostname), Or(a.domain, r.domain));
    }
  }

  function EntriesOf(r: Row, aliases: seq<Alias>): seq<Served> {
    if r.enabled == "0" then [] else [ServedAt(r, r.hostname, r.domain)] + FirewallApi.ServedAliases(r, aliases)
  }

  lemma RowEntries(r: Row, aliases: seq<Alias>, d: Served)
    ensures d in EntriesOf(r, aliases) <==> r.enabled != "0" && EntryOf(r, aliases, d)
  {
    hide EntryAt, ServedAt, Or, FirewallApi.ServedAliases;
    AliasEntries(r, aliases, d);
    EntryIs(r, r.hostname, r.domain);
  }

  /** A reload publishes every row that is not switched off, with its aliases, and nothing else. */
  lemma {:induction false} PublishesExactly(rows: seq<Row>, aliases: seq<Alias>, d: Served)
    ensures d in Publish(rows, aliases) <==> exists i | 0 <= i < |rows| ::
      rows[i].enabled != "0" && EntryOf(rows[i], aliases, d)
  {
    hide EntryOf, EntriesOf, Publish;
    if rows != [] {
      var front, r := rows[..|rows| - 1], rows[|rows| - 1];
      PublishesExactly(front, aliases, d);
      RowEntries(r, aliases, d);
      PublishNext(rows, aliases);
      assert rows == front + [r];
    } else {
      PublishNothing(aliases);
    }
  }

  lemma PublishNext(rows: seq<Row>, aliases: seq<Alias>)
    requires rows != []
    ensures Publish(rows, aliases) == Publish(rows[..|rows| - 1], aliases) + EntriesOf(rows[|rows| - 1], aliases)
  {
    hide ServedAt, FirewallApi.ServedAliases;
  }

  lemma PublishNothing(aliases: seq<Alias>)
    ensures Publish([], aliases) == []
  {
  }

  // Parts.

  /** A part of a row: its target and TTL at its own name, or at the name of a served alias. */
  lemma {:induction false} AliasCopies(r: Row, children: seq<Child>, p: Part)
    ensures p in AliasParts(r, children) <==> exists i | 0 <= i < |children| ::
      && children[i].enabled != "0" && children[i].enabled != ""
      && p == Part(RowKey(JoinName(Or(children[i].hostname, r.hostname), Or(children[i].domain, r.domain)), r.rr),
                   PublishedTarget(r), ParseTTL(r.ttl))
  {
    hide JoinName, PublishedTarget, ParseTTL;
    if children != [] {
      AliasCopies(r, children[..|children| - 1], p);
    }
  }

  lemma {:induction false} ChildMembers(aliases: seq<Alias>, u: Uuid, c: Child)
    ensures c in ChildrenOf(aliases, u) <==> exists j | 0 <= j < |aliases| ::
      aliases[j].host == u && c == Child(aliases[j].enabled, aliases[j].hostname, aliases[j].domain)
  {
    if aliases != [] {
      ChildMembers(aliases[..|aliases| - 1], u, c);
    }
  }

  /** The text already stands in quotes. */
  predicate Quoted(s: string) {
    |s| >= 2 && s[0] == '"' && s[|s| - 1] == '"'
  }

  /**
   * A row whose served entries the view can recognise: names spelled out, plain flags, and
   * no quotes round a TXT value.
   */
  predicate Tidy(r: Row, aliases: seq<Alias>) {
    && r.enabled != "" && !r.isAlias && SpelledOut(r.hostname, r.domain) && (r.rr == "TXT" ==> !Quoted(r.txtData))
    && forall j | 0 <= j < |aliases| && aliases[j].host == r.uuid && aliases[j].enabled != "0" ::
         aliases[j].enabled != "" && SpelledOut(Or(aliases[j].hostname, r.hostname), Or(aliases[j].domain, r.domain))
  }

  predicate AllTidy(rows: seq<Row>, aliases: seq<Alias>) {
    forall i | 0 <= i < |rows| && rows[i].enabled != "0" :: Tidy(rows[i], aliases)
  }

  /** Some part of the row counts towards k with target v. */
  predicate RowShows(r: Row, k: RowKey, v: string) {
    exists p | p in RowParts(r) :: p.key == k && p.target == v
  }

  /** Some entry of the row counts towards k with value v. */
  ghost predicate RowServes(r: Row, aliases: seq<Alias>, k: RowKey, v: string) {
    exists d :: EntryOf(r, aliases, d) && ServedKey(d) == k && d.value == v
  }

  /** The value served for a row is the target shown for it, unless a TXT value stands in quotes already. */
  lemma ValueIsTarget(r: Row, host: string, domain: string)
    ensures EntryAt(r, host, domain).value == PublishedTarget(r) <==> !(r.rr == "TXT" && Quoted(r.txtData))
  {
    if r.rr == "TXT" && Quoted(r.txtData) {
      assert |EntryAt(r, host, domain).value| == |r.txtData| + 2;
    }
  }

  lemma EntryKey(r: Row, host: string, domain: string)
    ensures SpelledOut(host, domain) ==> ServedKey(EntryAt(r, host, domain)) == RowKey(JoinName(host, domain), r.rr)
  {
    hide NormaliseName, JoinName, SpelledOut;
    ServedUnderKey(host, domain);
  }

  /** A tidy row that is switched on shows what it serves. */
  lemma TidyRow(r: Row, aliases: seq<Alias>, k: RowKey, v: string)
    requires r.enabled != "0" && Tidy(r, aliases) && Mapped(r.rr)
    ensures RowShows(WithChildren(r, aliases), k, v) <==> RowServes(r, aliases, k, v)
  {
    hide JoinName, SpelledOut, EntryAt, PublishedTarget, ParseTTL, NormaliseName, ServedKey, AliasParts, ChildrenOf;
    var w := WithChildren(r, aliases);
    if RowShows(w, k, v) {
      var p :| p in RowParts(w) && p.key == k && p.target == v;
      ShownIsServed(r, aliases, p);
    }
    if RowServes(r, aliases, k, v) {
      var d :| EntryOf(r, aliases, d) && ServedKey(d) == k && d.value == v;
      ServedIsShown(r, aliases, d);
    }
  }

  lemma ShownIsServed(r: Row, aliases: seq<Alias>, p: Part)
    requires r.enabled != "0" && Tidy(r, aliases) && Mapped(r.rr) && p in RowParts(WithChildren(r, aliases))
    ensures RowServes(r, aliases, p.key, p.target)
  {
    hide JoinName, SpelledOut, EntryAt, PublishedTarget, ParseTTL, NormaliseName, ServedKey, AliasParts, ChildrenOf;
    var w := WithChildren(r, aliases);
    assert w == r.(children := ChildrenOf(aliases, r.uuid)) &&
      PublishedTarget(w) == PublishedTarget(r) by { SameTarget(r, w); }
    if p == Part(KeyOf(w), PublishedTarget(w), ParseTTL(w.ttl)) {
      EntryKey(r, r.hostname, r.domain);
      ValueIsTarget(r, r.hostname, r.domain);
      assert EntryOf(r, aliases, EntryAt(r, r.hostname, r.domain));
    } else {
      AliasCopies(w, w.children, p);
      var i :| 0 <= i < |w.children| && w.children[i].enabled != "0" && w.children[i].enabled != ""
        && p == Part(RowKey(JoinName(Or(w.children[i].hostname, w.hostname), Or(w.children[i].domain, w.domain)), w.rr),
                     PublishedTarget(w), ParseTTL(w.ttl));
      ChildMembers(aliases, r.uuid, w.children[i]);
      var j :| 0 <= j < |aliases| && aliases[j].host == r.uuid
        && w.children[i] == Child(aliases[j].enabled, aliases[j].hostname, aliases[j].domain);
      var host, domain := Or(aliases[j].hostname, r.hostname), Or(aliases[j].domain, r.domain);
      EntryKey(r, host, domain);
      ValueIsTarget(r, host, domain);
      assert EntryOf(r, aliases, EntryAt(r, host, domain));
    }
  }

  lemma SameTarget(r: Row, w: Row)
    requires w == r.(children := w.children)
    ensures PublishedTarget(w) == PublishedTarget(r)
  {
  }

  lemma ServedIsShown(r: Row, aliases: seq<Alias>, d: Served)
    requires r.enabled != "0" && Tidy(r, aliases) && Mapped(r.rr) && EntryOf(r, aliases, d)
    ensures RowShows(WithChildren(r, aliases), ServedKey(d), d.value)
  {
    hide JoinName, SpelledOut, EntryAt, PublishedTarget, ParseTTL, NormaliseName, ServedKey, AliasParts, ChildrenOf;
    var w := WithChildren(r, aliases);
    SameTarget(r, w);
    if d == EntryAt(r, r.hostname, r.domain) {
      EntryKey(r, r.hostname, r.domain);
      ValueIsTarget(r, r.hostname, r.domain);
      assert Part(KeyOf(w), PublishedTarget(w), ParseTTL(w.ttl)) in RowParts(w);
    } else {
      var j :| 0 <= j < |aliases| && aliases[j].host == r.uuid && aliases[j].enabled != "0"
        && d == EntryAt(r, Or(aliases[j].hostname, r.hostname), Or(aliases[j].domain, r.domain));
      var host, domain := Or(aliases[j].hostname, r.hostname), Or(aliases[j].domain, r.domain);
      var c := Child(aliases[j].enabled, aliases[j].hostname, aliases[j].domain);
      ChildMembers(aliases, r.uuid, c);
      var i :| 0 <= i < |w.children| && w.children[i] == c;
      var p := Part(RowKey(JoinName(host, domain), r.rr), PublishedTarget(r), ParseTTL(r.ttl));
      AliasCopies(w, w.children, p);
      EntryKey(r, host, domain);
      ValueIsTarget(r, host, domain);
      assert p in RowParts(w);
    }
  }

  // Tables.

  /** The rows of a listing are those of the config, with their aliases. */
  lemma ListedRow(rows: seq<Row>, aliases: seq<Alias>, listing: seq<Row>, r: Row)
    requires Distinct(rows) && Listing(listing, TableOf(rows, aliases))
    ensures r in listing <==> exists i | 0 <= i < |rows| :: r == WithChildren(rows[i], aliases)
  {
    hide ChildrenOf;
    var t := TableOf(rows, aliases);
    if r in listing {
      var j :| 0 <= j < |listing| && listing[j] == r;
      assert Some(t[r.uuid]) == RowOf(rows, aliases, r.uuid);
    }
    if i :| 0 <= i < |rows| && r == WithChildren(rows[i], aliases) {
      FoundThere(rows, i);
      assert RowOf(rows, aliases, r.uuid) == Some(r);
      assert HasUuid(listing, r.uuid);
      var j :| 0 <= j < |listing| && listing[j].uuid == r.uuid;
    }
  }

  lemma FoundThere(rows: seq<Row>, i: nat)
    requires Distinct(rows) && i < |rows|
    ensures FindIn(rows, rows[i].uuid) == i
  {
  }

  /** Some part of the listing counts towards k with target v. */
  predicate Shows(listing: seq<Row>, k: RowKey, v: string) {
    exists r | r in listing :: RowShows(r, k, v)
  }

  predicate Serves(served: seq<Served>, k: RowKey, v: string) {
    exists d | d in served :: ServedKey(d) == k && d.value == v
  }

  lemma EntriesKeepType(r: Row, aliases: seq<Alias>, d: Served)
    requires EntryOf(r, aliases, d)
    ensures d.rr == r.rr
  {
  }

  lemma HiddenShowsNothing(r: Row, k: RowKey, v: string)
    ensures r.enabled == "0" || !Mapped(r.rr) ==> !RowShows(r, k, v)
  {
  }

  lemma PartsKeepType(r: Row, k: RowKey, v: string)
    requires RowShows(r, k, v)
    ensures k.rr == r.rr
  {
    hide JoinName, PublishedTarget, ParseTTL;
    var p :| p in RowParts(r) && p.key == k && p.target == v;
    AliasCopies(r, r.children, p);
  }

  /** After a reload of a tidy config the view and the firewall agree on every name, type and value. */
  lemma ShownIsWhatIsServed(rows: seq<Row>, aliases: seq<Alias>, listing: seq<Row>, k: RowKey, v: string)
    requires Distinct(rows) && Listing(listing, TableOf(rows, aliases)) && AllTidy(rows, aliases) && Mapped(k.rr)
    ensures Shows(listing, k, v) <==> Serves(Publish(rows, aliases), k, v)
  {
    hide RowShows, RowServes, Listing, TableOf, ServedKey, EntryOf, Tidy, ChildrenOf, Publish, Mapped;
    if Shows(listing, k, v) {
      var w :| w in listing && RowShows(w, k, v);
      ListedRow(rows, aliases, listing, w);
      var i :| 0 <= i < |rows| && w == WithChildren(rows[i], aliases);
      HiddenShowsNothing(w, k, v);
      TidyRow(rows[i], aliases, k, v);
      RowIsServed(rows, aliases, i, k, v);
    }
    if Serves(Publish(rows, aliases), k, v) {
      var d :| d in Publish(rows, aliases) && ServedKey(d) == k && d.value == v;
      PublishesExactly(rows, aliases, d);
      var i :| 0 <= i < |rows| && rows[i].enabled != "0" && EntryOf(rows[i], aliases, d);
      ServedByRow(rows[i], aliases, d, k, v);
      TidyRow(rows[i], aliases, k, v);
      ListedRow(rows, aliases, listing, WithChildren(rows[i], aliases));
    }
  }

  lemma ServedByRow(r: Row, aliases: seq<Alias>, d: Served, k: RowKey, v: string)
    requires EntryOf(r, aliases, d) && ServedKey(d) == k && d.value == v
    ensures r.rr == k.rr && RowServes(r, aliases, k, v)
  {
    hide NormaliseName, EntryOf;
    EntriesKeepType(r, aliases, d);
  }

  lemma RowIsServed(rows: seq<Row>, aliases: seq<Alias>, i: nat, k: RowKey, v: string)
    requires i < |rows| && rows[i].enabled != "0" && RowServes(rows[i], aliases, k, v)
    ensures Serves(Publish(rows, aliases), k, v)
  {
    hide EntryOf, ServedKey, Publish;
    var d :| EntryOf(rows[i], aliases, d) && ServedKey(d) == k && d.value == v;
    PublishesExactly(rows, aliases, d);
  }

  /** The record types the provider shows. */
  predicate ShownType(rr: string) {
    rr == "A" || rr == "AAAA" || rr == "TXT" || rr == "MX"
  }

  /** The endpoints show what is served: one for each name and type served, with exactly the values served there. */
  ghost predicate ShowsServed(out: seq<Endpoint>, served: seq<Served>) {
    && (forall e | e in out :: ShownType(e.recordType) && forall v :: v in e.targets <==>
      Serves(served, EndpointKey(e), v))
    && (forall d | d in served && ShownType(d.rr) :: exists e | e in out :: EndpointKey(e) == ServedKey(d))
  }

  lemma ShowsAPart(listing: seq<Row>, k: RowKey, v: string)
    ensures Shows(listing, k, v) <==> exists p | p in Parts(listing) :: p.key == k && p.target == v
  {
    hide RowParts, Parts;
    if Shows(listing, k, v) {
      var r :| r in listing && RowShows(r, k, v);
      var p :| p in RowParts(r) && p.key == k && p.target == v;
      PartsMembers(listing, p);
    }
    if p :| p in Parts(listing) && p.key == k && p.target == v {
      PartsMembers(listing, p);
    }
  }

  lemma PartIsMapped(listing: seq<Row>, p: Part)
    requires p in Parts(listing)
    ensures Mapped(p.key.rr)
  {
    hide Parts, RowParts;
    PartsMembers(listing, p);
    var r :| r in listing && p in RowParts(r);
    PartsKeepType(r, p.key, p.target);
    HiddenShowsNothing(r, p.key, p.target);
  }

  /** The view of a tidy config that has just been published shows what is served. */
  lemma ViewIsServed(rows: seq<Row>, aliases: seq<Alias>, listing: seq<Row>)
    requires Distinct(rows) && Listing(listing, TableOf(rows, aliases)) && AllTidy(rows, aliases)
    ensures ShowsServed(EndpointsOf(listing), Publish(rows, aliases))
  {
    hide EndpointsOf, Publish, Listing, TableOf, Parts, Serves, Shows, AllTidy, ServedKey, EndpointKey, Keys;
    var out, served := EndpointsOf(listing), Publish(rows, aliases);
    forall e | e in out ensures ShownType(e.recordType) && forall v :: v in e.targets <==>
      Serves(served, EndpointKey(e), v)
    {
      EndpointShows(rows, aliases, listing, e);
    }
    forall d | d in served && ShownType(d.rr) ensures exists e | e in out :: EndpointKey(e) == ServedKey(d) {
      ServedHasEndpoint(rows, aliases, listing, d);
    }
  }

  lemma EndpointShows(rows: seq<Row>, aliases: seq<Alias>, listing: seq<Row>, e: Endpoint)
    requires Distinct(rows) && Listing(listing, TableOf(rows, aliases)) && AllTidy(rows, aliases)
    requires e in EndpointsOf(listing)
    ensures Mapped(e.recordType)
    ensures forall v :: v in e.targets <==> Serves(Publish(rows, aliases), EndpointKey(e), v)
  {
    hide EndpointsOf, Publish, Listing, TableOf, Parts, Serves, Shows, AllTidy, Mapped;
    var i :| 0 <= i < |EndpointsOf(listing)| && EndpointsOf(listing)[i] == e;
    EndpointIsCanonical(listing, i);
    assert e.targets[0] in e.targets;
    var p :| p in Parts(listing) && p.key == EndpointKey(e) && p.target == e.targets[0];
    PartIsMapped(listing, p);
    forall v ensures v in e.targets <==> Serves(Publish(rows, aliases), EndpointKey(e), v) {
      ShowsAPart(listing, EndpointKey(e), v);
      ShownIsWhatIsServed(rows, aliases, listing, EndpointKey(e), v);
    }
  }

  lemma ServedHasEndpoint(rows: seq<Row>, aliases: seq<Alias>, listing: seq<Row>, d: Served)
    requires Distinct(rows) && Listing(listing, TableOf(rows, aliases)) && AllTidy(rows, aliases)
    requires d in Publish(rows, aliases) && Mapped(d.rr)
    ensures exists e | e in EndpointsOf(listing) :: EndpointKey(e) == ServedKey(d)
  {
    hide EndpointsOf, Publish, Listing, TableOf, Parts, Shows, AllTidy, Mapped, NormaliseName;
    var k := ServedKey(d);
    assert Serves(Publish(rows, aliases), k, d.value);
    ShownIsWhatIsServed(rows, aliases, listing, k, d.value);
    ShowsAPart(listing, k, d.value);
    var p :| p in Parts(listing) && p.key == k && p.target == d.value;
    KeysIncrease(listing);
    assert k in Keys(Parts(listing));
    var i :| 0 <= i < |EndpointsOf(listing)| && EndpointKey(EndpointsOf(listing)[i]) == k;
    assert EndpointsOf(listing)[i] in EndpointsOf(listing);
  }

  /**
   * After a reload every row that is switched on and spelled out is served at its own name
   * and type, with its own value.
   */
  lemma RowIsPublished(rows: seq<Row>, aliases: seq<Alias>, i: nat)
    requires i < |rows| && Visible(rows[i]) && SpelledOut(rows[i].hostname, rows[i].domain)
    ensures
      var r := rows[i];
      Serves(Publish(rows, aliases), KeyOf(r), EntryAt(r, r.hostname, r.domain).value)
  {
    hide Publish, JoinName, SpelledOut, NormaliseName, EntryAt, ServedKey;
    var r := rows[i];
    var d := EntryAt(r, r.hostname, r.domain);
    EntryKey(r, r.hostname, r.domain);
    PublishesExactly(rows, aliases, d);
  }

  /** The same of its aliases that are switched on, each at the name it has or takes over. */
  lemma AliasIsPublished(rows: seq<Row>, aliases: seq<Alias>, i: nat, j: nat)
    requires i < |rows| && Visible(rows[i]) && j < |aliases|
    requires aliases[j].host == rows[i].uuid && IsEnabled(aliases[j].enabled)
    requires SpelledOut(Or(aliases[j].hostname, rows[i].hostname), Or(aliases[j].domain, rows[i].domain))
    ensures
      var r, host, domain := rows[i], Or(aliases[j].hostname, rows[i].hostname), Or(aliases[j].domain, rows[i].domain);
      Serves(Publish(rows, aliases), RowKey(JoinName(host, domain), r.rr), EntryAt(r, r.hostname, r.domain).value)
  {
    hide Publish, JoinName, SpelledOut, NormaliseName, ServedKey;
    var r, host, domain := rows[i], Or(aliases[j].hostname, rows[i].hostname), Or(aliases[j].domain, rows[i].domain);
    EntryKey(r, host, domain);
    PublishesExactly(rows, aliases, EntryAt(r, host, domain));
  }

  /** The row is switched on and spelled out wherever it is listed with this marker. */
  predicate ManagedSpelledOut(rows: seq<Row>, marker: string) {
    forall i | 0 <= i < |rows| && Visible(rows[i]) && rows[i].description == marker ::
      SpelledOut(rows[i].hostname, rows[i].domain)
  }
}
