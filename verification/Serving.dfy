/** Reads and the startup check of the provider (Records and servedStateCheck of internal/opnsense/provider.go). */
module Serving {
  import opened Names
  import opened Rows
  import opened Table
  import opened Fold
  import opened FirewallApi
  import opened WriteClient
  import opened TableSnapshot
  import opened WebhookProvider
  import opened Endpoints
  import opened Canonical
  import opened ServedView

  lemma ListingsAlike(a: seq<Row>, b: seq<Row>, t: Table)
    requires Listing(a, t) && Listing(b, t)
    ensures forall r :: r in a <==> r in b
  {
    forall r | r in a ensures r in b { ListedIn(a, b, t, r); }
    forall r | r in b ensures r in a { ListedIn(b, a, t, r); }
  }

  lemma ListedIn(a: seq<Row>, b: seq<Row>, t: Table, r: Row)
    requires Listing(a, t) && Listing(b, t) && r in a
    ensures r in b
  {
    var i :| 0 <= i < |a| && a[i] == r;
    assert HasUuid(b, r.uuid);
    var j :| 0 <= j < |b| && b[j].uuid == r.uuid;
  }

  /** The view of a table does not depend on the order a read lists it in. */
  lemma OneView(listing: seq<Row>, t: Table)
    requires Listing(listing, t)
    ensures forall other | Listing(other, t) :: EndpointsOf(other) == EndpointsOf(listing)
  {
    forall other | Listing(other, t) ensures EndpointsOf(other) == EndpointsOf(listing) {
      ListingsAlike(other, listing, t);
      EndpointsIgnoreOrder(other, listing);
    }
  }

  /**
   * Records: a pending reload comes first, so the table returned is the table served. Any
   * error cost a fault, and the saved table is not touched.
   */
  method Records(p: Provider) returns (r: Option<seq<Endpoint>>)
    requires p.Valid()
    modifies p`pending, p.client.fw`served, p.client.fw`faults, p.client.fw`struck
    ensures p.Valid() && (old(p.Covered()) ==> p.Covered())
    ensures p.client.fw.Saved() == old(p.client.fw.Saved())
    ensures r.None? ==> p.client.fw.struck > old(p.client.fw.struck)
    ensures r.Some? ==> !p.pending && (old(p.Covered()) ==> p.client.fw.Published())
    ensures r.Some? ==> forall listing | Listing(listing, p.client.fw.Saved()) :: r.value == EndpointsOf(listing)
    ensures r.Some? && p.client.fw.Published() && AllTidy(p.client.fw.rows, p.client.fw.aliases) ==>
      ShowsServed(r.value, p.client.fw.served)
  {
    hide TableOf, Publish, Listing, EndpointsOf, AllTidy, ShowsServed;
    if p.pending {
      var ok := p.Reconfigure(true);
      if !ok {
        return None;
      }
    }
    var listing, _ := p.client.ReadTable(p.pageSize, p.readAttempts);
    if listing.None? {
      return None;
    }
    OneView(listing.value, p.client.fw.Saved());
    var eps, warned := EndpointsFor(listing.value);
    if AllTidy(p.client.fw.rows, p.client.fw.aliases) {
      ViewIsServed(p.client.fw.rows, p.client.fw.aliases, listing.value);
    }
    return Some(eps);
  }

  // The startup check.

  /** A row this provider wrote, as far as the marker tells. */
  predicate Managed(marker: string, r: Row) {
    Visible(r) && r.description == marker
  }

  /** The names and types served. */
  function ServedKeys(served: seq<Served>): set<RowKey> {
    set d | d in served :: ServedKey(d)
  }

  /** have: what is served, entry by entry. */
  method CollectServed(served: seq<Served>) returns (have: set<RowKey>)
    ensures have == ServedKeys(served)
  {
    have := {};
    for i := 0 to |served|
      invariant have == ServedKeys(served[..i])
    {
      assert served[..i + 1] == served[..i] + [served[i]];
      assert ServedKeys(served[..i + 1]) == ServedKeys(served[..i]) + {ServedKey(served[i])};
      have := have + {RowKey(NormaliseName(served[i].name), served[i].rr)};
    }
    assert served[..|served|] == served;
  }

  /** How many managed rows are not served at their own name and type. */
  method CountMissing(marker: string, rows: seq<Row>, have: set<RowKey>) returns (missing: nat)
    ensures missing == 0 <==> forall r | r in rows && Managed(marker, r) :: KeyOf(r) in have
  {
    missing := 0;
    for i := 0 to |rows|
      invariant missing == 0 <==> forall j | 0 <= j < i && Managed(marker, rows[j]) :: KeyOf(rows[j]) in have
    {
      var r := rows[i];
      if !IsEnabled(r.enabled) || r.isAlias || r.description != marker {
        continue;
      }
      if RowKey(JoinName(r.hostname, r.domain), r.rr) !in have {
        missing := missing + 1;
      }
    }
  }

  lemma ListedManaged(listing: seq<Row>, t: Table, marker: string, have: set<RowKey>)
    requires Listing(listing, t) && forall r | r in listing && Managed(marker, r) :: KeyOf(r) in have
    ensures forall u | u in t && Managed(marker, t[u]) :: KeyOf(t[u]) in have
  {
    forall u | u in t && Managed(marker, t[u]) ensures KeyOf(t[u]) in have {
      assert HasUuid(listing, u);
      var i :| 0 <= i < |listing| && listing[i].uuid == u;
      assert listing[i] in listing;
    }
  }

  /** After a reload no managed row that is spelled out is missing. */
  lemma NothingMissing(rows: seq<Row>, aliases: seq<Alias>, listing: seq<Row>, marker: string)
    requires Distinct(rows) && Listing(listing, TableOf(rows, aliases)) && ManagedSpelledOut(rows, marker)
    ensures forall r | r in listing && Managed(marker, r) :: KeyOf(r) in ServedKeys(Publish(rows, aliases))
  {
    hide TableOf, Publish, Listing, JoinName, SpelledOut, NormaliseName, EntryAt, ServedKey;
    forall r | r in listing && Managed(marker, r) ensures KeyOf(r) in ServedKeys(Publish(rows, aliases)) {
      ListedRow(rows, aliases, listing, r);
      var i :| 0 <= i < |rows| && r == WithChildren(rows[i], aliases);
      RowIsPublished(rows, aliases, i);
    }
  }

  /**
   * servedStateCheck: after a check without error, either every managed row is served at
   * its name and type, or everything saved has just been published.
   */
  method ServedStateCheck(p: Provider) returns (ok: bool)
    requires p.Valid()
    modifies p`pending, p.client.fw`served, p.client.fw`faults, p.client.fw`struck
    ensures p.Valid() && (old(p.Covered()) ==> p.Covered())
    ensures p.client.fw.Saved() == old(p.client.fw.Saved())
    ensures !ok ==> p.client.fw.struck > old(p.client.fw.struck)
    ensures ok ==>
      || (!p.pending && p.client.fw.Published())
      || (p.pending == old(p.pending) && p.client.fw.served == old(p.client.fw.served)
          && var t := p.client.fw.Saved();
          forall u | u in t && Managed(p.cfg.ownerMarker, t[u]) :: KeyOf(t[u]) in ServedKeys(p.client.fw.served))
    ensures ok && old(p.client.fw.Published()) && ManagedSpelledOut(p.client.fw.rows, p.cfg.ownerMarker) ==>
      p.pending == old(p.pending)
  {
    hide TableOf, Publish, Listing, ServedKeys, Managed, KeyOf, Firewall.Valid, ManagedSpelledOut;
    var listing, _ := p.client.ReadTable(p.pageSize, p.readAttempts);
    if listing.None? {
      return false;
    }
    var served := p.client.ListLocalData();
    if served.None? {
      return false;
    }
    var have := CollectServed(served.value);
    if p.client.fw.Published() && ManagedSpelledOut(p.client.fw.rows, p.cfg.ownerMarker) {
      NothingMissing(p.client.fw.rows, p.client.fw.aliases, listing.value, p.cfg.ownerMarker);
    }
    var missing := CountMissing(p.cfg.ownerMarker, listing.value, have);
    if missing == 0 {
      ListedManaged(listing.value, p.client.fw.Saved(), p.cfg.ownerMarker, have);
      return true;
    }
    p.pending := true;
    ok := p.Reconfigure(false);
  }
}
