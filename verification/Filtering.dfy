/**
 * Which endpoints the filter keeps, and why it drops the others (AdjustEndpoints and
 * dropReason of internal/opnsense/provider.go).
 */
module Filtering {
  import opened Names
  import opened Spelling
  import opened Rows
  import opened KeyPlan
  import opened Fold

  predicate KnownType(rr: string) {
    rr == "A" || rr == "AAAA" || rr == "TXT"
  }

  /** The name is one of the configured domains. */
  predicate AtApex(n: string, domains: seq<string>) {
    n in domains
  }

  /** The name ends in a dot and one of the configured domains. */
  ghost predicate Below(n: string, domains: seq<string>) {
    exists d, x :: d in domains && n == x + "." + d
  }

  /** One double-quoted text of 1 to 255 printable characters with no quote or backslash inside. */
  ghost predicate QuotedText(target: string) {
    exists bare :: target == "\"" + bare + "\"" && IsText(bare)
  }

  predicate IsText(bare: string) {
    1 <= |bare| <= 255 && forall i | 0 <= i < |bare| :: 32 <= bare[i] as int <= 126 && bare[i] != '"' && bare[i] != '\\'
  }

  lemma QuotedIsValid(target: string)
    ensures ValidTXT(target) <==> QuotedText(target)
    ensures ValidTXT(target) ==> IsText(BareTXT(target)) && target == "\"" + BareTXT(target) + "\""
  {
    if ValidTXT(target) {
      var bare := target[1..|target| - 1];
      assert target == "\"" + bare + "\"";
      forall i | 0 <= i < |bare| ensures 32 <= bare[i] as int <= 126 && bare[i] != '"' && bare[i] != '\\' {
        assert bare[i] == target[i + 1];
      }
    }
    if bare :| target == "\"" + bare + "\"" && IsText(bare) {
      forall i | 1 <= i < |target| - 1 ensures Printable(target[i]) { assert target[i] == bare[i - 1]; }
    }
  }

  lemma BelowMatches(n: string, d: string)
    ensures HasSuffix(n, "." + d) <==> exists x :: n == x + "." + d
  {
    if HasSuffix(n, "." + d) {
      assert n == n[..|n| - |d| - 1] + "." + d;
    }
    if x :| n == x + "." + d {
      assert n == x + ("." + d);
    }
  }

  lemma BestCases(n: string, domains: seq<string>)
    requires forall d | d in domains :: d != ""
    ensures BestDomain(n, domains) == "" <==> !AtApex(n, domains) && !Below(n, domains)
    ensures AtApex(n, domains) ==> BestDomain(n, domains) == n
    ensures BestDomain(n, domains) == n && n != "" ==> AtApex(n, domains)
  {
    hide HasSuffix;
    var best := BestDomain(n, domains);
    BelowMatches(n, best);
    if d, x :| d in domains && n == x + "." + d {
      BelowMatches(n, d);
      assert MatchesDomain(n, d);
    }
    if n in domains {
      assert MatchesDomain(n, n);
      SuffixIsShorter(n, best);
    }
  }

  lemma SuffixIsShorter(n: string, d: string)
    ensures HasSuffix(n, "." + d) ==> |d| < |n|
  {
  }

  /** A name outside every domain, at one or below one. */
  lemma SplitCases(name: string, domains: seq<string>)
    requires NormalDomains(domains)
    ensures
      var n := NormaliseName(name);
      && (SplitOf(name, domains) == ApexName <==> AtApex(n, domains))
      && (SplitOf(name, domains) == OutsideDomains <==> !AtApex(n, domains) && !Below(n, domains))
  {
    hide NormaliseName, BestDomain, Below;
    BestCases(NormaliseName(name), domains);
  }

  /** What the filter answers, reason by reason: each is given exactly in its own case, and the first case counts. */
  lemma DropsExactly(cfg: Config, e: Endpoint, name: string)
    requires NormalDomains(cfg.domains)
    ensures
      var n, r := NormaliseName(name), DropReason(cfg, e, name);
      var writable := KnownType(e.recordType) && e.setIdentifier == "";
      var named := writable && '*' !in name;
      var below := named && !AtApex(n, cfg.domains) && Below(n, cfg.domains);
      var quoted := forall t | t in e.targets :: QuotedText(t);
      && (r == Some(WrongType) <==> !KnownType(e.recordType))
      && (r == Some(HasSetIdentifier) <==> KnownType(e.recordType) && e.setIdentifier != "")
      && (r == Some(WildcardName) <==> writable && '*' in name)
      && (r == Some(Apex) <==> named && AtApex(n, cfg.domains))
      && (r == Some(OutsideDomain) <==> named && !AtApex(n, cfg.domains) && !Below(n, cfg.domains))
      && (r == Some(BadTargets) <==> below && e.recordType == "TXT" && !quoted)
      && (r == None <==> below && (e.recordType == "TXT" ==> quoted))
  {
    hide NormaliseName, SplitOf, ValidTXT, QuotedText, Below, AtApex;
    SplitCases(name, cfg.domains);
    NoOddName(name, cfg.domains);
    forall t ensures ValidTXT(t) <==> QuotedText(t) { QuotedIsValid(t); }
  }

  /** A name without a star is never refused for one. */
  lemma NoOddName(name: string, domains: seq<string>)
    requires NormalDomains(domains)
    ensures '*' !in name ==> SplitOf(name, domains) != Wildcard
  {
    WildcardSplit(name, domains);
    StarKept(name);
  }

  /**
   * Every spelling of a kept name is kept as that name: capitals, blanks at either end and
   * one final dot make no difference to what the filter returns.
   */
  lemma SpellingsAreKept(cfg: Config, e: Endpoint, s: string)
    requires Piece(e.dnsName) && Spells(s, e.dnsName)
    requires DropReason(cfg, e, e.dnsName) == None
    ensures Adjust(cfg, [e.(dnsName := s)]) == [e.(recordTTL := ClampTTL(e.recordTTL))]
  {
    hide NormaliseName, SplitOf, Spells;
    NormalisesExactly(s, e.dnsName);
    assert [e.(dnsName := s)][..0] == [];
  }
}
