/** Name and TTL handling (internal/opnsense/names.go), over ASCII text. */
module Names {

  const MAX_TTL: int := 2147483647
  const MAX_INT64: int := 9223372036854775807

  predicate IsSpace(c: char) {
    c == ' ' || c == '\t' || c == '\n' || c == '\r' || c == 11 as char || c == 12 as char
  }

  function LowerChar(c: char): char {
    if 'A' <= c <= 'Z' then (c as int + 32) as char else c
  }

  function ToLower(s: string): string {
    seq(|s|, i requires 0 <= i < |s| => LowerChar(s[i]))
  }

  function TrimLeft(s: string): string {
    if s != "" && IsSpace(s[0]) then TrimLeft(s[1..]) else s
  }

  function TrimRight(s: string): string {
    if s != "" && IsSpace(s[|s| - 1]) then TrimRight(s[..|s| - 1]) else s
  }

  function TrimDot(s: string): string {
    if s != "" && s[|s| - 1] == '.' then s[..|s| - 1] else s
  }

  /** Lower-cases a DNS name and trims one trailing dot. */
  function NormaliseName(s: string): string {
    ToLower(TrimDot(TrimRight(TrimLeft(s))))
  }

  predicate AllDots(s: string) {
    forall i | 0 <= i < |s| :: s[i] == '.'
  }

  /** The FQDN the provider compares on. */
  function JoinName(hostname: string, domain: string): string {
    var h0, d := NormaliseName(hostname), NormaliseName(domain);
    var h := if AllDots(h0) then "" else h0;
    if h == "" then d else if d == "" then h else h + "." + d
  }

  predicate HasSuffix(s: string, suffix: string) {
    |suffix| <= |s| && s[|s| - |suffix|..] == suffix
  }

  /** True for a name equal to the domain or below it, at a label boundary. */
  predicate MatchesDomain(name: string, domain: string) {
    name == domain || HasSuffix(name, "." + domain)
  }

  datatype SplitResult = Split(host: string, domain: string) | OutsideDomains | ApexName | Wildcard

  /** The longest of the domains that covers name; the first listed on a tie, "" if none does. */
  function BestDomain(name: string, domains: seq<string>): (best: string)
    ensures best == "" || (best in domains && MatchesDomain(name, best))
    ensures forall d | d in domains && MatchesDomain(name, d) :: |d| <= |best|
  {
    if domains == [] then ""
    else
      var front, d := domains[..|domains| - 1], domains[|domains| - 1];
      var best := BestDomain(name, front);
      assert domains == front + [d];
      if MatchesDomain(name, d) && |d| > |best| then d else best
  }

  /** What splitName answers for a name. */
  function SplitOf(name: string, domains: seq<string>): SplitResult {
    var n := NormaliseName(name);
    var best := BestDomain(n, domains);
    if best == "" then OutsideDomains
    else if n == best then ApexName
    else
      var host := n[..|n| - |best| - 1];
      if '*' in host then Wildcard else Split(host, best)
  }

  /** splitName: the loop over the configured domains and the checks after it. */
  method SplitName(name: string, domains: seq<string>) returns (r: SplitResult)
    ensures r == SplitOf(name, domains)
  {
    hide NormaliseName;
    var n := NormaliseName(name);
    var best := "";
    for i := 0 to |domains|
      invariant best == BestDomain(n, domains[..i])
    {
      var d := domains[i];
      assert domains[..i + 1][..i] == domains[..i];
      if MatchesDomain(n, d) && |d| > |best| {
        best := d;
      }
    }
    assert domains[..|domains|] == domains;
    if best == "" {
      return OutsideDomains;
    }
    if n == best {
      return ApexName;
    }
    var host := n[..|n| - |best| - 1];
    if '*' in host {
      return Wildcard;
    }
    return Split(host, best);
  }

  // Facts about normalised text.

  lemma {:induction false} TrimLeftFacts(s: string)
    ensures |TrimLeft(s)| <= |s|
    ensures TrimLeft(s) == s[|s| - |TrimLeft(s)|..]
    ensures TrimLeft(s) != "" ==> !IsSpace(TrimLeft(s)[0])
    ensures (TrimLeft(s) == s) <==> (s == "" || !IsSpace(s[0]))
  {
    if s != "" && IsSpace(s[0]) { TrimLeftFacts(s[1..]); }
  }

  lemma {:induction false} TrimRightFacts(s: string)
    ensures |TrimRight(s)| <= |s|
    ensures TrimRight(s) == s[..|TrimRight(s)|]
    ensures (TrimRight(s) == s) <==> (s == "" || !IsSpace(s[|s| - 1]))
  {
    if s != "" && IsSpace(s[|s| - 1]) { TrimRightFacts(s[..|s| - 1]); }
  }

  predicate IsLower(s: string) {
    forall i | 0 <= i < |s| :: LowerChar(s[i]) == s[i]
  }

  /** Normalising leaves a text alone exactly when it is lower-case, has no space at either end and no final dot. */
  lemma NormalForm(s: string)
    ensures |NormaliseName(s)| <= |s|
    ensures IsLower(NormaliseName(s))
    ensures NormaliseName(s) != "" ==> !IsSpace(NormaliseName(s)[0])
    ensures NormaliseName(s) == s <==>
      IsLower(s) && (s == "" || (!IsSpace(s[0]) && !IsSpace(s[|s| - 1]) && s[|s| - 1] != '.'))
  {
    var l := TrimLeft(s);
    var r := TrimRight(l);
    TrimLeftFacts(s);
    TrimRightFacts(l);
    if NormaliseName(s) == s {
      assert |l| == |s| && |r| == |s| && TrimDot(r) == r;
      assert l == s && r == s;
    }
  }

  /** Text that survives as the hostname half of a name. */
  predicate GoodHost(host: string) {
    host != "" && !IsSpace(host[|host| - 1]) && host[|host| - 1] != '.'
  }

  predicate NormalDomains(domains: seq<string>) {
    forall d | d in domains :: d != "" && NormaliseName(d) == d
  }

  lemma JoinOfGoodHost(host: string, domain: string)
    requires GoodHost(host) && IsLower(host) && !IsSpace(host[0])
    requires domain != "" && NormaliseName(domain) == domain
    ensures JoinName(host, domain) == host + "." + domain
  {
    NormalForm(host);
    assert host[|host| - 1] in host;
  }

  lemma JoinOfBadHost(host: string, domain: string)
    requires !GoodHost(host)
    requires domain != "" && NormaliseName(domain) == domain
    ensures |JoinName(host, domain)| < |host| + 1 + |domain|
  {
    NormalForm(host);
    if host != "" {
      assert NormaliseName(host) != host;
      NormaliseShrinks(host);
    }
  }

  lemma NormaliseShrinks(s: string)
    requires s != "" && (IsSpace(s[|s| - 1]) || s[|s| - 1] == '.')
    ensures |NormaliseName(s)| < |s|
  {
    var l := TrimLeft(s);
    var r := TrimRight(l);
    TrimLeftFacts(s);
    TrimRightFacts(l);
    assert |NormaliseName(s)| == |TrimDot(r)| <= |r| <= |l| <= |s|;
    if |r| == |s| {
      assert l == s && r == s;
    }
  }

  lemma SplitParts(name: string, domains: seq<string>)
    requires NormalDomains(domains) && SplitOf(name, domains).Split?
    ensures
      var s := SplitOf(name, domains);
      && s.domain in domains
      && NormaliseName(name) == s.host + "." + s.domain
      && IsLower(s.host)
      && (s.host != "" ==> !IsSpace(s.host[0]))
      && '*' !in s.host
  {
    hide NormaliseName, BestDomain;
    var s := SplitOf(name, domains);
    var n := NormaliseName(name);
    NormalForm(name);
    assert n == s.host + "." + s.domain;
    forall i | 0 <= i < |s.host| ensures LowerChar(s.host[i]) == s.host[i] && s.host[i] == n[i] { }
  }

  /**
   * Joining undoes splitting exactly when the name was already normalised and its
   * hostname half ends in neither a space nor a dot. On any other accepted name the
   * write path would build a row under a different key.
   */
  lemma JoinUndoesSplit(name: string, domains: seq<string>)
    requires NormalDomains(domains) && SplitOf(name, domains).Split?
    ensures
      var s := SplitOf(name, domains);
      JoinName(s.host, s.domain) == name <==> NormaliseName(name) == name && GoodHost(s.host)
  {
    var s := SplitOf(name, domains);
    SplitParts(name, domains);
    NormalForm(name);
    if GoodHost(s.host) {
      JoinOfGoodHost(s.host, s.domain);
    } else {
      JoinOfBadHost(s.host, s.domain);
    }
  }

  // TTLs.

  /** Unset or negative means 0; above the model's ceiling is clamped. */
  function ClampTTL(ttl: int): (r: int)
    ensures 0 <= r <= MAX_TTL
    ensures (r < ttl ==> r == MAX_TTL) && (ttl < r ==> r == 0)
  {
    if ttl <= 0 then 0 else if ttl > MAX_TTL then MAX_TTL else ttl
  }

  function DigitChar(d: int): char
    requires 0 <= d <= 9
  {
    ('0' as int + d) as char
  }

  function Decimal(n: nat): (s: string)
    ensures s != ""
  {
    if n < 10 then [DigitChar(n)] else Decimal(n / 10) + [DigitChar(n % 10)]
  }

  predicate AllDigits(s: string) {
    forall i | 0 <= i < |s| :: '0' <= s[i] <= '9'
  }

  function DigitsValue(s: string): nat
    requires AllDigits(s)
  {
    if s == "" then 0
    else DigitsValue(s[..|s| - 1]) * 10 + (s[|s| - 1] as int - '0' as int)
  }

  /** A TTL in a write body; the model treats "" as unset. */
  function TTLField(ttl: int): string {
    if ttl <= 0 then "" else Decimal(ttl)
  }

  /** A stored TTL: empty, unparsable, out of range and negative all mean unset. */
  function ParseTTL(s: string): (r: nat) {
    if s == "" then 0
    else
      var body := if s[0] == '+' || s[0] == '-' then s[1..] else s;
      if body == "" || !AllDigits(body) then 0
      else
        var v := DigitsValue(body);
        if s[0] == '-' || v > MAX_INT64 then 0 else v
  }

  lemma {:induction false} DecimalValue(n: nat)
    ensures AllDigits(Decimal(n)) && DigitsValue(Decimal(n)) == n
  {
    if n >= 10 {
      DecimalValue(n / 10);
      assert Decimal(n)[..|Decimal(n)| - 1] == Decimal(n / 10);
    } else {
      assert Decimal(n)[..0] == "";
    }
  }

  /** A clamped TTL survives the round trip through its text form. */
  lemma TTLRoundTrip(ttl: int)
    requires 0 <= ttl <= MAX_TTL
    ensures ParseTTL(TTLField(ttl)) == ttl
  {
    DecimalValue(ttl);
  }
}
