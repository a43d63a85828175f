/** From a plan to one desired set per record set (foldChanges, AdjustEndpoints and dropReason). */
module Fold {
  import opened Names
  import opened Rows
  import opened KeyPlan
  import opened Engine

  /** An external-dns endpoint. */
  datatype Endpoint = Endpoint(dnsName: string, recordType: string, targets: seq<string>, recordTTL: int,
      setIdentifier: string)

  datatype Changes = Changes(create: seq<Endpoint>, updateOld: seq<Endpoint>, updateNew: seq<Endpoint>,
      delete: seq<Endpoint>)

  datatype FoldError = BadName(why: SplitResult) | NoTargets | InvalidTXT(key: RowKey) |
      UnsupportedType(key: RowKey) | Conflict(key: RowKey)

  /** What one endpoint of the plan asks for. */
  datatype Definition = Rejected(error: FoldError) | Wants(set_: Desired)

  function KeyFor(e: Endpoint): RowKey {
    RowKey(NormaliseName(e.dnsName), e.recordType)
  }

  predicate IsAddress(rr: string) {
    rr == TYPE_A || rr == TYPE_AAAA
  }

  /** The targets of an endpoint as they are stored: bare for TXT. */
  function StoredTargets(e: Endpoint): set<string> {
    if IsAddress(e.recordType) then SetOf(e.targets) else BareSet(e.targets)
  }

  function SetOf(ts: seq<string>): set<string> {
    set t | t in ts
  }

  function BareSet(ts: seq<string>): set<string> {
    set t | t in ts && ValidTXT(t) :: BareTXT(t)
  }

  /** An endpoint of the plan, emptied if it is a delete, as one desired set or the reason it has none. */
  function DefinitionOf(cfg: Config, e: Endpoint, empty: bool): Definition {
    var k, s := KeyFor(e), SplitOf(NormaliseName(e.dnsName), cfg.domains);
    if !s.Split? then Rejected(BadName(s))
    else if empty then Wants(Desired(k, s.host, s.domain, {}, ClampTTL(e.recordTTL)))
    else if e.targets == [] then Rejected(NoTargets)
    else if IsAddress(e.recordType) then Wants(Desired(k, s.host, s.domain, StoredTargets(e), ClampTTL(e.recordTTL)))
    else if !IsTXT(e.recordType) then Rejected(UnsupportedType(k))
    else if exists t | t in e.targets :: !ValidTXT(t) then Rejected(InvalidTXT(k))
    else Wants(Desired(k, s.host, s.domain, StoredTargets(e), ClampTTL(e.recordTTL)))
  }

  function DefinitionsOf(cfg: Config, es: seq<Endpoint>, empty: bool): seq<Definition> {
    seq(|es|, i requires 0 <= i < |es| => DefinitionOf(cfg, es[i], empty))
  }

  /** The plan's definitions: deletes, then creates, then updates; the old side of an update is not consulted. */
  function PlanDefinitions(cfg: Config, c: Changes): seq<Definition> {
    DefinitionsOf(cfg, c.delete, true) + DefinitionsOf(cfg, c.create, false) + DefinitionsOf(cfg, c.updateNew, false)
  }

  datatype Folded = Folded(sets: map<RowKey, Desired>, conflicted: set<RowKey>, rejectedTXT: set<RowKey>,
      errs: seq<FoldError>)

  /** Two definitions of one key ask for the same thing. */
  predicate SameSet(a: Desired, b: Desired) {
    a.ttl == b.ttl && a.targets == b.targets
  }

  predicate IsKeyed(err: FoldError) {
    err.InvalidTXT? || err.UnsupportedType?
  }

  /** One definition folded in. A key already in conflict ignores everything said about it. */
  function FoldStep(f: Folded, d: Definition): Folded {
    match d
    case Rejected(err) =>
      if IsKeyed(err) && err.key in f.conflicted then f
      else f.(errs := f.errs + [err], rejectedTXT := f.rejectedTXT + if err.InvalidTXT? then {err.key} else {})
    case Wants(s) =>
      if s.key in f.conflicted then f
      else if s.key in f.sets && !SameSet(f.sets[s.key], s) then
        f.(sets := f.sets - {s.key}, conflicted := f.conflicted + {s.key}, errs := f.errs + [Conflict(s.key)])
      else f.(sets := f.sets[s.key := s])
  }

  function FoldOf(defs: seq<Definition>): Folded {
    if defs == [] then Folded(map[], {}, {}, [])
    else FoldStep(FoldOf(defs[..|defs| - 1]), defs[|defs| - 1])
  }

  lemma FoldNext(defs: seq<Definition>, d: Definition)
    ensures FoldOf(defs + [d]) == FoldStep(FoldOf(defs), d)
  {
    assert (defs + [d])[..|defs|] == defs;
  }

  datatype TargetsResult = Stored(targets: set<string>) | BadTXT | BadType

  function TargetsFor(e: Endpoint): TargetsResult {
    if e.targets == [] then Stored({})
    else if IsAddress(e.recordType) then Stored(StoredTargets(e))
    else if !IsTXT(e.recordType) then BadType
    else if exists t | t in e.targets :: !ValidTXT(t) then BadTXT
    else Stored(StoredTargets(e))
  }

  /** The target loop of define: it stops at the first target the type or the TXT rule refuses. */
  method ReadTargets(e: Endpoint) returns (r: TargetsResult)
    ensures r == TargetsFor(e)
  {
    var targets: set<string> := {};
    for i := 0 to |e.targets|
      invariant if i == 0 then targets == {} else IsAddress(e.recordType) || IsTXT(e.recordType)
      invariant IsTXT(e.recordType) ==> forall t | t in e.targets[..i] :: ValidTXT(t)
      invariant IsAddress(e.recordType) ==> targets == SetOf(e.targets[..i])
      invariant IsTXT(e.recordType) ==> targets == BareSet(e.targets[..i])
    {
      var t := e.targets[i];
      assert e.targets[..i + 1] == e.targets[..i] + [t];
      if IsAddress(e.recordType) {
        targets := targets + {t};
      } else if IsTXT(e.recordType) {
        var bare := ValidateTXT(t);
        if bare.None? {
          assert t in e.targets;
          return BadTXT;
        }
        targets := targets + {bare.value};
      } else {
        return BadType;
      }
    }
    assert e.targets[..|e.targets|] == e.targets;
    return Stored(targets);
  }

  /** The mutable state of one fold. */
  class Folder {
    const cfg: Config
    var sets: map<RowKey, Desired>
    var conflicted: set<RowKey>
    var rejectedTXT: set<RowKey>
    var errs: seq<FoldError>
    /** The definitions folded so far. */
    ghost var defs: seq<Definition>

    function State(): Folded
      reads this
    {
      Folded(sets, conflicted, rejectedTXT, errs)
    }

    constructor (cfg: Config)
      ensures this.cfg == cfg && defs == [] && State() == FoldOf(defs)
    {
      this.cfg, defs := cfg, [];
      sets, conflicted, rejectedTXT, errs := map[], {}, {}, [];
    }

    /** The define closure of foldChanges. */
    method Define(e: Endpoint, empty: bool)
      requires State() == FoldOf(defs)
      modifies this
      ensures State() == FoldOf(defs) && defs == old(defs) + [DefinitionOf(cfg, e, empty)]
    {
      hide NormaliseName, SplitOf, StoredTargets, ValidTXT, ClampTTL, FoldOf, SameSet;
      FoldNext(defs, DefinitionOf(cfg, e, empty));
      defs := defs + [DefinitionOf(cfg, e, empty)];
      var name := NormaliseName(e.dnsName);
      var s := SplitName(name, cfg.domains);
      if !s.Split? {
        errs := errs + [BadName(s)];
        return;
      }
      if !empty && e.targets == [] {
        errs := errs + [NoTargets];
        return;
      }
      var k := RowKey(name, e.recordType);
      if k in conflicted {
        return;
      }
      var targets: set<string> := {};
      if !empty {
        var read := ReadTargets(e);
        match read {
          case BadTXT =>
            errs := errs + [InvalidTXT(k)];
            rejectedTXT := rejectedTXT + {k};
            return;
          case BadType =>
            errs := errs + [UnsupportedType(k)];
            return;
          case Stored(ts) => targets := ts;
        }
      }
      var set_ := Desired(k, s.host, s.domain, targets, ClampTTL(e.recordTTL));
      if k in sets && !SameSet(sets[k], set_) {
        errs := errs + [Conflict(k)];
        sets := sets - {k};
        conflicted := conflicted + {k};
        return;
      }
      sets := sets[k := set_];
    }

    method DefineAll(es: seq<Endpoint>, empty: bool)
      requires State() == FoldOf(defs)
      modifies this
      ensures State() == FoldOf(defs) && defs == old(defs) + DefinitionsOf(cfg, es, empty)
    {
      hide FoldOf, DefinitionOf;
      for i := 0 to |es|
        invariant State() == FoldOf(defs) && defs == old(defs) + DefinitionsOf(cfg, es, empty)[..i]
      {
        Define(es[i], empty);
      }
    }
  }

  /** foldChanges: the desired sets, the errors, and how many keys a rejected TXT target dropped. */
  method FoldChanges(cfg: Config, changes: Changes)
      returns (sets: map<RowKey, Desired>, errs: seq<FoldError>, rejectedTXT: nat)
    ensures
      var f := FoldOf(PlanDefinitions(cfg, changes));
      sets == f.sets && errs == f.errs && rejectedTXT == |f.rejectedTXT|
  {
    var folder := new Folder(cfg);
    folder.DefineAll(changes.delete, true);
    ghost var deletes := folder.defs;
    assert deletes == DefinitionsOf(cfg, changes.delete, true);
    folder.DefineAll(changes.create, false);
    folder.DefineAll(changes.updateNew, false);
    assert folder.defs == deletes + DefinitionsOf(cfg, changes.create, false) +
      DefinitionsOf(cfg, changes.updateNew, false);
    return folder.sets, folder.errs, |folder.rejectedTXT|;
  }

  // What the fold means.

  /** The sets a list of definitions asks for at one key. */
  predicate AsksFor(defs: seq<Definition>, k: RowKey, s: Desired) {
    Wants(s) in defs && s.key == k
  }

  ghost predicate Disagree(defs: seq<Definition>, k: RowKey) {
    exists a, b :: AsksFor(defs, k, a) && AsksFor(defs, k, b) && !SameSet(a, b)
  }

  /** Definitions of one key share its host and domain, so they are equal when they ask for the same thing. */
  predicate Consistent(defs: seq<Definition>) {
    forall a, b | a in defs && b in defs && a.Wants? && b.Wants? && a.set_.key == b.set_.key ::
      a.set_.host == b.set_.host && a.set_.domain == b.set_.domain
  }

  lemma AsksForNext(defs: seq<Definition>, d: Definition, k: RowKey, s: Desired)
    ensures AsksFor(defs + [d], k, s) <==> AsksFor(defs, k, s) || (d == Wants(s) && s.key == k)
  {
  }

  /**
   * The fold, key by key: a key is in conflict exactly when two of its definitions
   * disagree; otherwise it is in the sets exactly when it has a definition, and its set
   * is what every one of its definitions asks for.
   */
  lemma {:induction false} FoldMeans(defs: seq<Definition>, k: RowKey)
    requires Consistent(defs)
    ensures k in FoldOf(defs).conflicted <==> Disagree(defs, k)
    ensures k in FoldOf(defs).sets <==> !Disagree(defs, k) && exists s :: AsksFor(defs, k, s)
    ensures k in FoldOf(defs).sets ==> AsksFor(defs, k, FoldOf(defs).sets[k])
    ensures k in FoldOf(defs).sets ==> forall s | AsksFor(defs, k, s) :: s == FoldOf(defs).sets[k]
  {
    if defs != [] {
      var front, d := defs[..|defs| - 1], defs[|defs| - 1];
      assert defs == front + [d];
      FoldMeans(front, k);
      FoldNext(front, d);
      DisagreeNext(front, d, k);
      forall s { AsksForNext(front, d, k, s); }
      if d.Wants? && d.set_.key == k {
        MeansNext(front, d.set_, k);
      }
    }
  }

  /** One more definition disagrees with the others exactly when some other one asks for something else. */
  lemma DisagreeNext(defs: seq<Definition>, d: Definition, k: RowKey)
    ensures Disagree(defs + [d], k) <==>
      Disagree(defs, k) || (d.Wants? && d.set_.key == k && exists s :: AsksFor(defs, k, s) && !SameSet(s, d.set_))
  {
    forall s { AsksForNext(defs, d, k, s); }
    if a, b :| AsksFor(defs, k, a) && AsksFor(defs, k, b) && !SameSet(a, b) {
      assert AsksFor(defs + [d], k, a) && AsksFor(defs + [d], k, b);
    }
    if d.Wants? && d.set_.key == k {
      assert AsksFor(defs + [d], k, d.set_);
      if s :| AsksFor(defs, k, s) && !SameSet(s, d.set_) {
        assert AsksFor(defs + [d], k, s);
      }
    }
  }

  /** In consistent definitions two that ask for the same thing are the same. */
  lemma MeansNext(defs: seq<Definition>, s: Desired, k: RowKey)
    requires Consistent(defs + [Wants(s)]) && s.key == k
    ensures forall x | AsksFor(defs, k, x) && SameSet(x, s) :: x == s
  {
    forall x | AsksFor(defs, k, x) && SameSet(x, s) ensures x == s {
      assert Wants(x) in defs + [Wants(s)] && Wants(s) in defs + [Wants(s)];
    }
  }

  /** What is wanted at a key is split off the key's own name, so a plan's definitions are consistent. */
  lemma WantsShape(cfg: Config, e: Endpoint, empty: bool)
    requires DefinitionOf(cfg, e, empty).Wants?
    ensures
      var s := DefinitionOf(cfg, e, empty).set_;
      && s.key == KeyFor(e) && SplitOf(s.key.name, cfg.domains) == Split(s.host, s.domain)
      && 0 <= s.ttl <= MAX_TTL && (s.targets == {} ==> empty)
  {
    if !empty {
      var t := e.targets[0];
      assert t in StoredTargets(e) || BareTXT(t) in StoredTargets(e);
    }
  }

  lemma PlanWants(cfg: Config, c: Changes, d: Definition)
    requires d in PlanDefinitions(cfg, c) && d.Wants?
    ensures SplitOf(d.set_.key.name, cfg.domains) == Split(d.set_.host, d.set_.domain) && 0 <= d.set_.ttl <= MAX_TTL
  {
    if d in DefinitionsOf(cfg, c.delete, true) {
      var i :| 0 <= i < |c.delete| && d == DefinitionOf(cfg, c.delete[i], true);
      WantsShape(cfg, c.delete[i], true);
    } else if d in DefinitionsOf(cfg, c.create, false) {
      var i :| 0 <= i < |c.create| && d == DefinitionOf(cfg, c.create[i], false);
      WantsShape(cfg, c.create[i], false);
    } else {
      var i :| 0 <= i < |c.updateNew| && d == DefinitionOf(cfg, c.updateNew[i], false);
      WantsShape(cfg, c.updateNew[i], false);
    }
  }

  lemma PlanConsistent(cfg: Config, c: Changes)
    ensures Consistent(PlanDefinitions(cfg, c))
  {
    forall d | d in PlanDefinitions(cfg, c) && d.Wants?
      ensures SplitOf(d.set_.key.name, cfg.domains) == Split(d.set_.host, d.set_.domain)
    {
      PlanWants(cfg, c, d);
    }
  }

  /** The order of a plan's definitions, and how often each is repeated, decides nothing about the sets. */
  lemma FoldIsOrderFree(a: seq<Definition>, b: seq<Definition>)
    requires Consistent(a) && forall d :: d in a <==> d in b
    ensures FoldOf(a).sets == FoldOf(b).sets && FoldOf(a).conflicted == FoldOf(b).conflicted
  {
    forall k
      ensures k in FoldOf(a).conflicted <==> k in FoldOf(b).conflicted
      ensures k in FoldOf(a).sets <==> k in FoldOf(b).sets
      ensures k in FoldOf(a).sets ==> FoldOf(a).sets[k] == FoldOf(b).sets[k]
    {
      FoldMeans(a, k);
      FoldMeans(b, k);
      forall s ensures AsksFor(a, k, s) <==> AsksFor(b, k, s) { }
      DisagreeSame(a, b, k);
    }
  }

  lemma DisagreeSame(a: seq<Definition>, b: seq<Definition>, k: RowKey)
    requires forall s :: AsksFor(a, k, s) <==> AsksFor(b, k, s)
    ensures Disagree(a, k) <==> Disagree(b, k)
  {
    if x, y :| AsksFor(a, k, x) && AsksFor(a, k, y) && !SameSet(x, y) { assert AsksFor(b, k, x) && AsksFor(b, k, y); }
    if x, y :| AsksFor(b, k, x) && AsksFor(b, k, y) && !SameSet(x, y) { assert AsksFor(a, k, x) && AsksFor(a, k, y); }
  }

  /**
   * A key counts as rejected only for an invalid TXT definition of its own, and, unless it
   * is in conflict, whenever it has one. After a conflict the count depends on the order.
   */
  lemma {:induction false} RejectedMeans(defs: seq<Definition>, k: RowKey)
    ensures k in FoldOf(defs).rejectedTXT ==> Rejected(InvalidTXT(k)) in defs
    ensures k !in FoldOf(defs).conflicted ==> (k in FoldOf(defs).rejectedTXT <==> Rejected(InvalidTXT(k)) in defs)
  {
    if defs != [] {
      var front, d := defs[..|defs| - 1], defs[|defs| - 1];
      assert defs == front + [d];
      RejectedMeans(front, k);
    }
  }

  /** A plan folds without an error exactly when every definition is accepted and no key is in conflict. */
  lemma {:induction false} FoldsCleanly(defs: seq<Definition>)
    ensures FoldOf(defs).errs == [] <==> (forall d | d in defs :: d.Wants?) && FoldOf(defs).conflicted == {}
    ensures FoldOf(defs).errs == [] ==> FoldOf(defs).rejectedTXT == {}
  {
    if defs != [] {
      var front, d := defs[..|defs| - 1], defs[|defs| - 1];
      assert defs == front + [d];
      FoldsCleanly(front);
      if d.Rejected? { assert d in defs; }
    }
  }

  /**
   * Every row the folded sets can write joins back to the key it is written for exactly
   * when the name left by one normalisation is a fixed point of it and its hostname half
   * ends in neither a space nor a dot: then, and only then, no write can move a row.
   */
  lemma FoldedSetsAreWritable(cfg: Config, c: Changes, rejected: bool)
    requires NormalDomains(cfg.domains)
    ensures
      var sets := FoldOf(PlanDefinitions(cfg, c)).sets;
      JobOk(Job(cfg, sets, rejected)) <==> forall k | k in sets ::
        NormaliseName(k.name) == k.name && GoodHost(sets[k].host)
  {
    var defs := PlanDefinitions(cfg, c);
    var sets := FoldOf(defs).sets;
    PlanConsistent(cfg, c);
    forall k | k in sets ensures SetOk(sets[k], k) <==> NormaliseName(k.name) == k.name && GoodHost(sets[k].host) {
      FoldMeans(defs, k);
      PlanWants(cfg, c, Wants(sets[k]));
      JoinUndoesSplit(k.name, cfg.domains);
    }
  }

  /** The folded plan. */
  function JobOf(cfg: Config, changes: Changes): Job {
    var f := FoldOf(PlanDefinitions(cfg, changes));
    Job(cfg, f.sets, f.rejectedTXT != {})
  }

  lemma FoldedIsJob(cfg: Config, changes: Changes, rejected: nat)
    requires rejected == |FoldOf(PlanDefinitions(cfg, changes)).rejectedTXT|
    ensures JobOf(cfg, changes) == Job(cfg, FoldOf(PlanDefinitions(cfg, changes)).sets, rejected > 0)
    ensures rejected > 0 ==> FoldOf(PlanDefinitions(cfg, changes)).errs != []
  {
    FoldsCleanly(PlanDefinitions(cfg, changes));
  }

  // The filter external-dns sees.

  datatype Drop = WrongType | HasSetIdentifier | WildcardName | Apex | OutsideDomain | OddName | BadTargets

  /** Why an endpoint cannot be written, or None when it can. */
  function DropReason(cfg: Config, e: Endpoint, name: string): Option<Drop> {
    if e.recordType != TYPE_A && e.recordType != TYPE_AAAA && e.recordType != TYPE_TXT then Some(WrongType)
    else if e.setIdentifier != "" then Some(HasSetIdentifier)
    else if '*' in name then Some(WildcardName)
    else
      match SplitOf(name, cfg.domains)
      case ApexName => Some(Apex)
      case OutsideDomains => Some(OutsideDomain)
      case Wildcard => Some(OddName)
      case Split(_, _) =>
        if e.recordType == TYPE_TXT && exists t | t in e.targets :: !ValidTXT(t) then Some(BadTargets) else None
  }

  function Adjusted(e: Endpoint): Endpoint {
    e.(dnsName := NormaliseName(e.dnsName), recordTTL := ClampTTL(e.recordTTL))
  }

  function Adjust(cfg: Config, es: seq<Endpoint>): seq<Endpoint> {
    if es == [] then []
    else
      var e := es[|es| - 1];
      Adjust(cfg, es[..|es| - 1]) + if DropReason(cfg, e, NormaliseName(e.dnsName)).None? then [Adjusted(e)] else []
  }

  method AllValidTXT(targets: seq<string>) returns (ok: bool)
    ensures ok <==> forall t | t in targets :: ValidTXT(t)
  {
    for i := 0 to |targets|
      invariant forall j | 0 <= j < i :: ValidTXT(targets[j])
    {
      var bare := ValidateTXT(targets[i]);
      if bare.None? {
        assert targets[i] in targets;
        return false;
      }
    }
    return true;
  }

  /** dropReason: the checks in order, the TXT targets one by one. */
  method DropReasonFor(cfg: Config, e: Endpoint, name: string) returns (r: Option<Drop>)
    ensures r == DropReason(cfg, e, name)
  {
    if e.recordType != TYPE_A && e.recordType != TYPE_AAAA && e.recordType != TYPE_TXT {
      return Some(WrongType);
    }
    if e.setIdentifier != "" {
      return Some(HasSetIdentifier);
    }
    if '*' in name {
      return Some(WildcardName);
    }
    var s := SplitName(name, cfg.domains);
    match s {
      case ApexName => return Some(Apex);
      case OutsideDomains => return Some(OutsideDomain);
      case Wildcard => return Some(OddName);
      case Split(_, _) =>
    }
    if e.recordType == TYPE_TXT {
      var ok := AllValidTXT(e.targets);
      if !ok {
        return Some(BadTargets);
      }
    }
    return None;
  }

  /** AdjustEndpoints: what can be written, canonical, in the order given. */
  method AdjustEndpoints(cfg: Config, es: seq<Endpoint>) returns (out: seq<Endpoint>)
    ensures out == Adjust(cfg, es)
  {
    out := [];
    for i := 0 to |es|
      invariant out == Adjust(cfg, es[..i])
    {
      assert es[..i + 1][..i] == es[..i];
      var name := NormaliseName(es[i].dnsName);
      var reason := DropReasonFor(cfg, es[i], name);
      if reason.None? {
        out := out + [es[i].(dnsName := name, recordTTL := ClampTTL(es[i].recordTTL))];
      }
    }
    assert es[..|es|] == es;
  }

  lemma Normalised(s: string)
    ensures IsLower(NormaliseName(s)) && (NormaliseName(s) != "" ==> !IsSpace(NormaliseName(s)[0]))
  {
    NormalForm(s);
  }

  /** A name under a normal domain is a fixed point once normalised twice. */
  lemma NormalUnderDomain(name: string, d: string)
    requires d != "" && NormaliseName(d) == d && MatchesDomain(NormaliseName(name), d)
    ensures NormaliseName(NormaliseName(name)) == NormaliseName(name)
  {
    var n := NormaliseName(name);
    Normalised(name);
    NormalForm(d);
    NormalForm(n);
    assert n[|n| - 1] == d[|d| - 1];
  }

  /** Splitting is not changed by one more normalisation of a name that normalises to something under a domain. */
  lemma SplitStable(name: string, domains: seq<string>)
    requires NormalDomains(domains) && BestDomain(NormaliseName(name), domains) != ""
    ensures SplitOf(NormaliseName(name), domains) == SplitOf(name, domains)
  {
    NormalUnderDomain(name, BestDomain(NormaliseName(name), domains));
  }

  lemma WildcardSplit(name: string, domains: seq<string>)
    requires NormalDomains(domains)
    ensures SplitOf(name, domains) == Wildcard ==> '*' in NormaliseName(name)
    ensures SplitOf(name, domains).Split? && (forall d | d in domains :: '*' !in d) ==> '*' !in NormaliseName(name)
  {
    var n, best := NormaliseName(name), BestDomain(NormaliseName(name), domains);
    if best != "" && n != best {
      assert n == n[..|n| - |best| - 1] + "." + best;
    }
  }

  lemma StarKept(s: string)
    ensures '*' in NormaliseName(s) ==> '*' in s
  {
    var l := TrimLeft(s);
    TrimLeftFacts(s);
    TrimRightFacts(l);
    if i :| 0 <= i < |NormaliseName(s)| && NormaliseName(s)[i] == '*' {
      assert TrimDot(TrimRight(l))[i] == '*' == l[i];
      assert l[i] in s;
    }
  }

  /**
   * What the filter keeps, the fold accepts: a kept endpoint that has targets is one
   * desired set under its own key, with its own stored targets and clamped TTL. The reason
   * reserved for odd names is never given.
   */
  lemma KeptIsAccepted(cfg: Config, e: Endpoint)
    requires NormalDomains(cfg.domains)
    ensures DropReason(cfg, e, NormaliseName(e.dnsName)) != Some(OddName)
    ensures DropReason(cfg, e, NormaliseName(e.dnsName)).None? && e.targets != [] ==>
      var d := DefinitionOf(cfg, Adjusted(e), false);
      && d.Wants? && d.set_.targets == StoredTargets(e) && d.set_.ttl == ClampTTL(e.recordTTL)
      && d.set_.key.rr == e.recordType && NormaliseName(d.set_.key.name) == d.set_.key.name
      && SplitOf(NormaliseName(e.dnsName), cfg.domains) == Split(d.set_.host, d.set_.domain)
  {
    hide NormaliseName, ValidTXT, BestDomain, MatchesDomain;
    var name := NormaliseName(e.dnsName);
    WildcardSplit(name, cfg.domains);
    StarKept(name);
    if SplitOf(name, cfg.domains).Split? {
      SplitStable(name, cfg.domains);
      NormalUnderDomain(name, BestDomain(NormaliseName(name), cfg.domains));
    }
  }

  /**
   * What the filter drops for any reason but a set identifier, the fold refuses, so the
   * filter drops nothing the write path could have written.
   */
  lemma DroppedIsRefused(cfg: Config, e: Endpoint)
    requires NormalDomains(cfg.domains) && (forall d | d in cfg.domains :: '*' !in d)
    requires NormaliseName(NormaliseName(e.dnsName)) == NormaliseName(e.dnsName)
    requires e.targets != [] && e.setIdentifier == ""
    ensures DropReason(cfg, e, NormaliseName(e.dnsName)).Some? <==> DefinitionOf(cfg, Adjusted(e), false).Rejected?
  {
    KeptIsAccepted(cfg, e);
    WildcardSplit(NormaliseName(e.dnsName), cfg.domains);
  }

  /** An address endpoint with an empty target is kept and folded like any other. */
  lemma EmptyTargetIsFolded(cfg: Config, e: Endpoint)
    requires NormalDomains(cfg.domains) && IsAddress(e.recordType) && "" in e.targets
    requires DropReason(cfg, e, NormaliseName(e.dnsName)).None?
    ensures
      var d := DefinitionOf(cfg, Adjusted(e), false);
      d.Wants? && "" in d.set_.targets
  {
    KeptIsAccepted(cfg, e);
  }

  // What the filter leaves.

  /** The filter returns the kept endpoints, canonical, and nothing else. */
  lemma {:induction false} AdjustMembers(cfg: Config, es: seq<Endpoint>, a: Endpoint)
    ensures a in Adjust(cfg, es) <==>
      exists e | e in es :: DropReason(cfg, e, NormaliseName(e.dnsName)).None? && a == Adjusted(e)
  {
    hide DropReason, NormaliseName, Adjusted;
    if es != [] {
      var front, last := es[..|es| - 1], es[|es| - 1];
      AdjustMembers(cfg, front, a);
      assert es == front + [last];
      assert last in es;
    }
  }

  lemma AdjustedIsKept(cfg: Config, e: Endpoint)
    requires NormalDomains(cfg.domains) && DropReason(cfg, e, NormaliseName(e.dnsName)).None?
    ensures DropReason(cfg, Adjusted(e), NormaliseName(Adjusted(e).dnsName)).None?
  {
    hide NormaliseName, ValidTXT, BestDomain, MatchesDomain;
    SplitStable(NormaliseName(e.dnsName), cfg.domains);
    StarKept(NormaliseName(e.dnsName));
  }

  lemma {:induction false} AllKept(cfg: Config, kept: seq<Endpoint>)
    requires forall a | a in kept :: DropReason(cfg, a, NormaliseName(a.dnsName)).None?
    ensures |Adjust(cfg, kept)| == |kept| && forall i | 0 <= i < |kept| :: Adjust(cfg, kept)[i] == Adjusted(kept[i])
  {
    hide DropReason, NormaliseName, Adjusted;
    if kept != [] {
      var front, last := kept[..|kept| - 1], kept[|kept| - 1];
      assert last in kept && forall a | a in front :: a in kept;
      AllKept(cfg, front);
    }
  }

  /** Filtering twice changes nothing exactly when the names left by the first time are normal. */
  lemma AdjustTwice(cfg: Config, es: seq<Endpoint>)
    requires NormalDomains(cfg.domains)
    ensures
      var kept := Adjust(cfg, es);
      Adjust(cfg, kept) == kept <==> forall a | a in kept :: NormaliseName(a.dnsName) == a.dnsName
  {
    hide DropReason, NormaliseName;
    var kept := Adjust(cfg, es);
    forall a | a in kept ensures DropReason(cfg, a, NormaliseName(a.dnsName)).None? &&
      ClampTTL(a.recordTTL) == a.recordTTL
    {
      AdjustMembers(cfg, es, a);
      var e :| e in es && DropReason(cfg, e, NormaliseName(e.dnsName)).None? && a == Adjusted(e);
      AdjustedIsKept(cfg, e);
    }
    AllKept(cfg, kept);
    forall i | 0 <= i < |kept|
      ensures Adjust(cfg, kept)[i] == kept[i] <==> NormaliseName(kept[i].dnsName) == kept[i].dnsName
    {
      assert kept[i] in kept;
    }
  }

  // One endpoint of a plan.

  /** The endpoints a plan wants written. */
  function Wanted(c: Changes): seq<Endpoint> {
    c.create + c.updateNew
  }

  lemma WantedIsDefined(cfg: Config, c: Changes, e: Endpoint)
    requires e in Wanted(c)
    ensures DefinitionOf(cfg, e, false) in PlanDefinitions(cfg, c)
  {
    hide DefinitionOf;
    var i :| 0 <= i < |Wanted(c)| && Wanted(c)[i] == e;
    if i < |c.create| {
      assert PlanDefinitions(cfg, c)[|c.delete| + i] == DefinitionOf(cfg, e, false);
    } else {
      assert c.updateNew[i - |c.create|] == e;
      assert PlanDefinitions(cfg, c)[|c.delete| + i] == DefinitionOf(cfg, e, false);
    }
  }

  /**
   * In a plan that folds without an error every wanted endpoint is one desired set: its own
   * targets and TTL, under its own key.
   */
  lemma FoldedAsAsked(cfg: Config, c: Changes, e: Endpoint)
    requires e in Wanted(c) && FoldOf(PlanDefinitions(cfg, c)).errs == []
    ensures
      var sets := FoldOf(PlanDefinitions(cfg, c)).sets;
      && KeyFor(e) in sets && DefinitionOf(cfg, e, false) == Wants(sets[KeyFor(e)])
      && sets[KeyFor(e)].targets == StoredTargets(e) != {} && sets[KeyFor(e)].ttl == ClampTTL(e.recordTTL)
      && (IsAddress(e.recordType) || (IsTXT(e.recordType) && forall t | t in e.targets :: ValidTXT(t)))
  {
    hide FoldOf, PlanDefinitions, SplitOf, StoredTargets, ValidTXT;
    var defs, d := PlanDefinitions(cfg, c), DefinitionOf(cfg, e, false);
    WantedIsDefined(cfg, c, e);
    FoldsCleanly(defs);
    PlanConsistent(cfg, c);
    WantsShape(cfg, e, false);
    FoldMeans(defs, KeyFor(e));
    assert AsksFor(defs, KeyFor(e), d.set_);
  }

  /** Every set of a plan comes from one of its endpoints: a delete, or one it wants written. */
  lemma SetsComeFrom(cfg: Config, c: Changes, k: RowKey) returns (e: Endpoint)
    requires k in FoldOf(PlanDefinitions(cfg, c)).sets
    ensures (e in c.delete || e in Wanted(c)) && KeyFor(e) == k
    ensures
      var s := FoldOf(PlanDefinitions(cfg, c)).sets[k];
      s.targets != {} ==> e in Wanted(c) && DefinitionOf(cfg, e, false) == Wants(s)
  {
    hide FoldOf, DefinitionOf, KeyFor, PlanDefinitions, Consistent;
    var defs := PlanDefinitions(cfg, c);
    PlanConsistent(cfg, c);
    FoldMeans(defs, k);
    e := DefinedBy(cfg, c, FoldOf(defs).sets[k]);
  }

  lemma DefinedBy(cfg: Config, c: Changes, s: Desired) returns (e: Endpoint)
    requires Wants(s) in PlanDefinitions(cfg, c)
    ensures (e in c.delete || e in Wanted(c)) && KeyFor(e) == s.key
    ensures s.targets != {} ==> e in Wanted(c) && DefinitionOf(cfg, e, false) == Wants(s)
  {
    hide SplitOf, StoredTargets, NormaliseName;
    var defs := PlanDefinitions(cfg, c);
    var i :| 0 <= i < |defs| && defs[i] == Wants(s);
    if i < |c.delete| {
      e := c.delete[i];
      WantsShape(cfg, e, true);
    } else {
      e := Wanted(c)[i - |c.delete|];
      WantsShape(cfg, e, false);
    }
  }

  lemma KeptIsWanted(cfg: Config, es: seq<Endpoint>, a: Endpoint)
    requires NormalDomains(cfg.domains) && a in Adjust(cfg, es) && a.targets != []
    ensures DefinitionOf(cfg, a, false).Wants? && DefinitionOf(cfg, a, false).set_.key == KeyFor(a)
  {
    hide KeyFor, DropReason, NormaliseName, DefinitionOf;
    AdjustMembers(cfg, es, a);
    var e :| e in es && DropReason(cfg, e, NormaliseName(e.dnsName)).None? && a == Adjusted(e);
    KeptIsAccepted(cfg, e);
    WantsShape(cfg, a, false);
  }

  lemma DistinctNeverDisagree(defs: seq<Definition>, k: RowKey)
    requires forall d | d in defs :: d.Wants?
    requires forall i, j | 0 <= i < j < |defs| :: defs[i].set_.key != defs[j].set_.key
    ensures !Disagree(defs, k)
  {
  }

  /**
   * Creating what the filter kept folds without an error when the keys are distinct and
   * every endpoint has a target.
   */
  lemma KeptFoldsCleanly(cfg: Config, es: seq<Endpoint>)
    requires NormalDomains(cfg.domains)
    requires forall i, j | 0 <= i < j < |Adjust(cfg, es)| :: KeyFor(Adjust(cfg, es)[i]) != KeyFor(Adjust(cfg, es)[j])
    requires forall a | a in Adjust(cfg, es) :: a.targets != []
    ensures FoldOf(PlanDefinitions(cfg, Changes(Adjust(cfg, es), [], [], []))).errs == []
  {
    hide FoldOf, KeyFor, DefinitionOf, Adjust, Disagree;
    var kept := Adjust(cfg, es);
    var defs := PlanDefinitions(cfg, Changes(kept, [], [], []));
    assert defs == DefinitionsOf(cfg, kept, false);
    forall i | 0 <= i < |kept| ensures defs[i].Wants? && defs[i].set_.key == KeyFor(kept[i]) {
      assert kept[i] in kept;
      KeptIsWanted(cfg, es, kept[i]);
    }
    PlanConsistent(cfg, Changes(kept, [], [], []));
    forall k ensures k !in FoldOf(defs).conflicted {
      DistinctNeverDisagree(defs, k);
      FoldMeans(defs, k);
    }
    FoldsCleanly(defs);
  }

  // Names that move.

  const MOVING_NAME := "a..example.com"
  const MOVING_DOMAIN := "example.com"

  lemma MovingNames()
    ensures NormaliseName(MOVING_NAME) == MOVING_NAME && NormaliseName(MOVING_DOMAIN) == MOVING_DOMAIN
  {
    hide NormaliseName;
    NormalForm(MOVING_NAME);
    NormalForm(MOVING_DOMAIN);
  }

  lemma MovingHost()
    ensures NormaliseName("a.") == "a"
  {
    assert TrimLeft("a.") == "a." && TrimRight("a.") == "a.";
    assert TrimDot("a.") == "a";
    assert ToLower("a") == "a";
  }

  lemma MovingSplit()
    ensures SplitOf(MOVING_NAME, [MOVING_DOMAIN]) == Split("a.", MOVING_DOMAIN)
  {
    hide NormaliseName, TrimLeft, TrimRight, AllDots;
    MovingNames();
    assert MOVING_NAME[|MOVING_NAME| - 12..] == "." + MOVING_DOMAIN;
    assert MatchesDomain(MOVING_NAME, MOVING_DOMAIN);
    assert MOVING_DOMAIN in [MOVING_DOMAIN];
    assert BestDomain(MOVING_NAME, [MOVING_DOMAIN]) == MOVING_DOMAIN;
    assert MOVING_NAME[..2] == "a.";
  }

  lemma MovingJoin()
    ensures JoinName("a.", MOVING_DOMAIN) == "a.example.com" != MOVING_NAME
  {
    hide NormaliseName;
    MovingNames();
    MovingHost();
    assert !AllDots("a") by { assert "a"[0] != '.'; }
    assert "a" + "." + MOVING_DOMAIN == "a.example.com";
    assert |MOVING_NAME| == 14 && |"a.example.com"| == 13;
  }

  /**
   * A name the filter and the fold accept and the write path files elsewhere: its split
   * joins to another name. Such plans are excluded wherever JobOk is asked for.
   */
  lemma NameThatMoves(cfg: Config, target: string)
    requires cfg.domains == [MOVING_DOMAIN]
    ensures
      var e := Endpoint(MOVING_NAME, TYPE_A, [target], 0, "");
      var d := DefinitionOf(cfg, Adjusted(e), false);
      && DropReason(cfg, e, NormaliseName(e.dnsName)).None?
      && d.Wants? && d.set_.host == "a." && d.set_.domain == MOVING_DOMAIN && d.set_.key.name == MOVING_NAME
      && JoinName(d.set_.host, d.set_.domain) == "a.example.com" != d.set_.key.name
  {
    hide NormaliseName, SplitOf, JoinName, StoredTargets;
    MovingNames();
    MovingSplit();
    MovingJoin();
  }
}
