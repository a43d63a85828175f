/** How far the keys rejected for an invalid TXT target depend on the order of a plan's definitions. */
module FoldOrder {
  import opened Rows
  import opened Fold

  /** The definitions that are accepted, or those that are not, in order. */
  function Picked(defs: seq<Definition>, accepted: bool): seq<Definition> {
    if defs == [] then []
    else
      var d := defs[|defs| - 1];
      Picked(defs[..|defs| - 1], accepted) + if d.Wants? == accepted then [d] else []
  }

  lemma {:induction false} PickedMembers(defs: seq<Definition>, accepted: bool, d: Definition)
    ensures d in Picked(defs, accepted) <==> d in defs && d.Wants? == accepted
  {
    if defs != [] {
      var front, last := defs[..|defs| - 1], defs[|defs| - 1];
      assert defs == front + [last];
      PickedMembers(front, accepted, d);
    }
  }

  /** Either part first, the two are the same definitions. */
  lemma {:induction false} PartsArePermutation(defs: seq<Definition>, accepted: bool)
    ensures multiset(Picked(defs, accepted) + Picked(defs, !accepted)) == multiset(defs)
  {
    if defs != [] {
      var front, last := defs[..|defs| - 1], defs[|defs| - 1];
      assert defs == front + [last];
      PartsArePermutation(front, accepted);
    }
  }

  lemma SameMembers(a: seq<Definition>, b: seq<Definition>)
    requires multiset(a) == multiset(b)
    ensures forall d :: d in a <==> d in b
  {
    forall d ensures d in a <==> d in b {
      assert d in multiset(a) <==> d in multiset(b);
    }
  }

  /** Rejections alone make no conflict. */
  lemma {:induction false} NoConflictYet(defs: seq<Definition>)
    requires forall d | d in defs :: d.Rejected?
    ensures FoldOf(defs).conflicted == {}
  {
    if defs != [] {
      var front, last := defs[..|defs| - 1], defs[|defs| - 1];
      assert defs == front + [last];
      NoConflictYet(front);
    }
  }

  /** Folding more definitions in keeps conflicts and rejections, and rejects no key in conflict. */
  lemma {:induction false} FoldGrows(a: seq<Definition>, b: seq<Definition>)
    ensures FoldOf(a).conflicted <= FoldOf(a + b).conflicted && FoldOf(a).rejectedTXT <= FoldOf(a + b).rejectedTXT
    ensures forall k | k in FoldOf(a).conflicted && k in FoldOf(a + b).rejectedTXT :: k in FoldOf(a).rejectedTXT
  {
    if b == [] {
      assert a + b == a;
    } else {
      var front, last := b[..|b| - 1], b[|b| - 1];
      assert a + b == a + front + [last];
      FoldGrows(a, front);
      FoldNext(a + front, last);
    }
  }

  /** A key some order of the definitions rejects. */
  ghost predicate MayReject(defs: seq<Definition>, k: RowKey) {
    Rejected(InvalidTXT(k)) in defs
  }

  /** A key every order rejects. */
  ghost predicate MustReject(defs: seq<Definition>, k: RowKey) {
    Rejected(InvalidTXT(k)) in defs && !Disagree(defs, k)
  }

  /** In every order the conflicts are the same, and the rejected keys lie between these two sets. */
  lemma ConflictsOf(defs: seq<Definition>, b: seq<Definition>, k: RowKey)
    requires Consistent(defs) && multiset(b) == multiset(defs)
    ensures k in FoldOf(b).conflicted <==> Disagree(defs, k)
    ensures k in FoldOf(b).rejectedTXT ==> MayReject(defs, k)
    ensures MustReject(defs, k) ==> k in FoldOf(b).rejectedTXT
  {
    SameMembers(b, defs);
    FoldMeans(b, k);
    RejectedMeans(b, k);
    forall s ensures AsksFor(b, k, s) <==> AsksFor(defs, k, s) { }
    DisagreeSame(b, defs, k);
  }

  /** With the rejections first every key with an invalid definition is rejected. */
  lemma RejectionsFirst(defs: seq<Definition>, k: RowKey)
    ensures k in FoldOf(Picked(defs, false) + Picked(defs, true)).rejectedTXT <==> MayReject(defs, k)
  {
    var bad, good := Picked(defs, false), Picked(defs, true);
    forall d | d in bad ensures d.Rejected? { PickedMembers(defs, false, d); }
    NoConflictYet(bad);
    RejectedMeans(bad, k);
    RejectedMeans(bad + good, k);
    FoldGrows(bad, good);
    PickedMembers(defs, false, Rejected(InvalidTXT(k)));
    PickedMembers(defs, true, Rejected(InvalidTXT(k)));
  }

  /** With the rejections last only keys that are not in conflict are rejected. */
  lemma RejectionsLast(defs: seq<Definition>, k: RowKey)
    requires Consistent(defs)
    ensures k in FoldOf(Picked(defs, true) + Picked(defs, false)).rejectedTXT <==> MustReject(defs, k)
  {
    var bad, good := Picked(defs, false), Picked(defs, true);
    forall d ensures d in good <==> d in defs && d.Wants? { PickedMembers(defs, true, d); }
    forall s ensures AsksFor(good, k, s) <==> AsksFor(defs, k, s) { }
    DisagreeSame(good, defs, k);
    FoldMeans(good, k);
    RejectedMeans(good, k);
    FoldGrows(good, bad);
    PartsArePermutation(defs, true);
    ConflictsOf(defs, good + bad, k);
  }

  /** Every order of the definitions rejects the same keys. */
  ghost predicate SameRejected(defs: seq<Definition>) {
    forall b: seq<Definition> | multiset(b) == multiset(defs) :: FoldOf(b).rejectedTXT == FoldOf(defs).rejectedTXT
  }

  /** Every order of the definitions rejects some key, or none does. */
  ghost predicate SameGate(defs: seq<Definition>) {
    forall b: seq<Definition> | multiset(b) == multiset(defs) ::
      FoldOf(b).rejectedTXT == {} <==> FoldOf(defs).rejectedTXT == {}
  }

  /**
   * The rejected keys are the same in every order of the definitions exactly when no key
   * both is in conflict and has an invalid TXT definition.
   */
  lemma RejectedDependsOnOrder(defs: seq<Definition>)
    requires Consistent(defs)
    ensures SameRejected(defs) <==> !exists k :: Disagree(defs, k) && MayReject(defs, k)
  {
    hide FoldOf, Disagree, MayReject, Picked, Consistent;
    if exists k :: Disagree(defs, k) && MayReject(defs, k) {
      var k :| Disagree(defs, k) && MayReject(defs, k);
      PartsArePermutation(defs, true);
      PartsArePermutation(defs, false);
      RejectionsFirst(defs, k);
      RejectionsLast(defs, k);
      var first, last := Picked(defs, false) + Picked(defs, true), Picked(defs, true) + Picked(defs, false);
      assert FoldOf(first).rejectedTXT != FoldOf(last).rejectedTXT;
    } else {
      forall b: seq<Definition> | multiset(b) == multiset(defs)
        ensures FoldOf(b).rejectedTXT == FoldOf(defs).rejectedTXT
      {
        forall k ensures k in FoldOf(b).rejectedTXT <==> k in FoldOf(defs).rejectedTXT {
          ConflictsOf(defs, b, k);
          ConflictsOf(defs, defs, k);
        }
      }
    }
  }

  /**
   * Whether any key is rejected, which shuts the gate of the data creates, depends on the
   * order exactly when some key has an invalid TXT definition and each that has is in
   * conflict.
   */
  lemma GateDependsOnOrder(defs: seq<Definition>)
    requires Consistent(defs)
    ensures SameGate(defs) <==> (exists k :: MustReject(defs, k)) || !exists k :: MayReject(defs, k)
  {
    hide FoldOf, Disagree, MayReject, MustReject, Picked, Consistent;
    if k :| MustReject(defs, k) {
      forall b: seq<Definition> | multiset(b) == multiset(defs) ensures FoldOf(b).rejectedTXT != {} {
        ConflictsOf(defs, b, k);
      }
    } else if k :| MayReject(defs, k) {
      PartsArePermutation(defs, true);
      PartsArePermutation(defs, false);
      RejectionsFirst(defs, k);
      var first, last := Picked(defs, false) + Picked(defs, true), Picked(defs, true) + Picked(defs, false);
      forall x ensures x !in FoldOf(last).rejectedTXT { RejectionsLast(defs, x); }
      assert multiset(first) == multiset(defs) && multiset(last) == multiset(defs);
      assert FoldOf(first).rejectedTXT != {} && FoldOf(last).rejectedTXT == {};
    } else {
      forall b: seq<Definition> | multiset(b) == multiset(defs) ensures FoldOf(b).rejectedTXT == {} {
        forall x ensures x !in FoldOf(b).rejectedTXT { ConflictsOf(defs, b, x); }
      }
    }
  }
}
