/** Strict orders on strings and record keys, and what sorting a set by one of them means. */
module Order {

  function Min(a: int, b: int): int {
    if a < b then a else b
  }

  /** Go's `<` on strings: byte-wise lexicographic order. */
  predicate Less(a: string, b: string) {
    if b == "" then false
    else if a == "" then true
    else a[0] < b[0] || (a[0] == b[0] && Less(a[1..], b[1..]))
  }

  /** The first i letters are the same, and then a ends or has the smaller letter. */
  predicate FirstDiffers(a: string, b: string, i: nat) {
    && i <= |a| && i < |b| && (forall j | 0 <= j < i :: a[j] == b[j])
    && (i == |a| || a[i] < b[i])
  }

  /** The order on strings is the order of a dictionary. */
  lemma {:induction false} LessExactly(a: string, b: string)
    ensures Less(a, b) <==> exists i: nat :: FirstDiffers(a, b, i)
  {
    if a == "" || b == "" {
      assert b != "" ==> FirstDiffers(a, b, 0);
    } else {
      LessExactly(a[1..], b[1..]);
      if a[0] == b[0] {
        if i: nat :| FirstDiffers(a[1..], b[1..], i) {
          assert FirstDiffers(a, b, i + 1);
        }
        if i: nat :| FirstDiffers(a, b, i) {
          assert FirstDiffers(a[1..], b[1..], i - 1);
        }
      } else {
        assert a[0] < b[0] ==> FirstDiffers(a, b, 0);
      }
    }
  }

  ghost predicate StrictTotal<T(!new)>(less: (T, T) -> bool) {
    && (forall a :: !less(a, a))
    && (forall a, b :: a == b || less(a, b) || less(b, a))
    && (forall a, b, c :: less(a, b) && less(b, c) ==> less(a, c))
  }

  /** The same among the elements of a set. */
  ghost predicate StrictTotalOn<T(!new)>(less: (T, T) -> bool, s: set<T>) {
    && (forall a | a in s :: !less(a, a))
    && (forall a, b | a in s && b in s :: a == b || less(a, b) || less(b, a))
    && (forall a, b, c | a in s && b in s && c in s :: less(a, b) && less(b, c) ==> less(a, c))
  }

  ghost predicate Increasing<T(!new)>(less: (T, T) -> bool, s: seq<T>) {
    forall i, j :: 0 <= i < j < |s| ==> less(s[i], s[j])
  }

  lemma LessTransitive(a: string, b: string, c: string)
    requires Less(a, b) && Less(b, c)
    ensures Less(a, c)
  {
    if a != "" && a[0] == b[0] == c[0] {
      LessTransitive(a[1..], b[1..], c[1..]);
    }
  }

  lemma {:induction false} LessTotal(a: string, b: string)
    ensures a == b || Less(a, b) || Less(b, a)
    ensures !(Less(a, b) && Less(b, a))
  {
    if a != "" && b != "" && a[0] == b[0] {
      LessTotal(a[1..], b[1..]);
      if a[1..] == b[1..] {
        assert a == [a[0]] + a[1..] && b == [b[0]] + b[1..];
      }
    }
  }

  /** The order on strings is a strict total order. */
  lemma LessIsStrictTotal()
    ensures StrictTotal(Less)
  {
    forall a, b ensures a == b || Less(a, b) || Less(b, a) { LessTotal(a, b); }
    forall a ensures !Less(a, a) { LessTotal(a, a); }
    forall a, b, c | Less(a, b) && Less(b, c) ensures Less(a, c) { LessTransitive(a, b, c); }
  }

  lemma {:induction false} MinExists<T(!new)>(less: (T, T) -> bool, s: set<T>) returns (m: T)
    requires StrictTotalOn(less, s) && s != {}
    ensures m in s && forall x | x in s :: x == m || less(m, x)
    decreases |s|
  {
    m :| m in s;
    if s != {m} {
      assert s - {m} < s;
      var n := MinExists(less, s - {m});
      m := if less(n, m) then n else m;
    }
  }

  function Least<T(!new, ==)>(less: (T, T) -> bool, s: set<T>): (m: T)
    requires StrictTotalOn(less, s) && s != {}
    ensures m in s && forall x | x in s :: x == m || less(m, x)
  {
    assert exists m :: m in s && forall x | x in s :: x == m || less(m, x) by {
      var m := MinExists(less, s);
    }
    var m :| m in s && forall x | x in s :: x == m || less(m, x);
    m
  }

  /** The elements of a set in increasing order. */
  function SortSet<T(!new, ==)>(less: (T, T) -> bool, s: set<T>): (r: seq<T>)
    requires StrictTotalOn(less, s)
    ensures |r| == |s| && forall x :: x in r <==> x in s
    decreases |s|
  {
    if s == {} then []
    else
      var m := Least(less, s);
      var rest := SortSet(less, s - {m});
      assert forall x :: x in [m] + rest <==> x == m || x in rest;
      [m] + rest
  }

  lemma {:induction false} SortSetIncreases<T(!new)>(less: (T, T) -> bool, s: set<T>)
    requires StrictTotalOn(less, s)
    ensures Increasing(less, SortSet(less, s))
    decreases |s|
  {
    if s != {} {
      var m := Least(less, s);
      var rest := SortSet(less, s - {m});
      SortSetIncreases(less, s - {m});
      assert forall j | 0 <= j < |rest| :: rest[j] in rest;
    }
  }

  // Sequences without repeats.

  function ElementsOf<T>(s: seq<T>): set<T> {
    set x | x in s
  }

  lemma {:induction false} DistinctCount<T>(s: seq<T>)
    requires forall i, j | 0 <= i < j < |s| :: s[i] != s[j]
    ensures |ElementsOf(s)| == |s|
  {
    if s != [] {
      var front, last := s[..|s| - 1], s[|s| - 1];
      DistinctCount(front);
      assert s == front + [last];
      assert ElementsOf(s) == ElementsOf(front) + {last};
      assert last !in front;
    }
  }
}
