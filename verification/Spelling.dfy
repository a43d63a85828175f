/** What normalising a name yields, letter by letter, and how the halves of a name join (internal/opnsense/names.go). */
module Spelling {
  import opened Names

  const CAPITALS := "ABCDEFGHIJKLMNOPQRSTUVWXYZ"
  const SMALL := "abcdefghijklmnopqrstuvwxyz"
  const BLANKS := " \t\n\r\U{0B}\U{0C}"

  /** The same letter, or its capital. */
  predicate Cased(written: char, small: char) {
    written == small || exists j | 0 <= j < 26 :: written == CAPITALS[j] && small == SMALL[j]
  }

  /** s spells n with some letters raised to capitals. */
  predicate Raises(s: string, n: string) {
    |s| == |n| && forall i | 0 <= i < |n| :: Cased(s[i], n[i])
  }

  predicate NoCapital(n: string) {
    forall i | 0 <= i < |n| :: n[i] !in CAPITALS
  }

  predicate Blank(s: string) {
    forall i | 0 <= i < |s| :: s[i] in BLANKS
  }

  /** No blank at either end. */
  predicate Tight(s: string) {
    s == "" || (s[0] !in BLANKS && s[|s| - 1] !in BLANKS)
  }

  /** The text between the blanks of a spelling of n: n with letters raised, and one final dot, if it has any. */
  predicate SpellsTight(core: string, n: string) {
    && Tight(core) && NoCapital(n)
    && if core != "" && core[|core| - 1] == '.' then Raises(core[..|core| - 1], n) else Raises(core, n)
  }

  /** s is a spelling of n: blanks at either end, capitals, and one final dot do not count. */
  ghost predicate Spells(s: string, n: string) {
    exists a, core, b :: s == a + core + b && Blank(a) && Blank(b) && SpellsTight(core, n)
  }

  lemma SpaceIsBlank(c: char)
    ensures IsSpace(c) <==> c in BLANKS
  {
  }

  /** The two tables, letter by letter. */
  lemma Letters(j: nat)
    requires j < 26
    ensures CAPITALS[j] == (65 + j) as char && SMALL[j] == (97 + j) as char
  {
  }

  lemma CapitalAt(c: char)
    ensures c in CAPITALS <==> 'A' <= c <= 'Z'
  {
    if 'A' <= c <= 'Z' {
      Letters(c as int - 65);
    }
    if c in CAPITALS {
      var j :| 0 <= j < 26 && CAPITALS[j] == c;
      Letters(j);
    }
  }

  lemma LowerIsCased(c: char, small: char)
    requires small !in CAPITALS
    ensures LowerChar(c) == small <==> Cased(c, small)
  {
    CapitalAt(c);
    CapitalAt(small);
    if 'A' <= c <= 'Z' {
      Letters(c as int - 65);
    }
    if j :| 0 <= j < 26 && c == CAPITALS[j] && small == SMALL[j] {
      Letters(j);
    }
  }

  lemma LowerHasNoCapital(s: string)
    ensures NoCapital(ToLower(s))
  {
    forall i | 0 <= i < |s| ensures ToLower(s)[i] !in CAPITALS { CapitalAt(LowerChar(s[i])); }
  }

  lemma LowerIsRaised(s: string, n: string)
    requires NoCapital(n)
    ensures ToLower(s) == n <==> Raises(s, n)
  {
    if |s| == |n| {
      forall i | 0 <= i < |s| ensures LowerChar(s[i]) == n[i] <==> Cased(s[i], n[i]) { LowerIsCased(s[i], n[i]); }
    }
  }

  lemma {:induction false} TrimLeftBlank(a: string, s: string)
    requires Blank(a)
    ensures TrimLeft(a + s) == TrimLeft(s)
  {
    if a != "" {
      SpaceIsBlank(a[0]);
      assert (a + s)[1..] == a[1..] + s;
      TrimLeftBlank(a[1..], s);
    } else {
      assert a + s == s;
    }
  }

  lemma {:induction false} TrimRightBlank(s: string, b: string)
    requires Blank(b)
    ensures TrimRight(s + b) == TrimRight(s)
  {
    if b != "" {
      SpaceIsBlank(b[|b| - 1]);
      assert (s + b)[..|s + b| - 1] == s + b[..|b| - 1];
      TrimRightBlank(s, b[..|b| - 1]);
    } else {
      assert s + b == s;
    }
  }

  lemma {:induction false} TrimLeftParts(s: string) returns (a: string)
    ensures Blank(a) && s == a + TrimLeft(s)
  {
    if s != "" && IsSpace(s[0]) {
      SpaceIsBlank(s[0]);
      var rest := TrimLeftParts(s[1..]);
      a := [s[0]] + rest;
    } else {
      a := "";
    }
  }

  lemma {:induction false} TrimRightParts(s: string) returns (b: string)
    ensures Blank(b) && s == TrimRight(s) + b
  {
    if s != "" && IsSpace(s[|s| - 1]) {
      SpaceIsBlank(s[|s| - 1]);
      var rest := TrimRightParts(s[..|s| - 1]);
      b := rest + [s[|s| - 1]];
    } else {
      b := "";
    }
  }

  lemma TrimmedIsTight(s: string)
    ensures Tight(TrimRight(TrimLeft(s)))
  {
    var l := TrimLeft(s);
    TrimLeftFacts(s);
    TrimRightFacts(l);
    TrimRightEnd(l);
    if TrimRight(l) != "" {
      SpaceIsBlank(l[0]);
      SpaceIsBlank(TrimRight(l)[|TrimRight(l)| - 1]);
    }
  }

  lemma {:induction false} TrimRightEnd(s: string)
    ensures TrimRight(s) != "" ==> !IsSpace(TrimRight(s)[|TrimRight(s)| - 1])
  {
    if s != "" && IsSpace(s[|s| - 1]) { TrimRightEnd(s[..|s| - 1]); }
  }

  /** Trimming leaves what stands between the blanks. */
  lemma TrimsTo(a: string, core: string, b: string)
    requires Blank(a) && Blank(b) && Tight(core)
    ensures TrimRight(TrimLeft(a + core + b)) == core
  {
    assert a + core + b == a + (core + b);
    TrimLeftBlank(a, core + b);
    if core == "" {
      assert core + b == b && b + "" == b;
      TrimLeftBlank(b, "");
    } else {
      SpaceIsBlank(core[0]);
      SpaceIsBlank(core[|core| - 1]);
      TrimRightBlank(core, b);
    }
  }

  /** A text normalises to n exactly when it is a spelling of n. */
  lemma NormalisesExactly(s: string, n: string)
    ensures NormaliseName(s) == n <==> Spells(s, n)
  {
    hide TrimLeft, TrimRight, ToLower, Raises, NoCapital;
    if NormaliseName(s) == n {
      var a := TrimLeftParts(s);
      var b := TrimRightParts(TrimLeft(s));
      var core := TrimRight(TrimLeft(s));
      TrimmedIsTight(s);
      LowerHasNoCapital(TrimDot(core));
      LowerIsRaised(TrimDot(core), n);
      assert s == a + core + b;
    }
    if a, core, b :| s == a + core + b && Blank(a) && Blank(b) && SpellsTight(core, n) {
      TrimsTo(a, core, b);
      LowerIsRaised(TrimDot(core), n);
    }
  }

  // Joining.

  /** A hostname of dots alone is no hostname, and a side that is empty leaves the other one. */
  lemma JoinsExactly(hostname: string, domain: string)
    ensures
      var h, d := NormaliseName(hostname), NormaliseName(domain);
      && ((forall i | 0 <= i < |h| :: h[i] == '.') ==> JoinName(hostname, domain) == d)
      && ((exists i | 0 <= i < |h| :: h[i] != '.') ==> JoinName(hostname, domain) == if d == "" then h else h + "." + d)
  {
    hide NormaliseName;
  }

  /** A piece of a name: no capital, no blank at its ends, no dot at its end. */
  predicate Piece(s: string) {
    s != "" && NoCapital(s) && Tight(s) && s[|s| - 1] != '.'
  }

  lemma PieceIsNormal(s: string)
    requires Piece(s)
    ensures NormaliseName(s) == s && GoodHost(s) && IsLower(s) && !IsSpace(s[0])
  {
    assert "" + s + "" == s;
    forall i | 0 <= i < |s| ensures s[i] == s[i] { }
    assert Raises(s, s);
    assert Blank("") && SpellsTight(s, s);
    NormalisesExactly(s, s);
    NormalForm(s);
  }

  lemma TwoPieces(a: string, b: string)
    requires Piece(a) && Piece(b)
    ensures Piece(a + "." + b)
  {
    CapitalAt('.');
    var s := a + "." + b;
    forall i | 0 <= i < |s| ensures s[i] !in CAPITALS {
      assert s[i] == if i < |a| then a[i] else if i == |a| then '.' else b[i - |a| - 1];
    }
  }

  /** Rows that split one name differently are filed under the same key. */
  lemma AnySplitJoins(a: string, b: string, c: string)
    requires Piece(a) && Piece(b) && Piece(c)
    ensures JoinName(a + "." + b, c) == JoinName(a, b + "." + c) == a + "." + b + "." + c
  {
    hide NormaliseName;
    PieceIsNormal(a);
    PieceIsNormal(c);
    TwoPieces(a, b);
    PieceIsNormal(a + "." + b);
    TwoPieces(b, c);
    PieceIsNormal(b + "." + c);
    JoinOfGoodHost(a + "." + b, c);
    JoinOfGoodHost(a, b + "." + c);
    assert a + "." + b + "." + c == a + "." + (b + "." + c);
  }
}
