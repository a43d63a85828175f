/**
 * TTLs and their text, figure by figure (clampTTL and ttlField of
 * internal/opnsense/names.go, parseTTL of internal/opnsense/dto.go).
 */
module TTLText {
  import opened Names

  /** Negative and unset TTLs become 0, and the ceiling is the largest 32-bit integer. */
  lemma ClampsExactly(ttl: int)
    ensures ClampTTL(ttl) == if ttl < 0 then 0 else if ttl > 2147483647 then 2147483647 else ttl
  {
  }

  predicate Figures(s: string) {
    forall i | 0 <= i < |s| :: s[i] in "0123456789"
  }

  lemma FigureIs(c: char)
    ensures c in "0123456789" <==> '0' <= c <= '9'
  {
    var figures := "0123456789";
    if '0' <= c <= '9' {
      assert figures[0] == '0' && figures[1] == '1' && figures[2] == '2' && figures[3] == '3' && figures[4] == '4'
          && figures[5] == '5' && figures[6] == '6' && figures[7] == '7' && figures[8] == '8' && figures[9] == '9';
      assert figures[c as int - 48] == c;
    }
  }

  /** The value of a text of figures, by place. */
  function Value(s: string): nat {
    if s == "" then 0
    else
      var c := s[|s| - 1];
      Value(s[..|s| - 1]) * 10 + if '0' <= c then c as int - 48 else 0
  }

  lemma {:induction false} ValueIs(s: string)
    requires AllDigits(s)
    ensures DigitsValue(s) == Value(s)
  {
    if s != "" { ValueIs(s[..|s| - 1]); }
  }

  /**
   * A stored TTL is its value if it is figures, after a plus sign or none, and fits 64 bits;
   * any other text means unset.
   */
  lemma ParsesExactly(s: string)
    ensures
      var body := if s != "" && s[0] in "+-" then s[1..] else s;
      ParseTTL(s) ==
        if body != "" && Figures(body) && (s[0] == '-' ==> Value(body) == 0) && Value(body) <= 9223372036854775807
          then Value(body) else 0
  {
    var body := if s != "" && s[0] in "+-" then s[1..] else s;
    assert s != "" ==> (s[0] in "+-" <==> s[0] == '+' || s[0] == '-');
    forall i | 0 <= i < |body| ensures body[i] in "0123456789" <==> '0' <= body[i] <= '9' { FigureIs(body[i]); }
    if AllDigits(body) { ValueIs(body); }
  }
}
