/** The pieces of Python's string semantics that the chatlog processing
    relies on: the `\s` and `\w` character classes of `re`, the `in`
    operator on strings, and `str.replace(old, '')`, characterised through
    `str.count`. */
module Text {

  /** `\s` on a Python str: exactly the characters for which `str.isspace()` holds. */
  predicate IsSpace(c: char)
  {
    var n := c as int;
    (9 <= n <= 13) || (28 <= n <= 32) || n == 0x85 || n == 0xA0 || n == 0x1680
    || (0x2000 <= n <= 0x200A) || n == 0x2028 || n == 0x2029 || n == 0x202F
    || n == 0x205F || n == 0x3000
  }

  /** `\w` on a Python str, for code points up to U+00FF: ASCII letters, digits
      and `_`, plus the Latin-1 letters and numerals. */
  predicate IsWordChar(c: char)
  {
    var n := c as int;
    ('a' <= c <= 'z') || ('A' <= c <= 'Z') || ('0' <= c <= '9') || c == '_'
    || n == 0xAA || n == 0xB2 || n == 0xB3 || n == 0xB5 || n == 0xB9 || n == 0xBA
    || (0xBC <= n <= 0xBE) || (0xC0 <= n <= 0xFF && n != 0xD7 && n != 0xF7)
  }

  /** Python's `t in s` on strings. */
  function Contains(s: string, t: string): bool
    decreases |s|
  {
    t <= s || (|s| > 0 && Contains(s[1..], t))
  }

  /** An occurrence of `t` at position `p` makes `t in s` hold. */
  lemma {:induction false} ContainsAt(s: string, t: string, p: nat)
    requires p <= |s| && t <= s[p..]
    ensures Contains(s, t)
    decreases p
  {
    if p == 0 {
      assert s[p..] == s;
    } else {
      assert s[1..][p - 1..] == s[p..];
      ContainsAt(s[1..], t, p - 1);
    }
  }

  /** `t in s` gives a position where `t` occurs. */
  lemma {:induction false} ContainsWitness(s: string, t: string) returns (p: nat)
    requires Contains(s, t)
    ensures p <= |s| && t <= s[p..]
    decreases |s|
  {
    if t <= s {
      assert s[0..] == s;
      p := 0;
    } else {
      var q := ContainsWitness(s[1..], t);
      assert s[1..][q..] == s[q + 1..];
      p := q + 1;
    }
  }

  /** `t in s` holds exactly when `t` occurs in `s` at some position. */
  lemma ContainsIff(s: string, t: string)
    ensures Contains(s, t) <==> exists p | 0 <= p <= |s| :: t <= s[p..]
  {
    if Contains(s, t) {
      var p := ContainsWitness(s, t);
    }
    if exists p | 0 <= p <= |s| :: t <= s[p..] {
      var p :| 0 <= p <= |s| && t <= s[p..];
      ContainsAt(s, t, p);
    }
  }

  /** Python's `s.replace(pat, '')`: scanning left to right, every
      non-overlapping occurrence of `pat` is removed. */
  function ReplaceAll(s: string, pat: string): (r: string)
    requires |pat| > 0
    decreases |s|
  {
    if |s| == 0 then s
    else if pat <= s then ReplaceAll(s[|pat|..], pat)
    else [s[0]] + ReplaceAll(s[1..], pat)
  }

  /** Replacing a pattern that does not occur leaves the string unchanged. */
  lemma {:induction false} ReplaceAllAbsent(s: string, pat: string)
    requires |pat| > 0 && !Contains(s, pat)
    ensures ReplaceAll(s, pat) == s
    decreases |s|
  {
    if |s| > 0 {
      ReplaceAllAbsent(s[1..], pat);
    }
  }

  /** Python's `str.count`: the non-overlapping occurrences of `pat`,
      taken from the left, which are the ones `str.replace` removes. */
  function Count(s: string, pat: string): nat
    requires |pat| > 0
    decreases |s|
  {
    if |s| == 0 then 0
    else if pat <= s then 1 + Count(s[|pat|..], pat)
    else Count(s[1..], pat)
  }

  /** The pattern is counted at least once exactly when it occurs. */
  lemma {:induction false} CountContains(s: string, pat: string)
    requires |pat| > 0
    ensures Count(s, pat) > 0 <==> Contains(s, pat)
    decreases |s|
  {
    if |s| > 0 && !(pat <= s) {
      CountContains(s[1..], pat);
    }
  }

  /** One more copy of a pattern adds its length once more. */
  lemma MulSucc(k: nat, c: nat)
    ensures k * (c + 1) == k * c + k
  {
  }

  /** `s.replace(pat, '')` is `s` with `s.count(pat)` copies of the
      pattern cut out: the lengths differ by exactly that many patterns. */
  lemma {:induction false} ReplaceAllCount(s: string, pat: string)
    requires |pat| > 0
    ensures |ReplaceAll(s, pat)| + |pat| * Count(s, pat) == |s|
    decreases |s|
  {
    if |s| > 0 {
      if pat <= s {
        var rest := s[|pat|..];
        ReplaceAllCount(rest, pat);
        var c := Count(rest, pat);
        assert Count(s, pat) == c + 1 && ReplaceAll(s, pat) == ReplaceAll(rest, pat);
        MulSucc(|pat|, c);
      } else {
        ReplaceAllCount(s[1..], pat);
      }
    }
  }
}
