/**
 * String helpers the service relies on: Rust's `str::replace` (used to fill in
 * the command-template placeholders) and `format!("{}", n)` for an unsigned
 * integer (used to build scratch paths).
 */
module Text {

  /** `pat` occurs at position `i` of `s`. */
  ghost predicate OccursAt(pat: string, s: string, i: nat)
  {
    i + |pat| <= |s| && s[i..i + |pat|] == pat
  }

  /** `pat` occurs somewhere in `s` (Rust's `s.contains(pat)`). */
  predicate Occurs(pat: string, s: string)
    decreases |s|
  {
    |pat| <= |s| && (s[..|pat|] == pat || (|s| > 0 && Occurs(pat, s[1..])))
  }

  /** The recursive test agrees with "there is a position where `pat` starts". */
  lemma {:induction false} OccursIffSomePosition(pat: string, s: string)
    ensures Occurs(pat, s) <==> exists i: nat :: OccursAt(pat, s, i)
    decreases |s|
  {
    if |pat| <= |s| && s[..|pat|] != pat && |s| > 0 {
      OccursIffSomePosition(pat, s[1..]);
      if Occurs(pat, s[1..]) {
        var i: nat :| OccursAt(pat, s[1..], i);
        assert s[i + 1..i + 1 + |pat|] == s[1..][i..i + |pat|];
        assert OccursAt(pat, s, i + 1);
      }
      if exists i: nat :: OccursAt(pat, s, i) {
        var i: nat :| OccursAt(pat, s, i);
        assert i != 0;
        assert s[1..][i - 1..i - 1 + |pat|] == s[i..i + |pat|];
        assert OccursAt(pat, s[1..], i - 1);
      }
    } else if |pat| <= |s| && s[..|pat|] == pat {
      assert OccursAt(pat, s, 0);
    } else if |pat| > |s| {
      forall i: nat ensures !OccursAt(pat, s, i) {}
    }
  }

  /**
   * Rust's `s.replace(pat, rep)` for a non-empty pattern: every occurrence of
   * `pat`, found left to right without overlap, is replaced by `rep`.
   */
  function Replace(s: string, pat: string, rep: string): string
    requires pat != []
    decreases |s|
  {
    if |s| < |pat| then s
    else if s[..|pat|] == pat then rep + Replace(s[|pat|..], pat, rep)
    else [s[0]] + Replace(s[1..], pat, rep)
  }

  /** A string in which the pattern does not occur comes back unchanged. */
  lemma {:induction false} ReplaceWithoutOccurrence(s: string, pat: string, rep: string)
    requires pat != []
    requires !Occurs(pat, s)
    ensures Replace(s, pat, rep) == s
    decreases |s|
  {
    if |s| >= |pat| {
      ReplaceWithoutOccurrence(s[1..], pat, rep);
      assert [s[0]] + s[1..] == s;
    }
  }

  /** A string that is exactly the pattern becomes exactly the replacement. */
  lemma ReplaceWholePattern(pat: string, rep: string)
    requires pat != []
    ensures Replace(pat, pat, rep) == rep
  {
  }

  /** A pattern whose first character is absent from `s` does not occur in `s`. */
  lemma {:induction false} AbsentLeadNoOccurrence(pat: string, s: string)
    requires pat != [] && pat[0] !in s
    ensures !Occurs(pat, s)
    decreases |s|
  {
    if |pat| <= |s| {
      assert s[..|pat|][0] == s[0];
      AbsentLeadNoOccurrence(pat, s[1..]);
    }
  }

  /** Text before the first occurrence is copied, the occurrence replaced, and the rest handled alike. */
  lemma {:induction false} ReplaceAfterPrefix(a: string, pat: string, rep: string, b: string)
    requires pat != [] && pat[0] !in a
    ensures Replace(a + pat + b, pat, rep) == a + rep + Replace(b, pat, rep)
    decreases |a|
  {
    var s := a + pat + b;
    if a == [] {
      assert s == pat + b;
      assert s[..|pat|] == pat && s[|pat|..] == b;
    } else {
      assert s[..|pat|][0] == a[0];
      assert s[1..] == a[1..] + pat + b;
      ReplaceAfterPrefix(a[1..], pat, rep, b);
      assert [a[0]] + (a[1..] + rep + Replace(b, pat, rep)) == a + rep + Replace(b, pat, rep);
    }
  }

  predicate IsDigit(c: char)
  {
    '0' <= c <= '9'
  }

  predicate AllDigits(s: string)
  {
    forall i :: 0 <= i < |s| ==> IsDigit(s[i])
  }

  function DigitChar(d: nat): (c: char)
    requires d < 10
    ensures IsDigit(c)
  {
    (48 + d) as char
  }

  /** The decimal rendering of `n`, without leading zeros, as `format!("{}", n)` prints it. */
  function NatToString(n: nat): (s: string)
    ensures |s| > 0 && AllDigits(s)
    ensures s[0] == '0' ==> n == 0
  {
    if n < 10 then [DigitChar(n)] else NatToString(n / 10) + [DigitChar(n % 10)]
  }

  /** The number a string of decimal digits denotes. */
  function DigitsValue(s: string): nat
    requires AllDigits(s)
  {
    if s == [] then 0 else DigitsValue(s[..|s| - 1]) * 10 + (s[|s| - 1] as int - 48)
  }

  /** Reading back the decimal rendering gives the number. */
  lemma {:induction false} NatToStringRoundTrip(n: nat)
    ensures DigitsValue(NatToString(n)) == n
  {
    if n >= 10 {
      var s := NatToString(n);
      NatToStringRoundTrip(n / 10);
      assert s[..|s| - 1] == NatToString(n / 10);
    }
  }

  lemma NatToStringInjective(a: nat, b: nat)
    requires NatToString(a) == NatToString(b)
    ensures a == b
  {
    NatToStringRoundTrip(a);
    NatToStringRoundTrip(b);
  }

  lemma ConcatIndex(a: string, x: string, i: nat)
    ensures i < |a| ==> (a + x)[i] == a[i]
    ensures |a| <= i < |a| + |x| ==> (a + x)[i] == x[i - |a|]
  {
  }

  /**
   * Two strings that both start with a run of digits followed by a non-digit
   * can only be equal if the digit runs and the remainders are equal.
   */
  lemma DigitRunSplit(a: string, x: string, b: string, y: string)
    requires AllDigits(a) && AllDigits(b)
    requires x != [] && y != [] && !IsDigit(x[0]) && !IsDigit(y[0])
    requires a + x == b + y
    ensures a == b && x == y
  {
    if |a| < |b| {
      ConcatIndex(a, x, |a|);
      ConcatIndex(b, y, |a|);
      assert false;
    } else if |b| < |a| {
      ConcatIndex(b, y, |b|);
      ConcatIndex(a, x, |b|);
      assert false;
    }
    assert a == (a + x)[..|a|];
    assert b == (b + y)[..|b|];
    assert x == (a + x)[|a|..];
    assert y == (b + y)[|b|..];
  }
}
