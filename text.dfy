/** Character and string operations the router relies on: ASCII lower-casing,
    substring search, joining with a separator, digit filtering and decimal
    text for naturals. */
module Text {

  /** The smaller of two integers: Python's `s[:n]` has length `Min(n, |s|)`. */
  function Min(a: int, b: int): int
  {
    if a <= b then a else b
  }

  // ---------------------------------------------------------------------
  // Lower-casing
  // ---------------------------------------------------------------------

  /** ASCII lower-casing of one character: a capital becomes the same
      letter in lower case, and every other character is left alone. */
  function LowerChar(c: char): (r: char)
    ensures !('A' <= r <= 'Z')
    ensures 'A' <= c <= 'Z' ==> 'a' <= r <= 'z' && r as int - 'a' as int == c as int - 'A' as int
    ensures !('A' <= c <= 'Z') ==> r == c
  {
    if 'A' <= c <= 'Z' then (c as int + 32) as char else c
  }

  /** ASCII lower-casing, character by character. */
  function Lower(s: string): (r: string)
    ensures |r| == |s|
    ensures forall i :: 0 <= i < |s| ==> r[i] == LowerChar(s[i])
  {
    seq(|s|, i requires 0 <= i < |s| => LowerChar(s[i]))
  }

  /** `s` has no upper-case ASCII letter, so lower-casing leaves it alone. */
  predicate NoUpper(s: string)
  {
    forall i :: 0 <= i < |s| ==> !('A' <= s[i] <= 'Z')
  }

  lemma {:induction false} LowerIdempotent(s: string)
    ensures Lower(Lower(s)) == Lower(s)
  {
    var once := Lower(s);
    var twice := Lower(once);
    assert |twice| == |once|;
    forall i | 0 <= i < |once| ensures twice[i] == once[i] {
      assert once[i] == LowerChar(s[i]);
    }
  }

  lemma {:induction false} LowerAppend(a: string, b: string)
    ensures Lower(a + b) == Lower(a) + Lower(b)
  {
    var l := Lower(a + b);
    var r := Lower(a) + Lower(b);
    assert |l| == |r|;
    forall i | 0 <= i < |l| ensures l[i] == r[i] {
      if i < |a| {
        assert (a + b)[i] == a[i];
      } else {
        assert (a + b)[i] == b[i - |a|];
      }
    }
  }

  // ---------------------------------------------------------------------
  // Substring search (the `in` operator on two strings)
  // ---------------------------------------------------------------------

  /** `pat` occurs in `s` starting at index `i`. */
  ghost predicate OccursAt(pat: string, s: string, i: int)
  {
    0 <= i && i + |pat| <= |s| && s[i..i + |pat|] == pat
  }

  /** `pat` is a substring of `s`, as Python's `pat in s` decides it: an
      empty pattern occurs in every string. */
  function Contains(s: string, pat: string): (r: bool)
    ensures r <==> exists i :: OccursAt(pat, s, i)
    decreases |s|
  {
    if |s| < |pat| then
      false
    else if pat <= s then
      assert OccursAt(pat, s, 0);
      true
    else
      ContainsStep(s, pat);
      Contains(s[1..], pat)
  }

  /** When `pat` is not a prefix of `s`, its occurrences are those in the
      tail of `s`, one position further on. */
  lemma ContainsStep(s: string, pat: string)
    requires |s| >= |pat| && !(pat <= s)
    ensures (exists i :: OccursAt(pat, s, i)) <==> (exists i :: OccursAt(pat, s[1..], i))
  {
    var tail := s[1..];
    if i :| OccursAt(pat, s, i) {
      if i != 0 {
        assert tail[i - 1..i - 1 + |pat|] == s[i..i + |pat|];
        assert OccursAt(pat, tail, i - 1);
      }
    }
    if j :| OccursAt(pat, tail, j) {
      assert s[j + 1..j + 1 + |pat|] == tail[j..j + |pat|];
      assert OccursAt(pat, s, j + 1);
    }
  }

  /** An occurrence survives text added on either side. */
  lemma {:induction false} ContainsWithin(pre: string, s: string, post: string, pat: string)
    requires Contains(s, pat)
    ensures Contains(pre + s + post, pat)
  {
    var i :| OccursAt(pat, s, i);
    var t := pre + s + post;
    assert t[|pre| + i..|pre| + i + |pat|] == s[i..i + |pat|];
    assert OccursAt(pat, t, |pre| + i);
  }

  /** A template `a`, field `b`, text `c`, field `d`, text `e` contains both
      fields. */
  lemma {:induction false} ContainsFields(a: string, b: string, c: string, d: string, e: string)
    ensures Contains(a + b + c + d + e, b)
    ensures Contains(a + b + c + d + e, d)
  {
    var t := a + b + c + d + e;
    assert t[|a|..|a| + |b|] == b;
    assert OccursAt(b, t, |a|);
    assert t[|a + b + c|..|a + b + c| + |d|] == d;
    assert OccursAt(d, t, |a + b + c|);
  }

  /** Lower-casing keeps an occurrence of a pattern without capitals. */
  lemma {:induction false} ContainsLower(s: string, pat: string)
    requires Contains(s, pat) && NoUpper(pat)
    ensures Contains(Lower(s), pat)
  {
    var i :| OccursAt(pat, s, i);
    var l := Lower(s);
    assert l[i..i + |pat|] == pat by {
      forall k | 0 <= k < |pat| ensures l[i..i + |pat|][k] == pat[k] {
        assert s[i..i + |pat|][k] == pat[k];
      }
    }
    assert OccursAt(pat, l, i);
  }

  /** An occurrence read off character by character, after lower-casing. */
  lemma {:induction false} ContainsLowerAt(s: string, pat: string, i: nat)
    requires i + |pat| <= |s|
    requires forall j :: 0 <= j < |pat| ==> LowerChar(s[i + j]) == pat[j]
    ensures Contains(Lower(s), pat)
  {
    var l := Lower(s);
    assert l[i..i + |pat|] == pat by {
      forall j | 0 <= j < |pat| ensures l[i..i + |pat|][j] == pat[j] {
        assert l[i + j] == LowerChar(s[i + j]);
      }
    }
    assert OccursAt(pat, l, i);
  }

  /** No occurrence: two adjacent characters of the pattern never appear
      side by side in `s`. */
  lemma {:induction false} NotContainsByPair(s: string, pat: string, j: nat)
    requires j + 1 < |pat|
    requires forall i :: 0 <= i < |s| - 1 ==> !(s[i] == pat[j] && s[i + 1] == pat[j + 1])
    ensures !Contains(s, pat)
  {
    forall i ensures !OccursAt(pat, s, i) {
      if 0 <= i && i + |pat| <= |s| {
        assert s[i..i + |pat|][j] == s[i + j];
        assert s[i..i + |pat|][j + 1] == s[i + j + 1];
      }
    }
  }

  /** No two adjacent characters of `s` are `xs[m]` followed by `ys[m]`,
      for any `m`. */
  predicate NoPairs(s: string, xs: string, ys: string)
    requires |xs| == |ys|
  {
    forall i, m :: 0 <= i < |s| - 1 && 0 <= m < |xs| ==> !(s[i] == xs[m] && s[i + 1] == ys[m])
  }

  /** Pair-freedom of a concatenation: each part, and the two characters
      that meet at the seam. */
  lemma {:induction false} NoPairsAppend(a: string, b: string, xs: string, ys: string)
    requires |xs| == |ys|
    requires NoPairs(a, xs, ys) && NoPairs(b, xs, ys)
    requires a != [] && b != [] ==> forall m :: 0 <= m < |xs| ==> !(a[|a| - 1] == xs[m] && b[0] == ys[m])
    ensures NoPairs(a + b, xs, ys)
  {
    var ab := a + b;
    forall i, m | 0 <= i < |ab| - 1 && 0 <= m < |xs| ensures !(ab[i] == xs[m] && ab[i + 1] == ys[m]) {
      if i + 1 < |a| {
        assert ab[i] == a[i] && ab[i + 1] == a[i + 1];
      } else if i >= |a| {
        assert ab[i] == b[i - |a|] && ab[i + 1] == b[i + 1 - |a|];
      }
    }
  }

  // ---------------------------------------------------------------------
  // Joining (Python's `sep.join(parts)`)
  // ---------------------------------------------------------------------

  function Join(parts: seq<string>, sep: string): (r: string)
    ensures parts == [] ==> r == ""
    ensures |parts| == 1 ==> r == parts[0]
    ensures |parts| >= 1 ==> parts[0] <= r
  {
    if |parts| == 0 then ""
    else if |parts| == 1 then parts[0]
    else parts[0] + sep + Join(parts[1..], sep)
  }

  lemma JoinTwo(a: string, b: string, sep: string)
    ensures Join([a, b], sep) == a + sep + b
  {
    assert [a, b][1..] == [b];
  }

  // ---------------------------------------------------------------------
  // Digits (Python's `''.join(filter(str.isdigit, s))` and `int(...)`)
  // ---------------------------------------------------------------------

  predicate IsDigit(c: char)
  {
    '0' <= c <= '9'
  }

  predicate AllDigits(s: string)
  {
    forall i :: 0 <= i < |s| ==> IsDigit(s[i])
  }

  /** The digit characters of `s`, in order. */
  function Digits(s: string): (r: string)
    ensures |r| <= |s|
    ensures AllDigits(r)
    ensures r == [] <==> forall i :: 0 <= i < |s| ==> !IsDigit(s[i])
  {
    if s == [] then []
    else if IsDigit(s[0]) then [s[0]] + Digits(s[1..])
    else
      assert forall i :: 1 <= i < |s| ==> s[i] == s[1..][i - 1];
      Digits(s[1..])
  }

  /** Filtering distributes over concatenation: the result depends on each
      part separately, in order. */
  lemma {:induction false} DigitsAppend(a: string, b: string)
    ensures Digits(a + b) == Digits(a) + Digits(b)
  {
    if a == [] {
      assert a + b == b;
    } else {
      assert (a + b)[0] == a[0];
      assert (a + b)[1..] == a[1..] + b;
      DigitsAppend(a[1..], b);
    }
  }

  lemma {:induction false} DigitsOfDigits(s: string)
    requires AllDigits(s)
    ensures Digits(s) == s
  {
    if s != [] {
      DigitsOfDigits(s[1..]);
    }
  }

  function DigitValue(c: char): nat
    requires IsDigit(c)
  {
    c as int - '0' as int
  }

  function DigitChar(d: nat): (c: char)
    requires d < 10
    ensures IsDigit(c) && DigitValue(c) == d
  {
    ('0' as int + d) as char
  }

  /** The number a string of decimal digits denotes (leading zeros allowed). */
  function DecimalValue(ds: string): nat
    requires AllDigits(ds)
  {
    if ds == [] then 0
    else DecimalValue(ds[..|ds| - 1]) * 10 + DigitValue(ds[|ds| - 1])
  }

  /** The decimal text of `n`, as Python's `str(n)` writes it. */
  function Decimal(n: nat): (r: string)
    ensures |r| >= 1 && AllDigits(r)
    ensures DecimalValue(r) == n
    ensures |r| > 1 ==> r[0] != '0'
    ensures n < 10 <==> |r| == 1
  {
    if n < 10 then
      [DigitChar(n)]
    else
      var r := Decimal(n / 10) + [DigitChar(n % 10)];
      assert r[..|r| - 1] == Decimal(n / 10);
      r
  }
}
