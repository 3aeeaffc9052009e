/** Strings as the scripts use them: code-point order, separators, and decimal printing. */
module Strings {

  /** Python's `<=` on `str`: code point by code point, a prefix first. */
  predicate Leq(a: string, b: string) {
    a == "" || (b != "" && (a[0] < b[0] || (a[0] == b[0] && Leq(a[1..], b[1..]))))
  }

  lemma {:induction false} LeqTotal(a: string, b: string)
    ensures Leq(a, b) || Leq(b, a)
  {
    if a != "" && b != "" && a[0] == b[0] {
      LeqTotal(a[1..], b[1..]);
    }
  }

  lemma {:induction false} LeqAntisymmetric(a: string, b: string)
    requires Leq(a, b) && Leq(b, a)
    ensures a == b
  {
    if a != "" && b != "" {
      LeqAntisymmetric(a[1..], b[1..]);
      assert a == [a[0]] + a[1..] && b == [b[0]] + b[1..];
    }
  }

  lemma {:induction false} LeqTransitive(a: string, b: string, c: string)
    requires Leq(a, b) && Leq(b, c)
    ensures Leq(a, c)
  {
    if a != "" && a[0] == b[0] == c[0] {
      LeqTransitive(a[1..], b[1..], c[1..]);
    }
  }

  /** The strings agree before this place and not in it. */
  predicate FirstDifference(a: string, b: string, k: int) {
    0 <= k < |a| && k < |b| && a[..k] == b[..k] && a[k] != b[k]
  }

  /** Said by positions: the smaller string is a beginning of the other one, or has the smaller character at the first
      place where they differ. */
  lemma {:induction false} LeqByFirstDifference(a: string, b: string)
    ensures Leq(a, b) <==> a <= b || exists k :: FirstDifference(a, b, k) && a[k] < b[k]
  {
    if a != "" && b != "" {
      var x, y := a[1..], b[1..];
      assert a == [a[0]] + x && b == [b[0]] + y;
      if a[0] == b[0] {
        LeqByFirstDifference(x, y);
        if k :| FirstDifference(x, y, k) && x[k] < y[k] {
          assert a[..k + 1] == [a[0]] + x[..k] && b[..k + 1] == [b[0]] + y[..k];
          assert FirstDifference(a, b, k + 1);
        }
        if k :| FirstDifference(a, b, k) && a[k] < b[k] {
          assert x[..k - 1] == a[..k][1..] && y[..k - 1] == b[..k][1..];
          assert FirstDifference(x, y, k - 1);
        }
      } else {
        assert FirstDifference(a, b, 0);
        forall k | 0 < k <= |a| && k <= |b| ensures a[..k] != b[..k] { assert a[..k][0] != b[..k][0]; }
      }
    }
  }

  /** Text up to the first separator is recovered from the joined string. */
  lemma {:induction false} SplitAtSeparator(sep: char, a: string, x: string, b: string, y: string)
    requires sep !in a && sep !in b
    requires a + [sep] + x == b + [sep] + y
    ensures a == b && x == y
  {
    var s := a + [sep] + x;
    assert s[|a|] == sep && s[|b|] == sep;
    assert forall i :: 0 <= i < |a| ==> s[i] == a[i];
    assert forall i :: 0 <= i < |b| ==> s[i] == b[i];
    assert |a| == |b|;
    assert a == s[..|a|] && b == s[..|b|];
    assert x == s[|a| + 1..] && y == s[|b| + 1..];
  }

  /** `"".join(f"{line}\n" for line in lines)`. */
  function JoinLines(lines: seq<string>): (r: string) {
    if lines == [] then "" else lines[0] + ['\n'] + JoinLines(lines[1..])
  }

  lemma {:induction false} JoinLinesInjective(s: seq<string>, t: seq<string>)
    requires forall x :: x in s ==> '\n' !in x
    requires forall x :: x in t ==> '\n' !in x
    requires JoinLines(s) == JoinLines(t)
    ensures s == t
  {
    if s != [] && t != [] {
      SplitAtSeparator('\n', s[0], JoinLines(s[1..]), t[0], JoinLines(t[1..]));
      JoinLinesInjective(s[1..], t[1..]);
      assert s == [s[0]] + s[1..] && t == [t[0]] + t[1..];
    }
  }

  /** ASCII letters and digits. */
  predicate Alphanumeric(c: char) { 'A' <= c <= 'Z' || 'a' <= c <= 'z' || '0' <= c <= '9' }

  predicate Digits(s: string) {
    forall i :: 0 <= i < |s| ==> '0' <= s[i] <= '9'
  }

  function Digit(d: nat): char
    requires d < 10
  {
    '0' + d as char
  }

  /** `str(n)` for a natural number. */
  function Decimal(n: nat): (s: string)
    ensures s != "" && Digits(s)
  {
    if n < 10 then [Digit(n)] else Decimal(n / 10) + [Digit(n % 10)]
  }

  /** `int(s)` for a string of ASCII digits. */
  function ParseDecimal(s: string): nat
    requires Digits(s)
  {
    if s == "" then 0
    else
      10 * ParseDecimal(s[..|s| - 1]) + (s[|s| - 1] - '0') as nat
  }

  /** Printing then reading an index gives the index back. */
  lemma {:induction false} DecimalRoundTrip(n: nat)
    ensures ParseDecimal(Decimal(n)) == n
  {
    if n < 10 {
      assert Decimal(n)[..0] == "";
    } else {
      DecimalRoundTrip(n / 10);
      var s := Decimal(n);
      assert s[..|s| - 1] == Decimal(n / 10);
    }
  }

  // ---- White space ------------------------------------------------------------------------------

  /** `c.isspace()`. */
  predicate IsSpace(c: char) {
    || '\t' <= c <= '\r' || '\U{1C}' <= c <= ' ' || '\U{2000}' <= c <= '\U{200A}'
    || c in {'\U{85}', '\U{A0}', '\U{1680}', '\U{2028}', '\U{2029}', '\U{202F}', '\U{205F}', '\U{3000}'}
  }

  /** `not text.strip()`. */
  predicate Blank(s: string) {
    forall i :: 0 <= i < |s| ==> IsSpace(s[i])
  }

  /** `s.strip()`. */
  function Strip(s: string): string {
    if s == "" then ""
    else if IsSpace(s[0]) then Strip(s[1..])
    else if IsSpace(s[|s| - 1]) then Strip(s[..|s| - 1])
    else s
  }

  /** What is taken away is white space, and what is left does not begin or end with any. */
  lemma {:induction false} StripExact(s: string) returns (i: nat, j: nat)
    ensures i <= j <= |s| && Strip(s) == s[i..j]
    ensures forall k :: 0 <= k < i || j <= k < |s| ==> IsSpace(s[k])
    ensures i < j ==> !IsSpace(s[i]) && !IsSpace(s[j - 1])
  {
    i, j := 0, |s|;
    if s != "" && IsSpace(s[0]) {
      var rest := s[1..];
      i, j := StripExact(rest);
      assert rest[i..j] == s[i + 1..j + 1];
      forall k | 1 <= k < i + 1 || j + 1 <= k < |s| ensures IsSpace(s[k]) { assert s[k] == rest[k - 1]; }
      i, j := i + 1, j + 1;
    } else if s != "" && IsSpace(s[|s| - 1]) {
      var rest := s[..|s| - 1];
      i, j := StripExact(rest);
      assert rest[i..j] == s[i..j];
      forall k | 0 <= k < i || j <= k < |rest| ensures IsSpace(s[k]) { assert s[k] == rest[k]; }
    }
  }

  /** Only text without white space at either end is left as it is. */
  lemma {:induction false} StripFixed(s: string)
    ensures |Strip(s)| <= |s|
    ensures Strip(s) == s <==> s == "" || (!IsSpace(s[0]) && !IsSpace(s[|s| - 1]))
  {
    if s != "" {
      StripFixed(s[1..]);
      StripFixed(s[..|s| - 1]);
    }
  }
}
