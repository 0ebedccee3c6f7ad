/**
 * The string building blocks of the formatters: decimal numerals as
 * JavaScript's `String(n)` / Python's `str(n)` print integers, `padStart`,
 * `endsWith`, and the code-unit order that `Array.prototype.sort` uses on strings.
 */
module Text {

  predicate IsDigit(c: char) { '0' <= c <= '9' }

  predicate AllDigits(s: string) { forall i :: 0 <= i < |s| ==> IsDigit(s[i]) }

  function DigitChar(d: nat): (c: char)
    requires d < 10
    ensures IsDigit(c)
  {
    (48 + d) as char
  }

  function DigitValue(c: char): nat
    requires IsDigit(c)
  {
    c as int - 48
  }

  /** The decimal numeral of `n`, without leading zeros. */
  function NatToString(n: nat): (s: string)
    ensures |s| >= 1 && AllDigits(s)
    ensures |s| > 1 ==> s[0] != '0'
  {
    if n < 10 then [DigitChar(n)] else NatToString(n / 10) + [DigitChar(n % 10)]
  }

  /** The value of a string of decimal digits (leading zeros allowed). */
  function ParseNat(s: string): nat
    requires AllDigits(s)
  {
    if s == [] then 0 else 10 * ParseNat(s[..|s| - 1]) + DigitValue(s[|s| - 1])
  }

  lemma {:induction false} ParseNatToString(n: nat)
    ensures ParseNat(NatToString(n)) == n
  {
    if n >= 10 {
      ParseNatToString(n / 10);
      var s := NatToString(n);
      assert s[..|s| - 1] == NatToString(n / 10);
    }
  }

  /** How many characters the numerals of small numbers take. */
  lemma NatToStringLength(n: nat)
    ensures n < 10 <==> |NatToString(n)| == 1
    ensures 10 <= n < 100 ==> |NatToString(n)| == 2
    ensures n < 1000 ==> |NatToString(n)| <= 3
  {
    if n >= 10 {
      assert |NatToString(n / 10)| >= 1;
      if n < 1000 {
        NatToStringLength(n / 10);
      }
    }
  }

  /** `s.padStart(width, c)`. */
  function PadStart(s: string, width: nat, c: char): (r: string)
    ensures |r| == if |s| >= width then |s| else width
    ensures r[|r| - |s|..] == s
    ensures forall i :: 0 <= i < |r| - |s| ==> r[i] == c
  {
    if |s| >= width then s else seq(width - |s|, _ => c) + s
  }

  lemma {:induction false} ParseNatLeadingZeros(z: string, s: string)
    requires forall i :: 0 <= i < |z| ==> z[i] == '0'
    requires AllDigits(s)
    ensures AllDigits(z + s) && ParseNat(z + s) == ParseNat(s)
  {
    if s == [] {
      assert z + s == z;
      AllZerosParse(z);
    } else {
      var init := s[..|s| - 1];
      assert (z + s)[..|z + s| - 1] == z + init;
      ParseNatLeadingZeros(z, init);
    }
  }

  lemma {:induction false} AllZerosParse(z: string)
    requires forall i :: 0 <= i < |z| ==> z[i] == '0'
    ensures AllDigits(z) && ParseNat(z) == 0
  {
    if z != [] {
      AllZerosParse(z[..|z| - 1]);
    }
  }

  /** `String(n).padStart(width, "0")`. */
  function ZeroPad(n: nat, width: nat): string
  {
    PadStart(NatToString(n), width, '0')
  }

  /** A numeral that fits is padded to exactly `width` digits that still read as `n`. */
  lemma ZeroPadReads(n: nat, width: nat)
    requires |NatToString(n)| <= width
    ensures |ZeroPad(n, width)| == width
    ensures AllDigits(ZeroPad(n, width)) && ParseNat(ZeroPad(n, width)) == n
  {
    var s := NatToString(n);
    var r := ZeroPad(n, width);
    var z := r[..|r| - |s|];
    assert r == z + s;
    ParseNatLeadingZeros(z, s);
    ParseNatToString(n);
  }

  /** `String(i)` / `str(i)` for any integer. */
  function IntToString(i: int): (s: string)
    ensures |s| >= 1
  {
    if i < 0 then "-" + NatToString(-i) else NatToString(i)
  }

  /** Reads back an optionally signed numeral. */
  function ParseInt(s: string): int
    requires |s| >= 1 && (if s[0] == '-' then AllDigits(s[1..]) else AllDigits(s))
  {
    if s[0] == '-' then 0 - ParseNat(s[1..]) else ParseNat(s)
  }

  lemma IntToStringReads(i: int)
    ensures var s := IntToString(i);
      (if s[0] == '-' then AllDigits(s[1..]) else AllDigits(s)) && ParseInt(s) == i
  {
    if i < 0 {
      ParseNatToString(-i);
      assert IntToString(i)[1..] == NatToString(-i);
    } else {
      ParseNatToString(i);
    }
  }

  predicate StartsWith(s: string, prefix: string)
  {
    |prefix| <= |s| && s[..|prefix|] == prefix
  }

  /** `s.endsWith(suffix)`. */
  predicate EndsWith(s: string, suffix: string)
  {
    |suffix| <= |s| && s[|s| - |suffix|..] == suffix
  }

  /** `a` sorts strictly before `b`, comparing code units left to right; a proper prefix sorts first. */
  predicate Below(a: string, b: string)
  {
    if a == [] then b != []
    else if b == [] then false
    else if a[0] != b[0] then a[0] < b[0]
    else Below(a[1..], b[1..])
  }

  lemma {:induction false} BelowIrreflexive(a: string)
    ensures !Below(a, a)
  {
    if a != [] {
      BelowIrreflexive(a[1..]);
    }
  }

  lemma {:induction false} BelowTransitive(a: string, b: string, c: string)
    requires Below(a, b) && Below(b, c)
    ensures Below(a, c)
  {
    if a != [] && b != [] && c != [] && a[0] == b[0] && b[0] == c[0] {
      BelowTransitive(a[1..], b[1..], c[1..]);
    }
  }

  lemma {:induction false} BelowTotal(a: string, b: string)
    requires a != b
    ensures Below(a, b) || Below(b, a)
  {
    if a != [] && b != [] && a[0] == b[0] {
      assert a == [a[0]] + a[1..] && b == [b[0]] + b[1..];
      BelowTotal(a[1..], b[1..]);
    }
  }

  lemma BelowAsymmetric(a: string, b: string)
    requires Below(a, b)
    ensures !Below(b, a)
  {
    if Below(b, a) {
      BelowTransitive(a, b, a);
      BelowIrreflexive(a);
    }
  }

  /** Strictly increasing, hence also free of duplicates. */
  predicate StrictlySorted(xs: seq<string>)
  {
    forall i, j :: 0 <= i < j < |xs| ==> Below(xs[i], xs[j])
  }

  /** Adds `x` to a strictly sorted list unless it is already there. */
  function Insert(sorted: seq<string>, x: string): (r: seq<string>)
    requires StrictlySorted(sorted)
    ensures StrictlySorted(r)
    ensures forall y :: y in r <==> y in sorted || y == x
  {
    if sorted == [] then [x]
    else if x == sorted[0] then sorted
    else if Below(x, sorted[0]) then
      assert forall j :: 0 <= j < |sorted| ==> Below(x, sorted[j]) by {
        forall j | 0 <= j < |sorted| ensures Below(x, sorted[j]) {
          if j > 0 { BelowTransitive(x, sorted[0], sorted[j]); }
        }
      }
      [x] + sorted
    else
      BelowTotal(x, sorted[0]);
      var rest := Insert(sorted[1..], x);
      assert forall y :: y in rest ==> Below(sorted[0], y) by {
        forall y | y in rest ensures Below(sorted[0], y) {
          if y != x {
            var j :| 0 <= j < |sorted[1..]| && sorted[1..][j] == y;
            assert sorted[j + 1] == y;
          }
        }
      }
      [sorted[0]] + rest
  }

  /** `[...new Set(xs)].sort()`: the distinct values of `xs` in ascending order. */
  function SortedUnique(xs: seq<string>): (r: seq<string>)
    ensures StrictlySorted(r)
    ensures forall y :: y in r <==> y in xs
  {
    if xs == [] then []
    else
      var r := Insert(SortedUnique(xs[..|xs| - 1]), xs[|xs| - 1]);
      assert forall y :: y in xs <==> y in xs[..|xs| - 1] || y == xs[|xs| - 1] by {
        assert xs == xs[..|xs| - 1] + [xs[|xs| - 1]];
      }
      r
  }
}
