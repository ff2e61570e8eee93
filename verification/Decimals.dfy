/** Decimal strings as numbers. */
module Decimals {
  import opened Outcomes

  predicate IsDigit(c: char) {
    '0' <= c <= '9'
  }

  predicate AllDigits(s: string) {
    forall i :: 0 <= i < |s| ==> IsDigit(s[i])
  }

  function DigitOf(c: char): nat
    requires IsDigit(c)
  {
    c as nat - '0' as nat
  }

  function CharOf(d: nat): (c: char)
    requires d < 10
    ensures IsDigit(c) && DigitOf(c) == d
  {
    (d + '0' as nat) as char
  }

  function Pow10(n: nat): (r: nat)
    ensures r > 0
  {
    if n == 0 then 1 else 10 * Pow10(n - 1)
  }

  /** The number that a string of digits denotes. */
  function Value(s: string): nat
    requires AllDigits(s)
  {
    if s == [] then 0 else 10 * Value(s[..|s| - 1]) + DigitOf(s[|s| - 1])
  }

  lemma {:induction false} ValueOfConcat(a: string, b: string)
    requires AllDigits(a) && AllDigits(b)
    ensures AllDigits(a + b)
    ensures Value(a + b) == Value(a) * Pow10(|b|) + Value(b)
    decreases |b|
  {
    if b == [] {
      assert a + b == a;
    } else {
      var init, last := b[..|b| - 1], b[|b| - 1];
      assert (a + b)[..|a + b| - 1] == a + init;
      ValueOfConcat(a, init);
      AppendDigit(Value(a), Pow10(|init|), Value(init), DigitOf(last));
    }
  }

  lemma AppendDigit(v: nat, p: nat, i: nat, d: nat)
    ensures 10 * (v * p + i) + d == v * (10 * p) + (10 * i + d)
  {
  }

  lemma Scale(x: nat, p: nat)
    ensures 10 * (x * p) == x * (10 * p)
  {
  }

  lemma {:induction false} ValueBound(s: string)
    requires AllDigits(s)
    ensures Value(s) < Pow10(|s|)
    decreases |s|
  {
    if s != [] {
      ValueBound(s[..|s| - 1]);
    }
  }

  lemma {:induction false} Pow10Adds(a: nat, b: nat)
    ensures Pow10(a + b) == Pow10(a) * Pow10(b)
    decreases b
  {
    if b > 0 {
      Pow10Adds(a, b - 1);
      Scale(Pow10(a), Pow10(b - 1));
    }
  }

  lemma {:induction false} Pow10Grows(a: nat, b: nat)
    requires a <= b
    ensures Pow10(a) <= Pow10(b)
    decreases b
  {
    if a < b {
      Pow10Grows(a, b - 1);
    }
  }

  function Zeros(n: nat): (s: string)
    ensures |s| == n && AllDigits(s) && forall i :: 0 <= i < n ==> s[i] == '0'
  {
    seq(n, _ => '0')
  }

  lemma {:induction false} ValueOfZeros(s: string)
    requires forall i :: 0 <= i < |s| ==> s[i] == '0'
    ensures AllDigits(s) && Value(s) == 0
    decreases |s|
  {
    if s != [] {
      ValueOfZeros(s[..|s| - 1]);
    }
  }

  /** Zeros on the right scale the number. */
  lemma ValueOfPadRight(s: string, n: nat)
    requires AllDigits(s)
    ensures AllDigits(s + Zeros(n)) && Value(s + Zeros(n)) == Value(s) * Pow10(n)
  {
    ValueOfConcat(s, Zeros(n));
    ValueOfZeros(Zeros(n));
  }

  /** Zeros on the left change nothing. */
  lemma ValueOfPadLeft(s: string, width: nat)
    requires AllDigits(s)
    ensures AllDigits(PadLeft(s, width)) && Value(PadLeft(s, width)) == Value(s)
  {
    if |s| < width {
      var zeros := Zeros(width - |s|);
      ValueOfConcat(zeros, s);
      ValueOfZeros(zeros);
    }
  }

  /** The shortest decimal numeral, as `{}` prints an unsigned number. */
  function Numeral(n: nat): (s: string)
    ensures |s| > 0 && AllDigits(s)
  {
    if n < 10 then [CharOf(n)] else Numeral(n / 10) + [CharOf(n % 10)]
  }

  lemma {:induction false} ValueOfNumeral(n: nat)
    ensures Value(Numeral(n)) == n
  {
    if n >= 10 {
      ValueOfNumeral(n / 10);
      var s := Numeral(n);
      assert s[..|s| - 1] == Numeral(n / 10);
    } else {
      assert Numeral(n)[..0] == [];
    }
  }

  lemma {:induction false} NumeralLength(n: nat, width: nat)
    requires n < Pow10(width) && width > 0
    ensures |Numeral(n)| <= width
    decreases width
  {
    if n >= 10 {
      NumeralLength(n / 10, width - 1);
    }
  }

  /** `{:0>width$}`. */
  function PadLeft(s: string, width: nat): string {
    if |s| < width then Zeros(width - |s|) + s else s
  }

  // Trimming and splitting -------------------------------------------------------------------------------

  /** The code points with the Unicode property White_Space. */
  predicate IsWhitespace(c: char) {
    || '\U{9}' <= c <= '\U{D}' || c == ' ' || c == '\U{85}' || c == '\U{A0}' || c == '\U{1680}'
    || '\U{2000}' <= c <= '\U{200A}' || c == '\U{2028}' || c == '\U{2029}' || c == '\U{202F}' || c == '\U{205F}'
    || c == '\U{3000}'
  }

  function TrimStart(s: string): (r: string)
    ensures r != [] ==> !IsWhitespace(r[0])
  {
    if s != [] && IsWhitespace(s[0]) then TrimStart(s[1..]) else s
  }

  function TrimEnd(s: string): (r: string)
    ensures r <= s
    ensures r != [] ==> !IsWhitespace(r[|r| - 1])
  {
    if s != [] && IsWhitespace(s[|s| - 1]) then TrimEnd(s[..|s| - 1]) else s
  }

  /** `str::trim`. */
  function Trim(s: string): string {
    TrimEnd(TrimStart(s))
  }

  lemma TrimKeeps(s: string)
    requires s == [] || (!IsWhitespace(s[0]) && !IsWhitespace(s[|s| - 1]))
    ensures Trim(s) == s
  {
  }

  function IndexOf(s: string, c: char): (r: nat)
    ensures r <= |s| && c !in s[..r]
    ensures r < |s| ==> s[r] == c
  {
    if s == [] || s[0] == c then
      0
    else
      var rest := IndexOf(s[1..], c);
      assert s[..rest + 1] == [s[0]] + s[1..][..rest];
      rest + 1
  }

  /** What stands before the first '.', and what stands after it; all and nothing when there is none. */
  function SplitPoint(s: string): (string, string) {
    var i := IndexOf(s, '.');
    if i < |s| then (s[..i], s[i + 1..]) else (s, "")
  }

  lemma {:induction false} FirstIndexIs(s: string, c: char, k: nat)
    requires k <= |s| && c !in s[..k]
    requires k < |s| ==> s[k] == c
    ensures IndexOf(s, c) == k
    decreases k
  {
    if k > 0 {
      assert s[..k] == [s[0]] + s[1..][..k - 1];
      FirstIndexIs(s[1..], c, k - 1);
    }
  }

  lemma SplitOfJoin(whole: string, frac: string)
    requires '.' !in whole
    ensures SplitPoint(whole + "." + frac) == (whole, frac)
    ensures SplitPoint(whole) == (whole, "")
  {
    var s := whole + "." + frac;
    assert s[..|whole|] == whole && s[|whole| + 1..] == frac;
    assert whole[..|whole|] == whole;
    FirstIndexIs(s, '.', |whole|);
    FirstIndexIs(whole, '.', |whole|);
  }

  lemma SplitIsJoin(s: string)
    ensures var (whole, frac) := SplitPoint(s); (s == whole && frac == "") || s == whole + "." + frac
    ensures '.' !in SplitPoint(s).0
  {
    var i := IndexOf(s, '.');
    if i < |s| {
      assert s == s[..i] + [s[i]] + s[i + 1..];
    } else {
      assert s[..i] == s;
    }
  }
}
