/** Base units on Solana and Zama, decimal strings on Canton, and the exact conversions between them. */
module Units {
  import opened Outcomes
  import opened Decimals

  const U64_LIMIT: nat := 0x1_0000_0000_0000_0000
  const U128_LIMIT: nat := 0x1_0000_0000_0000_0000_0000_0000_0000_0000

  datatype Error =
    | TooManyDecimals | ZeroAmount | Empty | Negative | InvalidWhole | InvalidFraction | TooPrecise
    | OverflowsTokens | OverflowsFraction | OverflowsBaseUnits | NotWholeTokens | ScaleOverflow

  datatype TokenUnits = TokenUnits(decimals: nat, baseUnits: nat)

  function ScaleFor(decimals: nat): Result<nat, Error> {
    if decimals > 18 then Err(TooManyDecimals)
    else if Pow10(decimals) < U64_LIMIT then Ok(Pow10(decimals))
    else Err(ScaleOverflow)
  }

  lemma ScaleNeverOverflows(decimals: nat)
    ensures ScaleFor(decimals) == if decimals > 18 then Err(TooManyDecimals) else Ok(Pow10(decimals))
  {
    if decimals <= 18 {
      Pow10Grows(decimals, 18);
      assert Pow10(18) == 1_000_000_000_000_000_000 by {
        assert Pow10(6) == 1_000_000;
        assert Pow10(12) == 1_000_000_000_000;
      }
    }
  }

  // Whole tokens ------------------------------------------------------------------------------------------

  function FromWholeTokens(tokens: nat, decimals: nat): Result<TokenUnits, Error> {
    var scale :- ScaleFor(decimals);
    :- Need(tokens != 0, ZeroAmount);
    :- Need(tokens * scale < U64_LIMIT, OverflowsBaseUnits);
    Ok(TokenUnits(decimals, tokens * scale))
  }

  function WholeTokens(u: TokenUnits): Result<nat, Error> {
    var scale :- ScaleFor(u.decimals);
    :- Need(u.baseUnits % scale == 0, NotWholeTokens);
    Ok(u.baseUnits / scale)
  }

  lemma DivideBack(tokens: nat, scale: nat)
    requires scale > 0
    ensures tokens * scale % scale == 0 && tokens * scale / scale == tokens
  {
    QuotientIs(tokens * scale, scale, tokens, 0);
  }

  lemma QuotientIs(n: nat, scale: nat, q: nat, r: nat)
    requires scale > 0 && n == q * scale + r && r < scale
    ensures n / scale == q && n % scale == r
  {
    var d := n / scale - q;
    assert d * scale + n % scale == r;
    assert d == 0 by {
      SmallMultiple(d, scale, r - n % scale);
    }
  }

  lemma SmallMultiple(d: int, scale: int, x: int)
    requires scale > 0 && d * scale == x && -scale < x < scale
    ensures d == 0
  {
  }

  lemma WholeTokensRoundTrip(tokens: nat, decimals: nat)
    requires FromWholeTokens(tokens, decimals).Ok?
    ensures WholeTokens(FromWholeTokens(tokens, decimals).value) == Ok(tokens)
  {
    ScaleNeverOverflows(decimals);
    DivideBack(tokens, Pow10(decimals));
  }

  // Printing ----------------------------------------------------------------------------------------------

  function BaseUnitsToCantonDecimal(baseUnits: nat, decimals: nat): Result<string, Error> {
    if baseUnits == 0 then
      Err(ZeroAmount)
    else
      var scale :- ScaleFor(decimals);
      Ok(Numeral(baseUnits / scale) + "." + PadLeft(Numeral(baseUnits % scale), decimals))
  }

  // Parsing -----------------------------------------------------------------------------------------------

  /** `str::parse` on a string of digits, for an unsigned type of that many values. */
  function ParseDigits(s: string, limit: nat): Option<nat>
    requires AllDigits(s)
  {
    if s != [] && Value(s) < limit then Some(Value(s)) else None
  }

  predicate AllZeros(s: string) {
    forall i :: 0 <= i < |s| ==> s[i] == '0'
  }

  function WholeUnits(whole: string): Result<nat, Error>
    requires AllDigits(whole)
  {
    if AllZeros(whole) then
      Ok(0)
    else
      match ParseDigits(whole, U64_LIMIT)
      case Some(n) => Ok(n)
      case None => Err(OverflowsTokens)
  }

  function FractionUnits(frac: string): Result<nat, Error>
    requires AllDigits(frac)
  {
    if frac == [] then
      Ok(0)
    else
      match ParseDigits(frac, U64_LIMIT)
      case Some(n) => Ok(n)
      case None => Err(OverflowsFraction)
  }

  function PadRight(frac: string, decimals: nat): (s: string)
    requires AllDigits(frac)
    ensures AllDigits(s)
  {
    if |frac| < decimals then frac + Zeros(decimals - |frac|) else frac
  }

  function Combine(whole: string, frac: string, decimals: nat): Result<nat, Error>
    requires AllDigits(whole) && AllDigits(frac)
  {
    var wholeUnits :- WholeUnits(whole);
    var fracUnits :- FractionUnits(frac);
    var scale :- ScaleFor(decimals);
    :- Need(wholeUnits * scale < U64_LIMIT, OverflowsBaseUnits);
    :- Need(wholeUnits * scale + fracUnits < U64_LIMIT, OverflowsBaseUnits);
    :- Need(wholeUnits * scale + fracUnits != 0, ZeroAmount);
    Ok(wholeUnits * scale + fracUnits)
  }

  function CantonDecimalToBaseUnits(text: string, decimals: nat): Result<nat, Error> {
    if decimals > 18 then
      Err(TooManyDecimals)
    else
      var amount := Trim(text);
      :- Need(amount != [], Empty);
      :- Need(amount[0] != '-', Negative);
      var (whole, frac) := SplitPoint(amount);
      :- Need(whole != [] && AllDigits(whole), InvalidWhole);
      :- Need(AllDigits(frac), InvalidFraction);
      :- Need(|frac| <= decimals, TooPrecise);
      Combine(whole, PadRight(frac, decimals), decimals)
  }

  /** The loop that pads the fraction, one zero at a time. */
  method PadFraction(frac: string, decimals: nat) returns (padded: string)
    requires AllDigits(frac)
    ensures padded == PadRight(frac, decimals)
  {
    padded := frac;
    while |padded| < decimals
      invariant |frac| <= |padded| && (|padded| <= decimals || padded == frac)
      invariant padded == frac + Zeros(|padded| - |frac|)
    {
      padded := padded + ['0'];
    }
  }

  method ParseCantonDecimal(text: string, decimals: nat) returns (r: Result<nat, Error>)
    ensures r == CantonDecimalToBaseUnits(text, decimals)
  {
    if decimals > 18 {
      return Err(TooManyDecimals);
    }
    var amount := Trim(text);
    if amount == [] {
      return Err(Empty);
    }
    if amount[0] == '-' {
      return Err(Negative);
    }
    var (whole, frac) := SplitPoint(amount);
    if whole == [] || !AllDigits(whole) {
      return Err(InvalidWhole);
    }
    if !AllDigits(frac) {
      return Err(InvalidFraction);
    }
    if |frac| > decimals {
      return Err(TooPrecise);
    }
    var padded := PadFraction(frac, decimals);
    r := Combine(whole, padded, decimals);
  }

  /** The text reads as `whole` or `whole.frac` with at most that many places, and denotes exactly n base units. */
  predicate Reads(text: string, decimals: nat, n: nat, whole: string, frac: string) {
    && AllDigits(whole) && AllDigits(frac) && whole != []
    && |frac| <= decimals
    && (Trim(text) == whole + "." + frac || (frac == [] && Trim(text) == whole))
    && n * Pow10(|frac|) == Value(whole + frac) * Pow10(decimals)
  }

  lemma FractionFits(frac: string)
    requires AllDigits(frac) && |frac| <= 18
    ensures FractionUnits(frac) == Ok(Value(frac))
  {
    ValueBound(frac);
    Pow10Grows(|frac|, 18);
    ScaleNeverOverflows(18);
  }

  /** `Combine` accepts exactly the non-zero amounts that fit in 64 bits, and returns them. */
  lemma CombineIsExact(whole: string, frac: string, decimals: nat)
    requires AllDigits(whole) && AllDigits(frac) && whole != [] && |frac| == decimals <= 18
    ensures Combine(whole, frac, decimals).Ok? <==> 0 < Value(whole + frac) < U64_LIMIT
    ensures Combine(whole, frac, decimals).Ok? ==> Combine(whole, frac, decimals) == Ok(Value(whole + frac))
  {
    ValueOfConcat(whole, frac);
    FractionFits(frac);
    ScaleNeverOverflows(decimals);
    if AllZeros(whole) {
      ValueOfZeros(whole);
    }
    TimesAtLeast(Value(whole), Pow10(decimals));
    var total := Value(whole) * Pow10(decimals) + Value(frac);
    assert Value(whole + frac) == total;
    if Value(whole) >= U64_LIMIT {
      assert Combine(whole, frac, decimals) == Err(OverflowsTokens);
    } else {
      assert WholeUnits(whole) == Ok(Value(whole));
    }
  }

  lemma TimesAtLeast(x: nat, k: nat)
    requires k > 0
    ensures x <= x * k
  {
  }

  lemma CancelFactor(a: nat, b: nat, k: nat)
    requires k > 0 && a * k == b * k
    ensures a == b
  {
  }

  /** Padding the fraction is multiplying by the missing power of ten. */
  lemma PaddedValue(whole: string, frac: string, decimals: nat)
    requires AllDigits(whole) && AllDigits(frac) && |frac| <= decimals
    ensures AllDigits(whole + PadRight(frac, decimals)) && AllDigits(whole + frac)
    ensures Value(whole + PadRight(frac, decimals)) * Pow10(|frac|) == Value(whole + frac) * Pow10(decimals)
  {
    var missing := decimals - |frac|;
    assert whole + PadRight(frac, decimals) == whole + frac + Zeros(missing);
    ValueOfPadRight(whole + frac, missing);
    Pow10Adds(missing, |frac|);
    Associate(Value(whole + frac), Pow10(missing), Pow10(|frac|));
  }

  lemma Associate(a: nat, b: nat, c: nat)
    ensures a * b * c == a * (b * c)
  {
  }

  lemma ReadsDetermines(text: string, decimals: nat, n: nat, whole: string, frac: string)
    requires Reads(text, decimals, n, whole, frac)
    ensures SplitPoint(Trim(text)) == (whole, frac)
    ensures Trim(text) != [] && Trim(text)[0] != '-'
    ensures AllDigits(whole + PadRight(frac, decimals)) && n == Value(whole + PadRight(frac, decimals))
  {
    SplitOfJoin(whole, frac);
    PaddedValue(whole, frac, decimals);
    CancelFactor(n, Value(whole + PadRight(frac, decimals)), Pow10(|frac|));
    assert Trim(text)[0] == whole[0];
  }

  /** A string is accepted with n base units exactly when it reads as n base units, and n is a positive u64. */
  lemma ParsingIsExact(text: string, decimals: nat, n: nat)
    ensures CantonDecimalToBaseUnits(text, decimals) == Ok(n) <==>
            decimals <= 18 && 0 < n < U64_LIMIT && exists whole, frac :: Reads(text, decimals, n, whole, frac)
  {
    if CantonDecimalToBaseUnits(text, decimals) == Ok(n) {
      var (whole, frac) := SplitPoint(Trim(text));
      SplitIsJoin(Trim(text));
      CombineIsExact(whole, PadRight(frac, decimals), decimals);
      PaddedValue(whole, frac, decimals);
      assert Reads(text, decimals, n, whole, frac);
    }
    if decimals <= 18 && 0 < n < U64_LIMIT && exists whole, frac :: Reads(text, decimals, n, whole, frac) {
      var whole, frac :| Reads(text, decimals, n, whole, frac);
      ReadsDetermines(text, decimals, n, whole, frac);
      CombineIsExact(whole, PadRight(frac, decimals), decimals);
    }
  }

  /** A quotient and a padded remainder have the right number of places and together denote the number. */
  lemma PrintedPartsDenote(q: nat, r: nat, decimals: nat)
    requires 1 <= decimals && r < Pow10(decimals)
    ensures var frac := PadLeft(Numeral(r), decimals);
            AllDigits(frac) && |frac| == decimals && Value(Numeral(q) + frac) == q * Pow10(decimals) + r
  {
    NumeralLength(r, decimals);
    ValueOfPadLeft(Numeral(r), decimals);
    ValueOfNumeral(q);
    ValueOfNumeral(r);
    ValueOfConcat(Numeral(q), PadLeft(Numeral(r), decimals));
  }

  lemma JoinedDigitsTrim(whole: string, frac: string)
    requires AllDigits(whole) && AllDigits(frac) && whole != [] && frac != []
    ensures Trim(whole + "." + frac) == whole + "." + frac
  {
    var text := whole + "." + frac;
    assert text[0] == whole[0] && text[|text| - 1] == frac[|frac| - 1];
    TrimKeeps(text);
  }

  lemma JoinedDigitsRead(whole: string, frac: string, decimals: nat, n: nat)
    requires AllDigits(whole) && AllDigits(frac) && whole != [] && 1 <= decimals == |frac|
    requires n == Value(whole + frac)
    ensures Reads(whole + "." + frac, decimals, n, whole, frac)
  {
    JoinedDigitsTrim(whole, frac);
  }

  lemma Division(n: nat, k: nat) returns (q: nat, r: nat)
    requires k > 0
    ensures q == n / k && r == n % k && n == q * k + r && r < k
  {
    q, r := n / k, n % k;
  }

  lemma PrintedReads(n: nat, decimals: nat) returns (whole: string, frac: string)
    requires 0 < n && 1 <= decimals <= 18
    ensures BaseUnitsToCantonDecimal(n, decimals) == Ok(whole + "." + frac)
    ensures Reads(whole + "." + frac, decimals, n, whole, frac)
  {
    ScaleNeverOverflows(decimals);
    var q, r := Division(n, Pow10(decimals));
    PrintedPartsDenote(q, r, decimals);
    whole, frac := Numeral(q), PadLeft(Numeral(r), decimals);
    JoinedDigitsRead(whole, frac, decimals, n);
  }

  /** What is printed is read back, for every positive u64 and every supported scale but the scale of no decimals. */
  lemma PrintThenParse(n: nat, decimals: nat)
    requires 0 < n < U64_LIMIT && decimals <= 18
    ensures BaseUnitsToCantonDecimal(n, decimals).Ok?
    ensures CantonDecimalToBaseUnits(BaseUnitsToCantonDecimal(n, decimals).value, decimals) == Ok(n) <==> decimals >= 1
    ensures decimals == 0 ==>
              CantonDecimalToBaseUnits(BaseUnitsToCantonDecimal(n, decimals).value, decimals) == Err(TooPrecise)
  {
    ScaleNeverOverflows(decimals);
    if decimals >= 1 {
      var whole, frac := PrintedReads(n, decimals);
      ParsingIsExact(whole + "." + frac, decimals, n);
    } else {
      var text := Numeral(n) + "." + "0";
      assert BaseUnitsToCantonDecimal(n, 0) == Ok(text) by {
        assert n / 1 == n && n % 1 == 0;
      }
      JoinedDigitsTrim(Numeral(n), "0");
      SplitOfJoin(Numeral(n), "0");
    }
  }

  // Amounts on the Canton ledger ------------------------------------------------------------------------------

  /** A Daml Decimal has ten places. */
  const CANTON_PLACES: nat := 10

  /** The Decimal, in units of its last place, that so many base units are. */
  function CantonAmount(baseUnits: nat, decimals: nat): nat
    requires decimals <= CANTON_PLACES
  {
    baseUnits * Pow10(CANTON_PLACES - decimals)
  }

  lemma ReadsWithMorePlaces(text: string, decimals: nat, places: nat, n: nat, whole: string, frac: string)
    requires Reads(text, decimals, n, whole, frac) && decimals <= places
    ensures Reads(text, places, n * Pow10(places - decimals), whole, frac)
  {
    var (v, more, k) := (Value(whole + frac), Pow10(places - decimals), Pow10(|frac|));
    Pow10Adds(decimals, places - decimals);
    Associate(n, more, k);
    Associate(n, k, more);
    assert more * k == k * more;
    Associate(v, Pow10(decimals), more);
  }

  /** What is printed for the Canton ledger denotes exactly that Decimal. */
  lemma PrintedIsCantonAmount(n: nat, decimals: nat) returns (whole: string, frac: string)
    requires 0 < n && 1 <= decimals <= CANTON_PLACES
    ensures BaseUnitsToCantonDecimal(n, decimals) == Ok(whole + "." + frac)
    ensures Reads(whole + "." + frac, CANTON_PLACES, CantonAmount(n, decimals), whole, frac)
  {
    whole, frac := PrintedReads(n, decimals);
    ReadsWithMorePlaces(whole + "." + frac, decimals, CANTON_PLACES, n, whole, frac);
  }

  // Amounts in the Canton history ---------------------------------------------------------------------------

  function TrimZeros(s: string): (r: string)
    ensures r <= s
  {
    if s != [] && s[|s| - 1] == '0' then TrimZeros(s[..|s| - 1]) else s
  }

  /** `decimal_to_base6`: millionths, on 128 bits. */
  function DecimalToBase6(raw: string): Option<nat> {
    var text := Trim(raw);
    var (whole, longFrac) := SplitPoint(text);
    var frac := TrimZeros(longFrac);
    if whole == [] || !AllDigits(whole) || !AllDigits(frac) || |frac| > 6 then
      None
    else if Value(whole) >= U128_LIMIT || Value(whole) * 1_000_000 >= U128_LIMIT then
      None
    else
      var total := Value(whole) * 1_000_000 + Value(PadRight(frac, 6));
      if total < U128_LIMIT then Some(total) else None
  }

  method ParseBase6(raw: string) returns (r: Option<nat>)
    ensures r == DecimalToBase6(raw)
  {
    var text := Trim(raw);
    var (whole, longFrac) := SplitPoint(text);
    var frac := TrimZeros(longFrac);
    if whole == [] || !AllDigits(whole) {
      return None;
    }
    if !AllDigits(frac) || |frac| > 6 {
      return None;
    }
    if Value(whole) >= U128_LIMIT || Value(whole) * 1_000_000 >= U128_LIMIT {
      return None;
    }
    var padded := PadFraction(frac, 6);
    var total := Value(whole) * 1_000_000 + Value(padded);
    r := if total < U128_LIMIT then Some(total) else None;
  }

  lemma {:induction false} TrimmedZerosComeBack(s: string, width: nat)
    requires AllDigits(s) && |s| <= width
    ensures AllDigits(TrimZeros(s)) && PadRight(TrimZeros(s), width) == PadRight(s, width)
    decreases |s|
  {
    if s != [] && s[|s| - 1] == '0' {
      var init := s[..|s| - 1];
      TrimmedZerosComeBack(init, width);
      assert init + Zeros(width - |init|) == s + Zeros(width - |s|);
    }
  }

  /** Whenever the six-decimal parser accepts, the history verifier reads the same number. */
  lemma HistoryReadsTheSame(text: string, n: nat)
    requires CantonDecimalToBaseUnits(text, 6) == Ok(n)
    ensures DecimalToBase6(text) == Some(n)
  {
    var (whole, frac) := SplitPoint(Trim(text));
    CombineIsExact(whole, PadRight(frac, 6), 6);
    ValueOfConcat(whole, PadRight(frac, 6));
    TrimmedZerosComeBack(frac, 6);
    assert Pow10(6) == 1_000_000;
  }

  /** The text reads as `whole` or `whole.frac`, with any number of places, and denotes exactly n millionths. */
  predicate DenotesMillionths(raw: string, n: nat, whole: string, frac: string) {
    && AllDigits(whole) && AllDigits(frac) && whole != []
    && (Trim(raw) == whole + "." + frac || (frac == [] && Trim(raw) == whole))
    && n * Pow10(|frac|) == Value(whole + frac) * Pow10(6)
  }

  lemma {:induction false} TrimmedZerosAreZeros(s: string)
    ensures s == TrimZeros(s) + Zeros(|s| - |TrimZeros(s)|)
    ensures AllDigits(TrimZeros(s)) <==> AllDigits(s)
    ensures TrimZeros(s) != [] ==> TrimZeros(s)[|TrimZeros(s)| - 1] != '0'
    decreases |s|
  {
    if s != [] && s[|s| - 1] == '0' {
      var init := s[..|s| - 1];
      TrimmedZerosAreZeros(init);
      var t := TrimZeros(s);
      assert s == init + ['0'];
      assert Zeros(|s| - |t|) == Zeros(|init| - |t|) + ['0'];
      assert forall i :: 0 <= i < |t| ==> t[i] == s[i];
    }
  }

  lemma CancelZeros(n: nat, p: nat, k: nat, v: nat, m: nat)
    requires k > 0
    ensures n * (p * k) == v * k * m <==> n * p == v * m
  {
    Associate(n, p, k);
    Exchange(v, k, m);
    if n * (p * k) == v * k * m {
      CancelFactor(n * p, v * m, k);
    }
  }

  /** Zeros at the end of the fraction do not change what a text denotes. */
  lemma TrimmedFractionDenotes(n: nat, whole: string, frac: string)
    requires AllDigits(whole) && AllDigits(frac) && AllDigits(TrimZeros(frac))
    ensures n * Pow10(|frac|) == Value(whole + frac) * Pow10(6)
      <==> n * Pow10(|TrimZeros(frac)|) == Value(whole + TrimZeros(frac)) * Pow10(6)
  {
    var t := TrimZeros(frac);
    var z := |frac| - |t|;
    TrimmedZerosAreZeros(frac);
    assert whole + frac == whole + t + Zeros(z);
    ValueOfPadRight(whole + t, z);
    Pow10Adds(|t|, z);
    CancelZeros(n, Pow10(|t|), Pow10(z), Value(whole + t), Pow10(6));
  }

  lemma Exchange(a: nat, b: nat, c: nat)
    ensures a * b * c == a * c * b
  {
  }

  /** With more than six places of which the last is not zero, nothing whole is denoted. */
  lemma LongFractionsDenoteNothing(n: nat, digits: string, places: nat)
    requires AllDigits(digits) && digits != [] && digits[|digits| - 1] != '0' && places > 6
    ensures n * Pow10(places) != Value(digits) * Pow10(6)
  {
    Pow10Adds(places - 6, 6);
    Associate(n, Pow10(places - 6), Pow10(6));
    if n * Pow10(places) == Value(digits) * Pow10(6) {
      CancelFactor(n * Pow10(places - 6), Value(digits), Pow10(6));
      var more := Pow10(places - 7);
      Scale(n, more);
      assert Value(digits) == 10 * (n * more);
      assert Value(digits) == 10 * Value(digits[..|digits| - 1]) + DigitOf(digits[|digits| - 1]);
      TenDivides(n * more, Value(digits[..|digits| - 1]), DigitOf(digits[|digits| - 1]));
    }
  }

  lemma TenDivides(a: nat, b: nat, d: nat)
    requires 10 * a == 10 * b + d && d < 10
    ensures d == 0
  {
  }

  /** What denotes whole millionths has at most six places once its zeros are trimmed, and padding those gives the number. */
  lemma MillionthsFit(n: nat, whole: string, frac: string)
    requires AllDigits(whole) && AllDigits(frac) && whole != []
    requires n * Pow10(|frac|) == Value(whole + frac) * Pow10(6)
    ensures var t := TrimZeros(frac);
      AllDigits(t) && |t| <= 6 && n == Value(whole) * Pow10(6) + Value(PadRight(t, 6))
  {
    var t := TrimZeros(frac);
    TrimmedZerosAreZeros(frac);
    TrimmedFractionDenotes(n, whole, frac);
    if |t| > 6 {
      assert (whole + t)[|whole + t| - 1] == t[|t| - 1];
      LongFractionsDenoteNothing(n, whole + t, |t|);
    }
    PaddedValue(whole, t, 6);
    CancelFactor(n, Value(whole + PadRight(t, 6)), Pow10(|t|));
    ValueOfConcat(whole, PadRight(t, 6));
  }

  lemma ReadingAddsUp(raw: string, whole: string, frac: string)
    requires SplitPoint(Trim(raw)) == (whole, frac) && whole != [] && AllDigits(whole)
    requires AllDigits(TrimZeros(frac)) && |TrimZeros(frac)| <= 6
    ensures var total := Value(whole) * 1_000_000 + Value(PadRight(TrimZeros(frac), 6));
      DecimalToBase6(raw) == if total < U128_LIMIT then Some(total) else None
  {
  }

  lemma MillionthsAreRead(raw: string, n: nat, whole: string, frac: string)
    requires DenotesMillionths(raw, n, whole, frac) && n < U128_LIMIT
    ensures DecimalToBase6(raw) == Some(n)
  {
    SplitOfJoin(whole, frac);
    assert SplitPoint(Trim(raw)) == (whole, frac);
    MillionthsFit(n, whole, frac);
    ReadingAddsUp(raw, whole, frac);
    assert Pow10(6) == 1_000_000;
  }

  lemma ReadMillionthsAreDenoted(raw: string, n: nat)
    requires DecimalToBase6(raw) == Some(n)
    ensures n < U128_LIMIT
    ensures DenotesMillionths(raw, n, SplitPoint(Trim(raw)).0, SplitPoint(Trim(raw)).1)
  {
    var (whole, frac) := SplitPoint(Trim(raw));
    var t := TrimZeros(frac);
    SplitIsJoin(Trim(raw));
    TrimmedZerosAreZeros(frac);
    PaddedValue(whole, t, 6);
    ValueOfConcat(whole, PadRight(t, 6));
    assert Pow10(6) == 1_000_000;
    TrimmedFractionDenotes(n, whole, frac);
  }

  /** The history verifier reads exactly the texts, of any number of places, that denote a whole number of millionths below 2^128. */
  lemma HistoryReadsExactly(raw: string, n: nat)
    ensures DecimalToBase6(raw) == Some(n) <==> n < U128_LIMIT && exists whole, frac :: DenotesMillionths(raw, n, whole, frac)
  {
    if DecimalToBase6(raw) == Some(n) {
      ReadMillionthsAreDenoted(raw, n);
    }
    if n < U128_LIMIT {
      forall whole, frac | DenotesMillionths(raw, n, whole, frac) ensures DecimalToBase6(raw) == Some(n) {
        MillionthsAreRead(raw, n, whole, frac);
      }
    }
  }

  /** A Decimal as the ledger writes it, with ten places, is read as the base units it stands for. */
  lemma TenPlacesAreRead(whole: string, frac: string, n: nat)
    requires AllDigits(whole) && whole != [] && AllDigits(frac) && |frac| == CANTON_PLACES
    requires Value(whole + frac) == CantonAmount(n, 6) && n < U128_LIMIT
    ensures DecimalToBase6(whole + "." + frac) == Some(n)
  {
    JoinedDigitsTrim(whole, frac);
    Pow10Adds(4, 6);
    Associate(n, Pow10(4), Pow10(6));
    MillionthsAreRead(whole + "." + frac, n, whole, frac);
  }

  predicate AmountsMatch(left: string, right: string) {
    match (DecimalToBase6(left), DecimalToBase6(right))
    case (Some(l), Some(r)) => l == r
    case _ => false
  }

  /** Two printed six-decimal amounts match exactly when they are the same number of base units. */
  lemma PrintedAmountsMatch(m: nat, n: nat)
    requires 0 < m < U64_LIMIT && 0 < n < U64_LIMIT
    ensures BaseUnitsToCantonDecimal(m, 6).Ok? && BaseUnitsToCantonDecimal(n, 6).Ok?
    ensures AmountsMatch(BaseUnitsToCantonDecimal(m, 6).value, BaseUnitsToCantonDecimal(n, 6).value) <==> m == n
  {
    PrintThenParse(m, 6);
    PrintThenParse(n, 6);
    HistoryReadsTheSame(BaseUnitsToCantonDecimal(m, 6).value, m);
    HistoryReadsTheSame(BaseUnitsToCantonDecimal(n, 6).value, n);
  }
}
