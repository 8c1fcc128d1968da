/** Amounts as text (packages/protocol/src/money.ts:57-77, packages/payments/src/stellar-rail.ts:288-292). */
module Amounts {
  import opened Money

  const PLACES: nat := 7
  const DIGITS: string := "0123456789"

  predicate IsDigit(c: char) { '0' <= c <= '9' }

  predicate AllDigits(s: string) { forall i :: 0 <= i < |s| ==> IsDigit(s[i]) }

  function DigitOf(n: nat): (c: char)
    requires n < 10
    ensures IsDigit(c) && ValueOf(c) == n
  {
    DIGITS[n]
  }

  function ValueOf(c: char): int { c as int - '0' as int }

  /** What a digit string is worth; nothing at all is worth zero. */
  function Value(s: string): int
  {
    if |s| == 0 then 0 else 10 * Value(s[..|s| - 1]) + ValueOf(s[|s| - 1])
  }

  /** `toString` of a non-negative integer. */
  function Decimal(n: nat): string
  {
    if n < 10 then [DigitOf(n)] else Decimal(n / 10) + [DigitOf(n % 10)]
  }

  function Zeros(n: nat): (s: string)
    ensures |s| == n
  {
    seq(n, i => '0')
  }

  function PadStart(s: string, width: nat): string { if |s| >= width then s else Zeros(width - |s|) + s }
  function PadEnd(s: string, width: nat): string { if |s| >= width then s else s + Zeros(width - |s|) }

  /** `replace(/0+$/, '')` */
  function WithoutTrailingZeros(s: string): string
  {
    if |s| > 0 && s[|s| - 1] == '0' then WithoutTrailingZeros(s[..|s| - 1]) else s
  }

  /** `toAmountString` */
  function ToAmountString(v: int): Checked<string>
  {
    if v <= 0 then MoneyError
    else
      var frac := WithoutTrailingZeros(PadStart(Decimal(v % SCALE), PLACES));
      Fine(if frac != "" then Decimal(v / SCALE) + "." + frac else Decimal(v / SCALE))
  }

  /** Position of the first point, or the length. */
  function PointAt(s: string): (k: nat)
    ensures k <= |s|
    ensures forall i :: 0 <= i < k ==> s[i] != '.'
    ensures k < |s| ==> s[k] == '.'
  {
    if |s| == 0 || s[0] == '.' then 0 else 1 + PointAt(s[1..])
  }

  predicate Negative(s: string) { |s| > 0 && s[0] == '-' }

  function Body(s: string): string { if Negative(s) then s[1..] else s }
  function Whole(s: string): string { Body(s)[..PointAt(Body(s))] }
  function Frac(s: string): string { var b := Body(s); if PointAt(b) < |b| then b[PointAt(b) + 1..] else "" }

  /** An optional sign, at least one digit, and optionally a point and one to seven digits. */
  predicate Grammar(s: string)
  {
    && AllDigits(Whole(s)) && |Whole(s)| >= 1
    && (PointAt(Body(s)) < |Body(s)| ==> AllDigits(Frac(s)) && 1 <= |Frac(s)| <= PLACES)
  }

  /** `fromAmountString` */
  function FromAmountString(s: string): Checked<int>
  {
    if !Grammar(s) then MoneyError
    else
      var v := Value(Whole(s)) * SCALE + Value(PadEnd(Frac(s), PLACES));
      var signed := if Negative(s) then -v else v;
      if InRange(signed) then Fine(signed) else MoneyError
  }

  /** `toStroopBigint`, on strings of the grammar: the sign stays with the part before the point. */
  function ToStroopBigint(s: string): int
    requires Grammar(s)
  {
    var whole := if Negative(s) then -Value(Whole(s)) else Value(Whole(s));
    whole * SCALE + Value((Frac(s) + "0000000")[..PLACES])
  }

  /* ---------- digit strings ---------- */

  lemma {:induction false} ValueAppend(s: string, c: char)
    ensures Value(s + [c]) == 10 * Value(s) + ValueOf(c)
  {
    assert (s + [c])[..|s|] == s;
  }

  lemma {:induction false} DecimalReadsBack(n: nat)
    ensures Value(Decimal(n)) == n && AllDigits(Decimal(n)) && |Decimal(n)| >= 1
    ensures n > 0 ==> Decimal(n)[0] != '0'
    ensures |Decimal(n)| > 1 ==> Decimal(n)[0] != '0'
  {
    if n < 10 {
      assert Decimal(n)[..0] == "";
    } else {
      DecimalReadsBack(n / 10);
      ValueAppend(Decimal(n / 10), DigitOf(n % 10));
    }
  }

  function Power(k: nat): int { if k == 0 then 1 else 10 * Power(k - 1) }

  lemma {:induction false} DecimalIsShort(n: nat, k: nat)
    requires n < Power(k) && k >= 1
    ensures |Decimal(n)| <= k
  {
    assert Power(k) == 10 * Power(k - 1) && Power(0) == 1;
    if n >= 10 {
      DecimalIsShort(n / 10, k - 1);
    }
  }

  lemma {:induction false} LeadingZeros(n: nat, s: string)
    ensures Value(Zeros(n) + s) == Value(s)
  {
    if |s| > 0 {
      assert (Zeros(n) + s)[..|Zeros(n) + s| - 1] == Zeros(n) + s[..|s| - 1];
      LeadingZeros(n, s[..|s| - 1]);
    } else if n > 0 {
      assert Zeros(n) + s == Zeros(n - 1) + "" + ['0'];
      ValueAppend(Zeros(n - 1) + "", '0');
      LeadingZeros(n - 1, "");
    } else {
      assert Zeros(0) + s == s;
    }
  }

  /** Dropping trailing zeros and padding again gives the string back. */
  lemma {:induction false} StripAndPad(s: string)
    requires AllDigits(s)
    ensures var t := WithoutTrailingZeros(s);
            && |t| <= |s| && s == t + Zeros(|s| - |t|) && AllDigits(t)
            && (t != "" ==> t[|t| - 1] != '0')
  {
    if |s| > 0 && s[|s| - 1] == '0' {
      StripAndPad(s[..|s| - 1]);
      var t := WithoutTrailingZeros(s);
      assert s == s[..|s| - 1] + ['0'];
      assert Zeros(|s| - |t|) == Zeros(|s| - 1 - |t|) + ['0'];
    } else {
      assert s + Zeros(0) == s;
    }
  }

  lemma {:induction false} PadIsValue(n: nat)
    requires n < SCALE
    ensures var p := PadStart(Decimal(n), PLACES); |p| == PLACES && AllDigits(p) && Value(p) == n
  {
    assert Power(7) == SCALE by {
      assert Power(1) == 10 && Power(2) == 100 && Power(3) == 1_000 && Power(4) == 10_000;
      assert Power(5) == 100_000 && Power(6) == 1_000_000;
    }
    DecimalIsShort(n, 7);
    DecimalReadsBack(n);
    LeadingZeros(PLACES - |Decimal(n)|, Decimal(n));
  }

  lemma {:induction false} PointAfterDigits(whole: string, rest: string)
    requires AllDigits(whole) && (rest == "" || rest[0] == '.')
    ensures PointAt(whole + rest) == |whole|
  {
    if |whole| > 0 {
      assert (whole + rest)[1..] == whole[1..] + rest;
      assert IsDigit(whole[0]);
      PointAfterDigits(whole[1..], rest);
    } else {
      assert whole + rest == rest;
    }
  }

  /** Taking a printed amount apart. */
  lemma {:induction false} PartsOf(whole: string, frac: string)
    requires AllDigits(whole) && |whole| >= 1 && AllDigits(frac) && |frac| <= PLACES
    ensures var s := if frac != "" then whole + "." + frac else whole;
            !Negative(s) && Whole(s) == whole && Frac(s) == frac && Grammar(s)
  {
    var s := if frac != "" then whole + "." + frac else whole;
    var rest := if frac != "" then "." + frac else "";
    assert s == whole + rest;
    assert IsDigit(whole[0]);
    PointAfterDigits(whole, rest);
    assert s[..|whole|] == whole;
    if frac != "" {
      assert s[|whole| + 1..] == frac;
    }
  }

  /* ---------- main results ---------- */

  /** Printing and reading back gives the amount, for every amount that can be printed. */
  lemma {:induction false} AmountRoundTrip(v: int)
    requires 0 < v <= MAX_STROOPS
    ensures ToAmountString(v).Fine? && FromAmountString(ToAmountString(v).value) == Fine(v)
  {
    var whole, padded := Decimal(v / SCALE), PadStart(Decimal(v % SCALE), PLACES);
    var frac := WithoutTrailingZeros(padded);
    DecimalReadsBack(v / SCALE);
    PadIsValue(v % SCALE);
    StripAndPad(padded);
    PartsOf(whole, frac);
    hide Value, Decimal, Whole, Frac, Grammar, PadStart, PadEnd, WithoutTrailingZeros;
    assert v == (v / SCALE) * SCALE + v % SCALE;
  }

  /** The printed form is canonical: no superfluous zeros on either side, at most seven decimals, no empty fraction. */
  lemma {:induction false} PrintedIsCanonical(v: int)
    requires 0 < v
    ensures var s := ToAmountString(v).value;
            && Grammar(s) && !Negative(s) && |Frac(s)| <= PLACES
            && (|Whole(s)| > 1 ==> Whole(s)[0] != '0')
            && (PointAt(s) < |s| ==> s[|s| - 1] != '0')
  {
    var whole, padded := Decimal(v / SCALE), PadStart(Decimal(v % SCALE), PLACES);
    DecimalReadsBack(v / SCALE);
    PadIsValue(v % SCALE);
    StripAndPad(padded);
    PartsOf(whole, WithoutTrailingZeros(padded));
    PointAfterDigits(whole, "");
    assert whole + "" == whole;
  }

  /** A fraction with a digit other than zero. */
  predicate Fractional(s: string) { exists i :: 0 <= i < |Frac(s)| && Frac(s)[i] != '0' }

  lemma {:induction false} ValueIsPositive(s: string)
    requires AllDigits(s)
    ensures 0 <= Value(s)
    ensures Value(s) == 0 <==> forall i :: 0 <= i < |s| ==> s[i] == '0'
  {
    if |s| > 0 {
      ValueIsPositive(s[..|s| - 1]);
      assert IsDigit(s[|s| - 1]);
    }
  }

  /**
    Where the two readers agree, on the whole grammar: always, except that a negative amount with a
    fraction comes out wrong in the second one. Deposits and balances are never negative.
    */
  lemma {:induction false} ReadersAgree(s: string)
    requires Grammar(s) && FromAmountString(s).Fine?
    ensures ToStroopBigint(s) == FromAmountString(s).value <==> !(Negative(s) && Fractional(s))
  {
    var frac := Frac(s);
    assert AllDigits(frac) && |frac| <= PLACES;
    assert (frac + "0000000")[..PLACES] == PadEnd(frac, PLACES) by {
      assert Zeros(PLACES) == "0000000";
    }
    var padded := PadEnd(frac, PLACES);
    ValueIsPositive(padded);
    assert forall i :: |frac| <= i < |padded| ==> padded[i] == '0';
    assert forall i :: 0 <= i < |frac| ==> padded[i] == frac[i];
    assert Value(padded) == 0 <==> !Fractional(s);
  }
}
