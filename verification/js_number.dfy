/** The slice of JavaScript number semantics the wallet store relies on:
    `Number(s)` on an amount string, `+` on the running total, and
    `String(n)` on the result.  Amounts are modelled as exact naturals; a
    JavaScript double agrees with them only below 2^53. */
module JsNumber {

  /** A value of `Number(amount)`: a non-negative integer, or NaN. */
  datatype Num = Int(n: nat) | NaN

  predicate IsDigit(c: char) {
    '0' <= c <= '9'
  }

  function DigitValue(c: char): (d: nat)
    requires IsDigit(c)
    ensures d < 10
  {
    c as int - '0' as int
  }

  function DigitChar(d: nat): (c: char)
    requires d < 10
    ensures IsDigit(c) && DigitValue(c) == d
  {
    (d + '0' as int) as char
  }

  /** A string that `Number` reads as a non-negative integer: digits only.
      The empty string is included, since `Number("")` is 0. */
  predicate IsNumeral(s: string) {
    forall i :: 0 <= i < |s| ==> IsDigit(s[i])
  }

  /** A numeral as `String(n)` writes it: non-empty, no redundant leading zero. */
  predicate IsCanonical(s: string) {
    IsNumeral(s) && |s| > 0 && (s[0] == '0' ==> |s| == 1)
  }

  function DecimalValue(s: string): nat
    requires IsNumeral(s)
  {
    if s == [] then 0 else 10 * DecimalValue(s[..|s| - 1]) + DigitValue(s[|s| - 1])
  }

  /** `Number(s)` */
  function ToNumber(s: string): (r: Num)
    ensures r.NaN? <==> !IsNumeral(s)
  {
    if IsNumeral(s) then Int(DecimalValue(s)) else NaN
  }

  /** `a + b`, where NaN absorbs everything */
  function Plus(a: Num, b: Num): Num {
    if a.Int? && b.Int? then Int(a.n + b.n) else NaN
  }

  /** `String(n)` for a non-negative integer */
  function NatToDecimal(n: nat): (s: string)
    ensures IsCanonical(s)
    ensures DecimalValue(s) == n
  {
    if n < 10 then [DigitChar(n)]
    else
      var prefix := NatToDecimal(n / 10);
      var s := prefix + [DigitChar(n % 10)];
      assert s[..|s| - 1] == prefix;
      s
  }

  /** `String(x)` */
  function NumToString(x: Num): string {
    match x
    case Int(n) => NatToDecimal(n)
    case NaN => "NaN"
  }

  /** `Number(String(x)) === x` for every value the store can compute
      (reading NaN === NaN as "both are NaN"). */
  lemma NumberOfStringRoundTrip(x: Num)
    ensures ToNumber(NumToString(x)) == x
  {
  }

  lemma {:induction false} CanonicalNonZeroLead(s: string)
    requires IsNumeral(s) && |s| > 0 && s[0] != '0'
    ensures DecimalValue(s) >= 1
  {
    if |s| > 1 {
      var init := s[..|s| - 1];
      assert init[0] == s[0];
      CanonicalNonZeroLead(init);
    }
  }

  /** A canonical numeral survives `String(Number(s))` unchanged. */
  lemma {:induction false} DecimalRoundTrip(s: string)
    requires IsCanonical(s)
    ensures NatToDecimal(DecimalValue(s)) == s
  {
    if |s| == 1 {
      assert s == [DigitChar(DigitValue(s[0]))];
    } else {
      var init := s[..|s| - 1];
      var d := DigitValue(s[|s| - 1]);
      assert init[0] == s[0];
      CanonicalNonZeroLead(init);
      DecimalRoundTrip(init);
      var n := DecimalValue(s);
      assert n == 10 * DecimalValue(init) + d;
      assert n / 10 == DecimalValue(init) && n % 10 == d;
      assert s == init + [DigitChar(d)];
    }
  }

  /** Every amount of the list is read as a number by `Number`. */
  predicate AllNumeric(amounts: seq<string>) {
    forall i :: 0 <= i < |amounts| ==> IsNumeral(amounts[i])
  }

  function SumValues(amounts: seq<string>): nat
    requires AllNumeric(amounts)
  {
    if amounts == [] then 0 else DecimalValue(amounts[0]) + SumValues(amounts[1..])
  }

  /** The value of adding up `Number(a)` for every amount `a`, stated
      without a loop: the exact sum when every amount is a numeral, NaN
      as soon as one is not. */
  function Total(amounts: seq<string>): Num {
    if AllNumeric(amounts) then Int(SumValues(amounts)) else NaN
  }

  lemma {:induction false} SumValuesAppend(a: seq<string>, b: seq<string>)
    requires AllNumeric(a) && AllNumeric(b)
    ensures AllNumeric(a + b)
    ensures SumValues(a + b) == SumValues(a) + SumValues(b)
  {
    if a == [] {
      assert a + b == b;
    } else {
      assert (a + b)[1..] == a[1..] + b;
      SumValuesAppend(a[1..], b);
    }
  }

  /** Summing a concatenation is adding the two partial totals. */
  lemma TotalAppend(a: seq<string>, b: seq<string>)
    ensures Total(a + b) == Plus(Total(a), Total(b))
  {
    if AllNumeric(a) && AllNumeric(b) {
      SumValuesAppend(a, b);
    } else if !AllNumeric(a) {
      var i :| 0 <= i < |a| && !IsNumeral(a[i]);
      assert (a + b)[i] == a[i];
    } else {
      var i :| 0 <= i < |b| && !IsNumeral(b[i]);
      assert (a + b)[|a| + i] == b[i];
    }
  }

  /** Adding one more amount to a list adds its `Number` to the total. */
  lemma TotalSnoc(a: seq<string>, x: string)
    ensures Total(a + [x]) == Plus(Total(a), ToNumber(x))
  {
    TotalAppend(a, [x]);
    assert [x][0] == x && [x][1..] == [];
    if IsNumeral(x) {
      assert SumValues([x]) == DecimalValue(x);
    }
  }
}
