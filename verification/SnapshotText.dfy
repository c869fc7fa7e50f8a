/** The canonical text of a candle snapshot, from which its digest is taken. */
module SnapshotText {
  import opened Wrappers
  import opened Decimals
  import opened ScientificNotation

  // ---------------------------------------------------------------- numbers

  function DigitChar(d: nat): char
    requires d < 10
  {
    ('0' as int + d) as char
  }

  function DigitText(n: nat): string {
    if n < 10 then [DigitChar(n)] else DigitText(n / 10) + [DigitChar(n % 10)]
  }

  /** The last `k` digits of `n`. */
  function Padded(n: nat, k: nat): string {
    if k == 0 then "" else Padded(n / 10, k - 1) + [DigitChar(n % 10)]
  }

  function IntegerText(n: int): string {
    if n < 0 then "-" + DigitText(-n) else DigitText(n)
  }

  const FRACTION_DIGITS: nat := 15

  /** A value in units of the fifteenth fraction digit, ties away from zero. */
  function Units(value: real): int {
    HalfAway(value * Ten(FRACTION_DIGITS))
  }

  /** `m` units of the fifteenth fraction digit, where `one` units make one. */
  function FixedText(negative: bool, m: nat, one: int): string
    requires one > 0
  {
    (if negative then "-" else "") + DigitText(Quotient(m, one)) + "." + Padded(Remainder(m, one), FRACTION_DIGITS)
  }

  function Quotient(m: nat, one: int): (q: nat)
    requires one > 0
  {
    m / one
  }

  function Remainder(m: nat, one: int): (r: nat)
    requires one > 0
    ensures r < one && m == Quotient(m, one) * one + r
  {
    m % one
  }

  function ToFixed(value: real): string {
    FixedText(value < 0.0, Abs(Units(value)), PowerOfTen(FRACTION_DIGITS))
  }

  function StripZeros(s: string): string {
    if s != "" && s[|s| - 1] == '0' then StripZeros(s[..|s| - 1]) else s
  }

  function StripPoint(s: string): string {
    if s != "" && s[|s| - 1] == '.' then s[..|s| - 1] else s
  }

  function CanonicalNumber(value: real): string {
    var fixed := StripPoint(StripZeros(ToFixed(value)));
    if fixed == "-0" then "0" else fixed
  }

  // ---------------------------------------------------------------- snapshots

  datatype Candle = Candle(timestamp: int, open: real, high: real, low: real, close: real, volume: real)

  datatype Snapshot = Snapshot(pair: string, timeframe: string, from: int, until: int, candles: seq<Candle>)

  /** A text after its length, so that whatever it contains cannot be mistaken for what follows. */
  function Counted(s: string): string {
    DigitText(|s|) + ":" + s
  }

  function CandleLine(c: Candle): string {
    "candle=" + IntegerText(c.timestamp * 1000) + "|" + CanonicalNumber(c.open) + "|" + CanonicalNumber(c.high) + "|"
      + CanonicalNumber(c.low)
    + "|" + CanonicalNumber(c.close) + "|" + CanonicalNumber(c.volume)
  }

  function Lines(x: Snapshot): seq<string> {
    ["version=market-data-snapshot-v1", "pair=" + Counted(x.pair), "timeframe=" + Counted(x.timeframe),
     "fromEpochMicros=" + IntegerText(x.from * 1000), "toEpochMicros=" + IntegerText(x.until * 1000),
       "candleCount=" + DigitText(|x.candles|)]
    + CandleLines(x.candles)
  }

  function CandleLines(candles: seq<Candle>): seq<string> {
    if candles == [] then [] else [CandleLine(candles[0])] + CandleLines(candles[1..])
  }

  function Following(lines: seq<string>): string {
    if lines == [] then "" else "\n" + lines[0] + Following(lines[1..])
  }

  function Join(lines: seq<string>): string
    requires lines != []
  {
    lines[0] + Following(lines[1..])
  }

  function Serialization(x: Snapshot): string {
    Join(Lines(x))
  }

  // ---------------------------------------------------------------- what a number's text says

  lemma {:induction false} DigitTextNumber(n: nat)
    ensures Digits(DigitText(n)) && DigitText(n) != "" && Number(DigitText(n)) == n
  {
    if n < 10 {
      assert [DigitChar(n)][..0] == "";
    } else {
      DigitTextNumber(n / 10);
      assert DigitText(n)[..|DigitText(n)| - 1] == DigitText(n / 10);
    }
  }

  lemma {:induction false} PaddedNumber(n: nat, k: nat)
    requires n < PowerOfTen(k)
    ensures Digits(Padded(n, k)) && |Padded(n, k)| == k && Number(Padded(n, k)) == n
  {
    if k > 0 {
      PaddedNumber(n / 10, k - 1);
      assert Padded(n, k)[..|Padded(n, k)| - 1] == Padded(n / 10, k - 1);
    }
  }

  lemma {:induction false} StripZerosDigits(s: string)
    requires Digits(s)
    ensures Digits(StripZeros(s)) && |StripZeros(s)| <= |s|
    ensures StripZeros(s) != "" ==>
      StripZeros(s)[|StripZeros(s)| - 1] != '0' && IsDigit(StripZeros(s)[|StripZeros(s)| - 1])
  {
    if s != "" && s[|s| - 1] == '0' { StripZerosDigits(s[..|s| - 1]); }
  }

  /** Stripped zeros count in the scale. */
  lemma {:induction false} StripZerosNumber(w: string, s: string)
    requires Digits(s)
    ensures |StripZeros(s)| <= |s| && Number(w + s) == Number(w + StripZeros(s)) * PowerOfTen(|s| - |StripZeros(s)|)
  {
    if s != "" && s[|s| - 1] == '0' {
      var t := s[..|s| - 1];
      StripZerosNumber(w, t);
      StripZerosDigits(t);
      assert (w + s)[..|w + s| - 1] == w + t;
      assert Number(w + s) == 10 * Number(w + t);
      assert PowerOfTen(|s| - |StripZeros(t)|) == 10 * PowerOfTen(|t| - |StripZeros(t)|);
      Associate(Number(w + StripZeros(t)), PowerOfTen(|t| - |StripZeros(t)|));
    }
  }

  lemma Associate(a: int, p: int)
    ensures 10 * (a * p) == a * (10 * p)
  {
  }

  lemma {:induction false} StripZerosStops(a: string, s: string)
    requires a != "" && a[|a| - 1] != '0'
    ensures StripZeros(a + s) == a + StripZeros(s)
  {
    if s == "" {
      assert a + s == a;
    } else if s[|s| - 1] == '0' {
      assert (a + s)[..|a + s| - 1] == a + s[..|s| - 1];
      StripZerosStops(a, s[..|s| - 1]);
    }
  }

  /** What `StripPoint(StripZeros(…))` leaves of a fixed text. */
  function Stripped(sign: string, whole: string, fraction: string): string {
    sign + whole + if StripZeros(fraction) == "" then "" else "." + StripZeros(fraction)
  }

  lemma StripFixed(sign: string, whole: string, fraction: string)
    requires Digits(whole) && whole != "" && Digits(fraction)
    ensures StripPoint(StripZeros(sign + whole + "." + fraction)) == Stripped(sign, whole, fraction)
  {
    var a := sign + whole + ".";
    assert a[|a| - 1] == '.';
    StripZerosStops(a, fraction);
    StripZerosDigits(fraction);
    var kept := StripZeros(fraction);
    if kept == "" {
      assert a + kept == a;
      assert a[..|a| - 1] == sign + whole;
    } else {
      assert (a + kept)[|a + kept| - 1] == kept[|kept| - 1];
      assert a + kept == sign + whole + ("." + kept);
    }
  }

  /** The numeral a value is written as. */
  function CanonicalNumeral(value: real): Numeral {
    var m := Abs(Units(value));
    var kept := StripZeros(Padded(Remainder(m, PowerOfTen(FRACTION_DIGITS)), FRACTION_DIGITS));
    Numeral(if Units(value) < 0 then Minus
      else Unsigned, DigitText(Quotient(m, PowerOfTen(FRACTION_DIGITS))), if kept == "" then None else Some(kept), None)
  }

  lemma {:induction false} HalfAwaySign(value: real)
    ensures Units(value) < 0 ==> value < 0.0
    ensures Units(value) > 0 ==> value > 0.0
  {
    var p := Ten(FRACTION_DIGITS);
    assert value >= 0.0 ==> value * p >= 0.0;
    assert value <= 0.0 ==> value * p <= 0.0;
  }

  lemma {:induction false} NoFraction(k: nat)
    ensures StripZeros(Padded(0, k)) == ""
  {
    if k > 0 {
      assert Padded(0, k)[..|Padded(0, k)| - 1] == Padded(0, k - 1);
      NoFraction(k - 1);
    }
  }

  /** Only zero is written as a zero with nothing behind the point. */
  lemma NothingKept(m: nat, one: int)
    requires one == PowerOfTen(FRACTION_DIGITS) && DigitText(Quotient(m, one)) == "0"
    requires StripZeros(Padded(Remainder(m, one), FRACTION_DIGITS)) == ""
    ensures m == 0
  {
    var fraction := Padded(Remainder(m, one), FRACTION_DIGITS);
    DigitTextNumber(Quotient(m, one));
    PaddedNumber(Remainder(m, one), FRACTION_DIGITS);
    assert Number("0") == 0 by { assert "0"[..0] == ""; }
    hide DigitText, Padded, PowerOfTen, Quotient;
    StripZerosNumber("", fraction);
    assert "" + fraction == fraction && "" + StripZeros(fraction) == "";
    ZeroTimes(PowerOfTen(|fraction|), one);
  }

  lemma ZeroTimes(p: int, q: int)
    ensures 0 * p == 0 && 0 * q == 0
  {
  }

  lemma FixedParts(value: real, one: int)
    requires one == PowerOfTen(FRACTION_DIGITS)
    ensures var m := Abs(Units(value));
      var whole, fraction := DigitText(Quotient(m, one)), Padded(Remainder(m, one), FRACTION_DIGITS);
      && StripPoint(StripZeros(ToFixed(value))) == Stripped(if value < 0.0 then "-" else "", whole, fraction)
      && Digits(whole) && Digits(StripZeros(fraction)) && whole != ""
  {
    var m := Abs(Units(value));
    DigitTextNumber(Quotient(m, one));
    PaddedNumber(Remainder(m, one), FRACTION_DIGITS);
    hide Units, PowerOfTen, DigitText, Padded, StripZeros, StripPoint, Quotient, Remainder, Number, Abs;
    StripZerosDigits(Padded(Remainder(m, one), FRACTION_DIGITS));
    StripFixed(if value < 0.0 then "-"
      else "", DigitText(Quotient(m, one)), Padded(Remainder(m, one), FRACTION_DIGITS));
  }

  /** The fraction of the numeral, if it has one, is not empty and does not end in a zero; zero has no sign. */
  lemma NumeralIsNeat(value: real)
    ensures var n := CanonicalNumeral(value);
      && (n.fraction.Some? ==> n.fraction.value != "" && n.fraction.value[|n.fraction.value| - 1] != '0')
      && (Units(value) == 0 ==> n == Numeral(Unsigned, "0", None, None))
  {
    var m, one := Abs(Units(value)), PowerOfTen(FRACTION_DIGITS);
    hide Units, PowerOfTen, StripZeros, Padded;
    PaddedNumber(Remainder(m, one), FRACTION_DIGITS);
    StripZerosDigits(Padded(Remainder(m, one), FRACTION_DIGITS));
    if m == 0 { NoFraction(FRACTION_DIGITS); }
  }

  lemma CanonicalWrites(value: real)
    ensures CanonicalNumber(value) == Text(CanonicalNumeral(value)) && Valid(CanonicalNumeral(value))
  {
    var one := PowerOfTen(FRACTION_DIGITS);
    var m := Abs(Units(value));
    FixedParts(value, one);
    HalfAwaySign(value);
    if m == 0 {
      NoFraction(FRACTION_DIGITS);
      ZeroParts(one);
    } else if DigitText(Quotient(m, one)) == "0" && StripZeros(Padded(Remainder(m, one), FRACTION_DIGITS)) == "" {
      NothingKept(m, one);
    }
    hide Units, PowerOfTen, DigitText, Padded, StripZeros, StripPoint, Quotient, Remainder, Digits, ToFixed;
    CanonicalChoice(value, m, one);
  }

  /**
   * A value's canonical text is that of a numeral with no needless zero and no bare point, and zero is written without
   * a sign.
   */
  lemma CanonicalIsText(value: real)
    ensures CanonicalNumber(value) == Text(CanonicalNumeral(value)) && Valid(CanonicalNumeral(value))
    ensures var n := CanonicalNumeral(value);
      && (n.fraction.Some? ==> n.fraction.value != "" && n.fraction.value[|n.fraction.value| - 1] != '0')
      && (Units(value) == 0 ==> n == Numeral(Unsigned, "0", None, None) && CanonicalNumber(value) == "0")
  {
    hide CanonicalNumber, CanonicalNumeral, Units, Valid;
    CanonicalWrites(value);
    NumeralIsNeat(value);
  }

  lemma ZeroParts(one: int)
    requires one > 0
    ensures Quotient(0, one) == 0 && Remainder(0, one) == 0 && DigitText(0) == "0"
  {
  }

  lemma CanonicalChoice(value: real, m: nat, one: int)
    requires one == PowerOfTen(FRACTION_DIGITS) && m == Abs(Units(value))
    requires var whole, fraction := DigitText(Quotient(m, one)), Padded(Remainder(m, one), FRACTION_DIGITS);
      && StripPoint(StripZeros(ToFixed(value))) == Stripped(if value < 0.0 then "-" else "", whole, fraction)
      && Digits(whole) && Digits(StripZeros(fraction)) && whole != ""
      && (m == 0 <==> whole == "0" && StripZeros(fraction) == "")
    requires Units(value) < 0 ==> value < 0.0
    requires Units(value) > 0 ==> value > 0.0
    ensures CanonicalNumber(value) == Text(CanonicalNumeral(value)) && Valid(CanonicalNumeral(value))
  {
    hide Units, PowerOfTen, DigitText, Padded, StripZeros, StripPoint, Quotient, Remainder, ToFixed, Text, Digits,
      Stripped;
    var whole, fraction := DigitText(Quotient(m, one)), Padded(Remainder(m, one), FRACTION_DIGITS);
    FirstDigit(whole);
    Choice(Units(value), value < 0.0, whole, fraction);
  }

  lemma FirstDigit(s: string)
    requires Digits(s) && s != ""
    ensures s[0] != '-'
  {
  }

  lemma Choice(units: int, negative: bool, whole: string, fraction: string)
    requires units < 0 ==> negative
    requires units > 0 ==> !negative
    requires units == 0 <==> whole == "0" && StripZeros(fraction) == ""
    requires whole != "" && whole[0] != '-'
    ensures var s, kept := Stripped(if negative then "-" else "", whole, fraction), StripZeros(fraction);
      (if s == "-0" then "0" else s)
        == Text(Numeral(if units < 0 then Minus else Unsigned, whole, if kept == "" then None else Some(kept), None))
  {
    hide StripZeros;
    var kept := StripZeros(fraction);
    var tail := if kept == "" then "" else "." + kept;
    var s, n := Stripped(if negative then "-" else "", whole, fraction),
      Numeral(if units < 0 then Minus else Unsigned, whole, if kept == "" then None else Some(kept), None);
    assert Text(n) == (if units < 0 then "-" else "") + whole + tail;
    if units == 0 {
      assert tail == "" && s == (if negative then "-" else "") + "0";
      assert s == "-0" || s == "0";
    } else if units < 0 {
      NotMinusZero(whole, kept);
    } else {
      assert s == whole + tail;
      assert s[0] == whole[0];
    }
  }

  lemma NotMinusZero(whole: string, kept: string)
    requires whole != "" && !(whole == "0" && kept == "")
    ensures "-" + whole + (if kept == "" then "" else "." + kept) != "-0"
  {
    var s := "-" + whole + (if kept == "" then "" else "." + kept);
    if |s| == 2 { assert s[1] == whole[0]; assert whole == [whole[0]]; }
  }

  lemma SignTimes(negative: bool, a: int, p: int, m: int)
    requires a * p == m
    ensures (if negative then -a else a) * p == if negative then -m else m
  {
  }

  lemma CanonicalScale(value: real)
    ensures var n := CanonicalNumeral(value);
      Val(Decimal(SignedDigits(n), |FractionOf(n)|)) == Val(Decimal(Units(value), FRACTION_DIGITS))
  {
    var n, m := CanonicalNumeral(value), Abs(Units(value));
    CanonicalDigits(m, PowerOfTen(FRACTION_DIGITS));
    var digits, k := Number(n.whole + FractionOf(n)), FRACTION_DIGITS - |FractionOf(n)|;
    assert digits * PowerOfTen(k) == m && SignedDigits(n) == (if Units(value) < 0 then -digits else digits);
    hide *;
    SignTimes(Units(value) < 0, digits, PowerOfTen(k), m);
    SignBack(Units(value));
    RescaleExact(Decimal(SignedDigits(n), |FractionOf(n)|), FRACTION_DIGITS);
  }

  lemma SignBack(units: int)
    ensures units == if units < 0 then -Abs(units) else Abs(units)
  {
  }

  /** Reading a canonical text back gives the value, rounded to fifteen fraction digits. */
  lemma CanonicalRoundTrip(value: real)
    ensures Val(DecimalOfText(CanonicalNumber(value))) == Val(Decimal(Units(value), FRACTION_DIGITS))
  {
    var n := CanonicalNumeral(value);
    CanonicalWrites(value);
    CanonicalScale(value);
    assert n.exponent.None?;
    hide *;
    DecimalOfTextExact(n);
    PlainDenotes(n);
    ValIsShift(SignedDigits(n), |FractionOf(n)|);
  }

  lemma SameValSameUnits(a: int, b: int)
    requires Val(Decimal(a, FRACTION_DIGITS)) == Val(Decimal(b, FRACTION_DIGITS))
    ensures a == b
  {
    Divided(a as real, b as real, Ten(FRACTION_DIGITS));
  }

  lemma Divided(x: real, y: real, d: real)
    requires d > 0.0 && x / d == y / d
    ensures x == y
  {
    assert x == x / d * d && y == y / d * d;
  }

  /** Two values have the same canonical text exactly when they agree to fifteen fraction digits. */
  lemma CanonicalInjective(v: real, w: real)
    ensures CanonicalNumber(v) == CanonicalNumber(w) <==> Units(v) == Units(w)
  {
    if CanonicalNumber(v) == CanonicalNumber(w) {
      CanonicalRoundTrip(v);
      CanonicalRoundTrip(w);
      hide *;
      SameValSameUnits(Units(v), Units(w));
    } else {
      CanonicalWrites(v);
      CanonicalWrites(w);
      hide CanonicalNumber, Units, DigitText, Padded, StripZeros, PowerOfTen, Quotient, Remainder, Text;
    }
  }

  /** The digits written, at their scale, make up all the units. */
  lemma CanonicalDigits(m: nat, one: int)
    requires one == PowerOfTen(FRACTION_DIGITS)
    ensures var whole, kept := DigitText(Quotient(m, one)), StripZeros(Padded(Remainder(m, one), FRACTION_DIGITS));
      |kept| <= FRACTION_DIGITS && Number(whole + kept) * PowerOfTen(FRACTION_DIGITS - |kept|) == m
  {
    var whole, fraction := DigitText(Quotient(m, one)), Padded(Remainder(m, one), FRACTION_DIGITS);
    DigitTextNumber(Quotient(m, one));
    PaddedNumber(Remainder(m, one), FRACTION_DIGITS);
    hide DigitText, Padded, PowerOfTen, Quotient, StripZeros, Number;
    NumberAppend(whole, fraction);
    StripZerosNumber(whole, fraction);
  }
}
