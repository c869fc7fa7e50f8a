/** Reading a snapshot's canonical text by splitting it: which line, and which part of a line, says what. */
module SnapshotReading {
  import opened Wrappers
  import opened Decimals
  import opened ScientificNotation
  import opened SnapshotText
  import SnapshotInjective

  // ---------------------------------------------------------------- splitting

  /** The pieces of a text between the occurrences of a separator. */
  function Split(s: string, c: char): (pieces: seq<string>)
    ensures pieces != []
  {
    if s == "" then [""]
    else
      var rest := Split(s[1..], c);
      if s[0] == c then [""] + rest else [[s[0]] + rest[0]] + rest[1..]
  }

  lemma {:induction false} SplitWhole(a: string, c: char)
    requires c !in a
    ensures Split(a, c) == [a]
  {
    if a != "" {
      SplitWhole(a[1..], c);
      assert [a[0]] + a[1..] == a;
    }
  }

  lemma {:induction false} SplitFirst(a: string, c: char, rest: string)
    requires c !in a
    ensures Split(a + [c] + rest, c) == [a] + Split(rest, c)
  {
    var s := a + [c] + rest;
    if a == "" {
      assert s[1..] == rest;
    } else {
      assert s[1..] == a[1..] + [c] + rest;
      SplitFirst(a[1..], c, rest);
      assert [s[0]] + a[1..] == a;
    }
  }

  /** Splitting undoes joining. */
  lemma {:induction false} SplitJoined(lines: seq<string>)
    requires lines != [] && forall i | 0 <= i < |lines| :: '\n' !in lines[i]
    ensures Split(Join(lines), '\n') == lines
  {
    if |lines| == 1 {
      assert Join(lines) == lines[0];
      SplitWhole(lines[0], '\n');
    } else {
      assert lines[1..][1..] == lines[2..] && lines[1..][0] == lines[1];
      assert Join(lines) == lines[0] + ['\n'] + Join(lines[1..]);
      SplitFirst(lines[0], '\n', Join(lines[1..]));
      SplitJoined(lines[1..]);
    }
  }

  // ---------------------------------------------------------------- what a piece says

  /** Digits that make up the number, without a leading zero. */
  predicate Plain(s: string, n: nat) {
    Digits(s) && s != "" && (|s| > 1 ==> s[0] != '0') && Number(s) == n
  }

  predicate WritesInteger(s: string, n: int) {
    if n < 0 then s != "" && s[0] == '-' && Plain(s[1..], -n) else Plain(s, n)
  }

  /** No exponent, no plus sign, no needless zero, no empty fraction, and a minus sign only below zero. */
  predicate Neat(n: Numeral) {
    && Valid(n) && n.exponent.None? && n.whole != "" && (|n.whole| > 1 ==> n.whole[0] != '0')
    && (n.fraction.Some? ==> n.fraction.value != "" && n.fraction.value[|n.fraction.value| - 1] != '0')
    && (n.sign.Unsigned? || (n.sign.Minus? && Denoted(n) < 0.0))
  }

  /** The value to fifteen fraction digits. */
  function Fifteen(value: real): real {
    Val(Decimal(Units(value), FRACTION_DIGITS))
  }

  /** A neat numeral that reads as the value to fifteen fraction digits. */
  ghost predicate WritesNumber(s: string, value: real) {
    Val(DecimalOfText(s)) == Fifteen(value) && exists n :: Neat(n) && s == Text(n) && Denoted(n) == Fifteen(value)
  }

  lemma {:induction false} NoLeadingZero(n: nat)
    ensures DigitText(n) != "" && (|DigitText(n)| > 1 ==> DigitText(n)[0] != '0') && (n > 0 ==> DigitText(n)[0] != '0')
  {
    if n >= 10 { NoLeadingZero(n / 10); }
  }

  lemma DigitTextPlain(n: nat)
    ensures Plain(DigitText(n), n)
  {
    DigitTextNumber(n);
    NoLeadingZero(n);
  }

  lemma IntegerTextWrites(n: int)
    ensures WritesInteger(IntegerText(n), n)
  {
    DigitTextPlain(if n < 0 then -n else n);
    hide DigitText, Plain;
    if n < 0 { assert IntegerText(n)[1..] == DigitText(-n); }
  }

  lemma BelowZero(units: int)
    requires units < 0
    ensures Val(Decimal(units, FRACTION_DIGITS)) < 0.0
  {
    var x, d := units as real, Ten(FRACTION_DIGITS);
    assert x < 0.0 && d > 0.0 ==> x / d < 0.0;
  }

  lemma NumeralParts(value: real)
    ensures var n := CanonicalNumeral(value);
      && n.exponent.None? && (n.sign.Unsigned? || (n.sign.Minus? && Units(value) < 0))
      && n.whole != "" && (|n.whole| > 1 ==> n.whole[0] != '0')
  {
    hide DigitText, Padded, StripZeros, PowerOfTen, Quotient, Remainder, Units;
    NoLeadingZero(Quotient(Abs(Units(value)), PowerOfTen(FRACTION_DIGITS)));
  }

  lemma CanonicalNumberWrites(value: real)
    ensures WritesNumber(CanonicalNumber(value), value)
  {
    hide CanonicalNumber, CanonicalNumeral, Units, Valid, Denoted, Text, Val, DecimalOfText, PowerOfTen, DigitText;
    var n := CanonicalNumeral(value);
    NumeralParts(value);
    CanonicalIsText(value);
    CanonicalRoundTrip(value);
    DecimalOfTextExact(n);
    if Units(value) < 0 { BelowZero(Units(value)); }
    assert Neat(n) && CanonicalNumber(value) == Text(n) && Denoted(n) == Fifteen(value);
  }

  // ---------------------------------------------------------------- lines

  predicate Labelled(line: string, name: string) {
    |line| >= |name| && line[..|name|] == name
  }

  /** The label, then the integer. */
  predicate SaysInteger(line: string, name: string, n: int) {
    Labelled(line, name) && WritesInteger(line[|name|..], n)
  }

  /** The label, then the text after its length and a colon. */
  predicate SaysText(line: string, name: string, text: string) {
    Labelled(line, name) && |line| >= |name| + 1 + |text|
    && var colon := |line| - |text| - 1;
      line[colon] == ':' && line[colon + 1..] == text && WritesInteger(line[|name|..colon], |text|)
  }

  /** The label, then six parts: the instant in microseconds, open, high, low, close and volume. */
  ghost predicate SaysCandle(line: string, c: Candle) {
    Labelled(line, "candle=")
    && var parts := Split(line[|"candle="|..], '|');
    && |parts| == 6 && WritesInteger(parts[0], c.timestamp * 1000)
    && WritesNumber(parts[1], c.open) && WritesNumber(parts[2], c.high) && WritesNumber(parts[3], c.low)
    && WritesNumber(parts[4], c.close) && WritesNumber(parts[5], c.volume)
  }

  lemma IntegerLine(name: string, n: int)
    ensures SaysInteger(name + IntegerText(n), name, n)
  {
    hide IntegerText, WritesInteger;
    IntegerTextWrites(n);
    assert (name + IntegerText(n))[|name|..] == IntegerText(n);
  }

  lemma TextLine(name: string, text: string)
    ensures SaysText(name + Counted(text), name, text)
  {
    hide DigitText, Plain;
    DigitTextPlain(|text|);
    var line := name + Counted(text);
    var colon := |line| - |text| - 1;
    assert line[..|name|] == name;
    assert line[|name|..colon] == DigitText(|text|);
    assert line[colon] == ':' && line[colon + 1..] == text;
  }

  lemma SixParts(a: string, b: string, c: string, d: string, e: string, f: string)
    requires '|' !in a && '|' !in b && '|' !in c && '|' !in d && '|' !in e && '|' !in f
    ensures Split(a + "|" + b + "|" + c + "|" + d + "|" + e + "|" + f, '|') == [a, b, c, d, e, f]
  {
    hide Split;
    var f5 := e + ['|'] + f;
    var f4 := d + ['|'] + f5;
    var f3 := c + ['|'] + f4;
    var f2 := b + ['|'] + f3;
    Regroup(a, b, c, d, e, f);
    SplitWhole(f, '|');
    SplitFirst(e, '|', f);
    SplitFirst(d, '|', f5);
    SplitFirst(c, '|', f4);
    SplitFirst(b, '|', f3);
    SplitFirst(a, '|', f2);
  }

  lemma Regroup(a: string, b: string, c: string, d: string, e: string, f: string)
    ensures a + "|" + b + "|" + c + "|" + d + "|" + e + "|" + f
      == a + ['|'] + (b + ['|'] + (c + ['|'] + (d + ['|'] + (e + ['|'] + f))))
  {
    assert "|" == ['|'];
  }

  lemma CandleLineSays(c: Candle)
    ensures SaysCandle(CandleLine(c), c) && '\n' !in CandleLine(c)
  {
    hide CanonicalNumber, IntegerText, WritesNumber, WritesInteger, Split;
    IntegerTextWrites(c.timestamp * 1000);
    SnapshotInjective.IntegerTextFree(c.timestamp * 1000);
    CanonicalNumberWrites(c.open);
    CanonicalNumberWrites(c.high);
    CanonicalNumberWrites(c.low);
    CanonicalNumberWrites(c.close);
    CanonicalNumberWrites(c.volume);
    SnapshotInjective.CanonicalFree(c.open);
    SnapshotInjective.CanonicalFree(c.high);
    SnapshotInjective.CanonicalFree(c.low);
    SnapshotInjective.CanonicalFree(c.close);
    SnapshotInjective.CanonicalFree(c.volume);
    SixParts(IntegerText(c.timestamp * 1000), CanonicalNumber(c.open), CanonicalNumber(c.high), CanonicalNumber(c.low),
      CanonicalNumber(c.close), CanonicalNumber(c.volume));
    assert CandleLine(c)[|"candle="|..] ==
      IntegerText(c.timestamp * 1000) + "|" + CanonicalNumber(c.open) + "|" + CanonicalNumber(c.high) + "|"
      + CanonicalNumber(c.low) + "|" + CanonicalNumber(c.close) + "|" + CanonicalNumber(c.volume);
  }

  lemma {:induction false} CandleLineAt(candles: seq<Candle>, i: nat)
    requires i < |candles|
    ensures |CandleLines(candles)| == |candles| && CandleLines(candles)[i] == CandleLine(candles[i])
  {
    hide CandleLine;
    if |candles| > 1 { CandleLineAt(candles[1..], if i > 0 then i - 1 else 0); }
  }

  lemma FreeTogether(a: string, b: string)
    requires '\n' !in a && '\n' !in b
    ensures '\n' !in a + b
  {
  }

  lemma IntegerLineFree(name: string, n: int)
    requires '\n' !in name
    ensures '\n' !in name + IntegerText(n)
  {
    SnapshotInjective.IntegerTextFree(n);
    hide IntegerText;
    FreeTogether(name, IntegerText(n));
  }

  lemma TextLineFree(name: string, text: string)
    requires '\n' !in name && '\n' !in text
    ensures '\n' !in name + Counted(text)
  {
    IntegerLineFree("", |text|);
    assert "" + IntegerText(|text|) == DigitText(|text|);
    hide DigitText, IntegerText;
    FreeTogether(DigitText(|text|), ":");
    FreeTogether(DigitText(|text|) + ":", text);
    FreeTogether(name, Counted(text));
  }

  /** The six lines before the candles, by position. */
  lemma HeaderLines(x: Snapshot)
    ensures var lines := Lines(x);
      && |lines| == 6 + |CandleLines(x.candles)| && lines[6..] == CandleLines(x.candles)
      && lines[0] == "version=market-data-snapshot-v1" && lines[1] == "pair=" + Counted(x.pair)
      && lines[2] == "timeframe=" + Counted(x.timeframe) && lines[3] == "fromEpochMicros=" + IntegerText(x.from * 1000)
      && lines[4] == "toEpochMicros=" + IntegerText(x.until * 1000)
        && lines[5] == "candleCount=" + IntegerText(|x.candles|)
  {
    CountText(|x.candles|);
    hide IntegerText, DigitText, Counted, CandleLines;
    Six("version=market-data-snapshot-v1", "pair=" + Counted(x.pair), "timeframe=" + Counted(x.timeframe),
      "fromEpochMicros=" + IntegerText(x.from * 1000), "toEpochMicros=" + IntegerText(x.until * 1000),
      "candleCount=" + DigitText(|x.candles|), CandleLines(x.candles));
  }

  lemma Six(a: string, b: string, c: string, d: string, e: string, f: string, rest: seq<string>)
    ensures var lines := [a, b, c, d, e, f] + rest;
      && |lines| == 6 + |rest| && lines[6..] == rest
      && lines[0] == a && lines[1] == b && lines[2] == c && lines[3] == d && lines[4] == e && lines[5] == f
  {
  }

  lemma CountText(n: nat)
    ensures IntegerText(n) == DigitText(n)
  {
  }

  lemma HeaderLinesFree(x: Snapshot)
    requires '\n' !in x.pair && '\n' !in x.timeframe
    ensures |Lines(x)| >= 6 && forall i | 0 <= i < 6 :: '\n' !in Lines(x)[i]
  {
    hide *;
    HeaderLines(x);
    TextLineFree("pair=", x.pair);
    TextLineFree("timeframe=", x.timeframe);
    IntegerLineFree("fromEpochMicros=", x.from * 1000);
    IntegerLineFree("toEpochMicros=", x.until * 1000);
    IntegerLineFree("candleCount=", |x.candles|);
  }

  lemma LinesSplit(x: Snapshot)
    requires '\n' !in x.pair && '\n' !in x.timeframe
    ensures Split(Serialization(x), '\n') == Lines(x) && |Lines(x)| == 6 + |x.candles|
    ensures forall i | 0 <= i < |x.candles| :: Lines(x)[6 + i] == CandleLine(x.candles[i])
  {
    hide Lines, CandleLine, Split, Join, SaysCandle;
    HeaderLinesFree(x);
    HeaderLines(x);
    if x.candles != [] { CandleLineAt(x.candles, 0); }
    forall i | 6 <= i < |Lines(x)|
      ensures Lines(x)[i] == CandleLine(x.candles[i - 6]) && '\n' !in Lines(x)[i]
    {
      CandleLineAt(x.candles, i - 6);
      CandleLineSays(x.candles[i - 6]);
      assert Lines(x)[i] == Lines(x)[6..][i - 6];
    }
    SplitJoined(Lines(x));
  }

  /**
   * While neither pair nor timeframe breaks the line, the text splits into six labelled lines and one for each candle:
   * version, pair, timeframe, both ends of the range in microseconds, the number of candles, and then each candle's
   * instant, open, high, low, close and volume.
   */
  lemma SerializationSays(x: Snapshot)
    requires '\n' !in x.pair && '\n' !in x.timeframe
    ensures var lines := Split(Serialization(x), '\n');
      && |lines| == 6 + |x.candles| && lines[0] == "version=market-data-snapshot-v1"
      && SaysText(lines[1], "pair=", x.pair) && SaysText(lines[2], "timeframe=", x.timeframe)
      && SaysInteger(lines[3], "fromEpochMicros=", x.from * 1000)
      && SaysInteger(lines[4], "toEpochMicros=", x.until * 1000)
      && SaysInteger(lines[5], "candleCount=", |x.candles|)
      && forall i | 0 <= i < |x.candles| :: SaysCandle(lines[6 + i], x.candles[i])
  {
    hide Lines, CandleLine, Split, Serialization, SaysText, SaysInteger, SaysCandle, CandleLines, Counted, IntegerText;
    LinesSplit(x);
    HeaderLines(x);
    TextLine("pair=", x.pair);
    TextLine("timeframe=", x.timeframe);
    IntegerLine("fromEpochMicros=", x.from * 1000);
    IntegerLine("toEpochMicros=", x.until * 1000);
    IntegerLine("candleCount=", |x.candles|);
    forall i | 0 <= i < |x.candles|
      ensures SaysCandle(Lines(x)[6 + i], x.candles[i])
    {
      CandleLineSays(x.candles[i]);
    }
  }

  // ---------------------------------------------------------------- a line to compare with

  lemma FifteenZeros()
    ensures PowerOfTen(FRACTION_DIGITS) == 1_000_000_000_000_000
  {
    assert PowerOfTen(5) == 100_000;
    assert PowerOfTen(10) == 10_000_000_000;
  }

  lemma WholeHalfAway(m: int)
    ensures HalfAway(m as real) == m
  {
  }

  lemma WholeUnits(n: nat)
    ensures var one := PowerOfTen(FRACTION_DIGITS);
      Units(n as real) == n * one >= 0 && Quotient(n * one, one) == n && Remainder(n * one, one) == 0
  {
    FifteenZeros();
    hide PowerOfTen, HalfAway;
    WholeHalfAway(n * 1_000_000_000_000_000);
  }

  /** A whole number is written as its digits. */
  lemma WholeNumberText(n: nat)
    ensures CanonicalNumber(n as real) == DigitText(n)
  {
    CanonicalWrites(n as real);
    WholeUnits(n);
    NoFraction(FRACTION_DIGITS);
    hide CanonicalNumber, Units, DigitText, Padded, StripZeros, PowerOfTen, Quotient, Remainder;
  }

  lemma CandleLineExample()
    ensures CandleLine(Candle(0, 1.0, 3.0, 1.0, 2.0, 5.0)) == "candle=0|1|3|1|2|5"
  {
    WholeNumberText(1);
    WholeNumberText(2);
    WholeNumberText(3);
    WholeNumberText(5);
    assert IntegerText(0 * 1000) == "0";
    assert DigitText(1) == "1" && DigitText(2) == "2" && DigitText(3) == "3" && DigitText(5) == "5";
    hide CanonicalNumber, DigitText, IntegerText;
    Literal();
  }

  lemma Literal()
    ensures "candle=" + "0" + "|" + "1" + "|" + "3" + "|" + "1" + "|" + "2" + "|" + "5" == "candle=0|1|3|1|2|5"
  {
  }
}
