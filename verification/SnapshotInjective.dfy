/** Two snapshots have the same canonical text only when they hold the same data. */
module SnapshotInjective {
  import opened Wrappers
  import opened Decimals
  import opened ScientificNotation
  import opened SnapshotText

  // ---------------------------------------------------------------- taking texts apart

  lemma Peel(a: string, b: string, c: char, x: string, y: string)
    requires c !in a && c !in b && a + [c] + x == b + [c] + y
    ensures a == b && x == y
  {
    FirstOf(a, c, x);
    FirstOf(b, c, y);
    assert (a + [c] + x)[|a| + 1..] == x;
    assert (b + [c] + y)[|b| + 1..] == y;
  }

  /** Nothing, or a line break and more. */
  predicate Continues(x: string) {
    x == "" || x[0] == '\n'
  }

  lemma PeelLine(a: string, b: string, x: string, y: string)
    requires '\n' !in a && '\n' !in b && Continues(x) && Continues(y) && a + x == b + y
    ensures a == b && x == y
  {
    LineEnd(a, x);
    LineEnd(b, y);
    assert (a + x)[|a|..] == x;
    assert (b + y)[|b|..] == y;
  }

  lemma LineEnd(a: string, x: string)
    requires '\n' !in a && Continues(x)
    ensures First(a + x, '\n') == a
  {
    hide First;
    if x == "" {
      FirstOf(a, '\n', "");
      assert a + x == a;
    } else {
      FirstOf(a, '\n', x[1..]);
      assert a + x == a + ['\n'] + x[1..];
    }
  }

  lemma PeelPrefix(p: string, x: string, y: string)
    requires p + x == p + y
    ensures x == y
  {
    assert (p + x)[|p|..] == x;
    assert (p + y)[|p|..] == y;
  }

  lemma PeelSameLength(a: string, b: string, x: string, y: string)
    requires |a| == |b| && a + x == b + y
    ensures a == b && x == y
  {
    assert (a + x)[..|a|] == a && (a + x)[|a|..] == x;
    assert (b + y)[..|b|] == b && (b + y)[|b|..] == y;
  }

  /** A counted text and what follows it. */
  lemma PeelCounted(a: string, b: string, x: string, y: string)
    requires Counted(a) + x == Counted(b) + y
    ensures a == b && x == y
  {
    DigitTextNumber(|a|);
    DigitTextNumber(|b|);
    DigitsFree(DigitText(|a|));
    DigitsFree(DigitText(|b|));
    hide DigitText, Number, Digits;
    assert Counted(a) + x == DigitText(|a|) + [':'] + (a + x);
    assert Counted(b) + y == DigitText(|b|) + [':'] + (b + y);
    Peel(DigitText(|a|), DigitText(|b|), ':', a + x, b + y);
    PeelSameLength(a, b, x, y);
  }

  // ---------------------------------------------------------------- numbers carry no separator

  /** None of the characters that separate the parts of a snapshot's text. */
  predicate Free(s: string) {
    ':' !in s && '|' !in s && '\n' !in s
  }

  lemma DigitsFree(s: string)
    requires Digits(s)
    ensures Free(s)
  {
  }

  lemma UnmarkedText(s: string)
    requires Unmarked(s)
    ensures Free(s)
  {
  }

  lemma IntegerTextFree(n: int)
    ensures Free(IntegerText(n)) && Integer(IntegerText(n)) == n
  {
    if n < 0 {
      DigitTextNumber(-n);
      assert IntegerText(n)[1..] == DigitText(-n);
    } else {
      DigitTextNumber(n);
    }
  }

  lemma IntegerTextInjective(a: int, b: int)
    requires IntegerText(a) == IntegerText(b)
    ensures a == b
  {
    IntegerTextFree(a);
    IntegerTextFree(b);
  }

  lemma CanonicalFree(value: real)
    ensures Free(CanonicalNumber(value))
  {
    var n := CanonicalNumeral(value);
    CanonicalIsText(value);
    hide CanonicalNumber, Units, DigitText, Padded, StripZeros, PowerOfTen;
    MagnitudeSplits(n.whole, n.fraction);
    Unsign(n.sign, Magnitude(n.whole, n.fraction));
    assert Text(n) == SignText(n.sign) + Magnitude(n.whole, n.fraction);
    UnmarkedText(Text(n));
  }

  // ---------------------------------------------------------------- candles

  /** The same instant, and the same values to fifteen fraction digits. */
  predicate SameCandle(a: Candle, b: Candle) {
    && a.timestamp == b.timestamp
    && Units(a.open) == Units(b.open) && Units(a.high) == Units(b.high) && Units(a.low) == Units(b.low)
    && Units(a.close) == Units(b.close) && Units(a.volume) == Units(b.volume)
  }

  lemma PeelNumber(v: real, w: real, x: string, y: string)
    requires CanonicalNumber(v) + ['|'] + x == CanonicalNumber(w) + ['|'] + y
    ensures Units(v) == Units(w) && x == y
  {
    CanonicalFree(v);
    CanonicalFree(w);
    hide CanonicalNumber, Units;
    Peel(CanonicalNumber(v), CanonicalNumber(w), '|', x, y);
    CanonicalInjective(v, w);
  }

  lemma PeelLast(v: real, w: real, x: string, y: string)
    requires Continues(x) && Continues(y) && CanonicalNumber(v) + x == CanonicalNumber(w) + y
    ensures Units(v) == Units(w) && x == y
  {
    CanonicalFree(v);
    CanonicalFree(w);
    hide CanonicalNumber, Units;
    PeelLine(CanonicalNumber(v), CanonicalNumber(w), x, y);
    CanonicalInjective(v, w);
  }

  /** The line of a candle and what follows it, value by value. */
  function Nested(c: Candle, x: string): string {
    IntegerText(c.timestamp * 1000) + ['|'] + (CanonicalNumber(c.open) + ['|'] + (CanonicalNumber(c.high) + ['|']
    + (CanonicalNumber(c.low) + ['|'] + (CanonicalNumber(c.close) + ['|'] + (CanonicalNumber(c.volume) + x)))))
  }

  lemma CandleNested(c: Candle, x: string)
    ensures CandleLine(c) + x == "candle=" + Nested(c, x)
  {
    hide CanonicalNumber, IntegerText;
  }

  lemma PeelCandle(a: Candle, b: Candle, x: string, y: string)
    requires Continues(x) && Continues(y) && CandleLine(a) + x == CandleLine(b) + y
    ensures SameCandle(a, b) && x == y
  {
    hide CandleLine, CanonicalNumber, IntegerText, Units;
    CandleNested(a, x);
    CandleNested(b, y);
    PeelPrefix("candle=", Nested(a, x), Nested(b, y));
    IntegerTextFree(a.timestamp * 1000);
    IntegerTextFree(b.timestamp * 1000);
    PeelNested(a, b, x, y);
  }

  lemma PeelNested(a: Candle, b: Candle, x: string, y: string)
    requires Continues(x) && Continues(y) && Nested(a, x) == Nested(b, y)
    requires Free(IntegerText(a.timestamp * 1000)) && Free(IntegerText(b.timestamp * 1000))
    ensures SameCandle(a, b) && x == y
  {
    hide CanonicalNumber, IntegerText, Units, Continues;
    var a5, b5 := CanonicalNumber(a.volume) + x, CanonicalNumber(b.volume) + y;
    var a4, b4 := CanonicalNumber(a.close) + ['|'] + a5, CanonicalNumber(b.close) + ['|'] + b5;
    var a3, b3 := CanonicalNumber(a.low) + ['|'] + a4, CanonicalNumber(b.low) + ['|'] + b4;
    var a2, b2 := CanonicalNumber(a.high) + ['|'] + a3, CanonicalNumber(b.high) + ['|'] + b3;
    var a1, b1 := CanonicalNumber(a.open) + ['|'] + a2, CanonicalNumber(b.open) + ['|'] + b2;
    Peel(IntegerText(a.timestamp * 1000), IntegerText(b.timestamp * 1000), '|', a1, b1);
    IntegerTextInjective(a.timestamp * 1000, b.timestamp * 1000);
    PeelNumber(a.open, b.open, a2, b2);
    PeelNumber(a.high, b.high, a3, b3);
    PeelNumber(a.low, b.low, a4, b4);
    PeelNumber(a.close, b.close, a5, b5);
    PeelLast(a.volume, b.volume, x, y);
  }

  predicate SameCandles(a: seq<Candle>, b: seq<Candle>) {
    |a| == |b| && forall i | 0 <= i < |a| :: SameCandle(a[i], b[i])
  }

  lemma FollowingContinues(lines: seq<string>)
    ensures Continues(Following(lines))
  {
  }

  lemma {:induction false} PeelCandles(a: seq<Candle>, b: seq<Candle>)
    requires |a| == |b| && Following(CandleLines(a)) == Following(CandleLines(b))
    ensures SameCandles(a, b)
  {
    hide CandleLine, SameCandle, Continues;
    if a != [] {
      var x, y := Following(CandleLines(a[1..])), Following(CandleLines(b[1..]));
      CandlesFollow(a);
      CandlesFollow(b);
      FollowingContinues(CandleLines(a[1..]));
      FollowingContinues(CandleLines(b[1..]));
      PeelPrefix("\n", CandleLine(a[0]) + x, CandleLine(b[0]) + y);
      PeelCandle(a[0], b[0], x, y);
      PeelCandles(a[1..], b[1..]);
      forall i | 0 <= i < |a|
        ensures SameCandle(a[i], b[i])
      {
        if i > 0 { assert a[i] == a[1..][i - 1] && b[i] == b[1..][i - 1]; }
      }
    }
  }

  lemma CandlesFollow(a: seq<Candle>)
    requires a != []
    ensures Following(CandleLines(a)) == "\n" + (CandleLine(a[0]) + Following(CandleLines(a[1..])))
  {
    hide CandleLine;
    assert CandleLines(a)[1..] == CandleLines(a[1..]);
  }

  // ---------------------------------------------------------------- whole snapshots

  /** The serialization with its parts nested the way they are read. */
  function Reading(x: Snapshot): string {
    "version=market-data-snapshot-v1\npair="
      + (Counted(x.pair) + ("\ntimeframe=" + (Counted(x.timeframe) + ("\nfromEpochMicros="
    + (IntegerText(x.from * 1000) + ("\ntoEpochMicros=" + (IntegerText(x.until * 1000) + ("\ncandleCount="
    + (DigitText(|x.candles|) + Following(CandleLines(x.candles)))))))))))
  }

  lemma SerializationReads(x: Snapshot)
    ensures Serialization(x) == Reading(x)
  {
    hide Counted, IntegerText, DigitText, CandleLines, Following;
    var lines, r5 := Lines(x), CandleLines(x.candles);
    var r4 := [lines[5]] + r5;
    var r3 := [lines[4]] + r4;
    var r2 := [lines[3]] + r3;
    var r1 := [lines[2]] + r2;
    FollowLine("candleCount=", DigitText(|x.candles|), r5);
    FollowLine("toEpochMicros=", IntegerText(x.until * 1000), r4);
    FollowLine("fromEpochMicros=", IntegerText(x.from * 1000), r3);
    FollowLine("timeframe=", Counted(x.timeframe), r2);
    FollowLine("pair=", Counted(x.pair), r1);
    assert lines[1..] == [lines[1]] + r1;
    assert "\nfromEpochMicros=" == "\n" + "fromEpochMicros=" && "\ntoEpochMicros=" == "\n" + "toEpochMicros=";
    assert "\ntimeframe=" == "\n" + "timeframe=" && "\ncandleCount=" == "\n" + "candleCount=";
    VersionLine(Counted(x.pair) + Following(r1));
  }

  lemma VersionLine(x: string)
    ensures "version=market-data-snapshot-v1" + ("\n" + "pair=" + x) == "version=market-data-snapshot-v1\npair=" + x
  {
    assert "version=market-data-snapshot-v1" + ("\n" + "pair=") == "version=market-data-snapshot-v1\npair=";
    assert "version=market-data-snapshot-v1" + ("\n" + "pair=" + x) == "version=market-data-snapshot-v1"
      + ("\n" + "pair=") + x;
  }

  lemma FollowLine(name: string, value: string, rest: seq<string>)
    ensures Following([name + value] + rest) == "\n" + name + (value + Following(rest))
  {
    assert ([name + value] + rest)[1..] == rest;
  }

  /** The same pair, timeframe, range and candles, as far as the text is meant to tell. */
  predicate SameSnapshot(a: Snapshot, b: Snapshot) {
    a.pair == b.pair && a.timeframe == b.timeframe && a.from == b.from && a.until == b.until
      && SameCandles(a.candles, b.candles)
  }

  lemma PeelInteger(p: string, a: int, b: int, x: string, y: string)
    requires p + (IntegerText(a * 1000) + x) == p + (IntegerText(b * 1000) + y) && Continues(x) && Continues(y)
    ensures a == b && x == y
  {
    IntegerTextFree(a * 1000);
    IntegerTextFree(b * 1000);
    hide IntegerText;
    PeelPrefix(p, IntegerText(a * 1000) + x, IntegerText(b * 1000) + y);
    PeelLine(IntegerText(a * 1000), IntegerText(b * 1000), x, y);
    IntegerTextInjective(a * 1000, b * 1000);
  }

  lemma PeelText(p: string, a: string, b: string, x: string, y: string)
    requires p + (Counted(a) + x) == p + (Counted(b) + y)
    ensures a == b && x == y
  {
    hide Counted;
    PeelPrefix(p, Counted(a) + x, Counted(b) + y);
    PeelCounted(a, b, x, y);
  }

  lemma PeelCount(p: string, a: seq<Candle>, b: seq<Candle>)
    requires p + (DigitText(|a|) + Following(CandleLines(a))) == p + (DigitText(|b|) + Following(CandleLines(b)))
    ensures SameCandles(a, b)
  {
    var x, y := Following(CandleLines(a)), Following(CandleLines(b));
    DigitTextNumber(|a|);
    DigitTextNumber(|b|);
    DigitsFree(DigitText(|a|));
    DigitsFree(DigitText(|b|));
    FollowingContinues(CandleLines(a));
    FollowingContinues(CandleLines(b));
    hide DigitText, CandleLines, Following, Number, SameCandles;
    PeelPrefix(p, DigitText(|a|) + x, DigitText(|b|) + y);
    PeelLine(DigitText(|a|), DigitText(|b|), x, y);
    PeelCandles(a, b);
  }

  lemma PeelReading(a: Snapshot, b: Snapshot)
    requires Reading(a) == Reading(b)
    ensures SameSnapshot(a, b)
  {
    hide Counted, IntegerText, DigitText, CandleLines, Following, SameCandles;
    var a5, b5 := "\ncandleCount=" + (DigitText(|a.candles|) + Following(CandleLines(a.candles))),
      "\ncandleCount=" + (DigitText(|b.candles|) + Following(CandleLines(b.candles)));
    var a4, b4 := "\ntoEpochMicros=" + (IntegerText(a.until * 1000) + a5),
      "\ntoEpochMicros=" + (IntegerText(b.until * 1000) + b5);
    var a3, b3 := "\nfromEpochMicros=" + (IntegerText(a.from * 1000) + a4),
      "\nfromEpochMicros=" + (IntegerText(b.from * 1000) + b4);
    var a2, b2 := "\ntimeframe=" + (Counted(a.timeframe) + a3), "\ntimeframe=" + (Counted(b.timeframe) + b3);
    PeelText("version=market-data-snapshot-v1\npair=", a.pair, b.pair, a2, b2);
    PeelText("\ntimeframe=", a.timeframe, b.timeframe, a3, b3);
    PeelInteger("\nfromEpochMicros=", a.from, b.from, a4, b4);
    PeelInteger("\ntoEpochMicros=", a.until, b.until, a5, b5);
    PeelCount("\ncandleCount=", a.candles, b.candles);
  }

  lemma {:induction false} SameLines(a: seq<Candle>, b: seq<Candle>)
    requires SameCandles(a, b)
    ensures CandleLines(a) == CandleLines(b)
  {
    hide CanonicalNumber, IntegerText, Units;
    if a != [] {
      CanonicalInjective(a[0].open, b[0].open);
      CanonicalInjective(a[0].high, b[0].high);
      CanonicalInjective(a[0].low, b[0].low);
      CanonicalInjective(a[0].close, b[0].close);
      CanonicalInjective(a[0].volume, b[0].volume);
      assert SameCandle(a[0], b[0]);
      SameLines(a[1..], b[1..]);
    }
  }

  /** The canonical text tells two snapshots apart exactly when their data differ. */
  lemma SerializationInjective(a: Snapshot, b: Snapshot)
    ensures Serialization(a) == Serialization(b) <==> SameSnapshot(a, b)
  {
    hide Serialization, Reading, CandleLines, Following;
    SerializationReads(a);
    SerializationReads(b);
    if Reading(a) == Reading(b) { PeelReading(a, b); }
    if SameSnapshot(a, b) {
      SameLines(a.candles, b.candles);
      SameReading(a, b);
    }
  }

  lemma SameReading(a: Snapshot, b: Snapshot)
    requires SameSnapshot(a, b) && CandleLines(a.candles) == CandleLines(b.candles)
    ensures Reading(a) == Reading(b)
  {
    hide Counted, IntegerText, DigitText, CandleLines, Following, SameCandle;
  }
}
