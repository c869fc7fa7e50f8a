/** Which inputs a backtest accepts, told in prices, and what it then works on. */
module SimulatorInput {
  import opened Wrappers
  import opened Decimals
  import opened Sorting
  import opened Simulator
  import opened SimulatorFills

  // ---------------------------------------------------------------- the conditions

  /** The asset's name has a character that is not white space. */
  ghost predicate Named(text: string) {
    exists k :: 0 <= k < |text| && text[k] != ' ' && text[k] != '\t' && text[k] != '\n' && text[k] != '\r'
  }

  /** If given, the percentage lies strictly between zero and a hundred. */
  ghost predicate ProperPercent(value: Option<Decimal>) {
    value.Some? ==> 0.0 < Val(value.value) < 100.0
  }

  /**
   * Positive prices, the low not above and the high not below open and close, no negative volume, the right pair and
   * timeframe.
   */
  ghost predicate ProperCandle(c: Candle, input: Input) {
    && c.pair == input.pair && c.timeframe == input.timeframe
    && 0.0 < Val(c.low) <= Val(c.open) <= Val(c.high) && Val(c.low) <= Val(c.close) <= Val(c.high)
    && Val(c.volume) >= 0.0
  }

  /** No two of the candles bear the same time. */
  predicate DistinctTimes(candles: seq<Candle>) {
    forall i, j | 0 <= i < j < |candles| :: candles[i].timestamp != candles[j].timestamp
  }

  /** Everything but the length of the warmup is in order. */
  ghost predicate ProperInput(input: Input) {
    && Named(input.settlementAsset) && Val(input.initialCapital) > 0.0 && Val(input.feeRatePercent) >= 0.0
    && ProperPercent(input.stopLossPercent) && ProperPercent(input.takeProfitPercent)
    && (input.slippageBps.Some? ==> Val(input.slippageBps.value) >= 0.0)
    && (input.warmupCandles.Some? ==> input.warmupCandles.value >= 0)
    && (forall c | c in input.candles && c.isClosed :: ProperCandle(c, input))
    && DistinctTimes(ClosedCandles(input.candles))
  }

  function WarmupOf(input: Input): int {
    if input.warmupCandles.Some? then input.warmupCandles.value else 0
  }

  // ---------------------------------------------------------------- candles in order

  lemma {:induction false} ClosedAre(candles: seq<Candle>)
    ensures forall c :: c in ClosedCandles(candles) <==> c in candles && c.isClosed
  {
    if candles != [] {
      ClosedAre(candles[1..]);
      assert candles == [candles[0]] + candles[1..];
    }
  }

  predicate FreshTime(candles: seq<Candle>, time: int) {
    forall i | 0 <= i < |candles| :: candles[i].timestamp != time
  }

  lemma DistinctParts(x: Candle, xs: seq<Candle>)
    ensures DistinctTimes([x] + xs) <==> FreshTime(xs, x.timestamp) && DistinctTimes(xs)
  {
    var all := [x] + xs;
    assert forall i | 0 <= i < |xs| :: all[i + 1] == xs[i];
    assert all[0] == x;
    if DistinctTimes(all) {
      forall i, j | 0 <= i < j < |xs|
        ensures xs[i].timestamp != xs[j].timestamp
      {
        assert all[i + 1].timestamp != all[j + 1].timestamp;
      }
      forall i | 0 <= i < |xs|
        ensures xs[i].timestamp != x.timestamp
      {
        assert all[0].timestamp != all[i + 1].timestamp;
      }
    }
    if FreshTime(xs, x.timestamp) && DistinctTimes(xs) {
      forall i, j | 0 <= i < j < |all|
        ensures all[i].timestamp != all[j].timestamp
      {
        assert all[j] == xs[j - 1];
        if i > 0 { assert all[i] == xs[i - 1]; }
      }
    }
  }

  lemma FreshParts(x: Candle, xs: seq<Candle>, time: int)
    ensures FreshTime([x] + xs, time) <==> x.timestamp != time && FreshTime(xs, time)
  {
    var all := [x] + xs;
    assert all[0] == x;
    assert forall i | 0 <= i < |xs| :: all[i + 1] == xs[i];
    if FreshTime(all, time) {
      forall i | 0 <= i < |xs|
        ensures xs[i].timestamp != time
      {
        assert all[i + 1].timestamp != time;
      }
    }
  }

  /** Inserting keeps which times are taken, and so whether they are distinct. */
  lemma {:induction false} InsertTimes(x: Candle, xs: seq<Candle>)
    ensures forall time :: FreshTime(Insert(NoLater, x, xs), time) <==> x.timestamp != time && FreshTime(xs, time)
    ensures DistinctTimes(Insert(NoLater, x, xs)) <==> FreshTime(xs, x.timestamp) && DistinctTimes(xs)
  {
    if xs == [] || NoLater(x, xs[0]) {
      DistinctParts(x, xs);
      forall time
        ensures FreshTime([x] + xs, time) <==> x.timestamp != time && FreshTime(xs, time)
      {
        FreshParts(x, xs, time);
      }
    } else {
      var rest := xs[1..];
      var inserted := Insert(NoLater, x, rest);
      assert xs == [xs[0]] + rest;
      InsertTimes(x, rest);
      DistinctParts(xs[0], inserted);
      DistinctParts(xs[0], rest);
      FreshParts(xs[0], rest, x.timestamp);
      forall time
        ensures FreshTime([xs[0]] + inserted, time) <==> x.timestamp != time && FreshTime(xs, time)
      {
        FreshParts(xs[0], inserted, time);
        FreshParts(xs[0], rest, time);
      }
      hide FreshTime, DistinctTimes;
    }
  }

  lemma {:induction false} SortTimes(xs: seq<Candle>)
    ensures forall time :: FreshTime(SortByTime(xs), time) <==> FreshTime(xs, time)
    ensures DistinctTimes(SortByTime(xs)) <==> DistinctTimes(xs)
  {
    if xs != [] {
      SortTimes(xs[1..]);
      InsertTimes(xs[0], SortByTime(xs[1..]));
      DistinctParts(xs[0], xs[1..]);
      assert xs == [xs[0]] + xs[1..];
      forall time
        ensures FreshTime(SortByTime(xs), time) <==> FreshTime(xs, time)
      {
        FreshParts(xs[0], xs[1..], time);
      }
    }
  }

  /** Sorted candles increase strictly exactly if their times are distinct. */
  lemma IncreasingExactly(xs: seq<Candle>)
    ensures Increasing(SortByTime(xs)) <==> DistinctTimes(xs)
    ensures multiset(SortByTime(xs)) == multiset(xs) && |SortByTime(xs)| == |xs|
  {
    assert TotalPreorder(NoLater);
    SortSorts(NoLater, xs);
    SortPermutes(NoLater, xs);
    SortTimes(xs);
    var sorted := SortByTime(xs);
    assert |multiset(sorted)| == |multiset(xs)|;
    if DistinctTimes(sorted) {
      forall i, j | 0 <= i < j < |sorted|
        ensures sorted[i].timestamp < sorted[j].timestamp
      {
        assert NoLater(sorted[i], sorted[j]);
      }
    }
  }

  // ---------------------------------------------------------------- the checks

  lemma PercentProper(value: Option<Decimal>)
    ensures PositivePercent(value) <==> ProperPercent(value)
  {
    if value.Some? {
      SignOfValue(value.value);
      LessIsValueOrder(value.value, FromInteger(100));
      HundredIs();
      hide Less, Val, FromInteger;
    }
  }

  lemma HundredIs()
    ensures Val(FromInteger(100)) == 100.0
  {
    assert PowerOfTen(0) == 1;
  }

  lemma CandleProper(c: Candle, input: Input)
    ensures ValidCandle(c, input) <==> ProperCandle(c, input)
  {
    hide Less, Val;
    SignOfValue(c.open);
    SignOfValue(c.high);
    SignOfValue(c.low);
    SignOfValue(c.close);
    SignOfValue(c.volume);
    LessIsValueOrder(c.high, c.open);
    LessIsValueOrder(c.high, c.close);
    LessIsValueOrder(c.open, c.low);
    LessIsValueOrder(c.close, c.low);
  }

  lemma CandlesProper(input: Input)
    ensures ValidCandles(SortByTime(ClosedCandles(input.candles)), input) <==>
      (forall c | c in input.candles && c.isClosed :: ProperCandle(c, input))
        && DistinctTimes(ClosedCandles(input.candles))
  {
    hide ValidCandle, ProperCandle, SortByTime, DistinctTimes, Increasing;
    var closed := ClosedCandles(input.candles);
    var sorted := SortByTime(closed);
    ClosedAre(input.candles);
    IncreasingExactly(closed);
    assert forall c :: c in sorted <==> c in multiset(sorted);
    assert forall c :: c in closed <==> c in multiset(closed);
    forall c
      ensures ValidCandle(c, input) <==> ProperCandle(c, input)
    {
      CandleProper(c, input);
    }
    if forall c | c in input.candles && c.isClosed :: ProperCandle(c, input) {
      forall i | 0 <= i < |sorted|
        ensures ValidCandle(sorted[i], input)
      {
        assert sorted[i] in sorted;
      }
    }
  }

  lemma NamedExactly(text: string)
    ensures Named(text) <==> !Blank(text)
  {
    if Named(text) {
      var k :| 0 <= k < |text| && text[k] != ' ' && text[k] != '\t' && text[k] != '\n' && text[k] != '\r';
      assert text[k] in text;
    }
    if !Blank(text) {
      var c :| c in text && c !in {' ', '\t', '\n', '\r'};
      var k :| 0 <= k < |text| && text[k] == c;
    }
  }

  /** Exactly which inputs are accepted, which error the others get, and what the accepted ones are turned into. */
  lemma InputsAccepted(input: Input)
    ensures Prepare(input).Success? <==> ProperInput(input) && WarmupOf(input) <= |ClosedCandles(input.candles)|
    ensures Prepare(input) == Failure(SnapshotIncomplete) <==>
      ProperInput(input) && WarmupOf(input) > |ClosedCandles(input.candles)|
    ensures Prepare(input).Success? ==>
      var cfg := Prepare(input).value;
      && cfg.input == input && cfg.warmup == WarmupOf(input)
      && Increasing(cfg.candles) && multiset(cfg.candles) == multiset(ClosedCandles(input.candles))
      && forall c :: c in ClosedCandles(input.candles) <==> c in input.candles && c.isClosed
  {
    hide Blank, Named, PositivePercent, ProperPercent, ValidCandles, ProperCandle, SortByTime, ClosedCandles,
      DistinctTimes, Divide, Val,
      Increasing;
    NamedExactly(input.settlementAsset);
    SignOfValue(input.initialCapital);
    SignOfValue(input.feeRatePercent);
    PercentProper(input.stopLossPercent);
    PercentProper(input.takeProfitPercent);
    if input.slippageBps.Some? { SignOfValue(input.slippageBps.value); }
    CandlesProper(input);
    IncreasingExactly(ClosedCandles(input.candles));
    ClosedAre(input.candles);
  }
}
