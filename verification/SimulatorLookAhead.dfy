/** Nothing decided at a candle depends on any later candle. */
module SimulatorLookAhead {
  import opened Wrappers
  import opened Decimals
  import opened Sorting
  import opened Simulator
  import opened SimulatorLedger
  import opened SimulatorMoney

  /** The two runs differ in their candles only, and not in the first `known` of them. */
  ghost predicate Agree(a: Config, b: Config, known: nat) {
    && b.input == a.input.(candles := b.input.candles)
    && b.warmup == a.warmup && b.feeRate == a.feeRate && b.slippageRate == a.slippageRate
    && known < |a.candles| && known < |b.candles|
    && a.candles[..known] == b.candles[..known]
  }

  lemma SameClose(a: Config, b: Config, st: State, price: Decimal, time: int, reason: ExitReason)
    requires b.input == a.input.(candles := b.input.candles) && b.feeRate == a.feeRate
      && b.slippageRate == a.slippageRate
    ensures Close(a, st, price, time, reason) == Close(b, st, price, time, reason)
  {
    hide Round, Divide, Multiply, Add, Subtract, Minus;
  }

  lemma SameOpen(a: Config, b: Config, st: State, action: Action, candle: Candle, index: nat)
    requires b.input == a.input.(candles := b.input.candles) && b.feeRate == a.feeRate
      && b.slippageRate == a.slippageRate
    ensures Open(a, st, action, candle, index) == Open(b, st, action, candle, index)
  {
    hide Round, Divide, Multiply, Add, Subtract, Minus, Plus, Percent;
  }

  lemma SameFill(a: Config, b: Config, known: nat, st: State, index: nat)
    requires Agree(a, b, known) && index < known
    ensures Fill(a, st, index) == Fill(b, st, index)
  {
    hide Close, Open, Round;
    var candle := a.candles[index];
    assert candle == a.candles[..known][index] == b.candles[..known][index];
    if st.scheduled.Some? {
      var action := st.scheduled.value;
      SameClose(a, b, st, Round(candle.open, 8), candle.timestamp, StrategyClose);
      var closed := Close(a, st, Round(candle.open, 8), candle.timestamp, StrategyClose);
      if closed.Success? { SameOpen(a, b, closed.value, action, candle, index); }
      SameOpen(a, b, st, action, candle, index);
    }
  }

  lemma SameProtect(a: Config, b: Config, known: nat, st: State, index: nat)
    requires Agree(a, b, known) && index < known
    ensures Protect(a, st, index) == Protect(b, st, index)
  {
    hide Close, Round;
    var c := a.candles[index];
    assert c == a.candles[..known][index] == b.candles[..known][index];
    if st.position.Some? {
      var p := st.position.value;
      if StopTriggered(p, c) { SameClose(a, b, st, StopFill(p, c), c.timestamp, StopLoss); }
      else if TakeTriggered(p, c) { SameClose(a, b, st, TakeFill(p, c), c.timestamp, TakeProfit); }
    }
  }

  lemma SameContext(a: Config, b: Config, known: nat, index: nat)
    requires Agree(a, b, known) && index < known
    ensures ContextAt(a, index) == ContextAt(b, index)
  {
    forall k | 0 <= k <= index
      ensures a.candles[k] == b.candles[k]
    {
      assert a.candles[k] == a.candles[..known][k] == b.candles[..known][k];
    }
    assert ContextAt(a, index).candles == ContextAt(b, index).candles;
  }

  lemma SameDecision(a: Config, b: Config, known: nat, st: State, index: nat)
    requires Agree(a, b, known) && index < known
    ensures Decide(a, st, index) == Decide(b, st, index)
  {
    hide ContextAt;
    SameContext(a, b, known, index);
  }

  lemma {:induction false} SameRun(a: Config, b: Config, known: nat, n: nat)
    requires Agree(a, b, known) && n <= known
    ensures Run(a, n) == Run(b, n)
  {
    hide Fill, Protect, Decide, Round;
    if n > 0 {
      SameRun(a, b, known, n - 1);
      if Run(a, n - 1).Success? {
        var st := Run(a, n - 1).value;
        SameFill(a, b, known, st, n - 1);
        var filled := Fill(a, st, n - 1);
        if filled.Success? {
          SameProtect(a, b, known, filled.value, n - 1);
          if Protect(a, filled.value, n - 1).Success? {
            SameDecision(a, b, known, Protect(a, filled.value, n - 1).value, n - 1);
          }
        }
      }
    }
  }

  ghost predicate Prefix(earlier: seq<Trade>, later: seq<Trade>) {
    earlier <= later
  }

  lemma CloseAppends(cfg: Config, st: State, price: Decimal, time: int, reason: ExitReason)
    requires Close(cfg, st, price, time, reason).Success?
    ensures Prefix(st.trades, Close(cfg, st, price, time, reason).value.trades)
  {
    hide MakeTrade;
  }

  lemma StepAppends(cfg: Config, st: State, index: nat)
    requires index < |cfg.candles| && StepCandle(cfg, st, index).Success?
    ensures Prefix(st.trades, StepCandle(cfg, st, index).value.trades)
  {
    hide Close, MakePosition, Round, StopTriggered, TakeTriggered, ContextAt;
    var c := cfg.candles[index];
    var filled := Fill(cfg, st, index).value;
    assert Prefix(st.trades, filled.trades) by {
      if st.scheduled.Some? && index >= cfg.warmup && st.position.Some?
        && st.position.value.signal != SideOf(st.scheduled.value) {
        CloseAppends(cfg, st, Round(c.open, 8), c.timestamp, StrategyClose);
      }
    }
    assert Prefix(filled.trades, Protect(cfg, filled, index).value.trades) by {
      ProtectAppends(cfg, filled, index);
    }
    hide Fill, Protect;
  }

  lemma ProtectAppends(cfg: Config, st: State, index: nat)
    requires index < |cfg.candles| && Protect(cfg, st, index).Success?
    ensures Prefix(st.trades, Protect(cfg, st, index).value.trades)
  {
    hide Close, StopFill, TakeFill, Round;
    if st.position.Some? && st.position.value.entryIndex < index {
      var p, c := st.position.value, cfg.candles[index];
      if StopTriggered(p, c) { CloseAppends(cfg, st, StopFill(p, c), c.timestamp, StopLoss); }
      else if TakeTriggered(p, c) { CloseAppends(cfg, st, TakeFill(p, c), c.timestamp, TakeProfit); }
    }
  }

  lemma {:induction false} ReplayAppends(cfg: Config, n: nat)
    requires n <= |cfg.candles| && Replay(cfg).Success?
    ensures Run(cfg, n).Success? && Prefix(Run(cfg, n).value.trades, Replay(cfg).value.trades)
    decreases |cfg.candles| - n
  {
    hide StepCandle, Close, Round;
    if n == |cfg.candles| {
      var st := Run(cfg, n).value;
      if st.position.Some? && n > 0 {
        var last := cfg.candles[n - 1];
        CloseAppends(cfg, st, Round(last.close, 8), last.timestamp + Milliseconds(cfg.input.timeframe), RangeEnd);
      }
    } else {
      ReplayAppends(cfg, n + 1);
      StepAppends(cfg, Run(cfg, n).value, n);
    }
  }

  /**
   * Two backtests whose sorted closed candles agree on the first `known`, each with at least one more:
   * the loop is in the same state after those candles, and every trade closed by then is in both results.
   */
  lemma NoLookAhead(a: Input, candles: seq<Candle>, known: nat)
    requires var b := a.(candles := candles);
      && Prepare(a).Success? && Prepare(b).Success?
      && Agree(Prepare(a).value, Prepare(b).value, known)
    ensures var b := a.(candles := candles);
      && Run(Prepare(a).value, known) == Run(Prepare(b).value, known)
      && (Simulate(a).Success? && Simulate(b).Success? ==>
            && Run(Prepare(a).value, known).Success?
            && Prefix(Run(Prepare(a).value, known).value.trades, Simulate(a).value.trades)
            && Prefix(Run(Prepare(a).value, known).value.trades, Simulate(b).value.trades))
  {
    hide Prepare, Run, Replay;
    var b := a.(candles := candles);
    SameRun(Prepare(a).value, Prepare(b).value, known, known);
    if Simulate(a).Success? { ReplayAppends(Prepare(a).value, known); }
    if Simulate(b).Success? { ReplayAppends(Prepare(b).value, known); }
  }

  // ---------------------------------------------------------------- the order candles arrive in

  lemma {:induction false} ClosedMembers(candles: seq<Candle>, c: Candle)
    ensures multiset(ClosedCandles(candles))[c] == (if c.isClosed then multiset(candles)[c] else 0)
  {
    if candles != [] {
      ClosedMembers(candles[1..], c);
      assert candles == [candles[0]] + candles[1..];
    }
  }

  lemma IncreasingUnique(a: seq<Candle>, b: seq<Candle>)
    requires Increasing(a) && Increasing(b) && multiset(a) == multiset(b)
    ensures a == b
  {
    forall x, y | x in a && y in a && NoLater(x, y) && NoLater(y, x)
      ensures x == y
    {
      var i :| 0 <= i < |a| && a[i] == x;
      var j :| 0 <= j < |a| && a[j] == y;
    }
    SortedUnique(NoLater, a, b);
  }

  /** The loop replays exactly the closed candles, sorted; shuffling the input changes nothing. */
  lemma CandleOrderIrrelevant(a: Input, candles: seq<Candle>)
    requires var b := a.(candles := candles);
      Prepare(a).Success? && Prepare(b).Success? && multiset(candles) == multiset(a.candles)
    ensures multiset(Prepare(a).value.candles) == multiset(ClosedCandles(a.candles))
    ensures Prepare(a.(candles := candles)).value.candles == Prepare(a).value.candles
  {
    hide Divide, ValidCandle, Less, Sort, ClosedCandles;
    SortPermutes(NoLater, ClosedCandles(a.candles));
    SortPermutes(NoLater, ClosedCandles(candles));
    forall c
      ensures multiset(ClosedCandles(a.candles))[c] == multiset(ClosedCandles(candles))[c]
    {
      ClosedMembers(a.candles, c);
      ClosedMembers(candles, c);
    }
    assert multiset(SortByTime(ClosedCandles(a.candles))) == multiset(SortByTime(ClosedCandles(candles)));
    IncreasingUnique(SortByTime(ClosedCandles(a.candles)), SortByTime(ClosedCandles(candles)));
  }
}
