/** Fills are attainable, protective prices lie on their own side, and every opening settles as exactly one trade. */
module SimulatorFills {
  import opened Wrappers
  import opened Decimals
  import opened Simulator
  import opened SimulatorLedger
  import opened SimulatorMoney
  import opened SimulatorBounds

  // ---------------------------------------------------------------- comparisons

  lemma LessIsValueOrder(a: Decimal, b: Decimal)
    ensures Less(a, b) <==> Val(a) < Val(b)
  {
    var scale := Max(a.scale, b.scale);
    var ra, rb := Decimal(a.units * PowerOfTen(b.scale), a.scale + b.scale),
      Decimal(b.units * PowerOfTen(a.scale), a.scale + b.scale);
    RescaleExact(a, a.scale + b.scale);
    RescaleExact(b, a.scale + b.scale);
    UnitsOrder(ra, rb);
    hide Val, PowerOfTen;
  }

  ghost predicate Between(c: Candle, price: Decimal) {
    price.scale == 8 && Round(c.low, 8).units <= price.units <= Round(c.high, 8).units
  }

  lemma OpenAndCloseBetween(c: Candle, input: Input)
    requires ValidCandle(c, input)
    ensures Between(c, Round(c.open, 8)) && Between(c, Round(c.close, 8))
  {
    LessIsValueOrder(c.high, c.open);
    LessIsValueOrder(c.open, c.low);
    LessIsValueOrder(c.high, c.close);
    LessIsValueOrder(c.close, c.low);
    hide Less, Val, Round;
    RoundMonotone(c.low, c.open, 8);
    RoundMonotone(c.open, c.high, 8);
    RoundMonotone(c.low, c.close, 8);
    RoundMonotone(c.close, c.high, 8);
    RoundScale(c.open, 8);
    RoundScale(c.close, 8);
  }

  // ---------------------------------------------------------------- protective prices

  /** A long position is stopped below its market entry and takes profit above it; a short one the reverse. */
  ghost predicate OnItsSide(signal: Side, marketEntry: Decimal, stopLoss: Option<Decimal>,
          takeProfit: Option<Decimal>) {
    && marketEntry.scale == 8
    && (stopLoss.Some? ==>
          && stopLoss.value.scale == 8
          && (if signal.Long? then stopLoss.value.units <= marketEntry.units
            else stopLoss.value.units >= marketEntry.units))
    && (takeProfit.Some? ==>
          && takeProfit.value.scale == 8
          && (if signal.Long? then takeProfit.value.units >= marketEntry.units
            else takeProfit.value.units <= marketEntry.units))
  }

  lemma PercentSign(value: Decimal)
    requires value.units > 0
    ensures Val(Percent(value)) >= 0.0
  {
    DivideSign(value, FromInteger(100), 20);
    hide Divide;
    SignOfValue(Percent(value));
  }

  lemma ScaledUnits(market: Decimal, factor: Decimal)
    requires market.scale == 8 && market.units >= 0
    ensures var r := Round(Multiply(market, factor), 8);
      && r.scale == 8
      && (Val(factor) >= 1.0 ==> r.units >= market.units)
      && (Val(factor) <= 1.0 ==> r.units <= market.units)
  {
    hide Round, Multiply, Val;
    var r := Round(Multiply(market, factor), 8);
    RoundScale(Multiply(market, factor), 8);
    ScaledPrice(market, factor);
    UnitsOrder(r, market);
    UnitsOrder(market, r);
  }

  lemma EnteredOnItsSide(cfg: Config, p: Position)
    requires Sound(cfg) && Entered(cfg, p)
    ensures OnItsSide(p.signal, p.marketEntryPrice, p.stopLoss, p.takeProfit)
  {
    EnteredPrices(cfg, p);
    hide MakePosition, Round, Divide, EntryPrice, UnitCost, Val, ValidCandles, Plus, Minus, Percent, Multiply, Less;
    MakePositionCopies(cfg, p.equityBeforeTrade, ActionOf(p.signal), cfg.candles[p.entryIndex], p.entryIndex);
    if cfg.input.stopLossPercent.Some? {
      var rate := Percent(cfg.input.stopLossPercent.value);
      PercentSign(cfg.input.stopLossPercent.value);
      PlusMinusValue(p.signal, rate);
      ScaledUnits(p.marketEntryPrice, Minus(p.signal, rate));
    }
    if cfg.input.takeProfitPercent.Some? {
      var rate := Percent(cfg.input.takeProfitPercent.value);
      PercentSign(cfg.input.takeProfitPercent.value);
      PlusMinusValue(p.signal, rate);
      ScaledUnits(p.marketEntryPrice, Plus(p.signal, rate));
    }
  }

  // ---------------------------------------------------------------- triggers and gaps in terms of prices

  /** Prices between `low` and `high` reach the limit against the position. */
  ghost predicate ReachAgainst(signal: Side, low: Decimal, high: Decimal, limit: Decimal) {
    if signal.Long? then Val(low) <= Val(limit) else Val(high) >= Val(limit)
  }

  /** Prices between `low` and `high` reach the limit in favour of the position. */
  ghost predicate ReachInFavour(signal: Side, low: Decimal, high: Decimal, limit: Decimal) {
    if signal.Long? then Val(high) >= Val(limit) else Val(low) <= Val(limit)
  }

  lemma UnitsTell(a: Decimal, b: Decimal)
    requires a.scale == b.scale
    ensures (a.units <= b.units <==> Val(a) <= Val(b)) && (a.units >= b.units <==> Val(a) >= Val(b))
  {
    hide Val;
    UnitsOrder(a, b);
    UnitsOrder(b, a);
  }

  /**
   * For the position the loop holds after any number of candles, and any candle: the stop, the take profit and the two
   * gap tests, which compare units, hold exactly when the prices those units stand for compare that way.
   */
  lemma TriggersComparePrices(input: Input, n: nat, c: Candle)
    requires Prepare(input).Success? && n <= |Prepare(input).value.candles| && Run(Prepare(input).value, n).Success?
    requires Run(Prepare(input).value, n).value.position.Some?
    ensures var p := Run(Prepare(input).value, n).value.position.value;
      var open, high, low := Round(c.open, 8), Round(c.high, 8), Round(c.low, 8);
      && (StopTriggered(p, c) <==> p.stopLoss.Some? && ReachAgainst(p.signal, low, high, p.stopLoss.value))
      && (TakeTriggered(p, c) <==> p.takeProfit.Some? && ReachInFavour(p.signal, low, high, p.takeProfit.value))
      && (p.stopLoss.Some? ==>
        StopFill(p, c) == if ReachAgainst(p.signal, open, open, p.stopLoss.value) then open else p.stopLoss.value)
      && (p.takeProfit.Some? ==>
        TakeFill(p, c) == if ReachInFavour(p.signal, open, open, p.takeProfit.value) then open else p.takeProfit.value)
  {
    hide Prepare, Run, Round, Val, Ledger, EquityAfter, Entered;
    var cfg := Prepare(input).value;
    PrepareIncreasing(input);
    RunKeeps(cfg, n);
    var p := Run(cfg, n).value.position.value;
    StopAndTakeScales(cfg, p);
    RoundScale(c.open, 8);
    RoundScale(c.high, 8);
    RoundScale(c.low, 8);
    if p.stopLoss.Some? {
      UnitsTell(Round(c.open, 8), p.stopLoss.value);
      UnitsTell(Round(c.high, 8), p.stopLoss.value);
      UnitsTell(Round(c.low, 8), p.stopLoss.value);
    }
    if p.takeProfit.Some? {
      UnitsTell(Round(c.open, 8), p.takeProfit.value);
      UnitsTell(Round(c.high, 8), p.takeProfit.value);
      UnitsTell(Round(c.low, 8), p.takeProfit.value);
    }
  }

  // ---------------------------------------------------------------- attainable fills

  /** The trade entered at the open of candle `e` and left at candle `x`, both at prices those candles traded. */
  ghost predicate Attainable(cfg: Config, t: Trade, e: nat, x: nat) {
    && cfg.warmup < e < x < |cfg.candles|
    && t.entryTime == cfg.candles[e].timestamp
    && t.marketEntryPrice == Round(cfg.candles[e].open, 8) && Between(cfg.candles[e], t.marketEntryPrice)
    && t.exitTime == cfg.candles[x].timestamp
      + (if t.exitReason.RangeEnd? then Milliseconds(cfg.input.timeframe) else 0)
    && (t.exitReason.RangeEnd? ==> x == |cfg.candles| - 1)
    && Between(cfg.candles[x], t.marketExitPrice)
    && OnItsSide(t.signal, t.marketEntryPrice, t.stopLoss, t.takeProfit)
  }

  lemma ExitBetween(cfg: Config, p: Position, x: nat, price: Decimal, time: int, reason: ExitReason)
    requires Sound(cfg) && Entered(cfg, p) && x < |cfg.candles| && ExitsAt(cfg, p, x, price, time, reason)
    ensures Between(cfg.candles[x], price)
  {
    hide MakePosition, Round, Divide;
    var c := cfg.candles[x];
    assert ValidCandle(c, cfg.input);
    OpenAndCloseBetween(c, cfg.input);
    StopAndTakeScales(cfg, p);
  }

  lemma RoundTripAttainable(cfg: Config, t: Trade, sequence: nat, p: Position, x: nat)
    requires Sound(cfg) && RoundTrip(cfg, t, sequence, p, x)
    ensures Attainable(cfg, t, p.entryIndex, x)
  {
    hide MakeTrade, MakePosition, Between, OnItsSide, Round;
    var c := cfg.candles[p.entryIndex];
    assert ValidCandle(c, cfg.input);
    OpenAndCloseBetween(c, cfg.input);
    MakePositionCopies(cfg, p.equityBeforeTrade, ActionOf(p.signal), c, p.entryIndex);
    MakeTradeCopies(cfg, p, sequence, t.marketExitPrice, t.exitTime, t.exitReason);
    EnteredOnItsSide(cfg, p);
    ExitBetween(cfg, p, x, t.marketExitPrice, t.exitTime, t.exitReason);
    hide StopTriggered, TakeTriggered, StopFill, TakeFill, ValidCandle;
  }

  ghost predicate WellFormedTrade(cfg: Config, trades: seq<Trade>, j: nat)
    requires j < |trades|
  {
    var t := trades[j];
    && t.sequence == j + 1 && t.id == TradeId(cfg.input.attemptId, j + 1)
    && t.entryTime < t.exitTime
    && (j + 1 < |trades| ==> t.exitTime <= trades[j + 1].entryTime && t.exitReason != RangeEnd)
    && exists e, x :: Attainable(cfg, t, e, x)
  }

  /** Every trade of every successful backtest: numbered from one, forward in time, in order, at attainable prices. */
  lemma TradesWellFormed(input: Input, j: nat)
    requires Simulate(input).Success? && j < |Simulate(input).value.trades|
    ensures WellFormedTrade(Prepare(input).value, Simulate(input).value.trades, j)
  {
    hide Prepare, Replay, RoundTrip, Sound, Attainable;
    var cfg := Prepare(input).value;
    var trades := Replay(cfg).value.trades;
    PrepareSound(input);
    PrepareIncreasing(input);
    ReplayLedger(cfg);
    hide EquityAfter;
    var p, x :| RoundTrip(cfg, trades[j], j + 1, p, x);
    RoundTripAttainable(cfg, trades[j], j + 1, p, x);
    RoundTripNumbered(cfg, trades[j], j + 1, p, x);
    AttainableForward(cfg, trades[j], p.entryIndex, x);
  }

  lemma RoundTripNumbered(cfg: Config, t: Trade, sequence: nat, p: Position, x: nat)
    requires RoundTrip(cfg, t, sequence, p, x)
    ensures t.sequence == sequence && t.id == TradeId(cfg.input.attemptId, sequence)
  {
    hide MakeTrade;
    MakeTradeCopies(cfg, p, sequence, t.marketExitPrice, t.exitTime, t.exitReason);
  }

  lemma AttainableForward(cfg: Config, t: Trade, e: nat, x: nat)
    requires Increasing(cfg.candles) && Attainable(cfg, t, e, x)
    ensures t.entryTime < t.exitTime
  {
    hide Between, OnItsSide, Round;
  }

  // ---------------------------------------------------------------- openings and trades

  /** The positions opened while the first `n` candles are processed, in order. */
  ghost function Openings(cfg: Config, n: nat): seq<Position>
    requires n <= |cfg.candles|
  {
    if n == 0 || Run(cfg, n - 1).Failure? then []
    else
      var filled := Fill(cfg, Run(cfg, n - 1).value, n - 1);
      Openings(cfg, n - 1)
        + (if filled.Success? && filled.value.position.Some? && filled.value.position.value.entryIndex == n - 1
           then [filled.value.position.value] else [])
  }

  ghost predicate Settles(t: Trade, p: Position) {
    && t.signal == p.signal && t.entryTime == p.entryTime && t.quantity == p.quantity
    && t.marketEntryPrice == p.marketEntryPrice && t.entryPrice == p.entryPrice
    && t.equityBeforeTrade == p.equityBeforeTrade && t.stopLoss == p.stopLoss && t.takeProfit == p.takeProfit
  }

  /** Opening `i` settled as trade `i`; only the last opening may still be the open position. */
  ghost predicate Settled(st: State, openings: seq<Position>) {
    && |openings| == |st.trades| + (if st.position.Some? then 1 else 0)
    && (forall i | 0 <= i < |st.trades| :: Settles(st.trades[i], openings[i]))
    && (st.position.Some? ==> openings[|st.trades|] == st.position.value)
  }

  lemma CloseSettles(cfg: Config, st: State, price: Decimal, time: int, reason: ExitReason, openings: seq<Position>)
    requires Settled(st, openings) && Close(cfg, st, price, time, reason).Success?
    ensures Settled(Close(cfg, st, price, time, reason).value, openings)
    ensures Close(cfg, st, price, time, reason).value.position.None?
  {
    hide MakeTrade;
    if st.position.Some? {
      MakeTradeCopies(cfg, st.position.value, st.sequence + 1, price, time, reason);
    }
  }

  lemma FillSettles(cfg: Config, st: State, index: nat, openings: seq<Position>)
    requires Settled(st, openings) && index < |cfg.candles| && Fill(cfg, st, index).Success?
    requires st.position.Some? ==> st.position.value.entryIndex < index
    ensures var after := Fill(cfg, st, index).value;
      Settled(after,
        openings
        + (if after.position.Some? && after.position.value.entryIndex == index then [after.position.value] else []))
  {
    hide Close, MakePosition, Round;
    if st.scheduled.Some? && index >= cfg.warmup {
      var candle, action := cfg.candles[index], st.scheduled.value;
      var closed := st;
      if st.position.Some? && st.position.value.signal != SideOf(action) {
        closed := Close(cfg, st, Round(candle.open, 8), candle.timestamp, StrategyClose).value;
        CloseSettles(cfg, st, Round(candle.open, 8), candle.timestamp, StrategyClose, openings);
      }
      if closed.position.None? && index < |cfg.candles| - 1 {
        var entered := MakePosition(cfg, closed.equity, action, candle, index);
        if entered.value.Some? { MakePositionCopies(cfg, closed.equity, action, candle, index); }
      }
      hide Settles;
    }
  }

  lemma ProtectSettles(cfg: Config, st: State, index: nat, openings: seq<Position>)
    requires Settled(st, openings) && index < |cfg.candles| && Protect(cfg, st, index).Success?
    ensures Settled(Protect(cfg, st, index).value, openings)
  {
    hide Close, StopFill, TakeFill, Settled, Round;
    if st.position.Some? && st.position.value.entryIndex < index {
      var p, c := st.position.value, cfg.candles[index];
      if StopTriggered(p, c) { CloseSettles(cfg, st, StopFill(p, c), c.timestamp, StopLoss, openings); }
      else if TakeTriggered(p, c) { CloseSettles(cfg, st, TakeFill(p, c), c.timestamp, TakeProfit, openings); }
    }
  }

  lemma {:induction false} RunSettles(cfg: Config, n: nat)
    requires Increasing(cfg.candles) && n <= |cfg.candles| && Run(cfg, n).Success?
    ensures Settled(Run(cfg, n).value, Openings(cfg, n))
  {
    hide Fill, Protect, Round, Entered, Ledger, EquityAfter, ContextAt;
    if n > 0 {
      RunSettles(cfg, n - 1);
      RunKeeps(cfg, n - 1);
      var st := Run(cfg, n - 1).value;
      FillSettles(cfg, st, n - 1, Openings(cfg, n - 1));
      ProtectSettles(cfg, Fill(cfg, st, n - 1).value, n - 1, Openings(cfg, n));
      hide Settles, Inv;
    }
  }

  /** Over a whole backtest, the openings and the trades correspond one to one, in order. */
  lemma EveryOpeningSettles(input: Input)
    requires Simulate(input).Success?
    ensures var cfg, trades := Prepare(input).value, Simulate(input).value.trades;
      var openings := Openings(cfg, |cfg.candles|);
      |trades| == |openings| && forall i | 0 <= i < |trades| :: Settles(trades[i], openings[i])
  {
    hide Prepare, Run, Close, Settles, Round, Openings, Increasing, Ledger, EquityAfter, MakePosition;
    var cfg := Prepare(input).value;
    PrepareIncreasing(input);
    RunSettles(cfg, |cfg.candles|);
    RunKeeps(cfg, |cfg.candles|);
    var st := Run(cfg, |cfg.candles|).value;
    if st.position.Some? {
      var last := cfg.candles[|cfg.candles| - 1];
      CloseSettles(cfg, st, Round(last.close, 8), last.timestamp + Milliseconds(cfg.input.timeframe), RangeEnd,
        Openings(cfg, |cfg.candles|));
    }
  }
}
