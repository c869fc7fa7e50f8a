/** Every figure of every trade, compared with real arithmetic rounded to the stated number of digits. */
module SimulatorFigures {
  import opened Wrappers
  import opened Decimals
  import opened Simulator
  import opened SimulatorLedger
  import opened SimulatorMoney
  import opened SimulatorBounds
  import opened SimulatorFills

  /** The nearest number with this many fraction digits, ties away from zero. */
  ghost function To(x: real, digits: nat): real {
    HalfAway(x * Ten(digits)) as real / Ten(digits)
  }

  ghost function Times(x: real, y: real): real {
    x * y
  }

  ghost function Over(n: real, d: real): real
    requires d != 0.0
  {
    n / d
  }

  lemma RoundedTo(value: Decimal, digits: nat)
    ensures Val(Round(value, digits)) == To(Val(value), digits)
  {
    hide Round, HalfAway, Ten;
    RoundIsNearest(value, digits);
  }

  lemma DividedTo(left: Decimal, right: Decimal, digits: nat)
    requires right.units != 0
    ensures Val(right) != 0.0 && Val(Divide(left, right, digits)) == To(Over(Val(left), Val(right)), digits)
  {
    hide Divide, HalfAway, Ten, Val, Over;
    SignOfValue(right);
    Quotient(Val(left), Val(right));
    DivideIsNearest(left, right, digits, Over(Val(left), Val(right)));
    NearestValue(Over(Val(left), Val(right)), digits);
  }

  lemma NearestValue(x: real, digits: nat)
    ensures Val(Decimal(Nearest(x, digits), digits)) == To(x, digits)
  {
    hide HalfAway, Ten;
  }

  lemma Quotient(n: real, d: real)
    requires d != 0.0
    ensures Over(n, d) * d == n
  {
  }

  lemma ProductTo(a: Decimal, b: Decimal, digits: nat)
    ensures Val(Multiply(a, b)) == Times(Val(a), Val(b))
    ensures Val(Round(Multiply(a, b), digits)) == To(Times(Val(a), Val(b)), digits)
  {
    hide Round, Multiply, Val, To;
    MultiplyExact(a, b);
    RoundedTo(Multiply(a, b), digits);
  }

  // ---------------------------------------------------------------- the rates

  /** The fee rate of an input. */
  ghost function FeeOf(input: Input): real {
    To(Over(Val(input.feeRatePercent), 100.0), 20)
  }

  /** The slippage rate of an input; five basis points if none is given. */
  ghost function SlipOf(input: Input): real {
    To(Over(if input.slippageBps.Some? then Val(input.slippageBps.value) else 5.0, 10000.0), 20)
  }

  lemma WholeValue(n: int)
    ensures Val(FromInteger(n)) == n as real
  {
    assert PowerOfTen(0) == 1;
  }

  lemma RatesOf(input: Input)
    requires Prepare(input).Success?
    ensures var cfg := Prepare(input).value;
      cfg.input == input && Val(cfg.feeRate) == FeeOf(input) && Val(cfg.slippageRate) == SlipOf(input)
  {
    WholeValue(5);
    WholeValue(100);
    WholeValue(10_000);
    hide SortByTime, ValidCandles, Divide, Val, To, Times, Over;
    DividedTo(input.feeRatePercent, FromInteger(100), 20);
    DividedTo(DefaultTo(input.slippageBps, FromInteger(5)), FromInteger(10_000), 20);
  }

  // ---------------------------------------------------------------- the figures of a position

  /** A price at a distance of so many percent, on the losing side of a position for a negative sign. */
  ghost predicate AtPercent(price: Option<Decimal>, percent: Option<Decimal>, marketEntry: real, signal: Side,
          gain: bool) {
    && (price.Some? <==> percent.Some?)
    && (price.Some? ==>
          var move := Directed(signal, To(Over(Val(percent.value), 100.0), 20));
          Val(price.value) == To(Times(marketEntry, if gain then 1.0 + move else 1.0 - move), 8))
  }

  /** What entering costs and how much it buys. */
  ghost predicate EntryFigures(input: Input, signal: Side, marketEntry: real, entry: real, equity: real,
          quantity: real) {
    && entry == To(Times(marketEntry, 1.0 + Directed(signal, SlipOf(input))), 8)
    && Times(entry, 1.0 + FeeOf(input)) != 0.0
    && quantity == To(Over(equity, Times(entry, 1.0 + FeeOf(input))), 8)
  }

  lemma PositionFigures(cfg: Config, equity: Decimal, action: Action, candle: Candle, index: nat)
    requires Val(cfg.feeRate) == FeeOf(cfg.input) && Val(cfg.slippageRate) == SlipOf(cfg.input)
    requires MakePosition(cfg, equity, action, candle, index).Success?
      && MakePosition(cfg, equity, action, candle, index).value.Some?
    ensures var p := MakePosition(cfg, equity, action, candle, index).value.value;
      && Val(p.marketEntryPrice) == To(Val(candle.open), 8)
      && EntryFigures(cfg.input, p.signal, Val(p.marketEntryPrice), Val(p.entryPrice), Val(equity), Val(p.quantity))
      && AtPercent(p.stopLoss, cfg.input.stopLossPercent, Val(p.marketEntryPrice), p.signal, false)
      && AtPercent(p.takeProfit, cfg.input.takeProfitPercent, Val(p.marketEntryPrice), p.signal, true)
  {
    hide MakePosition, Round, Divide, Val, Multiply, Plus, Minus, Percent, To, Times, Over, FeeOf, SlipOf, Directed,
      UnitCost;
    MakePositionCopies(cfg, equity, action, candle, index);
    var p := MakePosition(cfg, equity, action, candle, index).value.value;
    var market := p.marketEntryPrice;
    RoundedTo(candle.open, 8);
    PlusMinusValue(p.signal, cfg.slippageRate);
    ProductTo(market, Plus(p.signal, cfg.slippageRate), 8);
    CostOf(cfg, p.entryPrice);
    DividedTo(equity, UnitCost(cfg, p.entryPrice), 8);
    if cfg.input.stopLossPercent.Some? { PercentPrice(market, p.signal, cfg.input.stopLossPercent.value); }
    if cfg.input.takeProfitPercent.Some? { PercentPrice(market, p.signal, cfg.input.takeProfitPercent.value); }
  }

  lemma CostOf(cfg: Config, entryPrice: Decimal)
    requires Val(cfg.feeRate) == FeeOf(cfg.input)
    ensures Val(UnitCost(cfg, entryPrice)) == Times(Val(entryPrice), 1.0 + FeeOf(cfg.input))
  {
    hide UnitCost, Val, FeeOf;
    UnitCostValue(cfg, entryPrice);
  }

  lemma PercentPrice(market: Decimal, signal: Side, percent: Decimal)
    ensures var move := Directed(signal, To(Over(Val(percent), 100.0), 20));
      && Val(Round(Multiply(market, Plus(signal, Percent(percent))), 8)) == To(Times(Val(market), 1.0 + move), 8)
      && Val(Round(Multiply(market, Minus(signal, Percent(percent))), 8)) == To(Times(Val(market), 1.0 - move), 8)
  {
    WholeValue(100);
    hide Round, Divide, Val, Multiply, Plus, Minus, To, Times, Over, Directed;
    DividedTo(percent, FromInteger(100), 20);
    PlusMinusValue(signal, Percent(percent));
    ProductTo(market, Plus(signal, Percent(percent)), 8);
    ProductTo(market, Minus(signal, Percent(percent)), 8);
  }

  // ---------------------------------------------------------------- the figures of a trade

  /** What leaving brings, in amounts of whole cents. */
  ghost predicate ExitFigures(input: Input, t: Trade) {
    var f, q := FeeOf(input), Val(t.quantity);
    var me, e, mx, x := Val(t.marketEntryPrice), Val(t.entryPrice), Val(t.marketExitPrice), Val(t.exitPrice);
    && x == To(Times(mx, 1.0 - Directed(t.signal, SlipOf(input))), 8)
    && Val(t.notionalEntryValue) == To(Times(e, q), 2)
    && Val(t.grossProfit) == To(Directed(t.signal, Times(mx - me, q)), 2)
    && Val(t.slippageAmount) == To(Times(Magnitude(e - me), q), 2) + To(Times(Magnitude(x - mx), q), 2)
    && Val(t.feeAmount) == To(Times(f, To(Times(e, q), 2)), 2) + To(Times(f, To(Times(x, q), 2)), 2)
    && Val(t.profit) == Val(t.grossProfit) - Val(t.slippageAmount) - Val(t.feeAmount)
    && Val(t.equityAfterTrade) == Val(t.equityBeforeTrade) + Val(t.profit)
  }

  /** The profit in percent of the equity before, the verdict, and whose trade it is. */
  ghost predicate Verdict(input: Input, t: Trade) {
    && Val(t.equityBeforeTrade) != 0.0
    && Val(t.resultPercent) == To(Over(Times(Val(t.profit), 100.0), Val(t.equityBeforeTrade)), 8)
    && (t.result.Win? <==> Val(t.profit) > 0.0) && (t.result.Loss? <==> Val(t.profit) < 0.0)
    && t.pair == input.pair && t.settlementAsset == input.settlementAsset && t.backtestAttemptId == input.attemptId
  }

  ghost predicate PositivePrices(t: Trade) {
    && Val(t.quantity) > 0.0
    && (t.stopLoss.Some? ==> Val(t.stopLoss.value) > 0.0) && (t.takeProfit.Some? ==> Val(t.takeProfit.value) > 0.0)
  }

  ghost predicate RightFigures(input: Input, t: Trade) {
    && EntryFigures(input, t.signal, Val(t.marketEntryPrice), Val(t.entryPrice), Val(t.equityBeforeTrade),
      Val(t.quantity))
    && AtPercent(t.stopLoss, input.stopLossPercent, Val(t.marketEntryPrice), t.signal, false)
    && AtPercent(t.takeProfit, input.takeProfitPercent, Val(t.marketEntryPrice), t.signal, true)
    && ExitFigures(input, t) && Verdict(input, t) && PositivePrices(t)
  }

  lemma GrossTo(p: Position, price: Decimal)
    ensures Val(GrossProfit(p, price))
      == To(Directed(p.signal, Times(Val(price) - Val(p.marketEntryPrice), Val(p.quantity))), 2)
  {
    hide Round, Multiply, Subtract, Val, Direction, To, Times, Over, Directed;
    var move := Subtract(price, p.marketEntryPrice);
    SubtractExact(price, p.marketEntryPrice);
    ProductTo(move, p.quantity, 2);
    DirectionTimes(p.signal, Multiply(move, p.quantity));
    RoundedTo(Multiply(Direction(p.signal), Multiply(move, p.quantity)), 2);
  }

  lemma SlipTo(a: Decimal, b: Decimal, quantity: Decimal)
    ensures Val(Round(Multiply(Absolute(Subtract(a, b)), quantity), 2))
      == To(Times(Magnitude(Val(a) - Val(b)), Val(quantity)), 2)
  {
    hide Round, Multiply, Subtract, Absolute, Val, To, Times, Over;
    SubtractExact(a, b);
    AbsoluteExact(Subtract(a, b));
    ProductTo(Absolute(Subtract(a, b)), quantity, 2);
  }

  lemma SlippageTo(p: Position, price: Decimal, exitPrice: Decimal)
    ensures Val(SlippageAmount(p, price, exitPrice))
      == To(Times(Magnitude(Val(p.entryPrice) - Val(p.marketEntryPrice)), Val(p.quantity)), 2)
        + To(Times(Magnitude(Val(exitPrice) - Val(price)), Val(p.quantity)), 2)
  {
    hide Round, Multiply, Subtract, Absolute, Val, Add, Magnitude, To, Times, Over;
    SlipTo(p.entryPrice, p.marketEntryPrice, p.quantity);
    SlipTo(exitPrice, price, p.quantity);
    RoundScale(Multiply(Absolute(Subtract(p.entryPrice, p.marketEntryPrice)), p.quantity), 2);
    RoundScale(Multiply(Absolute(Subtract(exitPrice, price)), p.quantity), 2);
    SumOfCents(Round(Multiply(Absolute(Subtract(p.entryPrice, p.marketEntryPrice)), p.quantity), 2),
      Round(Multiply(Absolute(Subtract(exitPrice, price)), p.quantity), 2));
  }

  lemma OneFeeTo(rate: Decimal, price: Decimal, quantity: Decimal)
    ensures Val(Round(Multiply(rate, Notional(price, quantity)), 2))
      == To(Times(Val(rate), To(Times(Val(price), Val(quantity)), 2)), 2)
  {
    hide Round, Multiply, Val, To, Times, Over;
    ProductTo(price, quantity, 2);
    ProductTo(rate, Notional(price, quantity), 2);
  }

  lemma FeeTo(cfg: Config, p: Position, exitPrice: Decimal)
    ensures var f, q := Val(cfg.feeRate), Val(p.quantity);
      Val(FeeAmount(cfg, p, exitPrice))
        == To(Times(f, To(Times(Val(p.entryPrice), q), 2)), 2) + To(Times(f, To(Times(Val(exitPrice), q), 2)), 2)
  {
    hide Round, Multiply, Val, Add, To, Times, Over, Notional;
    OneFeeTo(cfg.feeRate, p.entryPrice, p.quantity);
    OneFeeTo(cfg.feeRate, exitPrice, p.quantity);
    RoundScale(Multiply(cfg.feeRate, Notional(p.entryPrice, p.quantity)), 2);
    RoundScale(Multiply(cfg.feeRate, Notional(exitPrice, p.quantity)), 2);
    SumOfCents(Round(Multiply(cfg.feeRate, Notional(p.entryPrice, p.quantity)), 2),
      Round(Multiply(cfg.feeRate, Notional(exitPrice, p.quantity)), 2));
  }

  lemma TradeFigures(cfg: Config, p: Position, sequence: nat, price: Decimal, time: int, reason: ExitReason)
    requires Val(cfg.feeRate) == FeeOf(cfg.input) && Val(cfg.slippageRate) == SlipOf(cfg.input)
    requires p.equityBeforeTrade.scale == 2 && MakeTrade(cfg, p, sequence, price, time, reason).Success?
    ensures ExitFigures(cfg.input, MakeTrade(cfg, p, sequence, price, time, reason).value)
  {
    hide Round, Divide, Multiply, Subtract, Add, Val, Minus, To, Times, Over, FeeOf, SlipOf, Directed, Magnitude,
      GrossProfit, SlippageAmount,
      FeeAmount;
    var exitPrice := ExitPrice(cfg, p, price);
    PlusMinusValue(p.signal, cfg.slippageRate);
    ProductTo(price, Minus(p.signal, cfg.slippageRate), 8);
    ProductTo(p.entryPrice, p.quantity, 2);
    GrossTo(p, price);
    SlippageTo(p, price, exitPrice);
    FeeTo(cfg, p, exitPrice);
    AmountScales(cfg, p, price, exitPrice);
    var g, s, f := GrossProfit(p, price), SlippageAmount(p, price, exitPrice), FeeAmount(cfg, p, exitPrice);
    CentDifference(g, s, f);
    RoundScale(Subtract(Subtract(g, s), f), 2);
    SumOfCents(p.equityBeforeTrade, Round(Subtract(Subtract(g, s), f), 2));
  }

  lemma TradeVerdict(cfg: Config, p: Position, sequence: nat, price: Decimal, time: int, reason: ExitReason)
    requires MakeTrade(cfg, p, sequence, price, time, reason).Success?
    ensures Verdict(cfg.input, MakeTrade(cfg, p, sequence, price, time, reason).value)
  {
    WholeValue(100);
    hide Round, Divide, Multiply, Subtract, Add, Val, To, Times, Over, GrossProfit, SlippageAmount, FeeAmount,
      ExitPrice, Notional;
    var t := MakeTrade(cfg, p, sequence, price, time, reason).value;
    SignOfValue(t.profit);
    ProductTo(t.profit, FromInteger(100), 2);
    DividedTo(Multiply(t.profit, FromInteger(100)), p.equityBeforeTrade, 8);
  }

  lemma RoundTripFigures(cfg: Config, t: Trade, sequence: nat)
    requires Val(cfg.feeRate) == FeeOf(cfg.input) && Val(cfg.slippageRate) == SlipOf(cfg.input)
    requires Explained(cfg, t, sequence) && t.equityBeforeTrade.scale == 2
    ensures RightFigures(cfg.input, t)
  {
    hide MakeTrade, MakePosition, EntryFigures, ExitFigures, AtPercent, Verdict, FeeOf, SlipOf, Val, ExitsAt;
    var p, x :| RoundTrip(cfg, t, sequence, p, x);
    MakeTradeCopies(cfg, p, sequence, t.marketExitPrice, t.exitTime, t.exitReason);
    PositionFigures(cfg, p.equityBeforeTrade, ActionOf(p.signal), cfg.candles[p.entryIndex], p.entryIndex);
    MakePositionCopies(cfg, p.equityBeforeTrade, ActionOf(p.signal), cfg.candles[p.entryIndex], p.entryIndex);
    SignOfValue(t.quantity);
    if t.stopLoss.Some? { SignOfValue(t.stopLoss.value); }
    if t.takeProfit.Some? { SignOfValue(t.takeProfit.value); }
    TradeFigures(cfg, p, sequence, t.marketExitPrice, t.exitTime, t.exitReason);
    TradeVerdict(cfg, p, sequence, t.marketExitPrice, t.exitTime, t.exitReason);
  }

  /** Every figure of every trade of every backtest is what real arithmetic gives, rounded once at each stated place. */
  lemma TradesFigured(input: Input, j: nat)
    requires Simulate(input).Success? && j < |Simulate(input).value.trades|
    ensures RightFigures(input, Simulate(input).value.trades[j])
  {
    hide Prepare, Replay, RightFigures, Explained, Increasing, EquityAfter, FeeOf, SlipOf, Val;
    var cfg := Prepare(input).value;
    var trades := Replay(cfg).value.trades;
    RatesOf(input);
    PrepareIncreasing(input);
    ReplayLedger(cfg);
    LedgerPrefix(cfg, trades, j);
    LedgerConserves(cfg, trades[..j]);
    hide Ledger;
    RoundTripFigures(cfg, trades[j], j + 1);
  }

  /** Whose trade it is. */
  predicate Labelled(input: Input, t: Trade, sequence: nat) {
    && t.sequence == sequence && t.id == TradeId(input.attemptId, sequence) && t.backtestAttemptId == input.attemptId
    && t.pair == input.pair && t.settlementAsset == input.settlementAsset
  }

  lemma TradeLabelled(cfg: Config, t: Trade, sequence: nat)
    requires Explained(cfg, t, sequence)
    ensures Labelled(cfg.input, t, sequence)
  {
    hide Round, Divide, Multiply, Subtract, Add, Entered, ExitsAt;
    var p, x :| RoundTrip(cfg, t, sequence, p, x);
  }

  /** The result names its candidate, attempt and capital, and each trade its number, attempt, pair and asset. */
  lemma ResultLabelled(input: Input)
    requires Simulate(input).Success?
    ensures var r := Simulate(input).value;
      && r.candidateId == input.candidateId && r.attemptId == input.attemptId
        && r.initialCapital == input.initialCapital
      && forall j | 0 <= j < |r.trades| :: Labelled(input, r.trades[j], j + 1)
  {
    hide Replay, Explained, Increasing, EquityAfter, Labelled;
    var cfg, r := Prepare(input).value, Simulate(input).value;
    PrepareIncreasing(input);
    ReplayLedger(cfg);
    forall j | 0 <= j < |r.trades|
      ensures Labelled(input, r.trades[j], j + 1)
    {
      TradeLabelled(cfg, r.trades[j], j + 1);
    }
  }
}
