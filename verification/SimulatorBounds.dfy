/** Real-valued bounds on sizing, profit and loss, derived from the rounding rules alone. */
module SimulatorBounds {
  import opened Wrappers
  import opened Decimals
  import opened Simulator
  import opened SimulatorLedger
  import opened SimulatorMoney

  // ---------------------------------------------------------------- exact values before rounding

  /** A move in the trader's favour for a long position is one against a short position. */
  ghost function Directed(signal: Side, x: real): real {
    if signal.Long? then x else -x
  }

  lemma ValueOfOne()
    ensures Val(FromInteger(1)) == 1.0
    ensures Val(FromInteger(-1)) == -1.0
  {
    assert PowerOfTen(0) == 1;
  }

  lemma DirectionTimes(signal: Side, value: Decimal)
    ensures Val(Multiply(Direction(signal), value)) == Directed(signal, Val(value))
  {
    hide Multiply, Val;
    MultiplyExact(Direction(signal), value);
    ValueOfOne();
  }

  lemma PlusMinusValue(signal: Side, rate: Decimal)
    ensures Val(Plus(signal, rate)) == 1.0 + Directed(signal, Val(rate))
    ensures Val(Minus(signal, rate)) == 1.0 - Directed(signal, Val(rate))
  {
    hide Add, Subtract, Multiply, Val, Direction, FromInteger, Directed;
    ValueOfOne();
    DirectionTimes(signal, rate);
    AddExact(FromInteger(1), Multiply(Direction(signal), rate));
    SubtractExact(FromInteger(1), Multiply(Direction(signal), rate));
  }

  lemma ProductCents(a: Decimal, b: Decimal)
    ensures Near(Val(Round(Multiply(a, b), 2)), Val(a) * Val(b), 0.005)
  {
    hide Round, Multiply, Val;
    MultiplyExact(a, b);
    CentError(Multiply(a, b));
  }

  // ---------------------------------------------------------------- the components of a trade

  ghost function ExactGross(signal: Side, marketEntry: real, marketExit: real, quantity: real): real {
    Directed(signal, (marketExit - marketEntry) * quantity)
  }

  lemma GrossError(p: Position, price: Decimal)
    ensures Near(Val(GrossProfit(p, price)),
      ExactGross(p.signal, Val(p.marketEntryPrice), Val(price), Val(p.quantity)), 0.005)
  {
    hide Round, Multiply, Subtract, Val, Direction;
    var move := Subtract(price, p.marketEntryPrice);
    SubtractExact(price, p.marketEntryPrice);
    MultiplyExact(move, p.quantity);
    DirectionTimes(p.signal, Multiply(move, p.quantity));
    CentError(Multiply(Direction(p.signal), Multiply(move, p.quantity)));
  }

  ghost function Magnitude(x: real): real {
    if x < 0.0 then -x else x
  }

  lemma SlipError(a: Decimal, b: Decimal, quantity: Decimal)
    ensures Near(Val(Round(Multiply(Absolute(Subtract(a, b)), quantity), 2)),
      Magnitude(Val(a) - Val(b)) * Val(quantity), 0.005)
  {
    hide Round, Multiply, Subtract, Absolute, Val;
    SubtractExact(a, b);
    AbsoluteExact(Subtract(a, b));
    ProductCents(Absolute(Subtract(a, b)), quantity);
  }

  lemma SumOfCents(a: Decimal, b: Decimal)
    requires a.scale == 2 == b.scale
    ensures Val(Round(Add(a, b), 2)) == Val(a) + Val(b)
  {
    hide Round, Add;
    RoundSum(a, b, 2);
    FractionSum(a.units as real, b.units as real, Ten(2));
  }

  ghost function ExactSlippage(marketEntry: real, entry: real, marketExit: real, exit: real, quantity: real): real {
    Magnitude(entry - marketEntry) * quantity + Magnitude(exit - marketExit) * quantity
  }

  lemma SlippageError(p: Position, price: Decimal, exitPrice: Decimal)
    ensures Near(Val(SlippageAmount(p, price, exitPrice)),
                 ExactSlippage(Val(p.marketEntryPrice), Val(p.entryPrice), Val(price), Val(exitPrice),
                   Val(p.quantity)), 0.01)
  {
    hide Round, Multiply, Subtract, Absolute, Val, Add, Magnitude;
    var entrySlippage := Round(Multiply(Absolute(Subtract(p.entryPrice, p.marketEntryPrice)), p.quantity), 2);
    var exitSlippage := Round(Multiply(Absolute(Subtract(exitPrice, price)), p.quantity), 2);
    SlipError(p.entryPrice, p.marketEntryPrice, p.quantity);
    SlipError(exitPrice, price, p.quantity);
    RoundScale(Multiply(Absolute(Subtract(p.entryPrice, p.marketEntryPrice)), p.quantity), 2);
    RoundScale(Multiply(Absolute(Subtract(exitPrice, price)), p.quantity), 2);
    SumOfCents(entrySlippage, exitSlippage);
  }

  lemma OneFeeError(rate: Decimal, price: Decimal, quantity: Decimal)
    requires Val(rate) >= 0.0
    ensures Near(Val(Round(Multiply(rate, Notional(price, quantity)), 2)), Val(rate) * (Val(price) * Val(quantity)),
      0.005 + 0.005 * Val(rate))
  {
    hide Round, Multiply, Val;
    ProductCents(price, quantity);
    ProductCents(rate, Notional(price, quantity));
    var f, n, v := Val(rate), Val(Notional(price, quantity)), Val(price) * Val(quantity);
    ScaleNear(f, n, v, 0.005);
    NearChain(Val(Round(Multiply(rate, Notional(price, quantity)), 2)), f * n, f * v, 0.005, 0.005 * f);
  }

  lemma NearChain(a: real, b: real, c: real, d: real, e: real)
    requires Near(a, b, d) && Near(b, c, e)
    ensures Near(a, c, d + e)
  {
  }

  lemma ScaleNear(f: real, a: real, b: real, e: real)
    requires f >= 0.0 && Near(a, b, e)
    ensures Near(f * a, f * b, e * f)
  {
    ProductNonNegative(f, a - b + e);
    ProductNonNegative(f, e - (a - b));
  }

  lemma ProductNonNegative(x: real, y: real)
    requires x >= 0.0 && y >= 0.0
    ensures x * y >= 0.0
  {
  }

  ghost function ExactFees(fee: real, entry: real, exit: real, quantity: real): real {
    fee * (entry * quantity) + fee * (exit * quantity)
  }

  lemma FeeError(cfg: Config, p: Position, exitPrice: Decimal)
    requires Val(cfg.feeRate) >= 0.0
    ensures Near(Val(FeeAmount(cfg, p, exitPrice)),
                 ExactFees(Val(cfg.feeRate), Val(p.entryPrice), Val(exitPrice), Val(p.quantity)),
                   0.01 + 0.01 * Val(cfg.feeRate))
  {
    hide Round, Multiply, Val, Add, Notional;
    var entryFee := Round(Multiply(cfg.feeRate, Notional(p.entryPrice, p.quantity)), 2);
    var exitFee := Round(Multiply(cfg.feeRate, Notional(exitPrice, p.quantity)), 2);
    OneFeeError(cfg.feeRate, p.entryPrice, p.quantity);
    OneFeeError(cfg.feeRate, exitPrice, p.quantity);
    RoundScale(Multiply(cfg.feeRate, Notional(p.entryPrice, p.quantity)), 2);
    RoundScale(Multiply(cfg.feeRate, Notional(exitPrice, p.quantity)), 2);
    SumOfCents(entryFee, exitFee);
  }

  // ---------------------------------------------------------------- prices move against the trader

  /** Multiplying a non-negative price by at least (at most) one and rounding never lowers (raises) it. */
  lemma ScaledPrice(price: Decimal, factor: Decimal)
    requires price.scale == 8 && price.units >= 0
    ensures Val(factor) >= 1.0 ==> Val(Round(Multiply(price, factor), 8)) >= Val(price)
    ensures Val(factor) <= 1.0 ==> Val(Round(Multiply(price, factor), 8)) <= Val(price)
    ensures Val(factor) >= 0.0 ==> Val(Round(Multiply(price, factor), 8)) >= 0.0
  {
    SignOfValue(price);
    hide Multiply, Val, RoundedDivision;
    var product, scaled := Multiply(price, factor), Round(Multiply(price, factor), 8);
    MultiplyExact(price, factor);
    assert Round(price, 8) == price;
    RoundScale(product, 8);
    UnitsOrder(scaled, price);
    UnitsOrder(price, scaled);
    var v, f := Val(price), Val(factor);
    if f >= 1.0 { ProductNonNegative(v, f - 1.0); RoundMonotone(price, product, 8); }
    if f <= 1.0 { ProductNonNegative(v, 1.0 - f); RoundMonotone(product, price, 8); }
    if f >= 0.0 {
      ProductNonNegative(v, f);
      SignOfValue(product);
      RoundSign(product, 8);
      SignOfValue(scaled);
    }
  }

  lemma RoundSign(value: Decimal, scale: nat)
    ensures Val(value) >= 0.0 ==> Round(value, scale).units >= 0
    ensures Val(value) <= 0.0 ==> Round(value, scale).units <= 0
  {
    hide *;
    RoundIsNearest(value, scale);
    NearestZero(scale);
    if Val(value) >= 0.0 { NearestMonotone(0.0, Val(value), scale); }
    if Val(value) <= 0.0 { NearestMonotone(Val(value), 0.0, scale); }
  }

  /** A buyer pays at least the market price, a seller gets at most it. */
  ghost predicate Adverse(signal: Side, marketEntry: real, entry: real, marketExit: real, exit: real) {
    if signal.Long? then entry >= marketEntry && exit <= marketExit else entry <= marketEntry && exit >= marketExit
  }

  lemma EntryAdverse(cfg: Config, signal: Side, market: Decimal)
    requires market.scale == 8 && market.units >= 0 && cfg.slippageRate.units >= 0
    ensures var e := EntryPrice(cfg, signal, market);
      && e.scale == 8
      && (if signal.Long? then Val(e) >= Val(market) else Val(e) <= Val(market))
      && (signal.Long? || Val(cfg.slippageRate) <= 1.0 ==> Val(e) >= 0.0)
  {
    SignOfValue(cfg.slippageRate);
    hide Round, Multiply, Plus, Val;
    PlusMinusValue(signal, cfg.slippageRate);
    ScaledPrice(market, Plus(signal, cfg.slippageRate));
    RoundScale(Multiply(market, Plus(signal, cfg.slippageRate)), 8);
  }

  lemma ExitAdverse(cfg: Config, p: Position, market: Decimal)
    requires market.scale == 8 && market.units >= 0 && cfg.slippageRate.units >= 0
    ensures var x := ExitPrice(cfg, p, market);
      && x.scale == 8
      && (if p.signal.Long? then Val(x) <= Val(market) else Val(x) >= Val(market))
      && (p.signal.Short? || Val(cfg.slippageRate) <= 1.0 ==> Val(x) >= 0.0)
  {
    SignOfValue(cfg.slippageRate);
    hide Round, Multiply, Minus, Val;
    PlusMinusValue(p.signal, cfg.slippageRate);
    ScaledPrice(market, Minus(p.signal, cfg.slippageRate));
    RoundScale(Multiply(market, Minus(p.signal, cfg.slippageRate)), 8);
  }

  // ---------------------------------------------------------------- profit

  /** What an unrounded book would show: price move times quantity, less fees on both notionals. */
  ghost function IdealProfit(signal: Side, entry: real, exit: real, quantity: real, fee: real): real {
    Directed(signal, (exit - entry) * quantity) - fee * ((entry + exit) * quantity)
  }

  lemma ProfitError(cfg: Config, p: Position, sequence: nat, price: Decimal, time: int, reason: ExitReason)
    requires Sound(cfg) && MakeTrade(cfg, p, sequence, price, time, reason).Success?
    requires price.scale == 8 && price.units >= 0
    requires if p.signal.Long? then Val(p.entryPrice) >= Val(p.marketEntryPrice)
      else Val(p.entryPrice) <= Val(p.marketEntryPrice)
    ensures var t := MakeTrade(cfg, p, sequence, price, time, reason).value;
      Near(Val(t.profit), IdealProfit(p.signal, Val(p.entryPrice), Val(t.exitPrice), Val(p.quantity), Val(cfg.feeRate)),
           0.025 + 0.01 * Val(cfg.feeRate))
  {
    hide Round, Divide, Subtract, Add, Multiply, GrossProfit, SlippageAmount, FeeAmount, ExitPrice, Notional,
      ValidCandles, IdealProfit, ExactGross, ExactSlippage, ExactFees;
    SignOfValue(cfg.feeRate);
    hide Val;
    var exitPrice := ExitPrice(cfg, p, price);
    var g, s, f := GrossProfit(p, price), SlippageAmount(p, price, exitPrice), FeeAmount(cfg, p, exitPrice);
    AmountScales(cfg, p, price, exitPrice);
    CentDifference(g, s, f);
    GrossError(p, price);
    SlippageError(p, price, exitPrice);
    FeeError(cfg, p, exitPrice);
    ExitAdverse(cfg, p, price);
    Combine(p.signal, Val(p.marketEntryPrice), Val(p.entryPrice), Val(price), Val(exitPrice), Val(p.quantity),
      Val(cfg.feeRate), Val(g), Val(s), Val(f));
  }

  lemma CentDifference(a: Decimal, b: Decimal, c: Decimal)
    requires a.scale == 2 == b.scale && c.scale == 2
    ensures Val(Round(Subtract(Subtract(a, b), c), 2)) == Val(a) - Val(b) - Val(c)
  {
    hide Round, Subtract;
    RoundDifference(a, b, c, 2);
    TenTwo();
    hide Ten;
  }

  lemma Combine(signal: Side, me: real, e: real, mx: real, x: real, q: real, f: real, g: real, s: real, fee: real)
    requires Adverse(signal, me, e, mx, x)
    requires Near(g, ExactGross(signal, me, mx, q), 0.005)
    requires Near(s, ExactSlippage(me, e, mx, x, q), 0.01)
    requires Near(fee, ExactFees(f, e, x, q), 0.01 + 0.01 * f)
    ensures Near(g - s - fee, IdealProfit(signal, e, x, q, f), 0.025 + 0.01 * f)
  {
    IdealParts(signal, me, e, mx, x, q, f);
    hide ExactGross, ExactSlippage, ExactFees, IdealProfit;
  }

  /** With adverse fills, slippage is exactly what separates the market move from the filled move. */
  lemma IdealParts(signal: Side, me: real, e: real, mx: real, x: real, q: real, f: real)
    requires Adverse(signal, me, e, mx, x)
    ensures ExactGross(signal, me, mx, q) - ExactSlippage(me, e, mx, x, q) - ExactFees(f, e, x, q)
      == IdealProfit(signal, e, x, q, f)
  {
    assert f * ((e + x) * q) == f * (e * q) + f * (x * q);
    if signal.Long? {
      assert (mx - me) * q - (e - me) * q - (mx - x) * q == (x - e) * q;
    } else {
      assert (mx - me) * q + (me - e) * q + (x - mx) * q == (x - e) * q;
    }
  }

  // ---------------------------------------------------------------- sizing

  lemma UnitCostValue(cfg: Config, entryPrice: Decimal)
    ensures Val(UnitCost(cfg, entryPrice)) == Val(entryPrice) * (1.0 + Val(cfg.feeRate))
  {
    hide Add, Multiply, Val, FromInteger;
    ValueOfOne();
    AddExact(FromInteger(1), cfg.feeRate);
    MultiplyExact(entryPrice, Add(FromInteger(1), cfg.feeRate));
  }

  /** Rounding the quantity to eight digits can overspend by at most half a unit in the eighth digit. */
  lemma SizingError(equity: Decimal, unitCost: Decimal)
    requires unitCost.units > 0
    ensures Near(Val(Divide(equity, unitCost, 8)) * Val(unitCost), Val(equity), 0.000000005 * Val(unitCost))
    ensures Divide(equity, unitCost, 8).units > 0 ==> equity.units > 0
  {
    SignOfValue(unitCost);
    var k := Val(equity) / Val(unitCost);
    assert k * Val(unitCost) == Val(equity);
    SizingAt(equity, unitCost, k);
    hide *;
  }

  lemma SizingAt(equity: Decimal, unitCost: Decimal, k: real)
    requires Val(unitCost) > 0.0 && unitCost.units > 0 && k * Val(unitCost) == Val(equity)
    ensures Near(Val(Divide(equity, unitCost, 8)) * Val(unitCost), Val(equity), 0.000000005 * Val(unitCost))
    ensures Divide(equity, unitCost, 8).units > 0 ==> equity.units > 0
  {
    SignOfValue(equity);
    hide Divide, Val, Nearest;
    DivideError(equity, unitCost, 8, k);
    DivideIsNearest(equity, unitCost, 8, k);
    TenEight();
    SpendError(Val(Divide(equity, unitCost, 8)), k, Val(unitCost), Val(equity));
    if equity.units <= 0 {
      if k > 0.0 { ProductSign(k, Val(unitCost)); }
      NearestMonotone(k, 0.0, 8);
      NearestZero(8);
    }
  }

  lemma SpendError(q: real, k: real, u: real, e: real)
    requires u > 0.0 && k * u == e && -0.5 <= (q - k) * 100000000.0 <= 0.5
    ensures Near(q * u, e, 0.000000005 * u)
  {
    ScaleNear(u, q, k, 0.000000005);
  }

  // ---------------------------------------------------------------- positions

  lemma EnteredPrices(cfg: Config, p: Position)
    requires Sound(cfg) && Entered(cfg, p)
    ensures p.marketEntryPrice.scale == 8 && p.marketEntryPrice.units >= 0
    ensures p.entryPrice.scale == 8 && p.quantity.units > 0
    ensures if p.signal.Long? then Val(p.entryPrice) >= Val(p.marketEntryPrice)
      else Val(p.entryPrice) <= Val(p.marketEntryPrice)
    ensures p.quantity == Divide(p.equityBeforeTrade, UnitCost(cfg, p.entryPrice), 8)
    ensures p.signal.Long? || Val(cfg.slippageRate) <= 1.0 ==>
      Val(p.entryPrice) >= 0.0 && UnitCost(cfg, p.entryPrice).units > 0
  {
    hide MakePosition, Round, Divide, EntryPrice, UnitCost, StopPrice, TakePrice, PositivePercent, Val;
    var c := cfg.candles[p.entryIndex];
    assert ValidCandle(c, cfg.input);
    MakePositionCopies(cfg, p.equityBeforeTrade, ActionOf(p.signal), c, p.entryIndex);
    SignOfValue(c.open);
    RoundSign(c.open, 8);
    RoundScale(c.open, 8);
    EntryAdverse(cfg, p.signal, p.marketEntryPrice);
    if Val(p.entryPrice) >= 0.0 {
      SignOfValue(cfg.feeRate);
      UnitCostValue(cfg, p.entryPrice);
      SignOfValue(UnitCost(cfg, p.entryPrice));
      ProductNonNegative(Val(p.entryPrice), 1.0 + Val(cfg.feeRate));
    }
  }

  lemma StopAndTakeScales(cfg: Config, p: Position)
    requires Entered(cfg, p)
    ensures p.stopLoss.Some? ==> p.stopLoss.value.scale == 8 && p.stopLoss.value.units > 0
    ensures p.takeProfit.Some? ==> p.takeProfit.value.scale == 8 && p.takeProfit.value.units > 0
  {
    hide MakePosition, RoundedDivision, Divide, EntryPrice, UnitCost, Minus, Plus, Multiply;
    MakePositionCopies(cfg, p.equityBeforeTrade, ActionOf(p.signal), cfg.candles[p.entryIndex], p.entryIndex);
  }

  lemma CandlePriceRounded(cfg: Config, x: nat)
    requires Sound(cfg) && x < |cfg.candles|
    ensures var c := cfg.candles[x];
      && Round(c.open, 8).units >= 0 && Round(c.open, 8).scale == 8
      && Round(c.close, 8).units >= 0 && Round(c.close, 8).scale == 8
  {
    hide Round, Divide, PositivePercent, Val;
    var c := cfg.candles[x];
    assert ValidCandle(c, cfg.input);
    SignOfValue(c.open);
    RoundSign(c.open, 8);
    RoundScale(c.open, 8);
    SignOfValue(c.close);
    RoundSign(c.close, 8);
    RoundScale(c.close, 8);
  }

  lemma ExitMarketPrice(cfg: Config, p: Position, x: nat, price: Decimal, time: int, reason: ExitReason)
    requires Sound(cfg) && Entered(cfg, p) && x < |cfg.candles| && ExitsAt(cfg, p, x, price, time, reason)
    ensures price.scale == 8 && price.units >= 0
  {
    StopAndTakeScales(cfg, p);
    CandlePriceRounded(cfg, x);
    hide Sound, Entered, Round;
  }

  // ---------------------------------------------------------------- every trade of a backtest

  /** A quantity at a price with its fee costs at most the equity, but for half a unit of its eighth digit. */
  ghost predicate Affords(q: real, e: real, f: real, equity: real) {
    q * (e * (1.0 + f)) <= equity + 0.000000005 * (e * (1.0 + f))
  }

  /** The profit, sizing and loss bounds of one trade. */
  ghost predicate Bounded(cfg: Config, t: Trade) {
    var f, e, x, q := Val(cfg.feeRate), Val(t.entryPrice), Val(t.exitPrice), Val(t.quantity);
    && Near(Val(t.profit), IdealProfit(t.signal, e, x, q, f), 0.025 + 0.01 * f)
    && (t.signal.Long? || Val(cfg.slippageRate) <= 1.0 ==>
          t.equityBeforeTrade.units > 0 && Affords(q, e, f, Val(t.equityBeforeTrade)))
    && (t.signal.Long? && Val(cfg.slippageRate) <= 1.0 && f <= 1.0 ==>
          Val(t.equityAfterTrade) >= -(0.025 + 0.01 * f + 0.000000005 * (e * (1.0 + f))))
  }

  lemma Sized(cfg: Config, equity: Decimal, entryPrice: Decimal)
    requires UnitCost(cfg, entryPrice).units > 0
    ensures Affords(Val(Divide(equity, UnitCost(cfg, entryPrice), 8)), Val(entryPrice), Val(cfg.feeRate), Val(equity))
    ensures Divide(equity, UnitCost(cfg, entryPrice), 8).units > 0 ==> equity.units > 0
  {
    hide Val, Divide, UnitCost;
    UnitCostValue(cfg, entryPrice);
    SizingError(equity, UnitCost(cfg, entryPrice));
    assert Val(Divide(equity, UnitCost(cfg, entryPrice), 8)) * Val(UnitCost(cfg, entryPrice))
        <= Val(equity) + 0.000000005 * Val(UnitCost(cfg, entryPrice));
  }

  lemma RoundTripBounded(cfg: Config, t: Trade, sequence: nat, p: Position, x: nat)
    requires Sound(cfg) && RoundTrip(cfg, t, sequence, p, x) && p.equityBeforeTrade.scale == 2
    ensures Bounded(cfg, t)
  {
    hide Sound, Entered, ExitsAt, MakeTrade, Val, Divide, UnitCost, IdealProfit, ExitPrice, Affords;
    EnteredPrices(cfg, p);
    ExitMarketPrice(cfg, p, x, t.marketExitPrice, t.exitTime, t.exitReason);
    MakeTradeCopies(cfg, p, sequence, t.marketExitPrice, t.exitTime, t.exitReason);
    ProfitError(cfg, p, sequence, t.marketExitPrice, t.exitTime, t.exitReason);
    if p.signal.Long? || Val(cfg.slippageRate) <= 1.0 { Sized(cfg, p.equityBeforeTrade, p.entryPrice); }
    if p.signal.Long? && Val(cfg.slippageRate) <= 1.0 && Val(cfg.feeRate) <= 1.0 {
      SoundSigns(cfg);
      ExitAdverse(cfg, p, t.marketExitPrice);
      SignOfValue(p.quantity);
      SignOfValue(cfg.feeRate);
      TradeConserves(cfg, p, sequence, t.marketExitPrice, t.exitTime, t.exitReason);
      EquityValue(t);
      LongLoss(Val(t.equityBeforeTrade), Val(t.equityAfterTrade), Val(t.profit), Val(t.entryPrice), Val(t.exitPrice),
        Val(t.quantity), Val(cfg.feeRate));
    }
  }

  lemma SoundSigns(cfg: Config)
    requires Sound(cfg)
    ensures cfg.slippageRate.units >= 0 && cfg.feeRate.units >= 0
  {
  }

  lemma EquityValue(t: Trade)
    requires t.profit.scale == 2 && t.equityBeforeTrade.scale == 2
    requires t.equityAfterTrade == Decimal(t.equityBeforeTrade.units + t.profit.units, 2)
    ensures Val(t.equityAfterTrade) == Val(t.equityBeforeTrade) + Val(t.profit)
  {
    FractionSum(t.equityBeforeTrade.units as real, t.profit.units as real, Ten(2));
  }

  lemma LongLoss(before: real, after: real, profit: real, e: real, x: real, q: real, f: real)
    requires after == before + profit && x >= 0.0 && q >= 0.0 && 0.0 <= f <= 1.0
    requires Near(profit, IdealProfit(Long, e, x, q, f), 0.025 + 0.01 * f)
    requires Affords(q, e, f, before)
    ensures after >= -(0.025 + 0.01 * f + 0.000000005 * (e * (1.0 + f)))
  {
    ProductNonNegative(x, q);
    ProductNonNegative(x * q, 1.0 - f);
    assert IdealProfit(Long, e, x, q, f) == (x * q) * (1.0 - f) - q * (e * (1.0 + f));
  }

  /** Every trade of every successful backtest meets the bounds. */
  lemma TradesBounded(input: Input, j: nat)
    requires Simulate(input).Success? && j < |Simulate(input).value.trades|
    ensures Bounded(Prepare(input).value, Simulate(input).value.trades[j])
  {
    hide Prepare, Replay, RoundTrip, Bounded, Sound;
    var cfg := Prepare(input).value;
    var trades := Replay(cfg).value.trades;
    PrepareSound(input);
    PrepareIncreasing(input);
    ReplayLedger(cfg);
    LedgerPrefix(cfg, trades, j);
    LedgerConserves(cfg, trades[..j]);
    hide Ledger, EquityAfter;
    var p, x :| RoundTrip(cfg, trades[j], j + 1, p, x);
    RoundTripEquity(cfg, trades[j], j + 1, p, x);
    RoundTripBounded(cfg, trades[j], j + 1, p, x);
  }

  lemma RoundTripEquity(cfg: Config, t: Trade, sequence: nat, p: Position, x: nat)
    requires RoundTrip(cfg, t, sequence, p, x)
    ensures t.equityBeforeTrade == p.equityBeforeTrade
  {
    hide MakeTrade;
    MakeTradeCopies(cfg, p, sequence, t.marketExitPrice, t.exitTime, t.exitReason);
  }

  /** Slippage of at most 10000 basis points is a rate of at most one. */
  lemma SlippageRateAtMostOne(input: Input)
    requires Prepare(input).Success?
    requires Val(DefaultTo(input.slippageBps, FromInteger(5))) <= 10000.0
    ensures Val(Prepare(input).value.slippageRate) <= 1.0
  {
    hide SortByTime, ValidCandles, Divide, Val;
    BasisPoints(DefaultTo(input.slippageBps, FromInteger(5)));
  }

  lemma BasisPoints(bps: Decimal)
    requires Val(bps) <= 10000.0
    ensures Val(Divide(bps, FromInteger(10_000), 20)) <= 1.0
  {
    assert Val(FromInteger(10_000)) == 10000.0 by { assert PowerOfTen(0) == 1; }
    hide *;
    BasisPointsAt(bps, Val(bps) / 10000.0);
  }

  lemma BasisPointsAt(bps: Decimal, q: real)
    requires q <= 1.0 && q * Val(FromInteger(10_000)) == Val(bps)
    ensures Val(Divide(bps, FromInteger(10_000), 20)) <= 1.0
  {
    hide Divide, Val, Ten, PowerOfTen, Nearest;
    var one, rate := Decimal(PowerOfTen(20), 20), Divide(bps, FromInteger(10_000), 20);
    DivideIsNearest(bps, FromInteger(10_000), 20, q);
    WholeUnits(20);
    NearestMonotone(q, 1.0, 20);
    NearestOfUnits(one);
    UnitsOrder(one, rate);
  }

  lemma WholeUnits(scale: nat)
    ensures Val(Decimal(PowerOfTen(scale), scale)) == 1.0
  {
    hide Val;
    ValueOfOne();
    RescaleExact(FromInteger(1), scale);
  }
}
