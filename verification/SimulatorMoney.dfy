/** Conservation in cents, and how far rounding can move a trade's profit. */
module SimulatorMoney {
  import opened Wrappers
  import opened Decimals
  import opened Simulator
  import opened SimulatorLedger

  // ---------------------------------------------------------------- rounding to cents and to eight digits

  lemma TenTwo()
    ensures Ten(2) == 100.0
  {
    assert PowerOfTen(2) == 10 * PowerOfTen(1);
  }

  lemma TenEight()
    ensures Ten(8) == 100000000.0
  {
    assert PowerOfTen(4) == 10 * PowerOfTen(3) == 100 * PowerOfTen(2) == 1000 * PowerOfTen(1);
    assert PowerOfTen(8) == 10 * PowerOfTen(7) == 100 * PowerOfTen(6) == 1000 * PowerOfTen(5);
  }

  /** `Near(a, b, e)`: the two numbers are at most `e` apart. */
  predicate Near(a: real, b: real, e: real) {
    -e <= a - b <= e
  }

  lemma CentError(value: Decimal)
    ensures Near(Val(Round(value, 2)), Val(value), 0.005)
  {
    RoundError(value, 2);
    TenTwo();
    hide Round, Val, Ten;
  }

  /** A number of whole units at the requested scale is not moved by rounding. */
  lemma RoundWhole(value: Decimal, scale: nat, k: int)
    requires Val(value) * Ten(scale) == k as real
    ensures Round(value, scale) == Decimal(k, scale)
  {
    hide Round, Val, Ten;
    RoundIsNearest(value, scale);
  }

  lemma RoundSum(a: Decimal, b: Decimal, scale: nat)
    requires a.scale == scale == b.scale
    ensures Round(Add(a, b), scale) == Decimal(a.units + b.units, scale)
  {
    hide *;
    AddExact(a, b);
    ScaledValue(a);
    ScaledValue(b);
    Distribute(Val(a), Val(b), Ten(scale), Val(Add(a, b)));
    RoundWhole(Add(a, b), scale, a.units + b.units);
  }

  lemma Distribute(x: real, y: real, t: real, sum: real)
    requires sum == x + y
    ensures sum * t == x * t + y * t
  {
  }

  lemma RoundDifference(a: Decimal, b: Decimal, c: Decimal, scale: nat)
    requires a.scale == scale == b.scale && c.scale == scale
    ensures Round(Subtract(Subtract(a, b), c), scale) == Decimal(a.units - b.units - c.units, scale)
  {
    hide *;
    SubtractExact(a, b);
    SubtractExact(Subtract(a, b), c);
    ScaledValue(a);
    ScaledValue(b);
    ScaledValue(c);
    var d := Subtract(Subtract(a, b), c);
    assert Val(a) == Val(d) + (Val(b) + Val(c));
    Distribute(Val(d), Val(b) + Val(c), Ten(scale), Val(a));
    Distribute(Val(b), Val(c), Ten(scale), Val(b) + Val(c));
    RoundWhole(d, scale, a.units - b.units - c.units);
  }

  lemma RoundScale(value: Decimal, scale: nat)
    ensures Round(value, scale).scale == scale
  {
    hide RoundedDivision;
  }

  // ---------------------------------------------------------------- conservation

  /** One trade's money is exact to the cent. */
  lemma TradeConserves(cfg: Config, p: Position, sequence: nat, price: Decimal, time: int, reason: ExitReason)
    requires p.equityBeforeTrade.scale == 2
    requires MakeTrade(cfg, p, sequence, price, time, reason).Success?
    ensures var t := MakeTrade(cfg, p, sequence, price, time, reason).value;
      && t.profit == Decimal(t.grossProfit.units - t.slippageAmount.units - t.feeAmount.units, 2)
      && t.equityAfterTrade == Decimal(t.equityBeforeTrade.units + t.profit.units, 2)
  {
    hide Round, Divide, Subtract, Add, Multiply;
    var exitPrice := ExitPrice(cfg, p, price);
    var g, s, f := GrossProfit(p, price), SlippageAmount(p, price, exitPrice), FeeAmount(cfg, p, exitPrice);
    AmountScales(cfg, p, price, exitPrice);
    hide GrossProfit, SlippageAmount, FeeAmount, ExitPrice, Notional;
    RoundDifference(g, s, f, 2);
    RoundSum(p.equityBeforeTrade, Round(Subtract(Subtract(g, s), f), 2), 2);
  }

  lemma AmountScales(cfg: Config, p: Position, price: Decimal, exitPrice: Decimal)
    ensures GrossProfit(p, price).scale == 2 && SlippageAmount(p, price, exitPrice).scale == 2
      && FeeAmount(cfg, p, exitPrice).scale == 2
  {
    hide RoundedDivision, Multiply, Add, Subtract, Absolute;
  }

  ghost function ProfitCents(trades: seq<Trade>): int {
    if trades == [] then 0 else ProfitCents(trades[..|trades| - 1]) + trades[|trades| - 1].profit.units
  }

  lemma {:induction false} LedgerConserves(cfg: Config, trades: seq<Trade>)
    requires Ledger(cfg, trades)
    ensures EquityAfter(cfg, trades).scale == 2
    ensures EquityAfter(cfg, trades).units == Round(cfg.input.initialCapital, 2).units + ProfitCents(trades)
    decreases |trades|
  {
    hide Round, MakeTrade;
    if trades == [] {
      RoundScale(cfg.input.initialCapital, 2);
    } else {
      var k := |trades| - 1;
      LedgerPrefix(cfg, trades, k);
      LedgerConserves(cfg, trades[..k]);
      hide Ledger;
      ExplainedConserves(cfg, trades[k], k + 1);
    }
  }

  lemma LedgerPrefix(cfg: Config, trades: seq<Trade>, k: nat)
    requires Ledger(cfg, trades) && k <= |trades|
    ensures Ledger(cfg, trades[..k])
    ensures k < |trades| ==>
      Explained(cfg, trades[k], k + 1) && trades[k].equityBeforeTrade == EquityAfter(cfg, trades[..k])
  {
    hide Explained, EquityAfter;
    forall j | 0 <= j < k
      ensures trades[..k][..j] == trades[..j] && trades[..k][j] == trades[j]
    {
    }
  }

  lemma ExplainedConserves(cfg: Config, t: Trade, sequence: nat)
    requires Explained(cfg, t, sequence) && t.equityBeforeTrade.scale == 2
    ensures t.profit == Decimal(t.grossProfit.units - t.slippageAmount.units - t.feeAmount.units, 2)
    ensures t.equityAfterTrade == Decimal(t.equityBeforeTrade.units + t.profit.units, 2)
  {
    hide MakeTrade;
    var p, x :| RoundTrip(cfg, t, sequence, p, x);
    MakeTradeCopies(cfg, p, sequence, t.marketExitPrice, t.exitTime, t.exitReason);
    TradeConserves(cfg, p, sequence, t.marketExitPrice, t.exitTime, t.exitReason);
  }

  /** Trade `j` books exactly gross less slippage less fees, starting from what its predecessor left. */
  ghost predicate Booked(input: Input, trades: seq<Trade>, j: nat)
    requires j < |trades|
  {
    var t := trades[j];
    && t.profit == Decimal(t.grossProfit.units - t.slippageAmount.units - t.feeAmount.units, 2)
    && t.equityAfterTrade == Decimal(t.equityBeforeTrade.units + t.profit.units, 2)
    && t.equityBeforeTrade == (if j == 0 then Round(input.initialCapital, 2) else trades[j - 1].equityAfterTrade)
  }

  lemma LedgerBooks(cfg: Config, trades: seq<Trade>, j: nat)
    requires Ledger(cfg, trades) && j < |trades|
    ensures Booked(cfg.input, trades, j)
  {
    hide Round, Explained;
    LedgerPrefix(cfg, trades, j);
    LedgerConserves(cfg, trades[..j]);
    hide Ledger;
    ExplainedConserves(cfg, trades[j], j + 1);
  }

  /** Conservation over a whole backtest, exact in cents. */
  lemma MoneyConserved(input: Input)
    requires Simulate(input).Success?
    ensures var trades := Simulate(input).value.trades;
      && Replay(Prepare(input).value).value.equity
        == Decimal(Round(input.initialCapital, 2).units + ProfitCents(trades), 2)
      && forall j | 0 <= j < |trades| :: Booked(input, trades, j)
  {
    hide Prepare, Replay, Round, Ledger, EquityAfter, Booked, Increasing;
    var cfg := Prepare(input).value;
    var trades := Replay(cfg).value.trades;
    PrepareIncreasing(input);
    ReplayLedger(cfg);
    LedgerConserves(cfg, trades);
    forall j | 0 <= j < |trades|
      ensures Booked(input, trades, j)
    {
      LedgerBooks(cfg, trades, j);
    }
  }

  lemma PrepareIncreasing(input: Input)
    requires Prepare(input).Success?
    ensures Prepare(input).value.input == input && Increasing(Prepare(input).value.candles)
  {
    PrepareSound(input);
    hide Prepare, ValidCandle;
  }
}
