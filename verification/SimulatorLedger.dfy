/** What every replay keeps: each trade is a complete round trip, and the trades chain in time and in equity. */
module SimulatorLedger {
  import opened Wrappers
  import opened Decimals
  import opened Simulator

  function ActionOf(signal: Side): Action {
    if signal.Long? then Buy else Sell
  }

  /** `p` is the position that opening at candle `p.entryIndex` with its recorded equity creates. */
  ghost predicate Entered(cfg: Config, p: Position) {
    && cfg.warmup < p.entryIndex < |cfg.candles| - 1
    && MakePosition(cfg, p.equityBeforeTrade, ActionOf(p.signal), cfg.candles[p.entryIndex], p.entryIndex)
      == Success(Some(p))
  }

  /** Why, when and at what market price a position may leave at candle `x`. */
  ghost predicate ExitsAt(cfg: Config, p: Position, x: nat, price: Decimal, time: int, reason: ExitReason)
    requires x < |cfg.candles|
  {
    var c := cfg.candles[x];
    match reason
    case StopLoss => StopTriggered(p, c) && price == StopFill(p, c) && time == c.timestamp
    case TakeProfit => !StopTriggered(p, c) && TakeTriggered(p, c) && price == TakeFill(p, c) && time == c.timestamp
    case StrategyClose => price == Round(c.open, 8) && time == c.timestamp
    case RangeEnd =>
      x == |cfg.candles| - 1 && price == Round(c.close, 8) && time == c.timestamp + Milliseconds(cfg.input.timeframe)
  }

  ghost predicate RoundTrip(cfg: Config, t: Trade, sequence: nat, p: Position, x: nat) {
    && Entered(cfg, p)
    && p.entryIndex < x < |cfg.candles|
    && ExitsAt(cfg, p, x, t.marketExitPrice, t.exitTime, t.exitReason)
    && MakeTrade(cfg, p, sequence, t.marketExitPrice, t.exitTime, t.exitReason) == Success(t)
  }

  ghost predicate Explained(cfg: Config, t: Trade, sequence: nat) {
    exists p, x :: RoundTrip(cfg, t, sequence, p, x)
  }

  function EquityAfter(cfg: Config, trades: seq<Trade>): Decimal {
    if trades == [] then Round(cfg.input.initialCapital, 2) else trades[|trades| - 1].equityAfterTrade
  }

  ghost predicate Ledger(cfg: Config, trades: seq<Trade>) {
    && (forall j | 0 <= j < |trades| :: Explained(cfg, trades[j], j + 1))
    && (forall j | 0 <= j < |trades| :: trades[j].equityBeforeTrade == EquityAfter(cfg, trades[..j]))
    && (forall j | 0 <= j < |trades| - 1 :: trades[j].exitTime <= trades[j + 1].entryTime)
    && (forall j | 0 <= j < |trades| - 1 :: trades[j].exitReason != RangeEnd)
  }

  ghost predicate ExitedBy(trades: seq<Trade>, time: int) {
    trades != [] ==> trades[|trades| - 1].exitTime <= time
  }

  /** The loop invariant: `n` candles have been processed. */
  ghost predicate Inv(cfg: Config, st: State, n: nat) {
    && n <= |cfg.candles|
    && st.sequence == |st.trades|
    && st.equity == EquityAfter(cfg, st.trades)
    && Ledger(cfg, st.trades)
    && (st.trades != [] ==> n > 0 && st.trades[|st.trades| - 1].exitReason != RangeEnd)
    && (n > 0 ==> ExitedBy(st.trades, cfg.candles[n - 1].timestamp))
    && (st.scheduled.Some? ==> cfg.warmup < n)
    && (st.position.Some? ==>
          var p := st.position.value;
          Entered(cfg, p) && p.entryIndex < n && p.equityBeforeTrade == st.equity && ExitedBy(st.trades, p.entryTime))
  }

  /** What the checks before the loop establish. */
  ghost predicate Sound(cfg: Config) {
    && ValidCandles(cfg.candles, cfg.input)
    && cfg.feeRate.units >= 0 && cfg.slippageRate.units >= 0
    && cfg.feeRate.scale == 20 && cfg.slippageRate.scale == 20
    && PositivePercent(cfg.input.stopLossPercent) && PositivePercent(cfg.input.takeProfitPercent)
  }

  lemma DivideSign(left: Decimal, right: Decimal, scale: nat)
    requires left.units >= 0 && right.units > 0
    ensures Divide(left, right, scale).units >= 0
  {
    var e := right.scale + scale - left.scale;
    if e >= 0 {
      assert left.units * PowerOfTen(e) >= 0;
      RoundedDivisionSign(left.units * PowerOfTen(e), right.units);
    } else {
      assert right.units * PowerOfTen(-e) > 0;
      RoundedDivisionSign(left.units, right.units * PowerOfTen(-e));
    }
    hide RoundedDivision;
  }

  lemma RoundedDivisionSign(n: int, d: int)
    requires n >= 0 && d > 0
    ensures RoundedDivision(n, d) >= 0
  {
  }

  lemma PrepareSound(input: Input)
    requires Prepare(input).Success?
    ensures Prepare(input).value.input == input
    ensures Sound(Prepare(input).value)
  {
    DivideSign(input.feeRatePercent, FromInteger(100), 20);
    DivideSign(DefaultTo(input.slippageBps, FromInteger(5)), FromInteger(10_000), 20);
    hide RoundedDivision, ValidCandles, SortByTime;
  }

  lemma InvLater(cfg: Config, st: State, n: nat)
    requires Increasing(cfg.candles) && Inv(cfg, st, n) && n < |cfg.candles|
    ensures Inv(cfg, st, n + 1)
  {
    hide Entered, Ledger, EquityAfter;
  }

  /** Closing the open position at candle `x` extends the ledger by one round trip. */
  lemma CloseKeepsLedger(cfg: Config, st: State, n: nat, x: nat, price: Decimal, time: int, reason: ExitReason)
    requires Inv(cfg, st, n) && st.position.Some?
    requires st.position.value.entryIndex < x < |cfg.candles|
    requires ExitsAt(cfg, st.position.value, x, price, time, reason)
    requires Close(cfg, st, price, time, reason).Success?
    ensures var after := Close(cfg, st, price, time, reason).value;
      && after.sequence == |after.trades| && after.equity == EquityAfter(cfg, after.trades)
      && Ledger(cfg, after.trades)
      && after.position.None? && after.scheduled == st.scheduled
      && after.trades != [] && after.trades[|after.trades| - 1].exitTime == time
      && after.trades[|after.trades| - 1].exitReason == reason
  {
    hide MakePosition, MakeTrade, Entered, ExitsAt, Round;
    var p, k := st.position.value, |st.trades|;
    var t := MakeTrade(cfg, p, k + 1, price, time, reason).value;
    MakeTradeCopies(cfg, p, k + 1, price, time, reason);
    assert RoundTrip(cfg, t, k + 1, p, x);
    LedgerExtends(cfg, st.trades, t);
  }

  lemma LedgerExtends(cfg: Config, trades: seq<Trade>, t: Trade)
    requires Ledger(cfg, trades) && Explained(cfg, t, |trades| + 1)
    requires t.equityBeforeTrade == EquityAfter(cfg, trades) && ExitedBy(trades, t.entryTime)
    requires trades != [] ==> trades[|trades| - 1].exitReason != RangeEnd
    ensures Ledger(cfg, trades + [t])
  {
    hide Explained, EquityAfter;
    var after := trades + [t];
    forall j | 0 <= j < |after|
      ensures Explained(cfg, after[j], j + 1)
      ensures after[j].equityBeforeTrade == EquityAfter(cfg, after[..j])
    {
      if j < |trades| {
        assert after[..j] == trades[..j];
        assert after[j] == trades[j];
      } else {
        assert after[..j] == trades;
      }
    }
    forall j | 0 <= j < |after| - 1
      ensures after[j].exitTime <= after[j + 1].entryTime && after[j].exitReason != RangeEnd
    {
      assert after[j] == trades[j];
      if j + 1 < |trades| { assert after[j + 1] == trades[j + 1]; }
    }
  }

  lemma MakeTradeCopies(cfg: Config, p: Position, sequence: nat, price: Decimal, time: int, reason: ExitReason)
    requires MakeTrade(cfg, p, sequence, price, time, reason).Success?
    ensures var t := MakeTrade(cfg, p, sequence, price, time, reason).value;
      && t.sequence == sequence && t.id == TradeId(cfg.input.attemptId, sequence)
      && t.entryTime == p.entryTime && t.exitTime == time && t.exitReason == reason && t.marketExitPrice == price
      && t.equityBeforeTrade == p.equityBeforeTrade && t.signal == p.signal
      && t.marketEntryPrice == p.marketEntryPrice && t.entryPrice == p.entryPrice && t.quantity == p.quantity
      && t.stopLoss == p.stopLoss && t.takeProfit == p.takeProfit
      && t.exitPrice == ExitPrice(cfg, p, price)
  {
    hide Round, Divide;
  }

  lemma OpenKeeps(cfg: Config, st: State, action: Action, index: nat)
    requires Inv(cfg, st, index + 1) && st.position.None?
    requires cfg.warmup < index < |cfg.candles| - 1
    requires Open(cfg, st, action, cfg.candles[index], index).Success?
    ensures Inv(cfg, Open(cfg, st, action, cfg.candles[index], index).value, index + 1)
  {
    hide MakePosition, Ledger, EquityAfter;
    var entered := MakePosition(cfg, st.equity, action, cfg.candles[index], index);
    if entered.value.Some? {
      MakePositionCopies(cfg, st.equity, action, cfg.candles[index], index);
      assert ActionOf(SideOf(action)) == action;
    }
  }

  lemma MakePositionCopies(cfg: Config, equity: Decimal, action: Action, candle: Candle, index: nat)
    requires MakePosition(cfg, equity, action, candle, index).Success?
      && MakePosition(cfg, equity, action, candle, index).value.Some?
    ensures var p := MakePosition(cfg, equity, action, candle, index).value.value;
      && p.signal == SideOf(action) && p.entryIndex == index && p.entryTime == candle.timestamp
      && p.equityBeforeTrade == equity && p.quantity.units > 0
      && p.marketEntryPrice == Round(candle.open, 8)
      && p.entryPrice == EntryPrice(cfg, p.signal, p.marketEntryPrice)
      && UnitCost(cfg, p.entryPrice).units != 0
      && p.quantity == Divide(equity, UnitCost(cfg, p.entryPrice), 8)
      && p.stopLoss == StopPrice(cfg, p.signal, p.marketEntryPrice) && PositivePrice(p.stopLoss)
      && p.takeProfit == TakePrice(cfg, p.signal, p.marketEntryPrice) && PositivePrice(p.takeProfit)
  {
    hide Round, Divide, EntryPrice, UnitCost, StopPrice, TakePrice;
  }

  lemma FillKeeps(cfg: Config, st: State, index: nat)
    requires Increasing(cfg.candles) && Inv(cfg, st, index) && index < |cfg.candles|
    requires Fill(cfg, st, index).Success?
    ensures Inv(cfg, Fill(cfg, st, index).value, index + 1)
    ensures Fill(cfg, st, index).value.scheduled.None?
  {
    hide Close, Open, Ledger, Entered, EquityAfter, Round;
    InvLater(cfg, st, index);
    if st.scheduled.Some? {
      var candle, action := cfg.candles[index], st.scheduled.value;
      var closed := st;
      if st.position.Some? && st.position.value.signal != SideOf(action) {
        var price := Round(candle.open, 8);
        CloseKeepsLedger(cfg, st, index, index, price, candle.timestamp, StrategyClose);
        closed := Close(cfg, st, price, candle.timestamp, StrategyClose).value;
      }
      assert Inv(cfg, closed, index + 1);
      if closed.position.None? && index < |cfg.candles| - 1 {
        OpenKeeps(cfg, closed, action, index);
        InvUnscheduled(cfg, Open(cfg, closed, action, candle, index).value, index + 1);
      } else {
        InvUnscheduled(cfg, closed, index + 1);
      }
      hide Inv;
    }
  }

  lemma InvUnscheduled(cfg: Config, st: State, n: nat)
    requires Inv(cfg, st, n)
    ensures Inv(cfg, st.(scheduled := None), n)
  {
    hide Entered, Ledger, EquityAfter;
  }

  lemma ProtectKeeps(cfg: Config, st: State, index: nat)
    requires Inv(cfg, st, index + 1) && st.scheduled.None? && index < |cfg.candles|
    requires Protect(cfg, st, index).Success?
    ensures Inv(cfg, Protect(cfg, st, index).value, index + 1)
    ensures Protect(cfg, st, index).value.scheduled.None?
  {
    hide Close, Ledger, Entered, EquityAfter, StopFill, TakeFill, Round;
    if st.position.Some? && st.position.value.entryIndex < index {
      var p, c := st.position.value, cfg.candles[index];
      if StopTriggered(p, c) {
        CloseKeepsLedger(cfg, st, index + 1, index, StopFill(p, c), c.timestamp, StopLoss);
      } else if TakeTriggered(p, c) {
        CloseKeepsLedger(cfg, st, index + 1, index, TakeFill(p, c), c.timestamp, TakeProfit);
      }
    }
  }

  lemma DecideKeeps(cfg: Config, st: State, index: nat)
    requires Inv(cfg, st, index + 1) && st.scheduled.None? && index < |cfg.candles|
    requires Decide(cfg, st, index).Success?
    ensures Inv(cfg, Decide(cfg, st, index).value, index + 1)
  {
    hide Ledger, Entered, EquityAfter, ContextAt;
  }

  lemma StepKeeps(cfg: Config, st: State, index: nat)
    requires Increasing(cfg.candles) && Inv(cfg, st, index) && index < |cfg.candles|
    requires StepCandle(cfg, st, index).Success?
    ensures Inv(cfg, StepCandle(cfg, st, index).value, index + 1)
  {
    hide Fill, Protect, Decide, Inv;
    FillKeeps(cfg, st, index);
    ProtectKeeps(cfg, Fill(cfg, st, index).value, index);
    DecideKeeps(cfg, Protect(cfg, Fill(cfg, st, index).value, index).value, index);
  }

  lemma {:induction false} RunKeeps(cfg: Config, n: nat)
    requires Increasing(cfg.candles) && n <= |cfg.candles| && Run(cfg, n).Success?
    ensures Inv(cfg, Run(cfg, n).value, n)
  {
    hide StepCandle, Round;
    if n == 0 {
      assert Ledger(cfg, []);
    } else {
      hide Inv;
      RunKeeps(cfg, n - 1);
      StepKeeps(cfg, Run(cfg, n - 1).value, n - 1);
    }
  }

  /** Every successful replay ends flat, with a ledger of complete, chained round trips. */
  lemma ReplayLedger(cfg: Config)
    requires Increasing(cfg.candles) && Replay(cfg).Success?
    ensures var st := Replay(cfg).value;
      st.position.None? && Ledger(cfg, st.trades) && st.sequence == |st.trades|
        && st.equity == EquityAfter(cfg, st.trades)
  {
    hide Run, Close, Ledger, MakePosition, EquityAfter, Round;
    var n := |cfg.candles|;
    RunKeeps(cfg, n);
    var st := Run(cfg, n).value;
    if st.position.Some? {
      var last := cfg.candles[n - 1];
      CloseKeepsLedger(cfg, st, n, n - 1, Round(last.close, 8), last.timestamp + Milliseconds(cfg.input.timeframe),
        RangeEnd);
    }
  }
}
