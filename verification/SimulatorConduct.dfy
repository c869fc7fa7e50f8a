/**
 * Every opening answers the strategy, and every position is watched: it leaves at the first candle that tells it to,
 * and why.
 */
module SimulatorConduct {
  import opened Wrappers
  import opened Decimals
  import opened Simulator
  import opened SimulatorLedger
  import opened SimulatorMoney
  import opened SimulatorBounds
  import opened SimulatorFills
  import opened SimulatorFigures

  // ---------------------------------------------------------------- what a position should heed

  function Opposite(signal: Side): Side {
    if signal.Long? then Short else Long
  }

  /**
   * What the strategy sees after candle `i`: the candles so far, the last close and the sentiment when that candle
   * closed.
   */
  function Seen(cfg: Config, i: nat): StrategyContext
    requires i < |cfg.candles|
  {
    StrategyContext(
      cfg.input.pair, cfg.input.timeframe,
      seq(i + 1, k requires 0 <= k <= i =>
        StrategyCandle(cfg.candles[k].timestamp, cfg.candles[k].open, cfg.candles[k].high, cfg.candles[k].low,
                       cfg.candles[k].close, cfg.candles[k].volume)),
      cfg.candles[i].close, cfg.input.sentimentAt(cfg.candles[i].timestamp + Milliseconds(cfg.input.timeframe)))
  }

  /** The strategy is asked after every candle from the warmup on, but the last. */
  predicate Asked(cfg: Config, i: nat) {
    cfg.warmup <= i < |cfg.candles| - 1
  }

  /** The side the strategy takes after candle `i`, if it takes one. */
  function Answer(cfg: Config, i: nat): Option<Side> {
    if !Asked(cfg, i) then None
    else match cfg.input.analyze(Seen(cfg, i))
      case Act(Buy) => Some(Long)
      case Act(Sell) => Some(Short)
      case _ => None
  }

  /** The prices of the candle reach the stop. */
  ghost predicate HitsStop(signal: Side, stopLoss: Option<Decimal>, c: Candle) {
    stopLoss.Some? && ReachAgainst(signal, Round(c.low, 8), Round(c.high, 8), stopLoss.value)
  }

  /** The prices of the candle reach the take-profit price. */
  ghost predicate HitsTake(signal: Side, takeProfit: Option<Decimal>, c: Candle) {
    takeProfit.Some? && ReachInFavour(signal, Round(c.low, 8), Round(c.high, 8), takeProfit.value)
  }

  ghost predicate Quiet(signal: Side, stopLoss: Option<Decimal>, takeProfit: Option<Decimal>, c: Candle) {
    !HitsStop(signal, stopLoss, c) && !HitsTake(signal, takeProfit, c)
  }

  /** The strategy asked for the position at candle `e`, and up to candle `n` nothing told it to leave. */
  ghost predicate Undisturbed(cfg: Config, signal: Side, stopLoss: Option<Decimal>, takeProfit: Option<Decimal>,
          e: nat, n: nat)
    requires 0 < e < n <= |cfg.candles|
  {
    && Answer(cfg, e - 1) == Some(signal)
    && (forall k | e < k < n :: Quiet(signal, stopLoss, takeProfit, cfg.candles[k]))
    && (forall k: nat | e <= k < n - 1 :: Answer(cfg, k) != Some(Opposite(signal)))
  }

  /**
   * How a position leaves at candle `x`: the strategy's turn comes first, then the stop, then the take profit, then the
   * end.
   */
  ghost predicate LeavesAt(cfg: Config, signal: Side, stopLoss: Option<Decimal>, takeProfit: Option<Decimal>,
          x: nat, reason: ExitReason, price: Decimal, time: int)
    requires 0 < x < |cfg.candles|
  {
    var c := cfg.candles[x];
    var open, turned := Round(c.open, 8), Answer(cfg, x - 1) == Some(Opposite(signal));
    match reason
    case StrategyClose => turned && price == open && time == c.timestamp
    case StopLoss =>
      && !turned && HitsStop(signal, stopLoss, c) && time == c.timestamp
      && price == if ReachAgainst(signal, open, open, stopLoss.value) then open else stopLoss.value
    case TakeProfit =>
      && !turned && !HitsStop(signal, stopLoss, c) && HitsTake(signal, takeProfit, c) && time == c.timestamp
      && price == if ReachInFavour(signal, open, open, takeProfit.value) then open else takeProfit.value
    case RangeEnd =>
      && !turned && Quiet(signal, stopLoss, takeProfit, c) && x == |cfg.candles| - 1
      && price == Round(c.close, 8) && time == c.timestamp + Milliseconds(cfg.input.timeframe)
  }

  /** The whole life of a trade between candle `e` and candle `x`. */
  ghost predicate Conducted(cfg: Config, t: Trade, e: nat, x: nat) {
    && cfg.warmup < e < x < |cfg.candles| && e < |cfg.candles| - 1
    && t.entryTime == cfg.candles[e].timestamp && t.marketEntryPrice == Round(cfg.candles[e].open, 8)
    && Undisturbed(cfg, t.signal, t.stopLoss, t.takeProfit, e, x)
    && LeavesAt(cfg, t.signal, t.stopLoss, t.takeProfit, x, t.exitReason, t.marketExitPrice, t.exitTime)
  }

  // ---------------------------------------------------------------- the loop keeps to it

  ghost predicate PositionTracked(cfg: Config, p: Position, n: nat) {
    && 0 < p.entryIndex < n <= |cfg.candles|
    && Undisturbed(cfg, p.signal, p.stopLoss, p.takeProfit, p.entryIndex, n)
  }

  ghost predicate WellConducted(cfg: Config, t: Trade) {
    exists e, x :: Conducted(cfg, t, e, x)
  }

  ghost predicate AllConducted(cfg: Config, trades: seq<Trade>) {
    forall j | 0 <= j < |trades| :: WellConducted(cfg, trades[j])
  }

  /** What is scheduled after candle `n - 1`: the side the strategy took there, unless the position has it already. */
  ghost function Due(cfg: Config, position: Option<Position>, n: nat): Option<Action> {
    if n > 0 && Answer(cfg, n - 1).Some? && (position.None? || position.value.signal != Answer(cfg, n - 1).value)
    then Some(ActionOf(Answer(cfg, n - 1).value)) else None
  }

  ghost predicate Tracked(cfg: Config, st: State, n: nat) {
    && (st.position.Some? ==> PositionTracked(cfg, st.position.value, n))
    && st.scheduled == Due(cfg, st.position, n)
    && AllConducted(cfg, st.trades)
  }

  lemma ConductedAppend(cfg: Config, trades: seq<Trade>, t: Trade, e: nat, x: nat)
    requires AllConducted(cfg, trades) && Conducted(cfg, t, e, x)
    ensures AllConducted(cfg, trades + [t])
  {
    hide Conducted;
    assert WellConducted(cfg, t);
    hide WellConducted;
    forall j | 0 <= j < |trades| + 1
      ensures WellConducted(cfg, (trades + [t])[j])
    {
      if j < |trades| { assert (trades + [t])[j] == trades[j]; }
    }
  }

  /** The tests on units say what `HitsStop` and `HitsTake` say in prices. */
  lemma TriggersMean(cfg: Config, p: Position, c: Candle)
    requires Entered(cfg, p)
    ensures StopTriggered(p, c) <==> HitsStop(p.signal, p.stopLoss, c)
    ensures TakeTriggered(p, c) <==> HitsTake(p.signal, p.takeProfit, c)
    ensures p.stopLoss.Some? ==>
      var open := Round(c.open, 8);
      StopFill(p, c) == if ReachAgainst(p.signal, open, open, p.stopLoss.value) then open else p.stopLoss.value
    ensures p.takeProfit.Some? ==>
      var open := Round(c.open, 8);
      TakeFill(p, c) == if ReachInFavour(p.signal, open, open, p.takeProfit.value) then open else p.takeProfit.value
  {
    hide Entered, Round, Val;
    StopAndTakeScales(cfg, p);
    RoundScale(c.open, 8);
    RoundScale(c.high, 8);
    RoundScale(c.low, 8);
    if p.stopLoss.Some? {
      UnitsTell(Round(c.open, 8), p.stopLoss.value);
      UnitsTell(Round(c.high, 8), p.stopLoss.value);
      UnitsTell(Round(c.low, 8), p.stopLoss.value);
    }
    if p.takeProfit.Some? {
      UnitsTell(Round(c.open, 8), p.takeProfit.value);
      UnitsTell(Round(c.high, 8), p.takeProfit.value);
      UnitsTell(Round(c.low, 8), p.takeProfit.value);
    }
  }

  /** Closing at candle `x` books a conducted trade. */
  lemma CloseConducts(cfg: Config, st: State, x: nat, price: Decimal, time: int, reason: ExitReason)
    requires st.position.Some? && Entered(cfg, st.position.value) && AllConducted(cfg, st.trades)
    requires var p := st.position.value;
      && 0 < p.entryIndex < x < |cfg.candles|
      && Undisturbed(cfg, p.signal, p.stopLoss, p.takeProfit, p.entryIndex, x)
      && LeavesAt(cfg, p.signal, p.stopLoss, p.takeProfit, x, reason, price, time)
    requires Close(cfg, st, price, time, reason).Success?
    ensures var r := Close(cfg, st, price, time, reason).value;
      r.position.None? && r.scheduled == st.scheduled && AllConducted(cfg, r.trades)
  {
    hide MakeTrade, MakePosition, Undisturbed, LeavesAt, Round;
    var p := st.position.value;
    MakePositionCopies(cfg, p.equityBeforeTrade, ActionOf(p.signal), cfg.candles[p.entryIndex], p.entryIndex);
    MakeTradeCopies(cfg, p, st.sequence + 1, price, time, reason);
    var t := MakeTrade(cfg, p, st.sequence + 1, price, time, reason).value;
    hide AllConducted;
    ConductedAppend(cfg, st.trades, t, p.entryIndex, x);
  }

  /** One more candle that leaves the position alone. */
  lemma UndisturbedLonger(cfg: Config, signal: Side, stopLoss: Option<Decimal>, takeProfit: Option<Decimal>, e: nat,
          n: nat)
    requires 0 < e < n < |cfg.candles| && Undisturbed(cfg, signal, stopLoss, takeProfit, e, n)
    requires Quiet(signal, stopLoss, takeProfit, cfg.candles[n]) && Answer(cfg, n - 1) != Some(Opposite(signal))
    ensures Undisturbed(cfg, signal, stopLoss, takeProfit, e, n + 1)
  {
    hide Quiet, Answer;
  }

  lemma JustEntered(cfg: Config, signal: Side, stopLoss: Option<Decimal>, takeProfit: Option<Decimal>, e: nat)
    requires 0 < e < |cfg.candles| && Answer(cfg, e - 1) == Some(signal)
    ensures Undisturbed(cfg, signal, stopLoss, takeProfit, e, e + 1)
  {
    hide Quiet, Answer;
  }

  /** Between the fill and the protection of candle `n`: whoever is not new has not been turned away. */
  ghost predicate Filled(cfg: Config, st: State, n: nat) {
    && n < |cfg.candles| && st.scheduled.None? && AllConducted(cfg, st.trades)
    && (st.position.Some? ==>
          var p := st.position.value;
          && Entered(cfg, p)
          && (p.entryIndex < n ==> PositionTracked(cfg, p, n) && Answer(cfg, n - 1) != Some(Opposite(p.signal)))
          && (p.entryIndex >= n ==> p.entryIndex == n > 0 && Answer(cfg, n - 1) == Some(p.signal)))
  }

  lemma SidesAndActions(signal: Side)
    ensures SideOf(ActionOf(signal)) == signal
  {
  }

  lemma FillConducts(cfg: Config, st: State, n: nat)
    requires Inv(cfg, st, n) && Tracked(cfg, st, n) && n < |cfg.candles| && Fill(cfg, st, n).Success?
    ensures Filled(cfg, Fill(cfg, st, n).value, n)
  {
    hide Inv, MakePosition, Close, AllConducted, Undisturbed, Answer, Round, Entered;
    InvHolds(cfg, st, n);
    if st.scheduled.Some? {
      var s, c := Answer(cfg, n - 1).value, cfg.candles[n];
      AnsweredLate(cfg, n - 1);
      SidesAndActions(s);
      var closed := st;
      if st.position.Some? {
        var p := st.position.value;
        assert LeavesAt(cfg, p.signal, p.stopLoss, p.takeProfit, n, StrategyClose, Round(c.open, 8), c.timestamp);
        CloseConducts(cfg, st, n, Round(c.open, 8), c.timestamp, StrategyClose);
        closed := Close(cfg, st, Round(c.open, 8), c.timestamp, StrategyClose).value;
      }
      if n < |cfg.candles| - 1 {
        var entered := MakePosition(cfg, closed.equity, ActionOf(s), c, n);
        if entered.value.Some? { OpenedIs(cfg, closed.equity, s, n); }
      }
    }
  }

  lemma InvHolds(cfg: Config, st: State, n: nat)
    requires Inv(cfg, st, n)
    ensures st.position.Some? ==> Entered(cfg, st.position.value) && st.position.value.entryIndex < n
    ensures st.scheduled.Some? ==> cfg.warmup < n
    ensures n <= |cfg.candles|
  {
    hide Entered, Ledger, EquityAfter;
  }

  lemma AnsweredLate(cfg: Config, i: nat)
    requires Answer(cfg, i).Some?
    ensures cfg.warmup <= i < |cfg.candles| - 1
  {
  }

  lemma OpenedIs(cfg: Config, equity: Decimal, s: Side, n: nat)
    requires cfg.warmup < n < |cfg.candles| - 1
    requires var r := MakePosition(cfg, equity, ActionOf(s), cfg.candles[n], n); r.Success? && r.value.Some?
    ensures var p := MakePosition(cfg, equity, ActionOf(s), cfg.candles[n], n).value.value;
      p.signal == s && p.entryIndex == n && Entered(cfg, p)
  {
    hide MakePosition;
    MakePositionCopies(cfg, equity, ActionOf(s), cfg.candles[n], n);
    SidesAndActions(s);
  }

  /** After the protection of candle `n` a position is still there only if the candle left it alone. */
  ghost predicate Guarded(cfg: Config, st: State, n: nat) {
    && n < |cfg.candles| && st.scheduled.None? && AllConducted(cfg, st.trades)
    && (st.position.Some? ==> PositionTracked(cfg, st.position.value, n + 1))
  }

  lemma ProtectConducts(cfg: Config, st: State, n: nat)
    requires Filled(cfg, st, n) && Protect(cfg, st, n).Success?
    ensures Guarded(cfg, Protect(cfg, st, n).value, n)
  {
    hide Close, AllConducted, Undisturbed, Answer, Round, Entered, StopTriggered, TakeTriggered, StopFill, TakeFill,
      HitsStop, HitsTake,
      ReachAgainst, ReachInFavour;
    if st.position.Some? {
      var p, c := st.position.value, cfg.candles[n];
      if p.entryIndex >= n {
        JustEntered(cfg, p.signal, p.stopLoss, p.takeProfit, n);
      } else {
        TriggersMean(cfg, p, c);
        StopIsThere(p, c);
        if StopTriggered(p, c) {
          CloseConducts(cfg, st, n, StopFill(p, c), c.timestamp, StopLoss);
        } else if TakeTriggered(p, c) {
          CloseConducts(cfg, st, n, TakeFill(p, c), c.timestamp, TakeProfit);
        } else {
          UndisturbedLonger(cfg, p.signal, p.stopLoss, p.takeProfit, p.entryIndex, n);
        }
      }
    }
  }

  lemma StopIsThere(p: Position, c: Candle)
    ensures StopTriggered(p, c) ==> p.stopLoss.Some?
    ensures TakeTriggered(p, c) ==> p.takeProfit.Some?
  {
  }

  lemma SeenIsContext(cfg: Config, i: nat)
    requires i < |cfg.candles|
    ensures Seen(cfg, i) == ContextAt(cfg, i)
  {
    assert Seen(cfg, i).candles == ContextAt(cfg, i).candles;
  }

  lemma DecideConducts(cfg: Config, st: State, n: nat)
    requires Guarded(cfg, st, n) && Decide(cfg, st, n).Success?
    ensures Tracked(cfg, Decide(cfg, st, n).value, n + 1)
    ensures Asked(cfg, n) ==> !cfg.input.analyze(Seen(cfg, n)).Unrecognized?
  {
    hide PositionTracked, AllConducted, ContextAt, Seen;
    SeenIsContext(cfg, n);
  }

  lemma StepConducts(cfg: Config, st: State, n: nat)
    requires Increasing(cfg.candles) && Inv(cfg, st, n) && Tracked(cfg, st, n) && n < |cfg.candles|
      && StepCandle(cfg, st, n).Success?
    ensures Tracked(cfg, StepCandle(cfg, st, n).value, n + 1)
    ensures Asked(cfg, n) ==> !cfg.input.analyze(Seen(cfg, n)).Unrecognized?
  {
    hide Fill, Protect, Decide, Inv, Tracked, Filled, Guarded, Seen;
    FillConducts(cfg, st, n);
    ProtectConducts(cfg, Fill(cfg, st, n).value, n);
    DecideConducts(cfg, Protect(cfg, Fill(cfg, st, n).value, n).value, n);
  }

  lemma {:induction false} RunConducts(cfg: Config, n: nat)
    requires Increasing(cfg.candles) && n <= |cfg.candles| && Run(cfg, n).Success?
    ensures Tracked(cfg, Run(cfg, n).value, n)
    ensures forall i: nat | i < n && Asked(cfg, i) :: !cfg.input.analyze(Seen(cfg, i)).Unrecognized?
  {
    hide StepCandle, Round, Seen, Asked, Answer, Increasing, Inv;
    if n > 0 {
      hide Tracked;
      RunConducts(cfg, n - 1);
      RunKeeps(cfg, n - 1);
      StepConducts(cfg, Run(cfg, n - 1).value, n - 1);
    }
  }

  /**
   * A position that is open after `n` candles was asked for by the strategy, and no candle since has told it to leave.
   */
  lemma OpenPositionUndisturbed(input: Input, n: nat)
    requires Prepare(input).Success? && n <= |Prepare(input).value.candles| && Run(Prepare(input).value, n).Success?
    requires Run(Prepare(input).value, n).value.position.Some?
    ensures var cfg := Prepare(input).value; var p := Run(cfg, n).value.position.value;
      && 0 < p.entryIndex < n
      && Undisturbed(cfg, p.signal, p.stopLoss, p.takeProfit, p.entryIndex, n)
  {
    hide Prepare, Run, Undisturbed;
    PrepareIncreasing(input);
    RunConducts(Prepare(input).value, n);
  }

  /**
   * Every trade of every backtest was asked for by the strategy, and left at the first candle at which the strategy
   * turned or its stop or take-profit price was reached, for that reason and at that price, or else at the end of the
   * range.
   */
  lemma TradesConducted(input: Input, j: nat)
    requires Simulate(input).Success? && j < |Simulate(input).value.trades|
    ensures exists e, x :: Conducted(Prepare(input).value, Simulate(input).value.trades[j], e, x)
  {
    hide Prepare, Replay, Conducted, Increasing;
    PrepareIncreasing(input);
    ReplayConducts(Prepare(input).value);
    assert WellConducted(Prepare(input).value, Simulate(input).value.trades[j]);
  }

  lemma ReplayConducts(cfg: Config)
    requires Increasing(cfg.candles) && Replay(cfg).Success?
    ensures AllConducted(cfg, Replay(cfg).value.trades)
  {
    hide Run, Finish, AllConducted, Inv, Increasing, PositionTracked;
    var n := |cfg.candles|;
    RunConducts(cfg, n);
    RunKeeps(cfg, n);
    var st := Run(cfg, n).value;
    InvHolds(cfg, st, n);
    if st.position.Some? { FinishConducts(cfg, st); } else { FlatAlready(cfg, st); }
  }

  lemma FlatAlready(cfg: Config, st: State)
    requires st.position.None?
    ensures Finish(cfg, st) == Success(st)
  {
  }

  lemma FinishConducts(cfg: Config, st: State)
    requires var n := |cfg.candles|; Tracked(cfg, st, n) && n > 0
    requires st.position.Some? && Entered(cfg, st.position.value) && Finish(cfg, st).Success?
    ensures AllConducted(cfg, Finish(cfg, st).value.trades)
  {
    hide Close, AllConducted, Round, Entered;
    var x, p := |cfg.candles| - 1, st.position.value;
    var c := cfg.candles[x];
    EnteredEarly(cfg, p);
    assert Answer(cfg, x - 1) != Some(Opposite(p.signal));
    assert Quiet(p.signal, p.stopLoss, p.takeProfit, c);
    hide Answer, Quiet;
    CloseConducts(cfg, st, x, Round(c.close, 8), c.timestamp + Milliseconds(cfg.input.timeframe), RangeEnd);
  }

  lemma EnteredEarly(cfg: Config, p: Position)
    requires Entered(cfg, p)
    ensures p.entryIndex < |cfg.candles| - 1
  {
    hide MakePosition;
  }

  // ---------------------------------------------------------------- no answer is overlooked

  ghost function FilledEntry(input: Input, signal: Side, c: Candle): real {
    To(Times(To(Val(c.open), 8), 1.0 + Directed(signal, SlipOf(input))), 8)
  }

  /** At the open of this candle the equity does not buy the smallest quantity. */
  ghost predicate TooPoor(input: Input, signal: Side, c: Candle, equity: real) {
    var cost := Times(FilledEntry(input, signal, c), 1.0 + FeeOf(input));
    cost != 0.0 && To(Over(equity, cost), 8) <= 0.0
  }

  /** The last trade left at candle `n` because its stop or take-profit price was reached. */
  ghost predicate JustProtected(cfg: Config, st: State, n: nat, signal: Side)
    requires n < |cfg.candles|
  {
    && st.trades != []
    && var t := st.trades[|st.trades| - 1];
    t.signal == signal && t.exitTime == cfg.candles[n].timestamp && (t.exitReason.StopLoss? || t.exitReason.TakeProfit?)
  }

  lemma NothingBought(cfg: Config, equity: Decimal, s: Side, c: Candle, index: nat)
    requires Val(cfg.feeRate) == FeeOf(cfg.input) && Val(cfg.slippageRate) == SlipOf(cfg.input)
    requires MakePosition(cfg, equity, ActionOf(s), c, index) == Success(None)
    ensures TooPoor(cfg.input, s, c, Val(equity))
  {
    hide Round, Divide, Val, Multiply, Plus, Minus, To, Times, Over, FeeOf, SlipOf, Directed, StopPrice, TakePrice,
      UnitCost;
    SidesAndActions(s);
    var market := Round(c.open, 8);
    var entry := EntryPrice(cfg, s, market);
    EntryTo(cfg, s, c);
    CostOf(cfg, entry);
    DividedTo(equity, UnitCost(cfg, entry), 8);
    SignOfValue(Divide(equity, UnitCost(cfg, entry), 8));
  }

  lemma EntryTo(cfg: Config, s: Side, c: Candle)
    requires Val(cfg.slippageRate) == SlipOf(cfg.input)
    ensures Val(EntryPrice(cfg, s, Round(c.open, 8))) == FilledEntry(cfg.input, s, c)
  {
    hide Round, Val, Multiply, Plus, To, Times, SlipOf, Directed;
    var market := Round(c.open, 8);
    RoundedTo(c.open, 8);
    PlusMinusValue(s, cfg.slippageRate);
    ProductTo(market, Plus(s, cfg.slippageRate), 8);
  }

  /** After the fill of candle `n` the position has the side that was taken, or nothing could be bought. */
  lemma FillFollows(cfg: Config, st: State, n: nat)
    requires Inv(cfg, st, n) && Tracked(cfg, st, n) && 0 < n < |cfg.candles| - 1 && Fill(cfg, st, n).Success?
    requires Val(cfg.feeRate) == FeeOf(cfg.input) && Val(cfg.slippageRate) == SlipOf(cfg.input)
    requires Answer(cfg, n - 1).Some?
    ensures var s, r := Answer(cfg, n - 1).value, Fill(cfg, st, n).value;
      if r.position.Some? then r.position.value.signal == s else TooPoor(cfg.input, s, cfg.candles[n], Val(r.equity))
  {
    hide Inv, MakePosition, AllConducted, Undisturbed, Answer, Round, Entered, Val, FeeOf, SlipOf, TooPoor, MakeTrade;
    InvHolds(cfg, st, n);
    var s, c := Answer(cfg, n - 1).value, cfg.candles[n];
    AnsweredLate(cfg, n - 1);
    SidesAndActions(s);
    if st.scheduled.Some? {
      var closed := if st.position.Some? then Close(cfg, st, Round(c.open, 8), c.timestamp, StrategyClose).value
        else st;
      assert closed.position.None?;
      var entered := MakePosition(cfg, closed.equity, ActionOf(s), c, n);
      if entered.value.Some? {
        OpenedIs(cfg, closed.equity, s, n);
      } else {
        NothingBought(cfg, closed.equity, s, c, n);
      }
    }
  }

  lemma ProtectLeaves(cfg: Config, st: State, n: nat)
    requires n < |cfg.candles| && Protect(cfg, st, n).Success?
    ensures var r := Protect(cfg, st, n).value;
      r == st || (st.position.Some? && JustProtected(cfg, r, n, st.position.value.signal))
  {
    hide MakeTrade, Round, StopTriggered, TakeTriggered, StopFill, TakeFill;
    if st.position.Some? {
      var p, c := st.position.value, cfg.candles[n];
      StopIsThere(p, c);
      if StopTriggered(p, c) && MakeTrade(cfg, p, st.sequence + 1, StopFill(p, c), c.timestamp, StopLoss).Success? {
        MakeTradeCopies(cfg, p, st.sequence + 1, StopFill(p, c), c.timestamp, StopLoss);
      }
      if TakeTriggered(p, c) && MakeTrade(cfg, p, st.sequence + 1, TakeFill(p, c), c.timestamp, TakeProfit).Success? {
        MakeTradeCopies(cfg, p, st.sequence + 1, TakeFill(p, c), c.timestamp, TakeProfit);
      }
    }
  }

  lemma DecideLeaves(cfg: Config, st: State, n: nat)
    requires n < |cfg.candles| && Decide(cfg, st, n).Success?
    ensures Decide(cfg, st, n).value == st.(scheduled := Decide(cfg, st, n).value.scheduled)
  {
    hide ContextAt;
  }

  /**
   * Whenever the strategy takes a side, the next candle leaves the account on that side, or protects it out of such a
   * position, or the equity does not buy the smallest quantity.
   */
  lemma AnswersFollowed(input: Input, i: nat)
    requires Prepare(input).Success?
    requires i + 2 < |Prepare(input).value.candles| && Run(Prepare(input).value, i + 2).Success?
    requires Answer(Prepare(input).value, i).Some?
    ensures var cfg := Prepare(input).value;
      var st, s := Run(cfg, i + 2).value, Answer(cfg, i).value;
      || (st.position.Some? && st.position.value.signal == s)
      || (st.position.None? && JustProtected(cfg, st, i + 1, s))
      || (st.position.None? && TooPoor(input, s, cfg.candles[i + 1], Val(st.equity)))
  {
    hide Prepare, Fill, Protect, Decide, Inv, Tracked, Answer, TooPoor, JustProtected, Val, FeeOf, SlipOf, Increasing;
    var cfg := Prepare(input).value;
    PrepareIncreasing(input);
    RatesOf(input);
    var st := Run(cfg, i + 1).value;
    RunConducts(cfg, i + 1);
    RunKeeps(cfg, i + 1);
    var filled := Fill(cfg, st, i + 1).value;
    var guarded := Protect(cfg, filled, i + 1).value;
    FillFollows(cfg, st, i + 1);
    ProtectLeaves(cfg, filled, i + 1);
    DecideLeaves(cfg, guarded, i + 1);
    JustProtectedSame(cfg, guarded, Decide(cfg, guarded, i + 1).value, i + 1);
    if guarded != filled { ProtectFlat(cfg, filled, i + 1); }
  }

  lemma JustProtectedSame(cfg: Config, st: State, r: State, n: nat)
    requires n < |cfg.candles| && r == st.(scheduled := r.scheduled)
    ensures forall s :: JustProtected(cfg, st, n, s) ==> JustProtected(cfg, r, n, s)
  {
  }

  lemma ProtectFlat(cfg: Config, st: State, n: nat)
    requires n < |cfg.candles| && Protect(cfg, st, n).Success? && Protect(cfg, st, n).value != st
    ensures Protect(cfg, st, n).value.position.None?
  {
    hide MakeTrade, Round, StopTriggered, TakeTriggered, StopFill, TakeFill;
  }

  // ---------------------------------------------------------------- when a backtest fails

  /** The strategy is asked after this candle and answers something unknown. */
  ghost predicate Unanswerable(cfg: Config, n: nat) {
    Asked(cfg, n) && cfg.input.analyze(Seen(cfg, n)).Unrecognized?
  }

  /** Entering at this candle is impossible: it costs nothing, or a protective price is not positive. */
  ghost predicate BadPrices(input: Input, signal: Side, c: Candle) {
    || Times(FilledEntry(input, signal, c), 1.0 + FeeOf(input)) == 0.0
    || exists price: Decimal :: Val(price) <= 0.0 &&
         (AtPercent(Some(price), input.stopLossPercent, To(Val(c.open), 8), signal, false)
          || AtPercent(Some(price), input.takeProfitPercent, To(Val(c.open), 8), signal, true))
  }

  lemma OpeningFails(cfg: Config, equity: Decimal, s: Side, c: Candle, index: nat)
    requires Val(cfg.feeRate) == FeeOf(cfg.input) && Val(cfg.slippageRate) == SlipOf(cfg.input)
    requires MakePosition(cfg, equity, ActionOf(s), c, index).Failure?
    ensures MakePosition(cfg, equity, ActionOf(s), c, index) == Failure(InvalidInput) && BadPrices(cfg.input, s, c)
  {
    hide Round, Divide, Val, Multiply, Plus, Minus, To, Times, Over, FeeOf, SlipOf, Directed, UnitCost, Percent;
    SidesAndActions(s);
    var market := Round(c.open, 8);
    var entry := EntryPrice(cfg, s, market);
    RoundedTo(c.open, 8);
    EntryTo(cfg, s, c);
    CostOf(cfg, entry);
    SignOfValue(UnitCost(cfg, entry));
    if cfg.input.stopLossPercent.Some? {
      PercentPrice(market, s, cfg.input.stopLossPercent.value);
      SignOfValue(StopPrice(cfg, s, market).value);
    }
    if cfg.input.takeProfitPercent.Some? {
      PercentPrice(market, s, cfg.input.takeProfitPercent.value);
      SignOfValue(TakePrice(cfg, s, market).value);
    }
  }

  /** A position was bought with some equity, so its trade can always be booked. */
  lemma CloseSucceeds(cfg: Config, st: State, price: Decimal, time: int, reason: ExitReason)
    requires st.position.Some? ==> Entered(cfg, st.position.value)
    ensures Close(cfg, st, price, time, reason).Success?
  {
    hide Round, Multiply, Add, Subtract, MakePosition, Divide, UnitCost, EntryPrice, StopPrice, TakePrice,
      PositivePrice;
    if st.position.Some? {
      var p := st.position.value;
      MakePositionCopies(cfg, p.equityBeforeTrade, ActionOf(p.signal), cfg.candles[p.entryIndex], p.entryIndex);
      if p.equityBeforeTrade.units == 0 { ZeroBuysNothing(p.equityBeforeTrade, UnitCost(cfg, p.entryPrice)); }
    }
  }

  lemma ZeroBuysNothing(equity: Decimal, cost: Decimal)
    requires cost.units != 0 && equity.units == 0
    ensures Divide(equity, cost, 8).units == 0
  {
    SignOfValue(equity);
    hide Divide, Val, Ten;
    DivideIsNearest(equity, cost, 8, 0.0);
    HalfAwayOfInteger(0);
  }

  lemma FillFails(cfg: Config, st: State, n: nat)
    requires Inv(cfg, st, n) && Tracked(cfg, st, n) && n < |cfg.candles| && Fill(cfg, st, n).Failure?
    requires Val(cfg.feeRate) == FeeOf(cfg.input) && Val(cfg.slippageRate) == SlipOf(cfg.input)
    ensures Fill(cfg, st, n) == Failure(InvalidInput)
    ensures n > 0 && Answer(cfg, n - 1).Some? && BadPrices(cfg.input, Answer(cfg, n - 1).value, cfg.candles[n])
  {
    hide Inv, MakePosition, AllConducted, Undisturbed, Answer, Round, Entered, Val, FeeOf, SlipOf, BadPrices, Close;
    InvHolds(cfg, st, n);
    assert st.scheduled.Some?;
    var s, c := Answer(cfg, n - 1).value, cfg.candles[n];
    SidesAndActions(s);
    CloseSucceeds(cfg, st, Round(c.open, 8), c.timestamp, StrategyClose);
    var closed := if st.position.Some? then Close(cfg, st, Round(c.open, 8), c.timestamp, StrategyClose).value else st;
    OpeningFails(cfg, closed.equity, s, c, n);
  }

  lemma ProtectSucceeds(cfg: Config, st: State, n: nat)
    requires Filled(cfg, st, n)
    ensures Protect(cfg, st, n).Success?
  {
    hide Close, AllConducted, Undisturbed, Answer, Round, Entered, StopTriggered, TakeTriggered, StopFill, TakeFill;
    if st.position.Some? {
      var p, c := st.position.value, cfg.candles[n];
      StopIsThere(p, c);
      if StopTriggered(p, c) { CloseSucceeds(cfg, st, StopFill(p, c), c.timestamp, StopLoss); }
      if TakeTriggered(p, c) { CloseSucceeds(cfg, st, TakeFill(p, c), c.timestamp, TakeProfit); }
    }
  }

  lemma DecideFails(cfg: Config, st: State, n: nat)
    requires n < |cfg.candles|
    ensures Decide(cfg, st, n).Failure? <==> Unanswerable(cfg, n)
    ensures Decide(cfg, st, n).Failure? ==> Decide(cfg, st, n).error == InvalidSignal
  {
    hide ContextAt, Seen;
    SeenIsContext(cfg, n);
  }

  /** Why the loop stops at candle `n`. */
  ghost predicate FailsAt(cfg: Config, n: nat, error: Error) {
    && n < |cfg.candles| && Run(cfg, n).Success?
    && match error
       case InvalidSignal => Unanswerable(cfg, n)
       case InvalidInput =>
         n > 0 && Answer(cfg, n - 1).Some? && BadPrices(cfg.input, Answer(cfg, n - 1).value, cfg.candles[n])
       case SnapshotIncomplete => false
  }

  lemma StepFails(cfg: Config, n: nat)
    requires Increasing(cfg.candles) && n < |cfg.candles| && Run(cfg, n).Success?
    requires Val(cfg.feeRate) == FeeOf(cfg.input) && Val(cfg.slippageRate) == SlipOf(cfg.input)
    ensures var r := StepCandle(cfg, Run(cfg, n).value, n);
      (r.Failure? ==> FailsAt(cfg, n, r.error)) && (Unanswerable(cfg, n) ==> r.Failure?)
  {
    hide Run, Fill, Protect, Decide, Inv, Tracked, Filled, Guarded, Unanswerable, BadPrices, Answer, Val, FeeOf,
      SlipOf, Increasing;
    RunConducts(cfg, n);
    RunKeeps(cfg, n);
    var st := Run(cfg, n).value;
    if Fill(cfg, st, n).Failure? {
      FillFails(cfg, st, n);
    } else {
      FillConducts(cfg, st, n);
      var filled := Fill(cfg, st, n).value;
      ProtectSucceeds(cfg, filled, n);
      DecideFails(cfg, Protect(cfg, filled, n).value, n);
    }
  }

  lemma {:induction false} RunFails(cfg: Config, n: nat)
    requires Increasing(cfg.candles) && n <= |cfg.candles|
    requires Val(cfg.feeRate) == FeeOf(cfg.input) && Val(cfg.slippageRate) == SlipOf(cfg.input)
    ensures Run(cfg, n).Failure? ==> exists k :: FailsAt(cfg, k, Run(cfg, n).error)
    ensures Run(cfg, n).Success? ==> forall k: nat | k < n :: !Unanswerable(cfg, k)
  {
    hide StepCandle, FailsAt, Unanswerable, Val, FeeOf, SlipOf, Increasing;
    if n > 0 {
      RunFails(cfg, n - 1);
      if Run(cfg, n - 1).Success? { StepFails(cfg, n - 1); }
    }
  }

  /**
   * An accepted input fails only at a candle at which the strategy's answer is unknown, or at which entering on the
   * side it took is impossible; and it does fail if an answer is unknown.
   */
  lemma SimulationFailures(input: Input)
    requires Prepare(input).Success?
    ensures var cfg := Prepare(input).value;
      && (Simulate(input).Failure? ==> exists k :: FailsAt(cfg, k, Simulate(input).error))
      && (Simulate(input).Success? ==> forall k: nat | k < |cfg.candles| :: !Unanswerable(cfg, k))
  {
    hide Prepare, Run, FailsAt, Unanswerable, Val, FeeOf, SlipOf, Close, Inv, Round, Increasing;
    var cfg := Prepare(input).value;
    PrepareIncreasing(input);
    RatesOf(input);
    RunFails(cfg, |cfg.candles|);
    if Run(cfg, |cfg.candles|).Success? {
      var st := Run(cfg, |cfg.candles|).value;
      RunKeeps(cfg, |cfg.candles|);
      InvHolds(cfg, st, |cfg.candles|);
      if st.position.Some? {
        var last := cfg.candles[|cfg.candles| - 1];
        CloseSucceeds(cfg, st, Round(last.close, 8), last.timestamp + Milliseconds(cfg.input.timeframe), RangeEnd);
      }
    }
  }
}
