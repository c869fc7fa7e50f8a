/** The backtest simulator: one position at a time, filled at the next open, replayed over closed candles. */
module Simulator {
  import opened Wrappers
  import opened Decimals
  import opened Sorting

  // ---------------------------------------------------------------- data model

  datatype Timeframe = M1 | M5 | M15 | H1 | H4 | D1

  function Milliseconds(t: Timeframe): nat {
    match t
    case M1 => 60_000
    case M5 => 300_000
    case M15 => 900_000
    case H1 => 3_600_000
    case H4 => 14_400_000
    case D1 => 86_400_000
  }

  datatype Candle = Candle(
    pair: string, timeframe: Timeframe, timestamp: int,
    open: Decimal, high: Decimal, low: Decimal, close: Decimal, volume: Decimal, isClosed: bool)

  datatype StrategyCandle = StrategyCandle(
    timestamp: int, open: Decimal, high: Decimal, low: Decimal, close: Decimal, volume: Decimal)

  datatype Sentiment = Sentiment(polarity: string, averageScore: real)

  datatype StrategyContext = StrategyContext(
    pair: string, timeframe: Timeframe, candles: seq<StrategyCandle>, currentPrice: Decimal,
      sentiment: Option<Sentiment>)

  datatype Action = Buy | Sell

  /** What a strategy answers; anything but HOLD, BUY and SELL is `Unrecognized`. */
  datatype Signal = Hold | Act(action: Action) | Unrecognized

  datatype Side = Long | Short

  datatype ExitReason = StopLoss | TakeProfit | StrategyClose | RangeEnd

  datatype Error = InvalidInput | SnapshotIncomplete | InvalidSignal

  datatype Input = Input(
    candidateId: string, attemptId: string, pair: string, settlementAsset: string, timeframe: Timeframe,
    candles: seq<Candle>, warmupCandles: Option<int>,
    analyze: StrategyContext -> Signal, sentimentAt: int -> Option<Sentiment>,
    initialCapital: Decimal, feeRatePercent: Decimal, slippageBps: Option<Decimal>,
    stopLossPercent: Option<Decimal>, takeProfitPercent: Option<Decimal>)

  datatype Position = Position(
    signal: Side, entryIndex: nat, marketEntryPrice: Decimal, entryPrice: Decimal, entryTime: int,
    quantity: Decimal, equityBeforeTrade: Decimal, stopLoss: Option<Decimal>, takeProfit: Option<Decimal>)

  datatype TradeId = TradeId(attemptId: string, sequence: nat)

  datatype TradeResult = Win | Loss | Breakeven

  datatype Trade = Trade(
    id: TradeId, sequence: nat, pair: string, settlementAsset: string, backtestAttemptId: string, signal: Side,
    entryTime: int, marketEntryPrice: Decimal, entryPrice: Decimal, stopLoss: Option<Decimal>,
      takeProfit: Option<Decimal>,
    exitTime: int, marketExitPrice: Decimal, exitPrice: Decimal, exitReason: ExitReason,
    quantity: Decimal, notionalEntryValue: Decimal, equityBeforeTrade: Decimal, equityAfterTrade: Decimal,
    grossProfit: Decimal, feeAmount: Decimal, slippageAmount: Decimal, profit: Decimal,
    resultPercent: Decimal, result: TradeResult)

  datatype Completed = Completed(candidateId: string, attemptId: string, initialCapital: Decimal, trades: seq<Trade>)

  /** What the loop reads but never changes: the sorted closed candles and the derived rates. */
  datatype Config = Config(input: Input, candles: seq<Candle>, warmup: nat, feeRate: Decimal, slippageRate: Decimal)

  datatype State = State(
    equity: Decimal, position: Option<Position>, scheduled: Option<Action>, sequence: nat, trades: seq<Trade>)

  // ---------------------------------------------------------------- input checks

  predicate Blank(text: string) {
    forall c | c in text :: c in {' ', '\t', '\n', '\r'}
  }

  /** Numeric order of two decimals, whatever their scales. */
  predicate Less(a: Decimal, b: Decimal) {
    a.units * PowerOfTen(b.scale) < b.units * PowerOfTen(a.scale)
  }

  predicate PositivePercent(value: Option<Decimal>) {
    value.Some? ==> value.value.units > 0 && Less(value.value, FromInteger(100))
  }

  predicate ValidCandle(candle: Candle, input: Input) {
    && candle.pair == input.pair && candle.timeframe == input.timeframe
    && candle.open.units > 0 && candle.high.units > 0 && candle.low.units > 0 && candle.close.units > 0
    && candle.volume.units >= 0
    && !Less(candle.high, candle.open) && !Less(candle.high, candle.close)
    && !Less(candle.open, candle.low) && !Less(candle.close, candle.low)
  }

  function ClosedCandles(candles: seq<Candle>): seq<Candle> {
    if candles == [] then []
    else (if candles[0].isClosed then [candles[0]] else []) + ClosedCandles(candles[1..])
  }

  predicate NoLater(a: Candle, b: Candle) {
    a.timestamp <= b.timestamp
  }

  function SortByTime(candles: seq<Candle>): seq<Candle> {
    Sort(NoLater, candles)
  }

  predicate Increasing(candles: seq<Candle>) {
    forall i, j | 0 <= i < j < |candles| :: candles[i].timestamp < candles[j].timestamp
  }

  predicate ValidCandles(candles: seq<Candle>, input: Input) {
    && (forall i | 0 <= i < |candles| :: ValidCandle(candles[i], input))
    && Increasing(candles)
  }

  function DefaultTo<T>(value: Option<T>, default: T): T {
    if value.Some? then value.value else default
  }

  /** The checks made before the loop, in the program's order of precedence. */
  function Prepare(input: Input): Result<Config, Error> {
    var candles := SortByTime(ClosedCandles(input.candles));
    var slippageBps := DefaultTo(input.slippageBps, FromInteger(5));
    var warmup := DefaultTo(input.warmupCandles, 0);
    if Blank(input.settlementAsset) || input.initialCapital.units <= 0
      || input.feeRatePercent.units < 0 then Failure(InvalidInput)
    else if !PositivePercent(input.stopLossPercent)
      || !PositivePercent(input.takeProfitPercent) then Failure(InvalidInput)
    else if slippageBps.units < 0 || warmup < 0 then Failure(InvalidInput)
    else if !ValidCandles(candles, input) then Failure(InvalidInput)
    else if warmup > |candles| then Failure(SnapshotIncomplete)
    else Success(Config(input, candles, warmup,
                        Divide(input.feeRatePercent, FromInteger(100), 20),
                        Divide(slippageBps, FromInteger(10_000), 20)))
  }

  // ---------------------------------------------------------------- closing and opening

  function SideOf(action: Action): Side {
    if action.Buy? then Long else Short
  }

  function Direction(signal: Side): Decimal {
    FromInteger(if signal.Long? then 1 else -1)
  }

  /** 1 + direction * rate; the exit price and the stop use the opposite direction. */
  function Plus(signal: Side, rate: Decimal): Decimal {
    Add(FromInteger(1), Multiply(Direction(signal), rate))
  }

  function Minus(signal: Side, rate: Decimal): Decimal {
    Subtract(FromInteger(1), Multiply(Direction(signal), rate))
  }

  function ExitPrice(cfg: Config, p: Position, marketExitPrice: Decimal): Decimal {
    Round(Multiply(marketExitPrice, Minus(p.signal, cfg.slippageRate)), 8)
  }

  function GrossProfit(p: Position, marketExitPrice: Decimal): Decimal {
    Round(Multiply(Direction(p.signal), Multiply(Subtract(marketExitPrice, p.marketEntryPrice), p.quantity)), 2)
  }

  function SlippageAmount(p: Position, marketExitPrice: Decimal, exitPrice: Decimal): Decimal {
    var entrySlippage := Round(Multiply(Absolute(Subtract(p.entryPrice, p.marketEntryPrice)), p.quantity), 2);
    var exitSlippage := Round(Multiply(Absolute(Subtract(exitPrice, marketExitPrice)), p.quantity), 2);
    Round(Add(entrySlippage, exitSlippage), 2)
  }

  function Notional(price: Decimal, quantity: Decimal): Decimal {
    Round(Multiply(price, quantity), 2)
  }

  function FeeAmount(cfg: Config, p: Position, exitPrice: Decimal): Decimal {
    var entryFee := Round(Multiply(cfg.feeRate, Notional(p.entryPrice, p.quantity)), 2);
    var exitFee := Round(Multiply(cfg.feeRate, Notional(exitPrice, p.quantity)), 2);
    Round(Add(entryFee, exitFee), 2)
  }

  /** The trade record a close writes; dividing by a zero equity is reported as invalid input. */
  function MakeTrade(cfg: Config, p: Position, sequence: nat, marketExitPrice: Decimal, exitTime: int,
          reason: ExitReason): Result<Trade, Error> {
    var exitPrice := ExitPrice(cfg, p, marketExitPrice);
    var grossProfit := GrossProfit(p, marketExitPrice);
    var slippageAmount := SlippageAmount(p, marketExitPrice, exitPrice);
    var feeAmount := FeeAmount(cfg, p, exitPrice);
    var profit := Round(Subtract(Subtract(grossProfit, slippageAmount), feeAmount), 2);
    var equityAfterTrade := Round(Add(p.equityBeforeTrade, profit), 2);
    if p.equityBeforeTrade.units == 0 then Failure(InvalidInput)
    else
      var resultPercent := Divide(Multiply(profit, FromInteger(100)), p.equityBeforeTrade, 8);
      Success(Trade(TradeId(cfg.input.attemptId, sequence), sequence, cfg.input.pair, cfg.input.settlementAsset,
                    cfg.input.attemptId, p.signal, p.entryTime, p.marketEntryPrice, p.entryPrice, p.stopLoss,
                      p.takeProfit,
                    exitTime, marketExitPrice, exitPrice, reason, p.quantity, Notional(p.entryPrice, p.quantity),
                    p.equityBeforeTrade, equityAfterTrade, grossProfit, feeAmount, slippageAmount, profit,
                      resultPercent,
                    if profit.units > 0 then Win else if profit.units < 0 then Loss else Breakeven))
  }

  function Close(cfg: Config, st: State, marketExitPrice: Decimal, exitTime: int, reason: ExitReason): Result<State,
          Error> {
    if st.position.None? then Success(st)
    else
      var trade :- MakeTrade(cfg, st.position.value, st.sequence + 1, marketExitPrice, exitTime, reason);
      Success(st.(equity := trade.equityAfterTrade, sequence := st.sequence + 1, trades := st.trades + [trade],
        position := None))
  }

  function Percent(value: Decimal): Decimal {
    Divide(value, FromInteger(100), 20)
  }

  function StopPrice(cfg: Config, signal: Side, marketEntryPrice: Decimal): Option<Decimal> {
    if cfg.input.stopLossPercent.None? then None
    else Some(Round(Multiply(marketEntryPrice, Minus(signal, Percent(cfg.input.stopLossPercent.value))), 8))
  }

  function TakePrice(cfg: Config, signal: Side, marketEntryPrice: Decimal): Option<Decimal> {
    if cfg.input.takeProfitPercent.None? then None
    else Some(Round(Multiply(marketEntryPrice, Plus(signal, Percent(cfg.input.takeProfitPercent.value))), 8))
  }

  predicate PositivePrice(price: Option<Decimal>) {
    price.Some? ==> price.value.units > 0
  }

  function EntryPrice(cfg: Config, signal: Side, marketEntryPrice: Decimal): Decimal {
    Round(Multiply(marketEntryPrice, Plus(signal, cfg.slippageRate)), 8)
  }

  function UnitCost(cfg: Config, entryPrice: Decimal): Decimal {
    Multiply(entryPrice, Add(FromInteger(1), cfg.feeRate))
  }

  /** The position an open creates, if the equity buys a positive quantity. */
  function MakePosition(cfg: Config, equity: Decimal, action: Action, candle: Candle,
          index: nat): Result<Option<Position>, Error> {
    var signal := SideOf(action);
    var marketEntryPrice := Round(candle.open, 8);
    var entryPrice := EntryPrice(cfg, signal, marketEntryPrice);
    var unitCost := UnitCost(cfg, entryPrice);
    if unitCost.units == 0 then Failure(InvalidInput)
    else
      var quantity := Divide(equity, unitCost, 8);
      if quantity.units <= 0 then Success(None)
      else
        var stopLoss := StopPrice(cfg, signal, marketEntryPrice);
        var takeProfit := TakePrice(cfg, signal, marketEntryPrice);
        if !PositivePrice(stopLoss) || !PositivePrice(takeProfit) then Failure(InvalidInput)
        else Success(Some(Position(signal, index, marketEntryPrice, entryPrice, candle.timestamp, quantity, equity,
          stopLoss, takeProfit)))
  }

  function Open(cfg: Config, st: State, action: Action, candle: Candle, index: nat): Result<State, Error> {
    var entered :- MakePosition(cfg, st.equity, action, candle, index);
    Success(if entered.None? then st else st.(position := entered))
  }

  // ---------------------------------------------------------------- one candle

  function Fill(cfg: Config, st: State, index: nat): Result<State, Error>
    requires index < |cfg.candles|
  {
    if st.scheduled.None? || index < cfg.warmup then Success(st)
    else
      var candle := cfg.candles[index];
      var action := st.scheduled.value;
      var closed :-
        if st.position.Some? && st.position.value.signal != SideOf(action)
        then Close(cfg, st, Round(candle.open, 8), candle.timestamp, StrategyClose)
        else Success(st);
      var entered :-
        if closed.position.None? && index < |cfg.candles| - 1 then Open(cfg, closed, action, candle, index)
        else Success(closed);
      Success(entered.(scheduled := None))
  }

  predicate StopTriggered(p: Position, candle: Candle) {
    p.stopLoss.Some? &&
    if p.signal.Long? then Round(candle.low, 8).units <= p.stopLoss.value.units
    else Round(candle.high, 8).units >= p.stopLoss.value.units
  }

  predicate TakeTriggered(p: Position, candle: Candle) {
    p.takeProfit.Some? &&
    if p.signal.Long? then Round(candle.high, 8).units >= p.takeProfit.value.units
    else Round(candle.low, 8).units <= p.takeProfit.value.units
  }

  function StopFill(p: Position, candle: Candle): Decimal
    requires p.stopLoss.Some?
  {
    var open := Round(candle.open, 8);
    var gap := if p.signal.Long? then open.units <= p.stopLoss.value.units else open.units >= p.stopLoss.value.units;
    if gap then open else p.stopLoss.value
  }

  function TakeFill(p: Position, candle: Candle): Decimal
    requires p.takeProfit.Some?
  {
    var open := Round(candle.open, 8);
    var gap := if p.signal.Long? then open.units >= p.takeProfit.value.units
      else open.units <= p.takeProfit.value.units;
    if gap then open else p.takeProfit.value
  }

  function Protect(cfg: Config, st: State, index: nat): Result<State, Error>
    requires index < |cfg.candles|
  {
    if st.position.None? || st.position.value.entryIndex >= index then Success(st)
    else
      var candle := cfg.candles[index];
      var p := st.position.value;
      if StopTriggered(p, candle) then Close(cfg, st, StopFill(p, candle), candle.timestamp, StopLoss)
      else if TakeTriggered(p, candle) then Close(cfg, st, TakeFill(p, candle), candle.timestamp, TakeProfit)
      else Success(st)
  }

  function ToStrategyCandle(c: Candle): StrategyCandle {
    StrategyCandle(c.timestamp, c.open, c.high, c.low, c.close, c.volume)
  }

  function ContextAt(cfg: Config, index: nat): StrategyContext
    requires index < |cfg.candles|
  {
    var candle := cfg.candles[index];
    StrategyContext(cfg.input.pair, cfg.input.timeframe,
                    seq(index + 1, k requires 0 <= k <= index => ToStrategyCandle(cfg.candles[k])),
                    candle.close,
                    cfg.input.sentimentAt(candle.timestamp + Milliseconds(cfg.input.timeframe)))
  }

  function Decide(cfg: Config, st: State, index: nat): Result<State, Error>
    requires index < |cfg.candles|
  {
    if index < cfg.warmup || index == |cfg.candles| - 1 then Success(st)
    else
      match cfg.input.analyze(ContextAt(cfg, index))
      case Hold => Success(st)
      case Unrecognized => Failure(InvalidSignal)
      case Act(action) =>
        Success(if st.position.None?
          || st.position.value.signal != SideOf(action) then st.(scheduled := Some(action)) else st)
  }

  function StepCandle(cfg: Config, st: State, index: nat): Result<State, Error>
    requires index < |cfg.candles|
  {
    var filled :- Fill(cfg, st, index);
    var protected :- Protect(cfg, filled, index);
    Decide(cfg, protected, index)
  }

  function Initial(input: Input): State {
    State(Round(input.initialCapital, 2), None, None, 0, [])
  }

  /** The loop state after the first `n` candles. */
  function Run(cfg: Config, n: nat): Result<State, Error>
    requires n <= |cfg.candles|
  {
    if n == 0 then Success(Initial(cfg.input))
    else
      var st :- Run(cfg, n - 1);
      StepCandle(cfg, st, n - 1)
  }

  function Finish(cfg: Config, st: State): Result<State, Error> {
    if st.position.None? || cfg.candles == [] then Success(st)
    else
      var last := cfg.candles[|cfg.candles| - 1];
      Close(cfg, st, Round(last.close, 8), last.timestamp + Milliseconds(cfg.input.timeframe), RangeEnd)
  }

  function Replay(cfg: Config): Result<State, Error> {
    var st :- Run(cfg, |cfg.candles|);
    Finish(cfg, st)
  }

  function Simulate(input: Input): Result<Completed, Error> {
    var cfg :- Prepare(input);
    var st :- Replay(cfg);
    Success(Completed(input.candidateId, input.attemptId, input.initialCapital, st.trades))
  }
}
