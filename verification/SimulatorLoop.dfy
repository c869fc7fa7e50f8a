/** The simulator as the program runs it: one mutable record, updated by closures inside an index loop. */
module SimulatorLoop {
  import opened Wrappers
  import opened Decimals
  import opened Simulator

  class Simulation {
    const cfg: Config
    var equity: Decimal
    var position: Option<Position>
    var scheduled: Option<Action>
    var sequence: nat
    var trades: seq<Trade>

    function Now(): State
      reads this
    {
      State(equity, position, scheduled, sequence, trades)
    }

    /** How a step's outcome and the new fields relate to the state the specification reaches. */
    ghost predicate Reached(outcome: Outcome<Error>, spec: Result<State, Error>)
      reads this
    {
      match spec
      case Success(st) => outcome.Pass? && Now() == st
      case Failure(e) => outcome == Fail(e)
    }

    constructor (cfg: Config)
      ensures this.cfg == cfg && Now() == Initial(cfg.input)
    {
      this.cfg := cfg;
      equity := Round(cfg.input.initialCapital, 2);
      position, scheduled, sequence, trades := None, None, 0, [];
    }

    method ClosePosition(marketExitPrice: Decimal, exitTime: int,
            exitReason: ExitReason) returns (outcome: Outcome<Error>)
      modifies this
      ensures Reached(outcome, Close(cfg, old(Now()), marketExitPrice, exitTime, exitReason))
    {
      hide MakeTrade;
      if position.None? { return Pass; }
      var trade := MakeTrade(cfg, position.value, sequence + 1, marketExitPrice, exitTime, exitReason);
      if trade.Failure? { return Fail(trade.error); }
      equity := trade.value.equityAfterTrade;
      sequence := sequence + 1;
      trades := trades + [trade.value];
      position := None;
      return Pass;
    }

    method OpenPosition(action: Action, candle: Candle, index: nat) returns (outcome: Outcome<Error>)
      modifies this
      ensures Reached(outcome, Open(cfg, old(Now()), action, candle, index))
    {
      hide MakePosition;
      var entered := MakePosition(cfg, equity, action, candle, index);
      if entered.Failure? { return Fail(entered.error); }
      if entered.value.None? { return Pass; }
      position := entered.value;
      return Pass;
    }

    method FillScheduled(index: nat) returns (outcome: Outcome<Error>)
      requires index < |cfg.candles|
      modifies this
      ensures Reached(outcome, Fill(cfg, old(Now()), index))
    {
      hide MakeTrade, Open;
      outcome := Pass;
      if scheduled.Some? && index >= cfg.warmup {
        var candle, desired := cfg.candles[index], SideOf(scheduled.value);
        if position.Some? && position.value.signal != desired {
          outcome := ClosePosition(Round(candle.open, 8), candle.timestamp, StrategyClose);
          if outcome.Fail? { return; }
        }
        if position.None? && index < |cfg.candles| - 1 {
          outcome := OpenPosition(scheduled.value, candle, index);
          if outcome.Fail? { return; }
        }
        scheduled := None;
      }
    }

    method ProtectPosition(index: nat) returns (outcome: Outcome<Error>)
      requires index < |cfg.candles|
      modifies this
      ensures Reached(outcome, Protect(cfg, old(Now()), index))
    {
      hide Close;
      outcome := Pass;
      if position.Some? && position.value.entryIndex < index {
        var candle, p := cfg.candles[index], position.value;
        if StopTriggered(p, candle) {
          outcome := ClosePosition(StopFill(p, candle), candle.timestamp, StopLoss);
        } else if TakeTriggered(p, candle) {
          outcome := ClosePosition(TakeFill(p, candle), candle.timestamp, TakeProfit);
        }
      }
    }

    method ScheduleSignal(index: nat) returns (outcome: Outcome<Error>)
      requires index < |cfg.candles|
      modifies this
      ensures Reached(outcome, Decide(cfg, old(Now()), index))
    {
      if index < cfg.warmup || index == |cfg.candles| - 1 { return Pass; }
      var signal := cfg.input.analyze(ContextAt(cfg, index));
      if signal.Hold? { return Pass; }
      if signal.Unrecognized? { return Fail(InvalidSignal); }
      if position.None? || position.value.signal != SideOf(signal.action) {
        scheduled := Some(signal.action);
      }
      return Pass;
    }

    method ProcessCandle(index: nat) returns (outcome: Outcome<Error>)
      requires index < |cfg.candles|
      modifies this
      ensures Reached(outcome, StepCandle(cfg, old(Now()), index))
    {
      hide Fill, Protect, Decide;
      outcome := FillScheduled(index);
      if outcome.Fail? { return; }
      outcome := ProtectPosition(index);
      if outcome.Fail? { return; }
      outcome := ScheduleSignal(index);
    }

    method RunLoop() returns (outcome: Outcome<Error>)
      requires Now() == Initial(cfg.input)
      modifies this
      ensures Reached(outcome, Replay(cfg))
    {
      hide StepCandle, Close;
      var index := 0;
      while index < |cfg.candles|
        invariant index <= |cfg.candles|
        invariant Run(cfg, index) == Success(Now())
      {
        outcome := ProcessCandle(index);
        if outcome.Fail? { StopsAt(cfg, index + 1); return; }
        index := index + 1;
      }
      outcome := Pass;
      if position.Some? && |cfg.candles| > 0 {
        var last := cfg.candles[|cfg.candles| - 1];
        outcome := ClosePosition(Round(last.close, 8), last.timestamp + Milliseconds(cfg.input.timeframe), RangeEnd);
      }
    }
  }

  /** A failure at some candle is the failure of the whole replay. */
  lemma {:induction false} StopsAt(cfg: Config, n: nat)
    requires n <= |cfg.candles| && Run(cfg, n).Failure?
    ensures Replay(cfg) == Failure(Run(cfg, n).error)
    decreases |cfg.candles| - n
  {
    if n < |cfg.candles| {
      StopsAt(cfg, n + 1);
    }
  }

  method SimulateBacktest(input: Input) returns (r: Result<Completed, Error>)
    ensures r == Simulate(input)
  {
    var cfg := Prepare(input);
    if cfg.Failure? { return Failure(cfg.error); }
    var simulation := new Simulation(cfg.value);
    var outcome := simulation.RunLoop();
    if outcome.Fail? { return Failure(outcome.error); }
    r := Success(Completed(input.candidateId, input.attemptId, input.initialCapital, simulation.trades));
  }
}
