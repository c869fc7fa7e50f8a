/** What the reports say about a simulated backtest: its ending equity, and its trades read page by page. */
module SimulatorReports {
  import opened Wrappers
  import opened Decimals
  import opened Simulator
  import opened SimulatorLedger
  import opened SimulatorMoney
  import opened SimulatorFills
  import TradePages
  import opened Drawdown

  /** The trades as the report reads them. */
  function Bookings(trades: seq<Trade>): seq<Booking> {
    if trades == [] then []
    else
      var t := trades[|trades| - 1];
      Bookings(trades[..|trades| - 1]) + [Booking(Val(t.profit), Val(t.equityAfterTrade), t.result)]
  }

  ghost predicate ProfitsInCents(trades: seq<Trade>) {
    forall j | 0 <= j < |trades| :: trades[j].profit.scale == 2
  }

  lemma {:induction false} BookedTotal(trades: seq<Trade>)
    requires ProfitsInCents(trades)
    ensures Total(Bookings(trades)) == ProfitCents(trades) as real / 100.0
    decreases |trades|
  {
    if trades != [] {
      var n := |trades| - 1;
      var t := trades[n];
      BookedTotal(trades[..n]);
      var last := Booking(Val(t.profit), Val(t.equityAfterTrade), t.result);
      TotalAppend(Bookings(trades[..n]), last);
      TenTwo();
      hide Ten;
      assert Val(t.profit) == t.profit.units as real / 100.0;
    }
  }

  lemma TotalAppend(bookings: seq<Booking>, b: Booking)
    ensures Total(bookings + [b]) == Total(bookings) + b.profit
  {
    assert (bookings + [b])[..|bookings|] == bookings;
  }

  predicate Half(x: real) {
    x - x.Floor as real == 0.5
  }

  /** Rounding commutes with adding whole units, unless a tie is carried below zero. */
  lemma RoundShift(x: real, k: int)
    requires x >= 0.0
    ensures HalfAway(x + k as real) == HalfAway(x) + k <==> x + k as real >= 0.0 || !Half(x)
  {
    var n := x.Floor;
    var f, up := x - n as real, if x - n as real >= 0.5 then 1 else 0;
    FloorIs(x + 0.5, n + up);
    if x + k as real >= 0.0 {
      FloorIs(x + k as real + 0.5, n + up + k);
    } else {
      FloorIs(0.5 - (x + k as real), -n - k - if f > 0.5 then 1 else 0);
    }
  }

  lemma FloorIs(x: real, n: int)
    requires n as real <= x < n as real + 1.0
    ensures x.Floor == n
  {
  }

  /** The ending equity of the report, in cents. */
  function EndingCents(input: Input, trades: seq<Trade>): int {
    HalfAway((Val(input.initialCapital) + Total(Bookings(trades))) * 100.0)
  }

  lemma CapitalPositive(input: Input)
    requires Prepare(input).Success?
    ensures Val(input.initialCapital) >= 0.0
  {
    hide ValidCandles, SortByTime, Divide, Ten;
  }

  lemma CapitalCents(capital: Decimal)
    ensures Round(capital, 2).units == HalfAway(Val(capital) * 100.0)
  {
    hide Round, Val, HalfAway, Ten;
    RoundIsNearest(capital, 2);
    TenTwo();
  }

  /**
   * The report's ending equity is the simulator's final equity, which the last trade ends with, exactly when the
   * capital has no half cent or the account does not end below zero.
   */
  lemma EndingEquityMatches(input: Input)
    requires Simulate(input).Success?
    ensures var trades, final := Simulate(input).value.trades, Replay(Prepare(input).value).value.equity;
      && final.scale == 2 && (trades != [] ==> trades[|trades| - 1].equityAfterTrade == final)
      && (EndingCents(input, trades) == final.units <==>
            Val(input.initialCapital) + Total(Bookings(trades)) >= 0.0 || !Half(Val(input.initialCapital) * 100.0))
  {
    hide Prepare, Replay, Booked, Ledger, EquityAfter, Round, Val, Total, Bookings, HalfAway, Half, Increasing;
    var cfg := Prepare(input).value;
    var trades := Simulate(input).value.trades;
    MoneyConserved(input);
    AllInCents(input, trades);
    BookedTotal(trades);
    CapitalPositive(input);
    CapitalCents(input.initialCapital);
    PrepareIncreasing(input);
    ReplayLedger(cfg);
    LastEquity(cfg, trades);
    var x, k := Val(input.initialCapital) * 100.0, ProfitCents(trades);
    RoundShift(x, k);
    assert (Val(input.initialCapital) + k as real / 100.0) * 100.0 == x + k as real;
  }

  lemma LastEquity(cfg: Config, trades: seq<Trade>)
    ensures trades != [] ==> EquityAfter(cfg, trades) == trades[|trades| - 1].equityAfterTrade
  {
  }

  lemma AllInCents(input: Input, trades: seq<Trade>)
    requires forall j | 0 <= j < |trades| :: Booked(input, trades, j)
    ensures ProfitsInCents(trades)
  {
    hide Round;
    forall j | 0 <= j < |trades|
      ensures trades[j].profit.scale == 2
    {
      assert Booked(input, trades, j);
    }
  }

  // ---------------------------------------------------------------- a backtest whose report is a cent off

  lemma RoundsTo(d: Decimal, scale: nat, units: int)
    requires Val(d) * Ten(scale) == units as real
    ensures Round(d, scale) == Decimal(units, scale)
  {
    hide Round, Val, Ten;
    RoundIsNearest(d, scale);
    HalfAwayOfInteger(units);
  }

  lemma {:induction false} SortedStays(candles: seq<Candle>)
    requires Increasing(candles) && forall c | c in candles :: c.isClosed
    ensures SortByTime(ClosedCandles(candles)) == candles
    decreases |candles|
  {
    if candles != [] {
      SortedStays(candles[1..]);
      assert candles == [candles[0]] + candles[1..];
      AllClosed(candles);
      AllClosed(candles[1..]);
    }
  }

  lemma {:induction false} AllClosed(candles: seq<Candle>)
    requires forall c | c in candles :: c.isClosed
    ensures ClosedCandles(candles) == candles
  {
    if candles != [] {
      AllClosed(candles[1..]);
      assert candles == [candles[0]] + candles[1..];
    }
  }

  /** Opens at one, closes at four and an eighth. */
  function Soaring(timestamp: int): Candle {
    Candle("BTC/USDT", M1, timestamp, Decimal(1, 0), Decimal(4125, 3), Decimal(1, 0), Decimal(4125, 3), Decimal(0, 0),
      true)
  }

  /** A capital of 0.875, no costs, and a strategy that goes short. */
  function Shorting(): Input {
    Input("candidate", "attempt", "BTC/USDT", "USDT", M1, [Soaring(0), Soaring(60_000), Soaring(120_000)], None,
          (_: StrategyContext) => Act(Sell), (_: int) => None,
          Decimal(875, 3), Decimal(0, 0), Some(Decimal(0, 0)), None, None)
  }

  function Prepared(): Config {
    Config(Shorting(), Shorting().candles, 0, Decimal(0, 20), Decimal(0, 20))
  }

  lemma ZeroQuotient(d: int)
    requires d > 0
    ensures Divide(Decimal(0, 0), Decimal(d, 0), 20) == Decimal(0, 20)
  {
    assert Val(Decimal(0, 0)) == 0.0;
    hide Divide, Val, Ten;
    DivideIsNearest(Decimal(0, 0), Decimal(d, 0), 20, 0.0);
    HalfAwayOfInteger(0);
  }

  lemma ShortingPrepares()
    ensures Prepare(Shorting()) == Success(Prepared())
  {
    hide Divide, SortByTime, ClosedCandles;
    SortedStays(Shorting().candles);
    assert PowerOfTen(3) == 10 * PowerOfTen(2) == 100 * PowerOfTen(1) == 1000;
    ZeroQuotient(100);
    ZeroQuotient(10_000);
    assert 'U' in "USDT" by { assert "USDT"[0] == 'U'; }
  }

  /** The position that is entered at the open of the second candle. */
  function Entry(): Position {
    Position(Short, 1, Decimal(100_000_000, 8), Decimal(100_000_000, 8), 60_000, Decimal(88_000_000, 8),
      Decimal(88, 2), None, None)
  }

  lemma Values()
    ensures Val(Decimal(100_000_000, 8)) == 1.0 && Val(Decimal(412_500_000, 8)) == 4.125
      && Val(Decimal(88_000_000, 8)) == 0.88
    ensures Val(Decimal(88, 2)) == 0.88 && Val(Decimal(0, 20)) == 0.0 && Val(Decimal(1, 0)) == 1.0
      && Val(Decimal(-1, 0)) == -1.0
    ensures Val(Decimal(4125, 3)) == 4.125 && Val(Decimal(875, 3)) == 0.875
  {
    TenTwo();
    TenEight();
    TenAdd(2, 1);
    assert Ten(1) == 10.0 && Ten(0) == 1.0;
    hide Ten;
    assert 0.0 / Ten(20) == 0.0;
  }

  /** Without slippage the factor on a price is one, whatever the direction. */
  lemma NoSlippageFactor()
    ensures Val(Plus(Short, Decimal(0, 20))) == 1.0 == Val(Minus(Short, Decimal(0, 20)))
    ensures Val(Add(FromInteger(1), Decimal(0, 20))) == 1.0
  {
    Values();
    hide Val, Add, Multiply, Subtract;
    var slip := Multiply(Direction(Short), Decimal(0, 20));
    MultiplyExact(Direction(Short), Decimal(0, 20));
    AddExact(FromInteger(1), slip);
    SubtractExact(FromInteger(1), slip);
    AddExact(FromInteger(1), Decimal(0, 20));
  }

  lemma ShortingEnters()
    ensures MakePosition(Prepared(), Decimal(88, 2), Sell, Soaring(60_000), 1) == Success(Some(Entry()))
  {
    Values();
    TenEight();
    NoSlippageFactor();
    hide Val, Ten, Round, Divide, Multiply, Add, Plus, Minus;
    var cfg, market := Prepared(), Decimal(100_000_000, 8);
    RoundsTo(Decimal(1, 0), 8, 100_000_000);
    MultiplyExact(market, Plus(Short, cfg.slippageRate));
    RoundsTo(Multiply(market, Plus(Short, cfg.slippageRate)), 8, 100_000_000);
    MultiplyExact(market, Add(FromInteger(1), cfg.feeRate));
    var cost := UnitCost(cfg, market);
    SignOfValue(cost);
    DivideIsNearest(Decimal(88, 2), cost, 8, 0.88);
    HalfAwayOfInteger(88_000_000);
  }
  /** What a product rounds to. */
  lemma ProductRounds(a: Decimal, b: Decimal, scale: nat, units: int)
    requires Val(a) * Val(b) * Ten(scale) == units as real
    ensures Round(Multiply(a, b), scale) == Decimal(units, scale)
  {
    hide Val, Ten, Round, Multiply;
    MultiplyExact(a, b);
    RoundsTo(Multiply(a, b), scale, units);
  }

  lemma ShortingGross()
    ensures GrossProfit(Entry(), Decimal(412_500_000, 8)) == Decimal(-275, 2)
  {
    Values();
    TenTwo();
    hide Val, Ten, Round, Multiply, Subtract;
    var exit, p := Decimal(412_500_000, 8), Entry();
    SubtractExact(exit, p.marketEntryPrice);
    MultiplyExact(Subtract(exit, p.marketEntryPrice), p.quantity);
    ProductRounds(Direction(Short), Multiply(Subtract(exit, p.marketEntryPrice), p.quantity), 2, -275);
  }

  lemma ShortingExitPrice()
    ensures ExitPrice(Prepared(), Entry(), Decimal(412_500_000, 8)) == Decimal(412_500_000, 8)
  {
    Values();
    TenEight();
    NoSlippageFactor();
    hide Val, Ten, Round, Multiply, Minus;
    ProductRounds(Decimal(412_500_000, 8), Minus(Short, Prepared().slippageRate), 8, 412_500_000);
  }

  /** A price moved by nothing costs nothing, and neither does a fee of nothing. */
  lemma NoCosts(price: Decimal, quantity: Decimal, notional: Decimal)
    ensures Round(Multiply(Absolute(Subtract(price, price)), quantity), 2) == Decimal(0, 2)
    ensures Round(Multiply(Decimal(0, 20), notional), 2) == Decimal(0, 2)
    ensures Round(Add(Decimal(0, 2), Decimal(0, 2)), 2) == Decimal(0, 2)
  {
    hide *;
    SubtractExact(price, price);
    AbsoluteExact(Subtract(price, price));
    AddExact(Decimal(0, 2), Decimal(0, 2));
    Zero(2);
    Zero(20);
    ProductRounds(Absolute(Subtract(price, price)), quantity, 2, 0);
    ProductRounds(Decimal(0, 20), notional, 2, 0);
    RoundsTo(Add(Decimal(0, 2), Decimal(0, 2)), 2, 0);
  }

  lemma Zero(scale: nat)
    ensures Val(Decimal(0, scale)) == 0.0
  {
    hide Ten;
  }

  lemma ShortingProfit()
    ensures var t := MakeTrade(Prepared(), Entry(), 1, Decimal(412_500_000, 8), 180_000, RangeEnd);
      t.Success? && t.value.profit == Decimal(-275, 2)
  {
    hide Val, Ten, Round, Multiply, Absolute, Subtract, Add, GrossProfit, ExitPrice, Divide, Notional;
    var cfg, p, exit := Prepared(), Entry(), Decimal(412_500_000, 8);
    ShortingGross();
    ShortingExitPrice();
    NoCosts(p.entryPrice, p.quantity, Notional(p.entryPrice, p.quantity));
    NoCosts(exit, p.quantity, Notional(exit, p.quantity));
    assert SlippageAmount(p, exit, exit) == Decimal(0, 2);
    assert FeeAmount(cfg, p, exit) == Decimal(0, 2);
    NetOfNothing(Decimal(-275, 2));
  }

  lemma NetOfNothing(gross: Decimal)
    requires gross.scale == 2
    ensures Round(Subtract(Subtract(gross, Decimal(0, 2)), Decimal(0, 2)), 2) == gross
  {
    hide *;
    Zero(2);
    SubtractExact(gross, Decimal(0, 2));
    SubtractExact(Subtract(gross, Decimal(0, 2)), Decimal(0, 2));
    ScaledValue(gross);
    RoundsTo(Subtract(Subtract(gross, Decimal(0, 2)), Decimal(0, 2)), 2, gross.units);
  }

  function Started(): State {
    State(Decimal(88, 2), None, None, 0, [])
  }

  lemma ShortingRun()
    ensures Run(Prepared(), 3) == Success(Started().(position := Some(Entry())))
  {
    var cfg := Prepared();
    ShortingStarts();
    ShortingEnters();
    hide MakePosition, Round;
    assert Run(cfg, 0) == Success(Started());
    assert StepCandle(cfg, Started(), 0) == Success(Started().(scheduled := Some(Sell)));
    assert Run(cfg, 1) == Success(Started().(scheduled := Some(Sell)));
    assert StepCandle(cfg, Started().(scheduled := Some(Sell)), 1) == Success(Started().(position := Some(Entry())));
    assert Run(cfg, 2) == Success(Started().(position := Some(Entry())));
    assert StepCandle(cfg, Started().(position := Some(Entry())), 2) == Success(Started().(position := Some(Entry())));
  }

  lemma ShortingStarts()
    ensures Initial(Shorting()) == Started()
  {
    assert PowerOfTen(1) == 10;
  }

  lemma ClosesThere()
    ensures Round(Decimal(4125, 3), 8) == Decimal(412_500_000, 8)
  {
    hide *;
    Values();
    TenEight();
    RoundsTo(Decimal(4125, 3), 8, 412_500_000);
  }

  lemma ShortingResult()
    ensures Simulate(Shorting()).Success?
    ensures var trades := Simulate(Shorting()).value.trades; |trades| == 1 && trades[0].profit == Decimal(-275, 2)
  {
    hide Prepare, Run, MakeTrade, Round, Val, Ten;
    ShortingPrepares();
    ShortingRun();
    ShortingProfit();
    ClosesThere();
  }

  /** The account ends at -1.875, a tie. */
  lemma ShortingTie()
    ensures var x := Val(Shorting().initialCapital); x + Val(Decimal(-275, 2)) < 0.0 && Half(x * 100.0)
  {
    Values();
    TenTwo();
    hide Ten;
    assert Val(Decimal(-275, 2)) == -2.75;
    assert (0.875 * 100.0).Floor == 87;
  }

  /** Going short on a price that more than doubles: the report's ending equity is not the simulator's. */
  lemma EndingEquityDiffers()
    ensures var input := Shorting();
      && Simulate(input).Success?
      && EndingCents(input, Simulate(input).value.trades) != Replay(Prepare(input).value).value.equity.units
  {
    hide Shorting, Simulate, Replay, Prepare, Val, Ten, EndingCents, Total, Bookings, Half;
    ShortingResult();
    ShortingTie();
    TotalOfOne(Simulate(Shorting()).value.trades);
    EndingEquityMatches(Shorting());
  }

  lemma TotalOfOne(trades: seq<Trade>)
    requires |trades| == 1
    ensures Total(Bookings(trades)) == Val(trades[0].profit)
  {
    hide Val;
    assert trades[..0] == [];
    assert Bookings(trades) == [Booking(Val(trades[0].profit), Val(trades[0].equityAfterTrade), trades[0].result)];
    TotalAppend([], Bookings(trades)[0]);
    assert [] + [Bookings(trades)[0]] == Bookings(trades);
  }

  // ---------------------------------------------------------------- pages

  /** The sort keys of the trades; `place` puts identifiers in text order. */
  function Keys(trades: seq<Trade>, place: TradeId -> int): seq<TradePages.Key> {
    if trades == [] then []
    else
      var t := trades[|trades| - 1];
      Keys(trades[..|trades| - 1], place) + [TradePages.Key(t.entryTime, t.sequence, place(t.id))]
  }

  lemma {:induction false} KeyAt(trades: seq<Trade>, place: TradeId -> int)
    ensures |Keys(trades, place)| == |trades|
    ensures forall j | 0 <= j < |trades| :: Keys(trades, place)[j].sequence == trades[j].sequence
  {
    if trades != [] { KeyAt(trades[..|trades| - 1], place); }
  }

  /**
   * Paging through the trades of a simulated backtest comes to an end and lists each of them once, whatever the page
   * size.
   */
  lemma SimulatedTradesPage(input: Input, place: TradeId -> int, limit: int, owner: string, resource: string, n: nat)
    requires Simulate(input).Success? && 1 <= limit <= TradePages.PAGE_MAX && n > |Simulate(input).value.trades|
    ensures var keys := Keys(Simulate(input).value.trades, place);
      var walk := TradePages.WalkPages(keys, limit, None, owner, resource, n);
      walk.ended && multiset(walk.items) == multiset(keys) && TradePages.Unique(walk.items)
  {
    var trades := Simulate(input).value.trades;
    forall j | 0 <= j < |trades|
      ensures trades[j].sequence == j + 1
    {
      hide Simulate, Prepare, Attainable;
      TradesWellFormed(input, j);
    }
    KeyAt(trades, place);
    hide Simulate, Keys;
    TradePages.WalkListsAll(Keys(trades, place), limit, owner, resource, n);
  }
}
