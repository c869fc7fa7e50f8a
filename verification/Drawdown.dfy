/**
 * Two summaries of a backtest: amounts in cents along the equity curve, and percentages along the compounded returns.
 */
module Drawdown {
  import opened Wrappers
  import opened Decimals
  import opened Simulator

  // ---------------------------------------------------------------- amounts

  /** What the projection reads of a trade. */
  datatype Booking = Booking(profit: real, equityAfterTrade: real, result: TradeResult)

  datatype Projection = Projection(
    initialCapital: real, totalProfitAmount: real, endingEquity: real, wins: nat, losses: nat, breakevens: nat,
      maxDrawdownAmount: real)

  /** Two fraction digits, ties away from zero. */
  function RoundMoney(value: real): real {
    HalfAway(value * 100.0) as real / 100.0
  }

  /** A whole number of cents; none is nearer, and one equally near is the smaller amount. */
  lemma RoundMoneyIsNearest(value: real, cents: int)
    ensures (RoundMoney(value) * 100.0).Floor as real == RoundMoney(value) * 100.0
    ensures -0.005 <= RoundMoney(value) - value <= 0.005
    ensures var other := cents as real / 100.0;
      && Magnitude(value - RoundMoney(value)) <= Magnitude(value - other)
      && (Magnitude(value - RoundMoney(value)) == Magnitude(value - other) && other != RoundMoney(value) ==>
            Magnitude(other) < Magnitude(RoundMoney(value)))
  {
    HalfAwayNearest(value * 100.0, cents);
    hide HalfAway;
  }

  function Magnitude(x: real): real {
    if x < 0.0 then -x else x
  }

  function Total(trades: seq<Booking>): real {
    if trades == [] then 0.0 else Total(trades[..|trades| - 1]) + trades[|trades| - 1].profit
  }

  function Count(trades: seq<Booking>, result: TradeResult): nat {
    if trades == [] then 0 else Count(trades[..|trades| - 1], result) + if trades[|trades| - 1].result == result then 1
      else 0
  }

  /** The total grows by each trade's profit. */
  lemma TotalAdds(trades: seq<Booking>, t: Booking)
    ensures Total([]) == 0.0 && Total(trades + [t]) == Total(trades) + t.profit
  {
    assert (trades + [t])[..|trades|] == trades;
  }

  /** The trades with this result, by position. */
  function WithResult(trades: seq<Booking>, result: TradeResult): set<nat> {
    set i: nat | i < |trades| && trades[i].result == result
  }

  /** A count is the number of trades with that result. */
  lemma {:induction false} CountIsNumber(trades: seq<Booking>, result: TradeResult)
    ensures Count(trades, result) == |WithResult(trades, result)|
    decreases |trades|
  {
    if trades == [] {
      assert WithResult(trades, result) == {};
    } else {
      var n := |trades| - 1;
      CountIsNumber(trades[..n], result);
      assert WithResult(trades, result) == WithResult(trades[..n], result) + if trades[n].result == result then {n}
        else {};
    }
  }

  /** The capital at the start and the equity after each trade. */
  function Curve(initialCapital: real, trades: seq<Booking>): seq<real> {
    if trades == [] then [initialCapital]
      else Curve(initialCapital, trades[..|trades| - 1]) + [trades[|trades| - 1].equityAfterTrade]
  }

  /** `d` is the deepest fall from any point of the curve to any later one. */
  ghost predicate DeepestFall(curve: seq<real>, d: real) {
    && (forall i, j | 0 <= i <= j < |curve| :: curve[i] - curve[j] <= d)
    && (exists i, j :: 0 <= i <= j < |curve| && curve[i] - curve[j] == d)
  }

  predicate Highest(curve: seq<real>, peak: real) {
    (forall i | 0 <= i < |curve| :: curve[i] <= peak) && exists i :: 0 <= i < |curve| && curve[i] == peak
  }

  function Larger(a: real, b: real): real {
    if a >= b then a else b
  }

  lemma FallExtends(curve: seq<real>, peak: real, d: real, e: real)
    requires Highest(curve, peak) && DeepestFall(curve, d)
    ensures Highest(curve + [e], Larger(peak, e))
    ensures DeepestFall(curve + [e], Larger(d, Larger(peak, e) - e))
  {
    var longer, n := curve + [e], |curve|;
    var top := Larger(peak, e);
    HighestExtends(curve, peak, e);
    var k :| 0 <= k < |longer| && longer[k] == top;
    var i, j :| 0 <= i <= j < n && curve[i] - curve[j] == d;
    assert longer[i] - longer[j] == d;
    assert longer[k] - longer[n] == top - e;
  }

  /** One trade more: every running total stays what it means. */
  lemma BookingStep(initialCapital: real, trades: seq<Booking>, k: nat, peak: real, d: real)
    requires k < |trades| && Highest(Curve(initialCapital, trades[..k]), peak)
      && DeepestFall(Curve(initialCapital, trades[..k]), d)
    ensures var top := Larger(peak, trades[k].equityAfterTrade);
      Highest(Curve(initialCapital, trades[..k + 1]), top)
        && DeepestFall(Curve(initialCapital, trades[..k + 1]), Larger(d, top - trades[k].equityAfterTrade))
    ensures Total(trades[..k + 1]) == Total(trades[..k]) + trades[k].profit
    ensures forall result ::
      Count(trades[..k + 1], result) == Count(trades[..k], result) + if trades[k].result == result then 1 else 0
  {
    assert trades[..k + 1][..k] == trades[..k];
    hide Highest, DeepestFall, Larger;
    FallExtends(Curve(initialCapital, trades[..k]), peak, d, trades[k].equityAfterTrade);
  }

  lemma NothingBooked(initialCapital: real)
    ensures Highest(Curve(initialCapital, []), initialCapital) && DeepestFall(Curve(initialCapital, []), 0.0)
    ensures Total([]) == 0.0 && forall result :: Count([], result) == 0
  {
    var curve := Curve(initialCapital, []);
    assert curve[0] == initialCapital && curve[0] - curve[0] == 0.0;
  }

  method AmountProjection(initialCapital: real, trades: seq<Booking>) returns (r: Projection)
    ensures r.initialCapital == RoundMoney(initialCapital)
    ensures r.totalProfitAmount == RoundMoney(Total(trades))
      && r.endingEquity == RoundMoney(initialCapital + Total(trades))
    ensures r.wins == Count(trades, Win) && r.losses == Count(trades, Loss) && r.breakevens == Count(trades, Breakeven)
    ensures exists d: real :: DeepestFall(Curve(initialCapital, trades), d) && r.maxDrawdownAmount == RoundMoney(d)
  {
    hide *;
    var totalProfitAmount, peak, maxDrawdownAmount := 0.0, initialCapital, 0.0;
    var wins, losses, breakevens := 0, 0, 0;
    var k := 0;
    NothingBooked(initialCapital);
    while k < |trades|
      invariant 0 <= k <= |trades|
      invariant totalProfitAmount == Total(trades[..k])
      invariant wins == Count(trades[..k], Win) && losses == Count(trades[..k], Loss)
        && breakevens == Count(trades[..k], Breakeven)
      invariant Highest(Curve(initialCapital, trades[..k]), peak)
      invariant DeepestFall(Curve(initialCapital, trades[..k]), maxDrawdownAmount)
    {
      var trade := trades[k];
      BookingStep(initialCapital, trades, k, peak, maxDrawdownAmount);
      totalProfitAmount := totalProfitAmount + trade.profit;
      peak := Larger(peak, trade.equityAfterTrade);
      maxDrawdownAmount := Larger(maxDrawdownAmount, peak - trade.equityAfterTrade);
      match trade.result {
        case Win => wins := wins + 1;
        case Loss => losses := losses + 1;
        case Breakeven => breakevens := breakevens + 1;
      }
      k := k + 1;
    }
    assert trades[..k] == trades;
    r := Projection(RoundMoney(initialCapital), RoundMoney(totalProfitAmount),
      RoundMoney(initialCapital + totalProfitAmount), wins, losses, breakevens,
                    RoundMoney(maxDrawdownAmount));
  }

  // ---------------------------------------------------------------- percentages

  datatype ProfitFactorStatus = NoTrades | Finite | NoLosses | NoGrossMovement

  datatype Metrics = Metrics(
    totalReturnPercent: real, winRatePercent: real, numberOfTrades: nat, maxDrawdownPercent: real,
      profitFactor: Option<real>, profitFactorStatus: ProfitFactorStatus)

  function Compound(factor: real, result: real): real {
    factor * (1.0 + result / 100.0)
  }

  /** The compounded factor after each return, from one. */
  function Factors(results: seq<real>): seq<real>
    ensures |Factors(results)| == |results| + 1
  {
    if results == [] then [1.0]
    else
      var before := Factors(results[..|results| - 1]);
      before + [Compound(before[|before| - 1], results[|results| - 1])]
  }

  function Gains(results: seq<real>): real {
    if results == [] then 0.0 else Gains(results[..|results| - 1]) + if results[|results| - 1] > 0.0
      then results[|results| - 1] else 0.0
  }

  function Losses(results: seq<real>): real {
    if results == [] then 0.0 else Losses(results[..|results| - 1]) + if results[|results| - 1] < 0.0
      then -results[|results| - 1] else 0.0
  }

  function Winners(results: seq<real>): nat {
    if results == [] then 0 else Winners(results[..|results| - 1]) + if results[|results| - 1] > 0.0 then 1 else 0
  }

  /** Each factor is the one before it, changed by as many hundredths of it as the return says. */
  lemma {:induction false} FactorsCompound(results: seq<real>, k: nat)
    requires k < |results|
    ensures Factors(results)[0] == 1.0
    ensures Factors(results)[k + 1] - Factors(results)[k] == Factors(results)[k] * (results[k] / 100.0)
    decreases |results|
  {
    var n := |results| - 1;
    var before := Factors(results[..n]);
    assert Factors(results)[..n + 1] == before;
    if k < n {
      FactorsCompound(results[..n], k);
    } else {
      OneMore(before[n], results[n] / 100.0);
      if n > 0 { FactorsCompound(results[..n], 0); }
    }
  }

  lemma OneMore(f: real, x: real)
    ensures f * (1.0 + x) - f == f * x
  {
  }

  /** A positive return adds itself to the gains, a negative one its size to the losses, and neither anything else. */
  lemma GainsAndLosses(results: seq<real>, x: real)
    ensures Gains([]) == 0.0 == Losses([])
    ensures Gains(results + [x]) - Losses(results + [x]) == Gains(results) - Losses(results) + x
    ensures x >= 0.0 ==> Losses(results + [x]) == Losses(results)
    ensures x <= 0.0 ==> Gains(results + [x]) == Gains(results)
  {
    assert (results + [x])[..|results|] == results;
  }

  /** The positive returns, by position. */
  function Positive(results: seq<real>): set<nat> {
    set i: nat | i < |results| && results[i] > 0.0
  }

  lemma {:induction false} WinnersIsNumber(results: seq<real>)
    ensures Winners(results) == |Positive(results)|
    decreases |results|
  {
    if results == [] {
      assert Positive(results) == {};
    } else {
      var n := |results| - 1;
      WinnersIsNumber(results[..n]);
      assert Positive(results) == Positive(results[..n]) + if results[n] > 0.0 then {n} else {};
    }
  }

  /** The fall from `a` to `b`, in percent of `a`. */
  function FallPercent(a: real, b: real): real {
    if a == 0.0 then 0.0 else (a - b) / a * 100.0
  }

  /** `d` is the deepest percentage fall from any point of the curve to any later one. */
  ghost predicate DeepestFallPercent(curve: seq<real>, d: real) {
    && (forall i, j | 0 <= i <= j < |curve| :: FallPercent(curve[i], curve[j]) <= d)
    && (exists i, j :: 0 <= i <= j < |curve| && FallPercent(curve[i], curve[j]) == d)
  }

  /** The highest point of a curve. */
  function Peak(curve: seq<real>): real
    requires curve != []
  {
    if |curve| == 1 then curve[0] else Larger(Peak(curve[..|curve| - 1]), curve[|curve| - 1])
  }

  /** The fall to point `k` from the highest point up to it. */
  function RunningFall(curve: seq<real>, k: nat): real
    requires k < |curve|
  {
    FallPercent(Peak(curve[..k + 1]), curve[k])
  }

  /** `d` is the deepest fall from a running peak. */
  ghost predicate DeepestRunningFall(curve: seq<real>, d: real) {
    && (forall k | 0 <= k < |curve| :: RunningFall(curve, k) <= d)
    && (exists k :: 0 <= k < |curve| && RunningFall(curve, k) == d)
  }

  /** `d` is the deepest percentage fall from any positive point of the curve to any later one. */
  ghost predicate DeepestPositiveFall(curve: seq<real>, d: real) {
    && (forall i, j | 0 <= i <= j < |curve| && curve[i] > 0.0 :: FallPercent(curve[i], curve[j]) <= d)
    && (exists i, j :: 0 <= i <= j < |curve| && curve[i] > 0.0 && FallPercent(curve[i], curve[j]) == d)
  }

  /** Some negative point lies at least as low against its running peak as point `j` lies against point `i`. */
  predicate Matched(curve: seq<real>, i: nat, j: nat)
    requires i < |curve| && j < |curve| && curve[i] != 0.0
  {
    exists k | 0 <= k < |curve| ::
      Peak(curve[..k + 1]) > 0.0 && curve[k] < 0.0 && curve[k] / Peak(curve[..k + 1]) <= curve[j] / curve[i]
  }

  /** A negative point lower against an earlier positive point than any negative point is against its running peak. */
  predicate Overshoots(curve: seq<real>, i: nat, j: nat) {
    i < j < |curve| && curve[j] < 0.0 < curve[i] && !Matched(curve, i, j)
  }

  /** No return loses more than everything. */
  predicate SolventReturns(results: seq<real>) {
    forall k | 0 <= k < |results| :: results[k] >= -100.0
  }

  predicate NonNegative(curve: seq<real>) {
    forall i | 0 <= i < |curve| :: curve[i] >= 0.0
  }

  lemma FallFromHigher(a: real, b: real, e: real)
    requires 0.0 <= a <= b && 0.0 <= e <= b && b > 0.0
    ensures FallPercent(a, e) <= FallPercent(b, e)
  {
    if a == 0.0 {
      Divided(b - e, b);
      Scaled((b - e) / b, 0.0, b);
    } else {
      FallFromPositive(a, b, e);
    }
  }

  lemma FallFromPositive(a: real, b: real, e: real)
    requires 0.0 < a <= b && e >= 0.0
    ensures FallPercent(a, e) <= FallPercent(b, e)
  {
    var x, y := (a - e) / a, (b - e) / b;
    Divided(a - e, a);
    Divided(b - e, b);
    RatioOrder(1.0 - x, 1.0 - y, a, b, e);
  }

  lemma Divided(n: real, d: real)
    requires d != 0.0
    ensures n / d * d == n
  {
  }

  lemma RatioOrder(u: real, v: real, a: real, b: real, e: real)
    requires 0.0 < a <= b && e >= 0.0 && u * a == e && v * b == e
    ensures v <= u
  {
    Scaled(v, 0.0, b);
    assert v * a <= v * b;
    Scaled(u, v, a);
  }

  lemma Scaled(x: real, y: real, c: real)
    requires c > 0.0
    ensures x < y ==> x * c < y * c
  {
  }

  lemma {:induction false} PeakIsHighest(curve: seq<real>)
    requires curve != []
    ensures Highest(curve, Peak(curve))
  {
    if |curve| > 1 {
      var n := |curve| - 1;
      PeakIsHighest(curve[..n]);
      HighestExtends(curve[..n], Peak(curve[..n]), curve[n]);
      assert curve == curve[..n] + [curve[n]];
    } else {
      assert curve[0] == Peak(curve);
    }
  }

  lemma RunningExtends(curve: seq<real>, d: real, e: real)
    requires curve != [] && DeepestRunningFall(curve, d)
    ensures Peak(curve + [e]) == Larger(Peak(curve), e)
    ensures DeepestRunningFall(curve + [e], Larger(d, FallPercent(Larger(Peak(curve), e), e)))
  {
    hide FallPercent;
    var longer, n := curve + [e], |curve|;
    assert longer[..n] == curve && longer[..n + 1] == longer;
    forall k | 0 <= k < n
      ensures RunningFall(longer, k) == RunningFall(curve, k)
    {
      assert longer[..k + 1] == curve[..k + 1];
    }
    assert RunningFall(longer, n) == FallPercent(Larger(Peak(curve), e), e);
    var k :| 0 <= k < n && RunningFall(curve, k) == d;
    assert RunningFall(longer, k) == d;
  }

  /** A fall to a point that is not negative is at most the fall from the running peak to it. */
  lemma WithinRunningFall(curve: seq<real>, i: nat, j: nat)
    requires i <= j < |curve| && curve[0] > 0.0 && curve[i] >= 0.0 && curve[j] >= 0.0
    ensures FallPercent(curve[i], curve[j]) <= RunningFall(curve, j)
  {
    var part := curve[..j + 1];
    PeakIsHighest(part);
    hide FallPercent;
    assert part[0] <= Peak(part) && part[i] <= Peak(part) && part[j] <= Peak(part);
    FallFromHigher(curve[i], Peak(part), curve[j]);
  }

  /** The deepest fall from a running peak is itself a fall from an earlier positive point. */
  lemma RunningFallOccurs(curve: seq<real>, d: real) returns (i: nat, j: nat)
    requires curve != [] && curve[0] > 0.0 && DeepestRunningFall(curve, d)
    ensures i <= j < |curve| && curve[i] > 0.0 && FallPercent(curve[i], curve[j]) == d
  {
    hide FallPercent;
    j :| 0 <= j < |curve| && RunningFall(curve, j) == d;
    var part := curve[..j + 1];
    PeakIsHighest(part);
    i :| 0 <= i < |part| && part[i] == Peak(part);
    assert part[0] <= Peak(part);
  }

  /** On a curve that never becomes negative the deepest running fall is the deepest fall of all. */
  lemma PairwiseWhenNonNegative(curve: seq<real>, d: real)
    requires curve != [] && curve[0] > 0.0 && NonNegative(curve) && DeepestRunningFall(curve, d)
    ensures DeepestFallPercent(curve, d)
  {
    hide FallPercent;
    var x, y := RunningFallOccurs(curve, d);
    forall i, j | 0 <= i <= j < |curve|
      ensures FallPercent(curve[i], curve[j]) <= d
    {
      WithinRunningFall(curve, i, j);
      assert RunningFall(curve, j) <= d;
    }
  }

  lemma FallIsRatio(a: real, b: real)
    requires a > 0.0
    ensures FallPercent(a, b) == (1.0 - b / a) * 100.0
  {
    Divided(a - b, a);
    Divided(b, a);
    RatioOf((a - b) / a, b / a, a, b);
  }

  lemma RatioOf(x: real, y: real, a: real, b: real)
    requires a > 0.0 && x * a == a - b && y * a == b
    ensures x == 1.0 - y
  {
    var z := 1.0 - y;
    assert z * a == a - y * a;
    SameRatio(x, z, a);
  }

  lemma SameRatio(x: real, z: real, a: real)
    requires a > 0.0 && x * a == z * a
    ensures x == z
  {
    Scaled(x, z, a);
    Scaled(z, x, a);
  }

  lemma RunningPeakPositive(curve: seq<real>, k: nat)
    requires k < |curve| && curve[0] > 0.0
    ensures Peak(curve[..k + 1]) > 0.0
  {
    PeakIsHighest(curve[..k + 1]);
    assert curve[..k + 1][0] <= Peak(curve[..k + 1]);
  }

  /** In general it is, from positive factors, exactly if no negative factor overshoots. */
  lemma PairwiseExactly(results: seq<real>, d: real)
    requires DeepestRunningFall(Factors(results), d)
    ensures DeepestPositiveFall(Factors(results), d) <==> !exists i, j :: Overshoots(Factors(results), i, j)
  {
    var curve := Factors(results);
    StartsAtOne(results);
    hide FallPercent, Factors, Peak, RunningFall, Matched;
    var x, y := RunningFallOccurs(curve, d);
    if DeepestPositiveFall(curve, d) {
      forall i: nat, j: nat
        ensures !Overshoots(curve, i, j)
      {
        if i < j < |curve| && curve[j] < 0.0 < curve[i] { DeepestMatches(curve, d, i, j); }
      }
    }
    if !exists i, j :: Overshoots(curve, i, j) {
      forall i, j | 0 <= i <= j < |curve| && curve[i] > 0.0
        ensures FallPercent(curve[i], curve[j]) <= d
      {
        NoDeeper(curve, d, i, j);
      }
    }
  }

  /** The point of the deepest running fall matches every fall to a negative point that is no deeper. */
  lemma DeepestMatches(curve: seq<real>, d: real, i: nat, j: nat)
    requires i < j < |curve| && curve[0] > 0.0 && curve[j] < 0.0 < curve[i] && DeepestRunningFall(curve, d)
    requires FallPercent(curve[i], curve[j]) <= d
    ensures Matched(curve, i, j)
  {
    hide FallPercent, Peak;
    var k :| 0 <= k < |curve| && RunningFall(curve, k) == d;
    RunningPeakPositive(curve, k);
    FallIsRatio(curve[i], curve[j]);
    FallIsRatio(Peak(curve[..k + 1]), curve[k]);
    NegativeRatio(curve[j], curve[i]);
    NegativeRatio(curve[k], Peak(curve[..k + 1]));
  }

  lemma NegativeRatio(b: real, a: real)
    requires a > 0.0
    ensures b / a < 0.0 <==> b < 0.0
  {
    Divided(b, a);
    Scaled(b / a, 0.0, a);
    Scaled(0.0, b / a, a);
  }

  lemma NoDeeper(curve: seq<real>, d: real, i: nat, j: nat)
    requires i <= j < |curve| && curve[0] > 0.0 && curve[i] > 0.0 && DeepestRunningFall(curve, d)
      && !Overshoots(curve, i, j)
    ensures FallPercent(curve[i], curve[j]) <= d
  {
    hide FallPercent, Peak;
    assert RunningFall(curve, j) <= d;
    if curve[j] >= 0.0 {
      WithinRunningFall(curve, i, j);
    } else if i < j {
      var k :| 0 <= k < |curve| && Peak(curve[..k + 1]) > 0.0 && curve[k] < 0.0
        && curve[k] / Peak(curve[..k + 1]) <= curve[j] / curve[i];
      FallIsRatio(curve[i], curve[j]);
      FallIsRatio(Peak(curve[..k + 1]), curve[k]);
      assert RunningFall(curve, k) <= d;
    }
  }

  lemma {:induction false} StartsAtOne(results: seq<real>)
    ensures Factors(results)[0] == 1.0
  {
    if results != [] { StartsAtOne(results[..|results| - 1]); }
  }

  lemma {:induction false} FactorsPositive(results: seq<real>)
    requires SolventReturns(results)
    ensures NonNegative(Factors(results))
  {
    hide Compound;
    if results != [] {
      var n := |results| - 1;
      FactorsPositive(results[..n]);
      ProductPositive(Factors(results[..n])[n], results[n]);
    }
  }

  lemma ProductPositive(f: real, r: real)
    requires f >= 0.0 && r >= -100.0
    ensures Compound(f, r) >= 0.0
  {
  }

  lemma OneAtStart()
    ensures Peak(Factors([])) == 1.0 && DeepestRunningFall(Factors([]), 0.0)
  {
    var curve := Factors([]);
    assert curve == [1.0] && curve[..1] == curve;
    assert RunningFall(curve, 0) == 0.0;
  }

  /** One return more: the loop's peak and drawdown stay what they mean. */
  lemma FactorStep(results: seq<real>, k: nat, factor: real, d: real)
    requires k < |results| && factor == Compound(Factors(results[..k])[k], results[k])
      && DeepestRunningFall(Factors(results[..k]), d)
    ensures var curve, longer := Factors(results[..k]), Factors(results[..k + 1]);
      && longer == curve + [factor] && Peak(longer) == Larger(Peak(curve), factor)
      && DeepestRunningFall(longer, Larger(d, FallPercent(Larger(Peak(curve), factor), factor)))
  {
    hide Compound, FallPercent, DeepestRunningFall, Peak;
    assert results[..k + 1][..k] == results[..k];
    RunningExtends(Factors(results[..k]), d, factor);
  }

  lemma HighestExtends(curve: seq<real>, peak: real, e: real)
    requires Highest(curve, peak)
    ensures Highest(curve + [e], Larger(peak, e))
  {
    var k :| 0 <= k < |curve| && curve[k] == peak;
    assert (curve + [e])[k] == peak && (curve + [e])[|curve|] == e;
  }

  lemma SumsStep(results: seq<real>, k: nat)
    requires k < |results|
    ensures Gains(results[..k + 1]) == Gains(results[..k]) + if results[k] > 0.0 then results[k] else 0.0
    ensures Losses(results[..k + 1]) == Losses(results[..k]) + if results[k] < 0.0 then -results[k] else 0.0
    ensures Winners(results[..k + 1]) == Winners(results[..k]) + if results[k] > 0.0 then 1 else 0
  {
    assert results[..k + 1][..k] == results[..k];
  }

  lemma SolventPairwise(results: seq<real>, d: real)
    requires DeepestRunningFall(Factors(results), d)
    ensures SolventReturns(results) ==> DeepestFallPercent(Factors(results), d)
  {
    hide FallPercent, DeepestFallPercent, DeepestRunningFall;
    if SolventReturns(results) {
      StartsAtOne(results);
      FactorsPositive(results);
      PairwiseWhenNonNegative(Factors(results), d);
    }
  }

  method EvaluateBacktest(results: seq<real>) returns (r: Metrics)
    ensures r.numberOfTrades == |results| && r.totalReturnPercent == (Factors(results)[|results|] - 1.0) * 100.0
    ensures r.winRatePercent == if results == [] then 0.0 else Winners(results) as real / |results| as real * 100.0
    ensures DeepestRunningFall(Factors(results), r.maxDrawdownPercent)
    ensures SolventReturns(results) ==> DeepestFallPercent(Factors(results), r.maxDrawdownPercent)
    ensures r.profitFactorStatus.NoTrades? <==> results == []
    ensures r.profitFactorStatus.Finite? <==> Losses(results) > 0.0
    ensures r.profitFactorStatus.NoLosses? <==> Losses(results) == 0.0 && Gains(results) > 0.0
    ensures r.profitFactor == if Losses(results) > 0.0 then Some(Gains(results) / Losses(results)) else None
  {
    hide FallPercent, Peak, DeepestRunningFall, DeepestFallPercent, Compound;
    var numberOfTrades := |results|;
    var factor, peak, maxDrawdownPercent, grossProfit, grossLoss := 1.0, 1.0, 0.0, 0.0, 0.0;
    var wins := 0;
    var k := 0;
    OneAtStart();
    while k < |results|
      invariant 0 <= k <= |results|
      invariant factor == Factors(results[..k])[k] && peak == Peak(Factors(results[..k]))
      invariant DeepestRunningFall(Factors(results[..k]), maxDrawdownPercent)
      invariant grossProfit == Gains(results[..k]) >= 0.0 && grossLoss == Losses(results[..k]) >= 0.0
        && wins == Winners(results[..k])
      invariant k == 0 ==> grossProfit == 0.0 && grossLoss == 0.0
    {
      var value := results[k];
      FactorStep(results, k, Compound(factor, value), maxDrawdownPercent);
      SumsStep(results, k);
      factor := Compound(factor, value);
      peak := Larger(peak, factor);
      maxDrawdownPercent := Larger(maxDrawdownPercent, FallPercent(peak, factor));
      if value > 0.0 { wins, grossProfit := wins + 1, grossProfit + value; }
      if value < 0.0 { grossLoss := grossLoss - value; }
      k := k + 1;
    }
    assert results[..k] == results;
    SolventPairwise(results, maxDrawdownPercent);
    var status :=
      if numberOfTrades == 0 then NoTrades
      else if grossProfit > 0.0 && grossLoss > 0.0 then Finite
      else if grossProfit > 0.0 then NoLosses
      else if grossLoss > 0.0 then Finite
      else NoGrossMovement;
    var profitFactor := if status.Finite? then Some(grossProfit / grossLoss) else None;
    r := Metrics((factor - 1.0) * 100.0, if numberOfTrades == 0 then 0.0
      else wins as real / numberOfTrades as real * 100.0, numberOfTrades,
                 maxDrawdownPercent, profitFactor, status);
  }

  lemma PeaksOfThree()
    ensures var curve := [1.0, 2.0, -1.0]; Peak(curve[..1]) == 1.0 && Peak(curve[..2]) == 2.0 && Peak(curve[..3]) == 2.0
  {
    var curve := [1.0, 2.0, -1.0];
    assert curve[..1] == [1.0] && curve[..2] == [1.0, 2.0] && curve[..3] == curve;
    assert [1.0, 2.0][..1] == [1.0];
  }

  lemma OvershootOfThree()
    ensures var curve := [1.0, 2.0, -1.0]; DeepestRunningFall(curve, 150.0) && Overshoots(curve, 0, 2)
  {
    PeaksOfThree();
    hide Peak;
    var curve := [1.0, 2.0, -1.0];
    assert RunningFall(curve, 0) == 0.0 && RunningFall(curve, 1) == 0.0 && RunningFall(curve, 2) == 150.0;
    assert -1.0 / 2.0 == -0.5 && -1.0 / 1.0 == -1.0;
  }

  /** A gain of 100 percent and a loss of 150 percent overshoot. */
  lemma FallBeyondEverything()
    ensures Factors([100.0, -150.0]) == [1.0, 2.0, -1.0]
    ensures DeepestRunningFall(Factors([100.0, -150.0]), 150.0) && Overshoots(Factors([100.0, -150.0]), 0, 2)
  {
    hide DeepestRunningFall, Overshoots;
    OvershootOfThree();
    assert [100.0, -150.0][..1] == [100.0] && [100.0][..0] == [];
    assert Factors([100.0]) == [1.0, 2.0];
    assert Factors([100.0, -150.0]) == [1.0, 2.0, -1.0];
  }
}
