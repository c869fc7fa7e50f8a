/** Arbitrary-precision decimals: a bigint coefficient and a count of fraction digits. */
module Decimals {

  datatype Decimal = Decimal(units: int, scale: nat)

  function PowerOfTen(exponent: nat): (p: int)
    ensures p > 0
  {
    if exponent == 0 then 1 else 10 * PowerOfTen(exponent - 1)
  }

  function Abs(n: int): int {
    if n < 0 then -n else n
  }

  /** BigInt division: truncates toward zero, whatever the signs. */
  function TruncDiv(n: int, d: int): int
    requires d != 0
  {
    var q := Abs(n) / Abs(d);
    if (n < 0) == (d < 0) then q else -q
  }

  /** BigInt remainder: takes the sign of the numerator. */
  function TruncMod(n: int, d: int): int
    requires d != 0
  {
    n - d * TruncDiv(n, d)
  }

  function Normalize(value: Decimal): Decimal
    decreases value.scale
  {
    if value.scale > 0 && TruncMod(value.units, 10) == 0
    then Normalize(Decimal(TruncDiv(value.units, 10), value.scale - 1))
    else value
  }

  method NormalizeLoop(value: Decimal) returns (r: Decimal)
    ensures r == Normalize(value)
  {
    var units, scale := value.units, value.scale;
    while scale > 0 && TruncMod(units, 10) == 0
      invariant Normalize(Decimal(units, scale)) == Normalize(value)
    {
      units := TruncDiv(units, 10);
      scale := scale - 1;
    }
    r := Decimal(units, scale);
  }

  function FromInteger(n: int): Decimal {
    Decimal(n, 0)
  }

  function Max(a: nat, b: nat): nat {
    if a < b then b else a
  }

  function Add(left: Decimal, right: Decimal): Decimal {
    var scale := Max(left.scale, right.scale);
    Normalize(Decimal(left.units * PowerOfTen(scale - left.scale) + right.units * PowerOfTen(scale - right.scale),
      scale))
  }

  function Negate(value: Decimal): Decimal {
    Decimal(-value.units, value.scale)
  }

  function Subtract(left: Decimal, right: Decimal): Decimal {
    Add(left, Negate(right))
  }

  function Multiply(left: Decimal, right: Decimal): Decimal {
    Normalize(Decimal(left.units * right.units, left.scale + right.scale))
  }

  function Absolute(value: Decimal): Decimal {
    if value.units < 0 then Negate(value) else value
  }

  function RoundedDivision(numerator: int, denominator: int): int
    requires denominator != 0
  {
    var quotient := TruncDiv(numerator, denominator);
    var remainder := TruncMod(numerator, denominator);
    if Abs(remainder) * 2 < Abs(denominator) then quotient
    else quotient + (if numerator == 0 || (numerator > 0) == (denominator > 0) then 1 else -1)
  }

  function Round(value: Decimal, scale: nat): Decimal {
    if value.scale <= scale
    then Decimal(value.units * PowerOfTen(scale - value.scale), scale)
    else Decimal(RoundedDivision(value.units, PowerOfTen(value.scale - scale)), scale)
  }

  /** The caller rules out a zero divisor, which the program reports as invalid input. */
  function Divide(left: Decimal, right: Decimal, scale: nat): Decimal
    requires right.units != 0
  {
    var exponent := right.scale + scale - left.scale;
    if exponent >= 0
    then Decimal(RoundedDivision(left.units * PowerOfTen(exponent), right.units), scale)
    else
      assert PowerOfTen(-exponent) > 0;
      Decimal(RoundedDivision(left.units, right.units * PowerOfTen(-exponent)), scale)
  }

  // ---------------------------------------------------------------- reference semantics

  function Ten(exponent: nat): (p: real)
    ensures p > 0.0
  {
    PowerOfTen(exponent) as real
  }

  /** The rational number a decimal denotes. */
  function Val(d: Decimal): real {
    d.units as real / Ten(d.scale)
  }

  /** Nearest integer, ties away from zero: the reference every rounding step is compared with. */
  function HalfAway(x: real): int {
    if x >= 0.0 then (x + 0.5).Floor else -((0.5 - x).Floor)
  }

  /** The nearest number of units of 10^-scale. */
  ghost function Nearest(x: real, scale: nat): int {
    HalfAway(x * Ten(scale))
  }

  // ---------------------------------------------------------------- powers of ten

  lemma {:induction false} PowerAdd(a: nat, b: nat)
    ensures PowerOfTen(a + b) == PowerOfTen(a) * PowerOfTen(b)
  {
    if a > 0 {
      PowerAdd(a - 1, b);
      assert PowerOfTen(a + b) == 10 * (PowerOfTen(a - 1) * PowerOfTen(b));
    }
  }

  lemma TenAdd(a: nat, b: nat)
    ensures Ten(a + b) == Ten(a) * Ten(b)
  {
    PowerAdd(a, b);
    RealProduct(PowerOfTen(a), PowerOfTen(b));
  }

  lemma RealProduct(a: int, b: int)
    ensures (a * b) as real == a as real * b as real
  {
  }

  // ---------------------------------------------------------------- exactness

  lemma {:induction false} NormalizeExact(value: Decimal)
    ensures Val(Normalize(value)) == Val(value)
    decreases value.scale
  {
    if value.scale > 0 && TruncMod(value.units, 10) == 0 {
      var next := Decimal(TruncDiv(value.units, 10), value.scale - 1);
      NormalizeExact(next);
      assert value.units == 10 * next.units;
      assert Ten(value.scale) == 10.0 * Ten(next.scale);
      FractionReduce(next.units as real, Ten(next.scale), 10.0);
    }
  }

  lemma FractionReduce(n: real, d: real, k: real)
    requires d != 0.0 && k != 0.0
    ensures d * k != 0.0 && (n * k) / (d * k) == n / d
  {
    var q := n / d;
    assert n == q * d;
    assert n * k == q * (d * k);
  }

  lemma ScaledValue(d: Decimal)
    ensures Val(d) * Ten(d.scale) == d.units as real
  {
  }

  lemma RescaleExact(value: Decimal, scale: nat)
    requires value.scale <= scale
    ensures Val(Decimal(value.units * PowerOfTen(scale - value.scale), scale)) == Val(value)
  {
    var k := scale - value.scale;
    TenAdd(value.scale, k);
    RealProduct(value.units, PowerOfTen(k));
    FractionReduce(value.units as real, Ten(value.scale), Ten(k));
  }

  lemma AddExact(left: Decimal, right: Decimal)
    ensures Val(Add(left, right)) == Val(left) + Val(right)
  {
    var scale := Max(left.scale, right.scale);
    var l, r := left.units * PowerOfTen(scale - left.scale), right.units * PowerOfTen(scale - right.scale);
    RescaleExact(left, scale);
    RescaleExact(right, scale);
    NormalizeExact(Decimal(l + r, scale));
    FractionSum(l as real, r as real, Ten(scale));
  }

  lemma FractionSum(a: real, b: real, d: real)
    requires d != 0.0
    ensures (a + b) / d == a / d + b / d
  {
  }

  lemma NegateExact(value: Decimal)
    ensures Val(Negate(value)) == -Val(value)
  {
    FractionSum(value.units as real, -(value.units as real), Ten(value.scale));
  }

  lemma SubtractExact(left: Decimal, right: Decimal)
    ensures Val(Subtract(left, right)) == Val(left) - Val(right)
  {
    AddExact(left, Negate(right));
    NegateExact(right);
  }

  lemma MultiplyExact(left: Decimal, right: Decimal)
    ensures Val(Multiply(left, right)) == Val(left) * Val(right)
  {
    ProductValue(left, right);
    NormalizeExact(Decimal(left.units * right.units, left.scale + right.scale));
  }

  lemma ProductValue(left: Decimal, right: Decimal)
    ensures Val(Decimal(left.units * right.units, left.scale + right.scale)) == Val(left) * Val(right)
  {
    RealProduct(left.units, right.units);
    TenAdd(left.scale, right.scale);
    FractionProduct(left.units as real, Ten(left.scale), right.units as real, Ten(right.scale),
                    (left.units * right.units) as real, Ten(left.scale + right.scale));
  }

  lemma FractionProduct(a: real, b: real, c: real, d: real, n: real, t: real)
    requires b != 0.0 && d != 0.0 && n == a * c && t == b * d
    ensures t != 0.0 && n / t == (a / b) * (c / d)
  {
    var p, q := a / b, c / d;
    assert a == p * b && c == q * d;
    assert a * c == (p * q) * (b * d);
  }

  lemma AbsoluteExact(value: Decimal)
    ensures Val(Absolute(value)) == (if Val(value) < 0.0 then -Val(value) else Val(value))
  {
    NegateExact(value);
    SignOfValue(value);
  }

  lemma SignOfValue(d: Decimal)
    ensures d.units > 0 <==> Val(d) > 0.0
    ensures d.units < 0 <==> Val(d) < 0.0
  {
    ScaledValue(d);
    var v, t := Val(d), Ten(d.scale);
    if v > 0.0 { assert v * t > 0.0; }
    if v < 0.0 { assert v * t < 0.0; }
    if v == 0.0 { assert v * t == 0.0; }
  }

  // ---------------------------------------------------------------- the rounding reference

  lemma HalfAwayOfInteger(k: int)
    ensures HalfAway(k as real) == k
  {
  }

  lemma HalfAwayOdd(x: real)
    ensures HalfAway(-x) == -HalfAway(x)
  {
  }

  lemma HalfAwayMonotone(x: real, y: real)
    requires x <= y
    ensures HalfAway(x) <= HalfAway(y)
  {
  }

  ghost function Distance(x: real, k: int): real {
    if k as real >= x then k as real - x else x - k as real
  }

  /** No integer is nearer, and an integer equally near has the smaller magnitude. */
  lemma HalfAwayNearest(x: real, k: int)
    ensures -0.5 <= HalfAway(x) as real - x <= 0.5
    ensures Distance(x, HalfAway(x)) <= Distance(x, k)
    ensures Distance(x, k) == Distance(x, HalfAway(x)) && k != HalfAway(x) ==> Abs(k) < Abs(HalfAway(x))
  {
    var h := HalfAway(x);
    assert h as real - 0.5 <= x <= h as real + 0.5;
    assert x >= 0.0 ==> x < h as real + 0.5 && h >= 0;
    assert x < 0.0 ==> h as real - 0.5 < x && h <= 0;
    if k < h { assert k as real <= h as real - 1.0; }
    if k > h { assert k as real >= h as real + 1.0; }
  }

  /** The two conditions of `HalfAwayNearest` leave only one integer. */
  lemma HalfAwayUnique(x: real, k: int)
    requires forall j: int :: Distance(x, k) <= Distance(x, j)
    requires forall j: int :: Distance(x, j) == Distance(x, k) && j != k ==> Abs(j) < Abs(k)
    ensures k == HalfAway(x)
  {
    HalfAwayNearest(x, k);
    assert Distance(x, k) <= Distance(x, HalfAway(x));
  }

  // ---------------------------------------------------------------- rounding

  lemma RoundedDivisionOfMagnitudes(n: nat, d: nat, x: real)
    requires d > 0 && x * d as real == n as real
    ensures RoundedDivision(n, d) == HalfAway(x)
  {
    var q, r := n / d, n % d;
    assert n == q * d + r;
    assert (x - q as real) * d as real == r as real by {
      RealProduct(q, d);
    }
    RatioBounds(x - q as real, r, d);
  }

  lemma RatioBounds(x: real, r: nat, d: nat)
    requires r < d && x * d as real == r as real
    ensures 0.0 <= x < 1.0
    ensures x < 0.5 <==> 2 * r < d
  {
    var p, t := r as real, d as real;
    ScaleOrder(x, 0.0, t, p, 0.0);
    ScaleOrder(x, 0.5, t, p, 0.5 * t);
    ScaleOrder(x, 1.0, t, p, t);
    assert p < 0.5 * t <==> 2 * r < d;
  }

  lemma ScaleOrder(x: real, y: real, t: real, xt: real, yt: real)
    requires t > 0.0 && xt == x * t && yt == y * t
    ensures x < y <==> xt < yt
  {
    ProductSign(y - x, t);
  }

  lemma ProductSign(x: real, t: real)
    requires t > 0.0
    ensures x > 0.0 <==> x * t > 0.0
    ensures x < 0.0 <==> x * t < 0.0
  {
  }

  lemma RoundedDivisionSigns(n: int, d: int)
    requires d != 0
    ensures RoundedDivision(n, d)
      == (if (n < 0) == (d < 0) then RoundedDivision(Abs(n), Abs(d)) else -RoundedDivision(Abs(n), Abs(d)))
  {
    TruncDivSigns(n, d);
    if n == 0 { assert TruncDiv(0, d) == 0 == TruncMod(0, d); }
    hide TruncDiv, TruncMod;
  }

  lemma TruncDivSigns(n: int, d: int)
    requires d != 0
    ensures TruncDiv(Abs(n), Abs(d)) == (if (n < 0) == (d < 0) then TruncDiv(n, d) else -TruncDiv(n, d))
    ensures Abs(TruncMod(n, d)) == Abs(TruncMod(Abs(n), Abs(d)))
  {
    SignedProduct(d, Abs(n) / Abs(d));
  }

  lemma SignedProduct(d: int, q: int)
    ensures d * -q == -(d * q)
    ensures Abs(d) * q == (if d < 0 then -(d * q) else d * q)
  {
  }

  lemma RoundedDivisionIsHalfAway(n: int, d: int, x: real)
    requires d != 0 && x * d as real == n as real
    ensures RoundedDivision(n, d) == HalfAway(x)
  {
    hide RoundedDivision;
    var y := if (n < 0) == (d < 0) then x else -x;
    assert y * Abs(d) as real == Abs(n) as real;
    RoundedDivisionSigns(n, d);
    RoundedDivisionOfMagnitudes(Abs(n), Abs(d), y);
    HalfAwayOdd(y);
  }

  /** `Round` yields the nearest multiple of 10^-scale, ties away from zero. */
  lemma RoundIsNearest(value: Decimal, scale: nat)
    ensures Round(value, scale) == Decimal(Nearest(Val(value), scale), scale)
  {
    hide RoundedDivision, HalfAway;
    if value.scale <= scale {
      RoundUp(value, scale, scale - value.scale);
    } else {
      RoundDown(value, scale, value.scale - scale);
    }
    hide Val;
  }

  lemma RoundUp(value: Decimal, scale: nat, k: nat)
    requires scale == value.scale + k
    ensures value.units * PowerOfTen(k) == HalfAway(Val(value) * Ten(scale))
  {
    var n := value.units * PowerOfTen(k);
    assert Val(value) * Ten(scale) == n as real by {
      RescaleExact(value, scale);
      ScaledValue(Decimal(n, scale));
    }
    HalfAwayOfInteger(n);
  }

  lemma RoundDown(value: Decimal, scale: nat, k: nat)
    requires value.scale == scale + k
    ensures RoundedDivision(value.units, PowerOfTen(k)) == HalfAway(Val(value) * Ten(scale))
  {
    RoundDownEquation(value, scale, k);
    hide RoundedDivision, HalfAway, Val;
    RoundedDivisionIsHalfAway(value.units, PowerOfTen(k), Val(value) * Ten(scale));
  }

  lemma RoundDownEquation(value: Decimal, scale: nat, k: nat)
    requires value.scale == scale + k
    ensures (Val(value) * Ten(scale)) * PowerOfTen(k) as real == value.units as real
  {
    TenAdd(scale, k);
    ScaledValue(value);
    hide Val, PowerOfTen;
    Reassociate(Val(value), Ten(scale), Ten(k), Ten(value.scale));
  }

  lemma Reassociate(v: real, s: real, k: real, t: real)
    requires t == s * k
    ensures (v * s) * k == v * t
  {
  }

  /** `Divide` yields the nearest multiple of 10^-scale to the exact quotient `q`, ties away from zero. */
  lemma DivideIsNearest(left: Decimal, right: Decimal, scale: nat, q: real)
    requires right.units != 0 && q * Val(right) == Val(left)
    ensures Divide(left, right, scale) == Decimal(Nearest(q, scale), scale)
  {
    hide RoundedDivision, HalfAway, Val, Ten;
    var e := right.scale + scale - left.scale;
    var l := if e >= 0 then Decimal(left.units * PowerOfTen(e), left.scale + e) else left;
    var r := if e >= 0 then right else Decimal(right.units * PowerOfTen(-e), right.scale - e);
    assert e < 0 ==> PowerOfTen(-e) > 0;
    if e >= 0 { RescaleExact(left, left.scale + e); } else { RescaleExact(right, right.scale - e); }
    QuotientEquation(l, r, scale, q);
    RoundedDivisionIsHalfAway(l.units, r.units, q * Ten(scale));
  }

  lemma QuotientEquation(left: Decimal, right: Decimal, scale: nat, q: real)
    requires right.scale + scale == left.scale && q * Val(right) == Val(left)
    ensures (q * Ten(scale)) * right.units as real == left.units as real
  {
    ScaledValue(left);
    ScaledValue(right);
    TenAdd(right.scale, scale);
    hide *;
    QuotientOfProducts(q, Val(left), Val(right), Ten(left.scale), Ten(right.scale), Ten(scale), left.units as real,
      right.units as real);
  }

  lemma QuotientOfProducts(q: real, l: real, r: real, tl: real, tr: real, s: real, lu: real, ru: real)
    requires l == q * r && tl == tr * s && lu == l * tl && ru == r * tr
    ensures (q * s) * ru == lu
  {
    calc {
      lu;
      (q * r) * (tr * s);
      (q * s) * ru;
    }
  }

  // ---------------------------------------------------------------- what callers rely on

  lemma UnitsOrder(a: Decimal, b: Decimal)
    requires a.scale == b.scale
    ensures a.units < b.units <==> Val(a) < Val(b)
    ensures a.units == b.units <==> Val(a) == Val(b)
  {
    var t := Ten(a.scale);
    ScaledValue(a);
    ScaledValue(b);
    ScaleOrder(Val(a), Val(b), t, a.units as real, b.units as real);
    ScaleOrder(Val(b), Val(a), t, b.units as real, a.units as real);
  }

  lemma NearestMonotone(x: real, y: real, scale: nat)
    requires x <= y
    ensures Nearest(x, scale) <= Nearest(y, scale)
  {
    hide Ten;
    ScaleOrder(y, x, Ten(scale), y * Ten(scale), x * Ten(scale));
    HalfAwayMonotone(x * Ten(scale), y * Ten(scale));
    hide HalfAway;
  }

  lemma NearestOfUnits(d: Decimal)
    ensures Nearest(Val(d), d.scale) == d.units
  {
    ScaledValue(d);
    hide Val, Ten;
  }

  lemma NearestZero(scale: nat)
    ensures Nearest(0.0, scale) == 0
  {
  }

  lemma NearestError(x: real, scale: nat)
    ensures -0.5 <= (Val(Decimal(Nearest(x, scale), scale)) - x) * Ten(scale) <= 0.5
  {
    ScaledValue(Decimal(Nearest(x, scale), scale));
    hide Val, Ten;
    var xt := x * Ten(scale);
    ErrorFromProducts(Val(Decimal(Nearest(x, scale), scale)), x, Ten(scale), Nearest(x, scale) as real, xt);
  }

  lemma ErrorFromProducts(v: real, x: real, t: real, vt: real, xt: real)
    requires vt == v * t && xt == x * t && -0.5 <= vt - xt <= 0.5
    ensures -0.5 <= (v - x) * t <= 0.5
  {
    assert (v - x) * t == vt - xt;
  }

  lemma RoundMonotone(a: Decimal, b: Decimal, scale: nat)
    requires Val(a) <= Val(b)
    ensures Round(a, scale).units <= Round(b, scale).units
  {
    hide *;
    RoundIsNearest(a, scale);
    RoundIsNearest(b, scale);
    NearestMonotone(Val(a), Val(b), scale);
  }

  lemma RoundOdd(value: Decimal, scale: nat)
    ensures Round(Negate(value), scale) == Negate(Round(value, scale))
  {
    RoundIsNearest(value, scale);
    RoundIsNearest(Negate(value), scale);
    NegateExact(value);
    hide Round, Val, Ten;
    var x := Val(value) * Ten(scale);
    assert Val(Negate(value)) * Ten(scale) == -x;
    HalfAwayOdd(x);
  }

  /** A value that already has the requested scale, or a coarser one, is not moved. */
  lemma RoundIdempotent(value: Decimal, scale: nat, finer: nat)
    requires scale <= finer
    ensures Val(Round(Round(value, scale), finer)) == Val(Round(value, scale))
    ensures Round(Round(value, scale), scale) == Round(value, scale)
  {
    hide RoundedDivision;
    RescaleExact(Round(value, scale), finer);
  }

  lemma RoundError(value: Decimal, scale: nat)
    ensures -0.5 <= (Val(Round(value, scale)) - Val(value)) * Ten(scale) <= 0.5
  {
    hide *;
    RoundIsNearest(value, scale);
    NearestError(Val(value), scale);
  }

  lemma DivideError(left: Decimal, right: Decimal, scale: nat, q: real)
    requires right.units != 0 && q * Val(right) == Val(left)
    ensures -0.5 <= (Val(Divide(left, right, scale)) - q) * Ten(scale) <= 0.5
  {
    hide *;
    DivideIsNearest(left, right, scale, q);
    NearestError(q, scale);
  }

  predicate Lowest(d: Decimal) {
    d.scale == 0 || d.units % 10 != 0
  }

  lemma {:induction false} NormalizeLowest(value: Decimal)
    ensures Lowest(Normalize(value))
    decreases value.scale
  {
    if value.scale > 0 && TruncMod(value.units, 10) == 0 {
      NormalizeLowest(Decimal(TruncDiv(value.units, 10), value.scale - 1));
    }
  }

  lemma LowestUnique(a: Decimal, b: Decimal)
    requires Lowest(a) && Lowest(b) && Val(a) == Val(b) && a.scale <= b.scale
    ensures a == b
  {
    var k := b.scale - a.scale;
    RescaleExact(a, b.scale);
    UnitsOrder(Decimal(a.units * PowerOfTen(k), b.scale), b);
    assert b.units == a.units * PowerOfTen(k);
    if k > 0 { TenDivides(a.units, k); }
  }

  lemma TenDivides(n: int, k: nat)
    requires k > 0
    ensures n * PowerOfTen(k) % 10 == 0
  {
    assert n * PowerOfTen(k) == 10 * (n * PowerOfTen(k - 1));
  }

  /** Two decimals denote the same number exactly when they normalize to the same representation. */
  lemma NormalizeCanonical(a: Decimal, b: Decimal)
    ensures Val(a) == Val(b) <==> Normalize(a) == Normalize(b)
  {
    NormalizeExact(a);
    NormalizeExact(b);
    NormalizeLowest(a);
    NormalizeLowest(b);
    hide Val, Normalize;
    if Val(a) == Val(b) {
      if Normalize(a).scale <= Normalize(b).scale { LowestUnique(Normalize(a), Normalize(b)); }
      else { LowestUnique(Normalize(b), Normalize(a)); }
    }
  }
}
