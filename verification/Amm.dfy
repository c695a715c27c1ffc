/** Multiplication of reals, in the small steps the proofs about the formula are made of. */
module RealArithmetic {

  lemma Commute(a: real, b: real)
    ensures a * b == b * a
  {
  }

  lemma Associate(a: real, b: real, c: real)
    ensures (a * b) * c == a * (b * c)
  {
  }

  lemma Quotient(p: real, q: real)
    requires q != 0.0
    ensures p / q * q == p
  {
  }

  lemma Scale(a: real, b: real, c: real)
    requires a < b && c > 0.0
    ensures a * c < b * c
  {
  }

  lemma ScaleWeak(a: real, b: real, c: real)
    requires a <= b && c > 0.0
    ensures a * c <= b * c
  {
  }

  lemma NoLarger(a: real, b: real, c: real, d: real)
    requires 0.0 < a <= c && 0.0 < b <= d
    ensures a * b <= c * d
  {
    ScaleWeak(a, c, b);
    ScaleWeak(b, d, c);
    Commute(c, b);
    Commute(c, d);
  }

  lemma PositiveFactor(a: real, b: real)
    requires a > 0.0 && a * b > 0.0
    ensures b > 0.0
  {
  }
}

/** The constant-product formula of the DEX, over exact reals. */
module Amm {
  import opened Options
  import opened RealArithmetic

  datatype Direction = AToB | BToA

  datatype Pool = Pool(tokenA: real, tokenB: real, feeRate: Option<real>)

  datatype Quote = Quote(amountOut: real, feeAmount: real, priceImpact: real, minimumAmountOut: real)

  /** A missing or zero rate becomes 0.3%. */
  function FeeRate(pool: Pool): real {
    if pool.feeRate.None? || pool.feeRate.value == 0.0 then 0.003 else pool.feeRate.value
  }

  function ReserveIn(pool: Pool, d: Direction): real {
    if d == AToB then pool.tokenA else pool.tokenB
  }

  function ReserveOut(pool: Pool, d: Direction): real {
    if d == AToB then pool.tokenB else pool.tokenA
  }

  function AfterFee(pool: Pool, amountIn: real): real {
    amountIn - amountIn * FeeRate(pool)
  }

  /** The formula divides by these. */
  predicate Divisible(pool: Pool, amountIn: real, d: Direction) {
    && ReserveIn(pool, d) != 0.0 && ReserveOut(pool, d) != 0.0
    && AfterFee(pool, amountIn) != 0.0 && ReserveIn(pool, d) + AfterFee(pool, amountIn) != 0.0
  }

  /** dy = y dx / (x + dx), with dx the input after fee. */
  function Out(pool: Pool, amountIn: real, d: Direction): real
    requires Divisible(pool, amountIn, d)
  {
    ReserveOut(pool, d) * AfterFee(pool, amountIn) / (ReserveIn(pool, d) + AfterFee(pool, amountIn))
  }

  function CalculateSwapAmount(pool: Pool, amountIn: real, d: Direction, slippageTolerance: real): Quote
    requires Divisible(pool, amountIn, d)
  {
    var feeAmount := amountIn * FeeRate(pool);
    var amountOut := Out(pool, amountIn, d);
    var spotPrice := ReserveOut(pool, d) / ReserveIn(pool, d);
    var actualPrice := amountOut / AfterFee(pool, amountIn);
    Quote(amountOut, feeAmount, (actualPrice - spotPrice) / spotPrice * 100.0,
          amountOut * (1.0 - slippageTolerance / 100.0))
  }

  /** The pool after a confirmed swap: the whole input, fee included, stays in it. */
  function Swapped(pool: Pool, amountIn: real, d: Direction): Pool
    requires Divisible(pool, amountIn, d)
  {
    if d == AToB
    then pool.(tokenA := pool.tokenA + amountIn, tokenB := pool.tokenB - Out(pool, amountIn, d))
    else pool.(tokenB := pool.tokenB + amountIn, tokenA := pool.tokenA - Out(pool, amountIn, d))
  }

  predicate Healthy(pool: Pool) {
    pool.tokenA > 0.0 && pool.tokenB > 0.0 && 0.0 < FeeRate(pool) < 1.0
  }

  function Product(pool: Pool): real {
    pool.tokenA * pool.tokenB
  }

  // ---------------------------------------------------------------- one swap

  lemma SwappedSides(pool: Pool, amountIn: real, d: Direction)
    requires Divisible(pool, amountIn, d)
    ensures var next := Swapped(pool, amountIn, d);
      && ReserveIn(next, d) == ReserveIn(pool, d) + amountIn
      && ReserveOut(next, d) == ReserveOut(pool, d) - Out(pool, amountIn, d)
      && Product(next) == (ReserveIn(pool, d) + amountIn) * (ReserveOut(pool, d) - Out(pool, amountIn, d))
  {
  }

  lemma FeeShrinks(pool: Pool, amountIn: real)
    requires Healthy(pool) && amountIn > 0.0
    ensures 0.0 < AfterFee(pool, amountIn) < amountIn
  {
    assert amountIn * (1.0 - FeeRate(pool)) > 0.0;
    assert amountIn * FeeRate(pool) > 0.0;
  }

  lemma HealthyDivisible(pool: Pool, amountIn: real, d: Direction)
    requires Healthy(pool) && amountIn > 0.0
    ensures Divisible(pool, amountIn, d)
  {
  }

  /** The output is what keeps the product constant for the input after fee. */
  lemma OutBalances(pool: Pool, amountIn: real, d: Direction)
    requires Divisible(pool, amountIn, d)
    ensures (ReserveIn(pool, d) + AfterFee(pool, amountIn)) * (ReserveOut(pool, d) - Out(pool, amountIn, d))
         == ReserveIn(pool, d) * ReserveOut(pool, d)
  {
  }

  lemma Balance(x: real, y: real, n: real)
    requires x + n != 0.0
    ensures (x + n) * (y - y * n / (x + n)) == x * y
  {
  }

  lemma SwapBounds(x: real, y: real, a: real, n: real, out: real)
    requires x > 0.0 && y > 0.0 && 0.0 < n < a && out == y * n / (x + n)
    ensures 0.0 < out < y && (x + a) * (y - out) > x * y
  {
    Balance(x, y, n);
    var rest := y - out;
    assert (x + n) * rest == x * y;
    Scale(0.0, x, y);
    PositiveFactor(x + n, rest);
    Scale(x + n, x + a, rest);
    Quotient(y * n, x + n);
    Scale(0.0, n, y);
    assert (x + n) * out == n * y;
    PositiveFactor(x + n, out);
  }

  lemma SwapStaysHealthy(pool: Pool, amountIn: real, d: Direction)
    requires Healthy(pool) && amountIn > 0.0
    ensures Divisible(pool, amountIn, d) && Healthy(Swapped(pool, amountIn, d))
    ensures 0.0 < Out(pool, amountIn, d) < ReserveOut(pool, d)
  {
    HealthyDivisible(pool, amountIn, d);
    FeeShrinks(pool, amountIn);
    SwapBounds(ReserveIn(pool, d), ReserveOut(pool, d), amountIn, AfterFee(pool, amountIn), Out(pool, amountIn, d));
  }

  /** One swap gives out less than the reserve, keeps both reserves positive and raises the product. */
  lemma SwapRaisesProduct(pool: Pool, amountIn: real, d: Direction)
    requires Healthy(pool) && amountIn > 0.0
    ensures Divisible(pool, amountIn, d) && Healthy(Swapped(pool, amountIn, d))
    ensures 0.0 < Out(pool, amountIn, d) < ReserveOut(pool, d)
    ensures Product(Swapped(pool, amountIn, d)) > Product(pool)
  {
    SwapStaysHealthy(pool, amountIn, d);
    FeeShrinks(pool, amountIn);
    SwapBounds(ReserveIn(pool, d), ReserveOut(pool, d), amountIn, AfterFee(pool, amountIn), Out(pool, amountIn, d));
    ProductChange(pool, amountIn, d);
  }

  lemma ProductChange(pool: Pool, amountIn: real, d: Direction)
    requires Divisible(pool, amountIn, d)
    ensures Product(Swapped(pool, amountIn, d)) > Product(pool)
       <==> (ReserveIn(pool, d) + amountIn) * (ReserveOut(pool, d) - Out(pool, amountIn, d))
            > ReserveIn(pool, d) * ReserveOut(pool, d)
  {
  }

  /**
   What a quote says, for every pool it can be computed for: the fee is the pool's rate of the input, or three per
   thousand where none is set; the output keeps the product constant for the rest of the input; the price impact is minus
   the share of that rest in the deepened reserve, in percent; and the minimum falls short of the output by the slippage,
   in percent.
   */
  lemma QuoteMeaning(pool: Pool, amountIn: real, d: Direction, slippage: real)
    ensures var rate := if pool.feeRate.None? || pool.feeRate.value == 0.0 then 0.003 else pool.feeRate.value;
      var rest := amountIn - amountIn * rate;
      var reserveIn, reserveOut := if d == AToB then pool.tokenA else pool.tokenB, if d == AToB then pool.tokenB else pool.tokenA;
      && (Divisible(pool, amountIn, d) <==> reserveIn != 0.0 && reserveOut != 0.0 && rest != 0.0 && reserveIn + rest != 0.0)
      && (Divisible(pool, amountIn, d) ==>
            var q := CalculateSwapAmount(pool, amountIn, d, slippage);
            && q.feeAmount == amountIn - rest
            && (reserveIn + rest) * (reserveOut - q.amountOut) == reserveIn * reserveOut
            && q.priceImpact * (reserveIn + rest) == -100.0 * rest
            && 100.0 * (q.amountOut - q.minimumAmountOut) == q.amountOut * slippage)
  {
    if Divisible(pool, amountIn, d) {
      OutBalances(pool, amountIn, d);
      QuotedImpact(pool, amountIn, d, slippage);
    }
  }

  /** The quotes of healthy pools: the price drops, by less than all of it, and the minimum lies between nothing and the output. */
  lemma HealthyQuote(pool: Pool, amountIn: real, d: Direction, slippage: real)
    requires Healthy(pool) && amountIn > 0.0
    ensures Divisible(pool, amountIn, d)
    ensures var q := CalculateSwapAmount(pool, amountIn, d, slippage);
      && 0.0 < q.feeAmount < amountIn && -100.0 < q.priceImpact < 0.0
      && (0.0 <= slippage <= 100.0 <==> 0.0 <= q.minimumAmountOut <= q.amountOut)
  {
    hide Out;
    SwapStaysHealthy(pool, amountIn, d);
    FeeShrinks(pool, amountIn);
    var q := CalculateSwapAmount(pool, amountIn, d, slippage);
    QuotedImpact(pool, amountIn, d, slippage);
    ImpactBounds(ReserveIn(pool, d), AfterFee(pool, amountIn), q.priceImpact);
    MinimumBounds(q.amountOut, slippage);
  }

  lemma QuotedImpact(pool: Pool, amountIn: real, d: Direction, slippage: real)
    requires Divisible(pool, amountIn, d)
    ensures var impact := CalculateSwapAmount(pool, amountIn, d, slippage).priceImpact;
      impact * (ReserveIn(pool, d) + AfterFee(pool, amountIn)) == -100.0 * AfterFee(pool, amountIn)
  {
    var q := CalculateSwapAmount(pool, amountIn, d, slippage);
    var x, y, n := ReserveIn(pool, d), ReserveOut(pool, d), AfterFee(pool, amountIn);
    Quotient(y * n, x + n);
    Impact(x, y, n, q.amountOut, q.priceImpact);
  }

  lemma Impact(x: real, y: real, n: real, out: real, impact: real)
    requires x != 0.0 && y != 0.0 && n != 0.0 && x + n != 0.0 && out == y * n / (x + n)
    requires impact == (out / n - y / x) / (y / x) * 100.0
    ensures impact * (x + n) == -100.0 * n
  {
  }

  lemma ImpactBounds(x: real, n: real, impact: real)
    requires x > 0.0 && n > 0.0 && impact * (x + n) == -100.0 * n
    ensures -100.0 < impact < 0.0
  {
  }

  lemma MinimumBounds(out: real, slippage: real)
    requires out > 0.0
    ensures 100.0 * (out - out * (1.0 - slippage / 100.0)) == out * slippage
    ensures 0.0 <= slippage <= 100.0 <==> 0.0 <= out * (1.0 - slippage / 100.0) <= out
  {
  }

  /**
   What the fee rate must be, whatever it is and for every input: the payout lies strictly between nothing and
   the reserve if and only if the rate is below 1. It exceeds the reserve if and only if the fee takes more than
   the input and the reserve together; and the pool gains if and only if the rate is above 0 and that is not so.
   */
  lemma FeeRateRange(pool: Pool, amountIn: real, d: Direction)
    requires pool.tokenA > 0.0 && pool.tokenB > 0.0 && amountIn > 0.0 && Divisible(pool, amountIn, d)
    ensures 0.0 < Out(pool, amountIn, d) < ReserveOut(pool, d) <==> FeeRate(pool) < 1.0
    ensures Out(pool, amountIn, d) > ReserveOut(pool, d) <==> ReserveIn(pool, d) + AfterFee(pool, amountIn) < 0.0
    ensures Product(Swapped(pool, amountIn, d)) > Product(pool)
       <==> FeeRate(pool) > 0.0 && ReserveIn(pool, d) + AfterFee(pool, amountIn) > 0.0
  {
    hide *;
    PositiveSides(pool, d);
    OutRange(pool, amountIn, d);
    ProductChange(pool, amountIn, d);
  }

  lemma OutRange(pool: Pool, amountIn: real, d: Direction)
    requires ReserveIn(pool, d) > 0.0 && ReserveOut(pool, d) > 0.0 && amountIn > 0.0 && Divisible(pool, amountIn, d)
    ensures var x, y, n, out := ReserveIn(pool, d), ReserveOut(pool, d), AfterFee(pool, amountIn), Out(pool, amountIn, d);
      && (0.0 < out < y <==> FeeRate(pool) < 1.0)
      && (out > y <==> x + n < 0.0)
      && ((x + amountIn) * (y - out) > x * y <==> FeeRate(pool) > 0.0 && x + n > 0.0)
  {
    hide ReserveIn, ReserveOut, FeeRate;
    OutArithmetic(ReserveIn(pool, d), ReserveOut(pool, d), amountIn, FeeRate(pool), AfterFee(pool, amountIn), Out(pool, amountIn, d));
  }

  lemma OutArithmetic(x: real, y: real, a: real, f: real, n: real, out: real)
    requires x > 0.0 && y > 0.0 && a > 0.0 && n == a - a * f && x + n != 0.0 && out == y * n / (x + n)
    ensures 0.0 < out < y <==> f < 1.0
    ensures out > y <==> x + n < 0.0
    ensures (x + a) * (y - out) > x * y <==> f > 0.0 && x + n > 0.0
  {
    FeeSign(a, f, n);
    if x + n > 0.0 { RateBounds(x, y, a, n, out); } else { OverpaidBounds(x, y, a, n, out); }
  }

  lemma OverpaidBounds(x: real, y: real, a: real, n: real, out: real)
    requires x > 0.0 && y > 0.0 && a > 0.0 && x + n < 0.0 && out == y * n / (x + n)
    ensures out > y && (x + a) * (y - out) < x * y
  {
    Balance(x, y, n);
    var rest := y - out;
    assert (x + n) * rest == x * y;
    Scale(0.0, x, y);
    assert -(x + n) * -rest == x * y;
    PositiveFactor(-(x + n), -rest);
    Scale(0.0, x + a, -rest);
    assert (x + a) * rest == -((x + a) * -rest);
  }

  ghost predicate SwapsWork(pool: Pool, d: Direction) {
    forall amountIn: real :: amountIn > 0.0 ==>
      && Divisible(pool, amountIn, d)
      && 0.0 < Out(pool, amountIn, d) < ReserveOut(pool, d)
      && Product(Swapped(pool, amountIn, d)) > Product(pool)
  }

  /** The rates with which every swap pays out less than the reserve and leaves the pool a gain. */
  lemma WorkingRates(pool: Pool, d: Direction)
    requires pool.tokenA > 0.0 && pool.tokenB > 0.0
    ensures SwapsWork(pool, d) <==> 0.0 < FeeRate(pool) < 1.0
  {
    if 0.0 < FeeRate(pool) < 1.0 {
      forall amountIn: real | amountIn > 0.0
        ensures Divisible(pool, amountIn, d) && 0.0 < Out(pool, amountIn, d) < ReserveOut(pool, d)
        ensures Product(Swapped(pool, amountIn, d)) > Product(pool)
      {
        SwapRaisesProduct(pool, amountIn, d);
      }
    }
    if SwapsWork(pool, d) {
      var one := 1.0;
      assert one > 0.0;
      assert Divisible(pool, one, d);
      FeeRateRange(pool, one, d);
    }
  }

  /** A rate in basis points, as the entity documents it, empties the pool and more: 10 in, over 152 of 100 out. */
  lemma BasisPointsOverpay(d: Direction)
    ensures var pool := Pool(100.0, 100.0, Some(30.0));
      Divisible(pool, 10.0, d) && Out(pool, 10.0, d) > 152.0 && ReserveOut(Swapped(pool, 10.0, d), d) < 0.0
  {
    var pool := Pool(100.0, 100.0, Some(30.0));
    assert AfterFee(pool, 10.0) == -290.0;
    assert Out(pool, 10.0, d) == 29000.0 / 190.0;
    SwappedSides(pool, 10.0, d);
  }

  lemma PositiveSides(pool: Pool, d: Direction)
    requires pool.tokenA > 0.0 && pool.tokenB > 0.0
    ensures ReserveIn(pool, d) > 0.0 && ReserveOut(pool, d) > 0.0
  {
  }

  lemma FeeSign(a: real, f: real, n: real)
    requires a > 0.0 && n == a - a * f
    ensures n > 0.0 <==> f < 1.0
    ensures n < a <==> f > 0.0
  {
    Commute(a, f);
    if f < 1.0 { Scale(f, 1.0, a); } else { ScaleWeak(1.0, f, a); }
    if f > 0.0 { Scale(0.0, f, a); } else { ScaleWeak(f, 0.0, a); }
  }

  lemma RateBounds(x: real, y: real, a: real, n: real, out: real)
    requires x > 0.0 && y > 0.0 && x + n > 0.0 && out == y * n / (x + n)
    ensures out < y && (out > 0.0 <==> n > 0.0)
    ensures (x + a) * (y - out) > x * y <==> n < a
  {
    Balance(x, y, n);
    var rest := y - out;
    assert (x + n) * rest == x * y;
    Scale(0.0, x, y);
    PositiveFactor(x + n, rest);
    Quotient(y * n, x + n);
    assert out * (x + n) == n * y;
    if n > 0.0 {
      Scale(0.0, n, y);
      Commute(x + n, out);
      PositiveFactor(x + n, out);
    } else {
      ScaleWeak(n, 0.0, y);
      if out > 0.0 { Scale(0.0, out, x + n); }
    }
    if n < a { Scale(x + n, x + a, rest); } else { ScaleWeak(x + a, x + n, rest); }
  }

  // ---------------------------------------------------------------- runs of swaps

  datatype Swap = Swap(direction: Direction, amountIn: real)

  predicate Positive(swaps: seq<Swap>) {
    forall s :: s in swaps ==> s.amountIn > 0.0
  }

  /** The pool after the swaps, all confirmed. */
  function AfterSwaps(pool: Pool, swaps: seq<Swap>): Pool
    requires Healthy(pool) && Positive(swaps)
    decreases swaps
  {
    if swaps == [] then pool
    else
      SwapRaisesProduct(pool, swaps[0].amountIn, swaps[0].direction);
      AfterSwaps(Swapped(pool, swaps[0].amountIn, swaps[0].direction), swaps[1..])
  }

  /**
   For every run of swaps in any directions: both reserves stay positive, the product has grown if there was
   a swap, and so the traders have not taken from both sides.
   */
  lemma {:induction false} RunRaisesProduct(pool: Pool, swaps: seq<Swap>)
    requires Healthy(pool) && Positive(swaps)
    ensures var after := AfterSwaps(pool, swaps);
      && Healthy(after) && after.feeRate == pool.feeRate
      && (if swaps == [] then after == pool else Product(after) > Product(pool))
      && (swaps != [] ==> after.tokenA > pool.tokenA || after.tokenB > pool.tokenB)
    decreases swaps
  {
    if swaps != [] {
      SwapRaisesProduct(pool, swaps[0].amountIn, swaps[0].direction);
      RunRaisesProduct(Swapped(pool, swaps[0].amountIn, swaps[0].direction), swaps[1..]);
      ProductNeedsASide(pool, AfterSwaps(pool, swaps));
    }
  }

  lemma ProductNeedsASide(pool: Pool, after: Pool)
    requires Healthy(pool) && Healthy(after)
    ensures Product(after) > Product(pool) ==> after.tokenA > pool.tokenA || after.tokenB > pool.tokenB
  {
    if after.tokenA <= pool.tokenA && after.tokenB <= pool.tokenB {
      NoLarger(after.tokenA, after.tokenB, pool.tokenA, pool.tokenB);
    }
  }

  function Opposite(d: Direction): Direction {
    if d == AToB then BToA else AToB
  }

  /** Swapping and swapping the proceeds back returns less than was put in. */
  lemma RoundTripLoses(pool: Pool, amountIn: real, d: Direction)
    requires Healthy(pool) && amountIn > 0.0
    ensures Divisible(pool, amountIn, d)
    ensures var out := Out(pool, amountIn, d);
      var next := Swapped(pool, amountIn, d);
      Divisible(next, out, Opposite(d)) && 0.0 < Out(next, out, Opposite(d)) < amountIn
  {
    SwapRaisesProduct(pool, amountIn, d);
    var out := Out(pool, amountIn, d);
    var next := Swapped(pool, amountIn, d);
    SwapRaisesProduct(next, out, Opposite(d));
    ProductNeedsASide(pool, Swapped(next, out, Opposite(d)));
  }

  predicate AllPositive(amounts: seq<real>) {
    forall i :: 0 <= i < |amounts| ==> amounts[i] > 0.0
  }

  function Total(pieces: seq<real>): real {
    if pieces == [] then 0.0 else pieces[0] + Total(pieces[1..])
  }

  lemma {:induction false} TotalPositive(pieces: seq<real>)
    requires pieces != [] && AllPositive(pieces)
    ensures Total(pieces) > 0.0
  {
    if |pieces| > 1 { TotalPositive(pieces[1..]); }
  }

  /** Output of consecutive swaps in one direction. */
  function TotalOut(pool: Pool, pieces: seq<real>, d: Direction): real
    requires Healthy(pool) && AllPositive(pieces)
    decreases pieces
  {
    if pieces == [] then 0.0
    else
      SwapRaisesProduct(pool, pieces[0], d);
      Out(pool, pieces[0], d) + TotalOut(Swapped(pool, pieces[0], d), pieces[1..], d)
  }

  /** The input reserve deepened by the input after fee. */
  function Deep(pool: Pool, amountIn: real, d: Direction): real {
    ReserveIn(pool, d) + AfterFee(pool, amountIn)
  }

  lemma SwapLeaves(pool: Pool, amountIn: real, d: Direction)
    requires Healthy(pool) && amountIn > 0.0
    ensures Divisible(pool, amountIn, d)
    ensures var next := Swapped(pool, amountIn, d);
      && Healthy(next) && FeeRate(next) == FeeRate(pool)
      && ReserveIn(next, d) > 0.0 && ReserveOut(next, d) > 0.0
      && ReserveIn(next, d) == ReserveIn(pool, d) + amountIn
      && ReserveOut(next, d) == ReserveOut(pool, d) - Out(pool, amountIn, d)
      && Deep(pool, amountIn, d) * ReserveOut(next, d) == ReserveIn(pool, d) * ReserveOut(pool, d)
  {
    SwapStaysHealthy(pool, amountIn, d);
    OutBalances(pool, amountIn, d);
    SwappedSides(pool, amountIn, d);
  }

  lemma DeepReserves(pool: Pool, next: Pool, a: real, b: real, whole: real, d: Direction)
    requires Healthy(pool) && a > 0.0 && b > 0.0 && whole == a + b
    requires ReserveIn(next, d) == ReserveIn(pool, d) + a && FeeRate(next) == FeeRate(pool)
    ensures Deep(pool, whole, d) > 0.0
    ensures Deep(pool, a, d) * Deep(next, b, d) < ReserveIn(next, d) * Deep(pool, whole, d)
  {
    SplitDenominators(ReserveIn(pool, d), ReserveIn(next, d), a, b, FeeRate(pool),
                      Deep(pool, a, d), Deep(next, b, d), Deep(pool, whole, d));
  }

  /** One swap of a + b yields more than a swap of a followed by one of b. */
  lemma TwoPiecesYieldLess(pool: Pool, a: real, b: real, d: Direction)
    requires Healthy(pool) && a > 0.0 && b > 0.0
    ensures Divisible(pool, a, d) && Divisible(pool, a + b, d)
    ensures var next := Swapped(pool, a, d);
      Divisible(next, b, d) && Out(pool, a, d) + Out(next, b, d) < Out(pool, a + b, d)
  {
    hide Deep, ReserveIn, ReserveOut, Out, Swapped, FeeRate, AfterFee;
    var whole := a + b;
    SwapLeaves(pool, whole, d);
    SwapLeaves(pool, a, d);
    var next := Swapped(pool, a, d);
    SwapLeaves(next, b, d);
    DeepReserves(pool, next, a, b, whole, d);
    CompareRests(ReserveIn(pool, d) * ReserveOut(pool, d), ReserveIn(next, d),
                 Deep(pool, a, d), Deep(next, b, d), Deep(pool, whole, d),
                 ReserveOut(next, d), ReserveOut(Swapped(next, b, d), d), ReserveOut(Swapped(pool, whole, d), d));
  }

  lemma SplitDenominators(x: real, u: real, a: real, b: real, f: real, p: real, q: real, w: real)
    requires x > 0.0 && a > 0.0 && b > 0.0 && 0.0 < f < 1.0
    requires u == x + a && p == x + (a - a * f) && q == u + (b - b * f) && w == x + ((a + b) - (a + b) * f)
    ensures w > 0.0 && p * q < u * w
  {
    FeeSign(a + b, f, (a + b) - (a + b) * f);
    assert u * w - p * q == (a * b) * ((1.0 - f) * f);
    Scale(0.0, 1.0 - f, f);
    Scale(0.0, a, b);
    Scale(0.0, a * b, (1.0 - f) * f);
  }

  lemma CompareRests(k: real, u: real, p: real, q: real, w: real, r1: real, r2: real, r: real)
    requires u > 0.0 && w > 0.0 && r2 > 0.0 && p * q < u * w
    requires p * r1 == k && q * r2 == u * r1 && w * r == k
    ensures r < r2
  {
    Associate(p, q, r2);
    Associate(p, u, r1);
    Associate(u, p, r1);
    Commute(p, u);
    Associate(u, w, r);
    assert (p * q) * r2 == u * k == (u * w) * r;
    Scale(p * q, u * w, r2);
    Scale(0.0, u, w);
    if r >= r2 {
      ScaleWeak(r2, r, u * w);
      Commute(r, u * w);
      Commute(r2, u * w);
    }
  }

  /** Splitting a swap into consecutive pieces never yields more than the one swap, and less if really split. */
  lemma {:induction false} SplittingNeverGains(pool: Pool, pieces: seq<real>, d: Direction)
    requires Healthy(pool) && pieces != [] && AllPositive(pieces)
    ensures Total(pieces) > 0.0 && Divisible(pool, Total(pieces), d)
    ensures TotalOut(pool, pieces, d) <= Out(pool, Total(pieces), d)
    ensures |pieces| > 1 ==> TotalOut(pool, pieces, d) < Out(pool, Total(pieces), d)
    decreases pieces
  {
    TotalPositive(pieces);
    HealthyDivisible(pool, Total(pieces), d);
    SwapRaisesProduct(pool, pieces[0], d);
    var next := Swapped(pool, pieces[0], d);
    if |pieces| == 1 {
      assert Total(pieces) == pieces[0];
      assert TotalOut(next, [], d) == 0.0;
      assert pieces[1..] == [];
    } else {
      SplittingNeverGains(next, pieces[1..], d);
      TwoPiecesYieldLess(pool, pieces[0], Total(pieces[1..]), d);
    }
  }
}
