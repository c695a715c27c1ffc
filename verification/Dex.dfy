/**
 One DEX pool with its swaps and liquidity positions: the ledger behind performSwap, addLiquidity and
 removeLiquidity. Whether a swap's transaction is accepted by the chain is an argument.
 */
module Dex {
  import opened Amm
  import opened Options

  datatype Token = A | B

  datatype Position = Position(owner: string, tokenA: real, tokenB: real, shares: real, active: bool)

  datatype SwapRecord = SwapRecord(direction: Direction, amountIn: real, amountOut: real, confirmed: bool)

  /** How a position started and the percentages removed from it since. */
  datatype Origin = Origin(tokenA: real, tokenB: real, shares: real, removals: seq<real>)

  datatype State = State(pool: Pool, positions: seq<Position>, swaps: seq<SwapRecord>, origins: seq<Origin>)

  datatype Step =
    | PerformSwap(amountIn: real, direction: Direction, sent: bool)
    | AddLiquidity(owner: string, tokenA: real, tokenB: real)
    | RemoveLiquidity(position: nat, caller: string, percentage: real)

  function AfterSwap(s: State, amountIn: real, d: Direction, sent: bool): State
    requires Divisible(s.pool, amountIn, d)
  {
    s.(pool := if sent then Swapped(s.pool, amountIn, d) else s.pool,
       swaps := s.swaps + [SwapRecord(d, amountIn, Out(s.pool, amountIn, d), sent)])
  }

  function AfterAdd(s: State, owner: string, a: real, b: real): State
    requires s.pool.tokenA + s.pool.tokenB != 0.0
  {
    var shares := (a + b) / (s.pool.tokenA + s.pool.tokenB) * 100.0;
    s.(pool := s.pool.(tokenA := s.pool.tokenA + a, tokenB := s.pool.tokenB + b),
       positions := s.positions + [Position(owner, a, b, shares, true)],
       origins := s.origins + [Origin(a, b, shares, [])])
  }

  function Part(amount: real, percentage: real): real {
    amount * percentage / 100.0
  }

  /** A position after `percentage` of it is removed. */
  function Reduced(p: Position, percentage: real): Position {
    var shares := p.shares - Part(p.shares, percentage);
    Position(p.owner, p.tokenA - Part(p.tokenA, percentage), p.tokenB - Part(p.tokenB, percentage),
             shares, p.active && shares > 0.0)
  }

  function AfterRemove(s: State, i: nat, percentage: real): State
    requires i < |s.positions| == |s.origins|
  {
    var p := s.positions[i];
    s.(pool := s.pool.(tokenA := s.pool.tokenA - Part(p.tokenA, percentage),
                       tokenB := s.pool.tokenB - Part(p.tokenB, percentage)),
       positions := s.positions[i := Reduced(p, percentage)],
       origins := s.origins[i := s.origins[i].(removals := s.origins[i].removals + [percentage])])
  }

  predicate Possible(s: State, step: Step) {
    match step
    case PerformSwap(amountIn, d, _) => Divisible(s.pool, amountIn, d)
    case AddLiquidity(_, _, _) => s.pool.tokenA + s.pool.tokenB != 0.0
    case RemoveLiquidity(i, caller, _) => i < |s.positions| == |s.origins| && s.positions[i].owner == caller
  }

  function Next(s: State, step: Step): State {
    if !Possible(s, step) then s
    else
      match step
      case PerformSwap(amountIn, d, sent) => AfterSwap(s, amountIn, d, sent)
      case AddLiquidity(owner, a, b) => AfterAdd(s, owner, a, b)
      case RemoveLiquidity(i, _, percentage) => AfterRemove(s, i, percentage)
  }

  function Run(s: State, steps: seq<Step>): State
    decreases steps
  {
    if steps == [] then s else Run(Next(s, steps[0]), steps[1..])
  }

  // ---------------------------------------------------------------- conservation

  function Held(p: Position, t: Token): real {
    if t == A then p.tokenA else p.tokenB
  }

  function Reserve(pool: Pool, t: Token): real {
    if t == A then pool.tokenA else pool.tokenB
  }

  function HeldByAll(positions: seq<Position>, t: Token): real {
    if positions == [] then 0.0 else Held(positions[0], t) + HeldByAll(positions[1..], t)
  }

  /** What confirmed swaps brought in of token t, less what they took out. */
  function NetInflow(swaps: seq<SwapRecord>, t: Token): real {
    if swaps == [] then 0.0
    else
      var last := swaps[|swaps| - 1];
      NetInflow(swaps[..|swaps| - 1], t)
      + (if !last.confirmed then 0.0
         else if (last.direction == AToB) == (t == A) then last.amountIn
         else -last.amountOut)
  }

  lemma {:induction false} HeldAppend(positions: seq<Position>, p: Position, t: Token)
    ensures HeldByAll(positions + [p], t) == HeldByAll(positions, t) + Held(p, t)
  {
    if positions == [] {
      assert positions + [p] == [p];
    } else {
      HeldAppend(positions[1..], p, t);
      assert (positions + [p])[1..] == positions[1..] + [p];
    }
  }

  lemma {:induction false} HeldUpdate(positions: seq<Position>, i: nat, p: Position, t: Token)
    requires i < |positions|
    ensures HeldByAll(positions[i := p], t) == HeldByAll(positions, t) - Held(positions[i], t) + Held(p, t)
  {
    if i == 0 {
      assert positions[0 := p][1..] == positions[1..];
    } else {
      HeldUpdate(positions[1..], i - 1, p, t);
      assert positions[i := p][1..] == positions[1..][i - 1 := p];
    }
  }

  /** The fraction of a position that is left after removals. */
  function Kept(removals: seq<real>): real {
    if removals == [] then 1.0 else Kept(removals[..|removals| - 1]) * (1.0 - removals[|removals| - 1] / 100.0)
  }

  ghost predicate Follows(p: Position, o: Origin) {
    && p.tokenA == o.tokenA * Kept(o.removals)
    && p.tokenB == o.tokenB * Kept(o.removals)
    && p.shares == o.shares * Kept(o.removals)
  }

  /** For a ledger that started from the given pool and no positions. */
  ghost predicate Balanced(start: Pool, s: State) {
    && (forall t :: Reserve(s.pool, t) == Reserve(start, t) + HeldByAll(s.positions, t) + NetInflow(s.swaps, t))
    && |s.positions| == |s.origins|
    && (forall i :: 0 <= i < |s.positions| ==> Follows(s.positions[i], s.origins[i]))
  }

  lemma ReducedFollows(p: Position, o: Origin, percentage: real)
    requires Follows(p, o)
    ensures Follows(Reduced(p, percentage), o.(removals := o.removals + [percentage]))
  {
  }

  lemma FreshFollows(a: real, b: real, shares: real, owner: string)
    ensures Follows(Position(owner, a, b, shares, true), Origin(a, b, shares, []))
  {
  }

  lemma SwapBalanced(start: Pool, s: State, amountIn: real, d: Direction, sent: bool)
    requires Balanced(start, s) && Divisible(s.pool, amountIn, d)
    ensures Balanced(start, AfterSwap(s, amountIn, d, sent))
  {
  }

  lemma AddBalanced(start: Pool, s: State, owner: string, a: real, b: real)
    requires Balanced(start, s) && s.pool.tokenA + s.pool.tokenB != 0.0
    ensures Balanced(start, AfterAdd(s, owner, a, b))
  {
    hide HeldByAll, NetInflow, Follows;
    var u := AfterAdd(s, owner, a, b);
    var p := u.positions[|s.positions|];
    forall t
      ensures Reserve(u.pool, t) == Reserve(start, t) + HeldByAll(u.positions, t) + NetInflow(u.swaps, t)
    {
      HeldAppend(s.positions, p, t);
    }
    FreshFollows(a, b, p.shares, owner);
  }

  lemma RemoveBalanced(start: Pool, s: State, i: nat, percentage: real)
    requires Balanced(start, s) && i < |s.positions|
    ensures Balanced(start, AfterRemove(s, i, percentage))
  {
    hide HeldByAll, NetInflow, Follows;
    var u := AfterRemove(s, i, percentage);
    forall t
      ensures Reserve(u.pool, t) == Reserve(start, t) + HeldByAll(u.positions, t) + NetInflow(u.swaps, t)
    {
      HeldUpdate(s.positions, i, u.positions[i], t);
    }
    ReducedFollows(s.positions[i], s.origins[i], percentage);
  }

  lemma StepBalanced(start: Pool, s: State, step: Step)
    requires Balanced(start, s)
    ensures Balanced(start, Next(s, step))
  {
    hide Balanced, AfterSwap, AfterAdd, AfterRemove, Divisible;
    if Possible(s, step) {
      match step
      case PerformSwap(amountIn, d, sent) => SwapBalanced(start, s, amountIn, d, sent);
      case AddLiquidity(owner, a, b) => AddBalanced(start, s, owner, a, b);
      case RemoveLiquidity(i, _, percentage) => RemoveBalanced(start, s, i, percentage);
    }
  }

  lemma {:induction false} RunBalanced(start: Pool, s: State, steps: seq<Step>)
    requires Balanced(start, s)
    ensures Balanced(start, Run(s, steps))
    decreases steps
  {
    if steps != [] {
      StepBalanced(start, s, steps[0]);
      RunBalanced(start, Next(s, steps[0]), steps[1..]);
    }
  }

  /**
   Across any mix of confirmed and failed swaps, additions and removals of any percentages: for each token
   the pool holds its starting balance, plus what the positions hold, plus the net inflow of the swaps; and
   each position holds its initial amounts and shares times the product of (1 - p/100) over its removals.
   */
  lemma LedgerBalances(start: Pool, steps: seq<Step>)
    ensures Balanced(start, Run(State(start, [], [], []), steps))
  {
    RunBalanced(start, State(start, [], [], []), steps);
  }

  // ---------------------------------------------------------------- solvency

  /**
   In every reachable state a removal leaves a reserve positive if and only if it takes less than the starting
   balance, all positions and the net inflow of the swaps together. Swaps can have taken what a position still holds.
   */
  lemma RemovalSolventExactly(start: Pool, steps: seq<Step>, i: nat, percentage: real, t: Token)
    requires i < |Run(State(start, [], [], []), steps).positions|
    ensures var s := Run(State(start, [], [], []), steps);
      && |s.positions| == |s.origins|
      && (Reserve(AfterRemove(s, i, percentage).pool, t) > 0.0 <==>
            Part(Held(s.positions[i], t), percentage) < Reserve(start, t) + HeldByAll(s.positions, t) + NetInflow(s.swaps, t))
  {
    hide HeldByAll, NetInflow, Part;
    LedgerBalances(start, steps);
  }

  /** Once all positions are emptied, by removals of any percentages, a reserve is its start and the net inflow. */
  lemma EmptiedPositions(start: Pool, steps: seq<Step>, t: Token)
    requires forall p :: p in Run(State(start, [], [], []), steps).positions ==> Held(p, t) == 0.0
    ensures var s := Run(State(start, [], [], []), steps); Reserve(s.pool, t) == Reserve(start, t) + NetInflow(s.swaps, t)
  {
    LedgerBalances(start, steps);
    HeldNothing(Run(State(start, [], [], []), steps).positions, t);
  }

  lemma {:induction false} HeldNothing(positions: seq<Position>, t: Token)
    requires forall p :: p in positions ==> Held(p, t) == 0.0
    ensures HeldByAll(positions, t) == 0.0
  {
    if positions != [] {
      assert positions[0] in positions;
      HeldNothing(positions[1..], t);
    }
  }

  /** Additions of no negative amounts, and removals of 0 to 100 percent; swaps of any kind. */
  predicate Sensible(step: Step) {
    match step
    case PerformSwap(_, _, _) => true
    case AddLiquidity(_, a, b) => a >= 0.0 && b >= 0.0
    case RemoveLiquidity(_, _, percentage) => 0.0 <= percentage <= 100.0
  }

  predicate AllSensible(steps: seq<Step>) {
    forall step :: step in steps ==> Sensible(step)
  }

  predicate NoSwaps(steps: seq<Step>) {
    forall step :: step in steps ==> !step.PerformSwap?
  }

  ghost predicate NonNegative(s: State) {
    |s.positions| == |s.origins| && forall p :: p in s.positions ==> p.tokenA >= 0.0 && p.tokenB >= 0.0
  }

  lemma PartWithin(amount: real, percentage: real)
    requires amount >= 0.0 && 0.0 <= percentage <= 100.0
    ensures 0.0 <= Part(amount, percentage) <= amount
  {
    assert amount * percentage <= amount * 100.0;
  }

  lemma StepNonNegative(s: State, step: Step)
    requires NonNegative(s) && Sensible(step)
    ensures NonNegative(Next(s, step))
    ensures !step.PerformSwap? ==> Next(s, step).swaps == s.swaps
  {
    hide Part, Out, Divisible;
    if step.RemoveLiquidity? && Possible(s, step) {
      var p := s.positions[step.position];
      PartWithin(p.tokenA, step.percentage);
      PartWithin(p.tokenB, step.percentage);
      var q := Reduced(p, step.percentage);
      assert forall x :: x in s.positions[step.position := q] ==> x in s.positions || x == q;
    }
  }

  lemma {:induction false} RunNonNegative(s: State, steps: seq<Step>)
    requires NonNegative(s) && AllSensible(steps)
    ensures NonNegative(Run(s, steps)) && (NoSwaps(steps) ==> Run(s, steps).swaps == s.swaps)
    decreases steps
  {
    hide NonNegative, Next, Sensible;
    if steps != [] {
      assert steps[0] in steps;
      StepNonNegative(s, steps[0]);
      RunNonNegative(Next(s, steps[0]), steps[1..]);
    }
  }

  lemma {:induction false} HeldNotNegative(positions: seq<Position>, t: Token)
    requires forall p :: p in positions ==> Held(p, t) >= 0.0
    ensures HeldByAll(positions, t) >= 0.0
  {
    if positions != [] {
      assert positions[0] in positions;
      HeldNotNegative(positions[1..], t);
    }
  }

  lemma NonNegativeHeld(s: State, t: Token)
    requires NonNegative(s)
    ensures HeldByAll(s.positions, t) >= 0.0
  {
    HeldNotNegative(s.positions, t);
  }

  lemma StartBalanced(start: Pool)
    ensures var s := State(start, [], [], []); Balanced(start, s) && NonNegative(s)
  {
  }

  /** Without swaps no reserve ever falls below its start, whoever adds and removes. */
  lemma ProvidersKeepStart(start: Pool, steps: seq<Step>, t: Token)
    requires AllSensible(steps) && NoSwaps(steps)
    ensures Reserve(Run(State(start, [], [], []), steps).pool, t) >= Reserve(start, t)
  {
    hide HeldByAll, Run;
    StartBalanced(start);
    RunBalanced(start, State(start, [], [], []), steps);
    RunNonNegative(State(start, [], [], []), steps);
    NonNegativeHeld(Run(State(start, [], [], []), steps), t);
  }

  predicate OnlyRemovals(steps: seq<Step>) {
    AllSensible(steps) && forall step :: step in steps ==> step.RemoveLiquidity?
  }

  /** Whatever is removed, by whom and in which order, the reserve stays positive. */
  ghost predicate WithstandsRemovals(s: State, t: Token) {
    forall removals :: OnlyRemovals(removals) ==> Reserve(Run(s, removals).pool, t) > 0.0
  }

  /** Every position from index i on removed in full by its owner. */
  function EmptyFrom(s: State, i: nat): seq<Step>
    requires |s.positions| == |s.origins|
    decreases |s.positions| - i
  {
    if i >= |s.positions| then []
    else
      var step := RemoveLiquidity(i, s.positions[i].owner, 100.0);
      [step] + EmptyFrom(Next(s, step), i + 1)
  }

  lemma {:induction false} EmptyFromEmpties(s: State, i: nat, t: Token)
    requires |s.positions| == |s.origins| && forall j :: 0 <= j < i && j < |s.positions| ==> Held(s.positions[j], t) == 0.0
    ensures OnlyRemovals(EmptyFrom(s, i))
    ensures forall p :: p in Run(s, EmptyFrom(s, i)).positions ==> Held(p, t) == 0.0
    decreases |s.positions| - i
  {
    hide Divisible, Out;
    if i < |s.positions| {
      var step := RemoveLiquidity(i, s.positions[i].owner, 100.0);
      var u := Next(s, step);
      assert u.positions == s.positions[i := Reduced(s.positions[i], 100.0)];
      EmptyFromEmpties(u, i + 1, t);
      assert EmptyFrom(s, i)[1..] == EmptyFrom(u, i + 1);
    }
  }

  /**
   In every state that sensible additions and removals and any swaps lead to: the providers can take everything
   out, in whatever way, without emptying a reserve, if and only if its start and the net inflow of the swaps is positive.
   */
  lemma ProvidersCanLeaveExactly(start: Pool, steps: seq<Step>, t: Token)
    requires AllSensible(steps)
    ensures var s := Run(State(start, [], [], []), steps);
      WithstandsRemovals(s, t) <==> Reserve(start, t) + NetInflow(s.swaps, t) > 0.0
  {
    hide HeldByAll, NetInflow, Run, Next, OnlyRemovals, EmptyFrom;
    StartBalanced(start);
    RunBalanced(start, State(start, [], [], []), steps);
    RunNonNegative(State(start, [], [], []), steps);
    var s := Run(State(start, [], [], []), steps);
    forall removals | OnlyRemovals(removals)
      ensures Reserve(Run(s, removals).pool, t) >= Reserve(start, t) + NetInflow(s.swaps, t)
    {
      RemovalsAreNoSwaps(removals);
      RunBalanced(start, s, removals);
      RunNonNegative(s, removals);
      NonNegativeHeld(Run(s, removals), t);
    }
    var all := EmptyFrom(s, 0);
    EmptyFromEmpties(s, 0, t);
    RemovalsAreNoSwaps(all);
    RunBalanced(start, s, all);
    RunNonNegative(s, all);
    HeldNothing(Run(s, all).positions, t);
  }

  lemma RemovalsAreNoSwaps(steps: seq<Step>)
    requires OnlyRemovals(steps)
    ensures AllSensible(steps) && NoSwaps(steps)
  {
  }

  /** A provider takes out 900 of a token of which a swap has left 10. */
  lemma RemovalOverdraws(provider: string)
    ensures var s := Run(State(Pool(100.0, 100.0, Some(0.5)), [], [], []),
                         [AddLiquidity(provider, 900.0, 900.0), PerformSwap(198000.0, BToA, true), RemoveLiquidity(0, provider, 100.0)]);
      s.pool.tokenA == -890.0
  {
    var s0 := State(Pool(100.0, 100.0, Some(0.5)), [], [], []);
    var steps := [AddLiquidity(provider, 900.0, 900.0), PerformSwap(198000.0, BToA, true), RemoveLiquidity(0, provider, 100.0)];
    var s1 := Next(s0, steps[0]);
    assert s1.pool == Pool(1000.0, 1000.0, Some(0.5)) && |s1.positions| == |s1.origins| == 1;
    SwapOut(s1.pool);
    var s2 := Next(s1, steps[1]);
    assert s2.pool.tokenA == 10.0 && s2.positions == s1.positions;
    var s3 := Next(s2, steps[2]);
    assert s3.pool.tokenA == 10.0 - Part(900.0, 100.0);
    RunThree(s0, steps[0], steps[1], steps[2]);
  }

  lemma SwapOut(pool: Pool)
    requires pool == Pool(1000.0, 1000.0, Some(0.5))
    ensures Divisible(pool, 198000.0, BToA) && Out(pool, 198000.0, BToA) == 990.0
  {
    assert AfterFee(pool, 198000.0) == 99000.0;
  }

  lemma RunThree(s: State, a: Step, b: Step, c: Step)
    ensures Run(s, [a, b, c]) == Next(Next(Next(s, a), b), c)
  {
    hide Next;
    assert [a, b, c][1..] == [b, c] && [b, c][1..] == [c] && [c][1..] == [];
    assert Run(Next(s, a), [b, c]) == Run(Next(Next(s, a), b), [c]);
    assert Run(Next(Next(s, a), b), [c]) == Run(Next(Next(Next(s, a), b), c), []);
  }

  // ---------------------------------------------------------------- runs of swaps

  predicate PositiveSwaps(steps: seq<Step>) {
    forall step :: step in steps ==> step.PerformSwap? && step.amountIn > 0.0
  }

  /** The swaps whose transaction the chain accepted. */
  function Confirmed(steps: seq<Step>): seq<Swap>
    requires PositiveSwaps(steps)
    decreases steps
  {
    if steps == [] then []
    else
      assert steps[0] in steps;
      (if steps[0].sent then [Swap(steps[0].direction, steps[0].amountIn)] else []) + Confirmed(steps[1..])
  }

  /**
   Failed transactions leave the pool alone, so what is proved about runs of the formula holds for the pool:
   it is healthy throughout, and its product has grown exactly if some swap was confirmed.
   */
  lemma {:induction false} SwapRunIsFormulaRun(s: State, steps: seq<Step>)
    requires Healthy(s.pool) && PositiveSwaps(steps)
    ensures Positive(Confirmed(steps)) && Run(s, steps).pool == AfterSwaps(s.pool, Confirmed(steps))
    ensures Healthy(Run(s, steps).pool)
    ensures Product(Run(s, steps).pool) > Product(s.pool) <==> exists step :: step in steps && step.sent
    decreases steps
  {
    hide Out, Divisible, Product;
    if steps != [] {
      var step := steps[0];
      assert step in steps;
      SwapRaisesProduct(s.pool, step.amountIn, step.direction);
      var t := Next(s, step);
      SwapRunIsFormulaRun(t, steps[1..]);
      var swaps := Confirmed(steps);
      if step.sent {
        assert swaps[1..] == Confirmed(steps[1..]);
        assert swaps[0] == Swap(step.direction, step.amountIn);
      } else {
        assert swaps == Confirmed(steps[1..]);
      }
    }
    RunRaisesProduct(s.pool, Confirmed(steps));
    ConfirmedExist(steps);
  }

  lemma {:induction false} ConfirmedExist(steps: seq<Step>)
    requires PositiveSwaps(steps)
    ensures Confirmed(steps) != [] <==> exists step :: step in steps && step.sent
    decreases steps
  {
    if steps != [] {
      assert steps[0] in steps;
      ConfirmedExist(steps[1..]);
    }
  }

  // ---------------------------------------------------------------- the service

  class DexService {
    var pool: Pool
    var positions: seq<Position>
    var swaps: seq<SwapRecord>
    ghost var origins: seq<Origin>

    ghost function Abs(): State
      reads this
    {
      State(pool, positions, swaps, origins)
    }

    constructor (pool: Pool)
      ensures Abs() == State(pool, [], [], [])
    {
      this.pool, positions, swaps, origins := pool, [], [], [];
    }

    method PerformSwap(amountIn: real, direction: Direction, slippageTolerance: real, sent: bool)
      returns (quote: Quote)
      requires Divisible(pool, amountIn, direction)
      modifies this
      ensures quote == CalculateSwapAmount(old(pool), amountIn, direction, slippageTolerance)
      ensures Abs() == Next(old(Abs()), Step.PerformSwap(amountIn, direction, sent))
      ensures swaps == old(swaps) + [SwapRecord(direction, amountIn, quote.amountOut, sent)] && positions == old(positions)
      ensures pool == if !sent then old(pool)
                      else if direction == AToB
                      then old(pool).(tokenA := old(pool).tokenA + amountIn, tokenB := old(pool).tokenB - quote.amountOut)
                      else old(pool).(tokenB := old(pool).tokenB + amountIn, tokenA := old(pool).tokenA - quote.amountOut)
    {
      hide Out, Divisible;
      quote := CalculateSwapAmount(pool, amountIn, direction, slippageTolerance);
      swaps := swaps + [SwapRecord(direction, amountIn, quote.amountOut, sent)];
      if sent {
        if direction == AToB {
          pool := pool.(tokenA := pool.tokenA + amountIn, tokenB := pool.tokenB - quote.amountOut);
        } else {
          pool := pool.(tokenB := pool.tokenB + amountIn, tokenA := pool.tokenA - quote.amountOut);
        }
      }
    }

    method AddLiquidity(owner: string, tokenAAmount: real, tokenBAmount: real)
      requires pool.tokenA + pool.tokenB != 0.0
      modifies this
      ensures Abs() == Next(old(Abs()), Step.AddLiquidity(owner, tokenAAmount, tokenBAmount))
      ensures pool == old(pool).(tokenA := old(pool).tokenA + tokenAAmount, tokenB := old(pool).tokenB + tokenBAmount)
      ensures swaps == old(swaps) && |positions| == |old(positions)| + 1
      ensures var p := positions[|old(positions)|];
        && positions == old(positions) + [p]
        && p == Position(owner, tokenAAmount, tokenBAmount, p.shares, true)
        && p.shares * (old(pool).tokenA + old(pool).tokenB) == 100.0 * (tokenAAmount + tokenBAmount)
    {
      var totalLiquidity := pool.tokenA + pool.tokenB;
      var liquidityShares := (tokenAAmount + tokenBAmount) / totalLiquidity * 100.0;
      positions := positions + [Position(owner, tokenAAmount, tokenBAmount, liquidityShares, true)];
      origins := origins + [Origin(tokenAAmount, tokenBAmount, liquidityShares, [])];
      pool := pool.(tokenA := pool.tokenA + tokenAAmount, tokenB := pool.tokenB + tokenBAmount);
    }

    /** Throws if there is no such position or it is another owner's. */
    method RemoveLiquidity(positionId: nat, caller: string, percentage: real) returns (ok: bool)
      requires |positions| == |origins|
      modifies this
      ensures Abs() == Next(old(Abs()), Step.RemoveLiquidity(positionId, caller, percentage))
      ensures ok <==> positionId < |old(positions)| && old(positions)[positionId].owner == caller
      ensures !ok ==> pool == old(pool) && positions == old(positions)
      ensures ok ==>
        && |positions| == |old(positions)| && positions == old(positions)[positionId := positions[positionId]]
        && var p, q := old(positions)[positionId], positions[positionId];
           && q.tokenA == p.tokenA - p.tokenA * percentage / 100.0 && q.tokenB == p.tokenB - p.tokenB * percentage / 100.0
           && q.shares == p.shares - p.shares * percentage / 100.0
           && (q.active <==> p.active && q.shares > 0.0) && q.owner == caller
           && pool.tokenA - old(pool).tokenA == q.tokenA - p.tokenA && pool.tokenB - old(pool).tokenB == q.tokenB - p.tokenB
           && pool.feeRate == old(pool).feeRate
      ensures swaps == old(swaps)
    {
      if positionId >= |positions| || positions[positionId].owner != caller {
        return false;
      }
      var p := positions[positionId];
      var tokenAAmount := Part(p.tokenA, percentage);
      var tokenBAmount := Part(p.tokenB, percentage);
      var shares := p.shares - Part(p.shares, percentage);
      var active := p.active;
      if shares <= 0.0 {
        active := false;
      }
      var reduced := p.(tokenA := p.tokenA - tokenAAmount, tokenB := p.tokenB - tokenBAmount, shares := shares, active := active);
      assert reduced == Reduced(p, percentage);
      positions := positions[positionId := reduced];
      pool := pool.(tokenA := pool.tokenA - tokenAAmount, tokenB := pool.tokenB - tokenBAmount);
      origins := origins[positionId := origins[positionId].(removals := origins[positionId].removals + [percentage])];
      return true;
    }
  }
}
