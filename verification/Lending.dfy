/**
 Lending pools and positions. A position is written before its transaction is sent and gets its user only
 when the transaction went through; reserves move only then.
 */
module Lending {
  import opened Options
  import opened RealArithmetic

  /** The address of a key pair is never empty; an empty user marks a position that was never opened on chain. */
  type Address = a: string | a != "" witness "1"

  const DEFAULT_LTV: real := 0.75
  const MIN_HEALTH: real := 1.2

  datatype Kind = Supply | Borrow

  datatype Reserve = Reserve(mint: string, supplied: real, borrowed: real, ltvRatio: real)

  datatype Status = Active | Closed

  /** `initial` is the amount the position started with and `ltv` the ratio it was checked against: history. */
  datatype Position = Position(
    pool: string, mint: string, kind: Kind, user: string, amount: real, status: Status,
    collateral: real, initial: real, ltv: real
  )

  datatype State = State(pools: map<string, seq<Reserve>>, positions: seq<Position>)

  /** `user` is the owner of the key if the transaction goes through, None if it fails. */
  datatype Step =
    | SupplyToPool(pool: string, mint: string, amount: real, user: Option<Address>)
    | BorrowFromPool(pool: string, mint: string, amount: real, collateral: real, user: Option<Address>)
    | RepayBorrow(position: nat, amount: real, caller: Address, sent: bool)
    | WithdrawSupply(position: nat, amount: real, caller: Address, sent: bool)

  /** The first reserve for a mint. */
  function Find(reserves: seq<Reserve>, mint: string): (r: Option<nat>)
    ensures r.None? ==> forall i :: 0 <= i < |reserves| ==> reserves[i].mint != mint
    ensures r.Some? ==> r.value < |reserves| && reserves[r.value].mint == mint
    ensures r.Some? ==> forall i :: 0 <= i < r.value ==> reserves[i].mint != mint
  {
    if reserves == [] then None
    else if reserves[0].mint == mint then Some(0)
    else
      var rest := Find(reserves[1..], mint);
      if rest.Some? then
        assert forall i :: 0 < i < |reserves| ==> reserves[i] == reserves[1..][i - 1];
        Some(rest.value + 1)
      else
        assert forall i :: 0 < i < |reserves| ==> reserves[i] == reserves[1..][i - 1];
        None
  }

  predicate HasReserve(pools: map<string, seq<Reserve>>, pool: string, mint: string) {
    pool in pools && Find(pools[pool], mint).Some?
  }

  function ReserveOf(pools: map<string, seq<Reserve>>, pool: string, mint: string): Reserve
    requires HasReserve(pools, pool, mint)
  {
    pools[pool][Find(pools[pool], mint).value]
  }

  function Moved(r: Reserve, kind: Kind, delta: real): Reserve {
    match kind
    case Supply => r.(supplied := r.supplied + delta)
    case Borrow => r.(borrowed := r.borrowed + delta)
  }

  function Adjust(pools: map<string, seq<Reserve>>, pool: string, mint: string, kind: Kind, delta: real): map<string, seq<Reserve>> {
    if HasReserve(pools, pool, mint) then
      var k := Find(pools[pool], mint).value;
      pools[pool := pools[pool][k := Moved(pools[pool][k], kind, delta)]]
    else pools
  }

  /** A zero or missing ratio reads as the default. */
  function Ltv(r: Reserve): real {
    if r.ltvRatio == 0.0 then DEFAULT_LTV else r.ltvRatio
  }

  /** Whether collateral * ltv / amount is not below the minimum health; division by zero as in floating point. */
  predicate Healthy(collateral: real, ltv: real, amount: real) {
    if amount == 0.0 then collateral * ltv >= 0.0 else collateral * ltv / amount >= MIN_HEALTH
  }

  function AfterOpen(s: State, pool: string, mint: string, kind: Kind, amount: real, collateral: real, user: Option<Address>): State
    requires HasReserve(s.pools, pool, mint)
  {
    var ltv := Ltv(ReserveOf(s.pools, pool, mint));
    match user
    case None => s.(positions := s.positions + [Position(pool, mint, kind, "", amount, Closed, collateral, amount, ltv)])
    case Some(u) => State(Adjust(s.pools, pool, mint, kind, amount),
                          s.positions + [Position(pool, mint, kind, u, amount, Active, collateral, amount, ltv)])
  }

  predicate MayReduce(s: State, i: nat, kind: Kind, caller: Address) {
    i < |s.positions| && s.positions[i].kind == kind && s.positions[i].user == caller
  }

  function Reduced(p: Position, amount: real): Position {
    var left := p.amount - amount;
    p.(amount := left, status := if left <= 0.0 then Closed else p.status)
  }

  function AfterReduce(s: State, i: nat, amount: real): State
    requires i < |s.positions|
  {
    var p := s.positions[i];
    State(Adjust(s.pools, p.pool, p.mint, p.kind, -amount), s.positions[i := Reduced(p, amount)])
  }

  function Next(s: State, step: Step): State {
    match step
    case SupplyToPool(pool, mint, amount, user) =>
      if HasReserve(s.pools, pool, mint) then AfterOpen(s, pool, mint, Supply, amount, 0.0, user) else s
    case BorrowFromPool(pool, mint, amount, collateral, user) =>
      if HasReserve(s.pools, pool, mint) && Healthy(collateral, Ltv(ReserveOf(s.pools, pool, mint)), amount)
        then AfterOpen(s, pool, mint, Borrow, amount, collateral, user)
        else s
    case RepayBorrow(i, amount, caller, sent) => if MayReduce(s, i, Borrow, caller) && sent then AfterReduce(s, i, amount) else s
    case WithdrawSupply(i, amount, caller, sent) => if MayReduce(s, i, Supply, caller) && sent then AfterReduce(s, i, amount) else s
  }

  function Run(s: State, steps: seq<Step>): State
    decreases steps
  {
    if steps == [] then s else Run(Next(s, steps[0]), steps[1..])
  }

  // ---------------------------------------------------------------- conservation

  function Level(pools: map<string, seq<Reserve>>, pool: string, mint: string, kind: Kind): real {
    if !HasReserve(pools, pool, mint) then 0.0
    else if kind == Supply then ReserveOf(pools, pool, mint).supplied
    else ReserveOf(pools, pool, mint).borrowed
  }

  /** A position of a user in one reserve. */
  predicate Weighs(p: Position, pool: string, mint: string, kind: Kind) {
    p.user != "" && p.pool == pool && p.mint == mint && p.kind == kind
  }

  function Weight(p: Position, pool: string, mint: string, kind: Kind): real {
    if Weighs(p, pool, mint, kind) then p.amount else 0.0
  }

  /** What users hold in positions of one kind in one reserve. */
  function Held(positions: seq<Position>, pool: string, mint: string, kind: Kind): real {
    if positions == [] then 0.0
    else Held(positions[..|positions| - 1], pool, mint, kind) + Weight(positions[|positions| - 1], pool, mint, kind)
  }

  lemma HeldAppend(positions: seq<Position>, p: Position, pool: string, mint: string, kind: Kind)
    ensures Held(positions + [p], pool, mint, kind) == Held(positions, pool, mint, kind) + Weight(p, pool, mint, kind)
  {
  }

  lemma {:induction false} HeldUpdate(positions: seq<Position>, i: nat, p: Position, pool: string, mint: string, kind: Kind)
    requires i < |positions|
    ensures Held(positions[i := p], pool, mint, kind) ==
            Held(positions, pool, mint, kind) - Weight(positions[i], pool, mint, kind) + Weight(p, pool, mint, kind)
  {
    hide Weight;
    var n := |positions| - 1;
    if i == n {
      assert positions[i := p][..n] == positions[..n];
    } else {
      HeldUpdate(positions[..n], i, p, pool, mint, kind);
      assert positions[i := p][..n] == positions[..n][i := p];
    }
  }

  /** Moving a reserve leaves every mint where it was found. */
  lemma FindStays(reserves: seq<Reserve>, k: nat, r: Reserve, mint: string)
    requires k < |reserves| && r.mint == reserves[k].mint
    ensures Find(reserves[k := r], mint) == Find(reserves, mint)
  {
    hide Find;
    var later := reserves[k := r];
    assert forall i :: 0 <= i < |reserves| ==> later[i].mint == reserves[i].mint;
    var a, b := Find(reserves, mint), Find(later, mint);
    if a.Some? { assert later[a.value].mint == mint; }
    if b.Some? { assert reserves[b.value].mint == mint; }
  }

  lemma AdjustKeepsReserves(pools: map<string, seq<Reserve>>, pool: string, mint: string, kind: Kind, delta: real, p: string, m: string)
    ensures HasReserve(Adjust(pools, pool, mint, kind, delta), p, m) <==> HasReserve(pools, p, m)
    ensures HasReserve(pools, p, m) ==>
      ReserveOf(Adjust(pools, pool, mint, kind, delta), p, m) ==
        if p == pool && m == mint then Moved(ReserveOf(pools, p, m), kind, delta) else ReserveOf(pools, p, m)
  {
    hide Find;
    if HasReserve(pools, pool, mint) && p == pool {
      var k := Find(pools[pool], mint).value;
      FindStays(pools[pool], k, Moved(pools[pool][k], kind, delta), m);
    }
  }

  /** Every position lies in a pool that has a reserve for it. */
  ghost predicate Backed(s: State) {
    forall i :: 0 <= i < |s.positions| ==> HasReserve(s.pools, s.positions[i].pool, s.positions[i].mint)
  }

  /** Reserve level less what is held: what no step changes. */
  function Rest(s: State, pool: string, mint: string, kind: Kind): real {
    Level(s.pools, pool, mint, kind) - Held(s.positions, pool, mint, kind)
  }

  lemma OpenConserves(s: State, pool: string, mint: string, kind: Kind, amount: real, collateral: real, user: Option<Address>,
                      p: string, m: string, k: Kind)
    requires Backed(s) && HasReserve(s.pools, pool, mint)
    ensures var t := AfterOpen(s, pool, mint, kind, amount, collateral, user);
      Backed(t) && Rest(t, p, m, k) == Rest(s, p, m, k)
  {
    hide Find, HasReserve, ReserveOf, Adjust, Held, Ltv;
    var t := AfterOpen(s, pool, mint, kind, amount, collateral, user);
    AdjustKeepsReserves(s.pools, pool, mint, kind, amount, p, m);
    HeldAppend(s.positions, t.positions[|s.positions|], p, m, k);
    forall i | 0 <= i < |t.positions| ensures HasReserve(t.pools, t.positions[i].pool, t.positions[i].mint) {
      AdjustKeepsReserves(s.pools, pool, mint, kind, amount, t.positions[i].pool, t.positions[i].mint);
    }
  }

  lemma ReduceConserves(s: State, i: nat, amount: real, p: string, m: string, k: Kind)
    requires Backed(s) && i < |s.positions| && s.positions[i].user != ""
    ensures Backed(AfterReduce(s, i, amount)) && Rest(AfterReduce(s, i, amount), p, m, k) == Rest(s, p, m, k)
  {
    hide Find, HasReserve, ReserveOf, Adjust, Held;
    var x := s.positions[i];
    var t := AfterReduce(s, i, amount);
    AdjustKeepsReserves(s.pools, x.pool, x.mint, x.kind, -amount, p, m);
    HeldUpdate(s.positions, i, Reduced(x, amount), p, m, k);
    forall j | 0 <= j < |t.positions| ensures HasReserve(t.pools, t.positions[j].pool, t.positions[j].mint) {
      AdjustKeepsReserves(s.pools, x.pool, x.mint, x.kind, -amount, t.positions[j].pool, t.positions[j].mint);
    }
  }

  lemma StepConserves(s: State, step: Step, p: string, m: string, k: Kind)
    requires Backed(s)
    ensures Backed(Next(s, step)) && Rest(Next(s, step), p, m, k) == Rest(s, p, m, k)
  {
    hide AfterOpen, AfterReduce, Backed, Rest, Healthy, HasReserve;
    match step
    case SupplyToPool(pool, mint, amount, user) =>
      if HasReserve(s.pools, pool, mint) { OpenConserves(s, pool, mint, Supply, amount, 0.0, user, p, m, k); }
    case BorrowFromPool(pool, mint, amount, collateral, user) =>
      if HasReserve(s.pools, pool, mint) { OpenConserves(s, pool, mint, Borrow, amount, collateral, user, p, m, k); }
    case RepayBorrow(i, amount, caller, sent) =>
      if MayReduce(s, i, Borrow, caller) { ReduceConserves(s, i, amount, p, m, k); }
    case WithdrawSupply(i, amount, caller, sent) =>
      if MayReduce(s, i, Supply, caller) { ReduceConserves(s, i, amount, p, m, k); }
  }

  lemma {:induction false} RunConserves(s: State, steps: seq<Step>, p: string, m: string, k: Kind)
    requires Backed(s)
    ensures Backed(Run(s, steps)) && Rest(Run(s, steps), p, m, k) == Rest(s, p, m, k)
    decreases steps
  {
    hide Backed, Rest, Next;
    if steps != [] {
      StepConserves(s, steps[0], p, m, k);
      RunConserves(Next(s, steps[0]), steps[1..], p, m, k);
    }
  }

  /**
   From pools without positions, after any run: the supplied (borrowed) level of a reserve is where it started
   plus the sum of the amounts of the supply (borrow) positions with a user, whatever failed, was repaid or
   withdrawn in part or in excess.
   */
  lemma ReservesMatchPositions(pools: map<string, seq<Reserve>>, steps: seq<Step>, pool: string, mint: string, kind: Kind)
    ensures var t := Run(State(pools, []), steps);
      Level(t.pools, pool, mint, kind) == Level(pools, pool, mint, kind) + Held(t.positions, pool, mint, kind)
  {
    hide Level;
    RunConserves(State(pools, []), steps, pool, mint, kind);
  }

  // ---------------------------------------------------------------- collateral

  /** What the health check decides, without its division. */
  lemma HealthMeaning(collateral: real, ltv: real, amount: real)
    ensures amount >= 0.0 ==> (Healthy(collateral, ltv, amount) <==> collateral * ltv >= MIN_HEALTH * amount)
    ensures amount < 0.0 ==> (Healthy(collateral, ltv, amount) <==> collateral * ltv <= MIN_HEALTH * amount)
  {
    if amount != 0.0 { QuotientAtLeast(collateral * ltv, amount); }
  }

  lemma QuotientAtLeast(worth: real, amount: real)
    requires amount != 0.0
    ensures amount > 0.0 ==> (worth / amount >= MIN_HEALTH <==> worth >= MIN_HEALTH * amount)
    ensures amount < 0.0 ==> (worth / amount >= MIN_HEALTH <==> worth <= MIN_HEALTH * amount)
  {
    var q := worth / amount;
    Quotient(worth, amount);
  }

  /**
   Which borrows are opened: exactly those from a reserve of the pool with collateral of at least 1.2 times the amount at
   the reserve's own ratio, or at 0.75 where it has none, and for a negative amount of at most that; then the position is
   there with its collateral, and with its user if the transaction goes through.
   */
  lemma BorrowOpensExactly(s: State, pool: string, mint: string, amount: real, collateral: real, user: Option<Address>)
    ensures var t := Next(s, BorrowFromPool(pool, mint, amount, collateral, user));
      && (!HasReserve(s.pools, pool, mint) ==> t == s)
      && (HasReserve(s.pools, pool, mint) ==>
            var own := ReserveOf(s.pools, pool, mint).ltvRatio;
            var ratio := if own == 0.0 then 0.75 else own;
            t != s <==> if amount < 0.0 then 10.0 * (collateral * ratio) <= 12.0 * amount else 10.0 * (collateral * ratio) >= 12.0 * amount)
      && (t != s ==>
            && |t.positions| == |s.positions| + 1
            && var p := t.positions[|s.positions|];
               && p.pool == pool && p.mint == mint && p.kind == Borrow && p.amount == amount && p.collateral == collateral
               && p.user == (if user.Some? then user.value else "")
               && p.status == if user.Some? then Active else Closed)
  {
    hide Find, Adjust, Healthy, ReserveOf, HasReserve;
    if HasReserve(s.pools, pool, mint) {
      HealthMeaning(collateral, Ltv(ReserveOf(s.pools, pool, mint)), amount);
    }
  }

  /** Repayments are not negative. */
  predicate Paying(step: Step) {
    step.RepayBorrow? ==> step.amount >= 0.0
  }

  predicate PayingRun(steps: seq<Step>) {
    forall i :: 0 <= i < |steps| ==> Paying(steps[i])
  }

  predicate Covered(p: Position) {
    p.kind == Borrow && p.initial >= 0.0 ==> p.amount <= p.initial && p.collateral * p.ltv >= MIN_HEALTH * p.initial
  }

  ghost predicate AllCovered(s: State) {
    forall i :: 0 <= i < |s.positions| ==> Covered(s.positions[i])
  }

  /** A borrow that passed the health check is covered when it is opened, whether it goes through or not. */
  lemma OpenCovered(p: Position)
    requires p.kind == Borrow ==> p.amount == p.initial && Healthy(p.collateral, p.ltv, p.initial)
    ensures Covered(p)
  {
    if p.kind == Borrow { HealthMeaning(p.collateral, p.ltv, p.initial); }
  }

  lemma ReducedCovered(p: Position, amount: real)
    requires Covered(p) && (p.kind == Borrow ==> amount >= 0.0)
    ensures Covered(Reduced(p, amount))
  {
  }

  lemma StepCovered(s: State, step: Step)
    requires AllCovered(s) && Paying(step)
    ensures AllCovered(Next(s, step))
  {
    hide Healthy, Adjust, HasReserve, ReserveOf, Ltv, Covered, Reduced;
    var t := Next(s, step);
    if |t.positions| > |s.positions| {
      OpenCovered(t.positions[|s.positions|]);
    } else if (step.RepayBorrow? || step.WithdrawSupply?) && step.position < |s.positions| {
      if step.RepayBorrow? || s.positions[step.position].kind == Supply { ReducedCovered(s.positions[step.position], step.amount); }
    }
  }

  lemma {:induction false} RunCovered(s: State, steps: seq<Step>)
    requires AllCovered(s) && PayingRun(steps)
    ensures AllCovered(Run(s, steps))
    decreases steps
  {
    hide AllCovered, Next;
    if steps != [] {
      StepCovered(s, steps[0]);
      RunCovered(Next(s, steps[0]), steps[1..]);
    }
  }

  /**
   After any run of non-negative repayments, every borrow opened for a non-negative amount still has 1.2
   times what is left of it in collateral at its ratio.
   */
  lemma BorrowsStayCovered(pools: map<string, seq<Reserve>>, steps: seq<Step>, i: nat)
    requires PayingRun(steps) && i < |Run(State(pools, []), steps).positions|
    ensures var p := Run(State(pools, []), steps).positions[i];
      p.kind == Borrow && p.initial >= 0.0 ==> p.collateral * p.ltv >= MIN_HEALTH * p.amount
  {
    RunCovered(State(pools, []), steps);
  }

  // ---------------------------------------------------------------- whose position it is

  predicate CalledBy(step: Step, user: string) {
    (step.RepayBorrow? || step.WithdrawSupply?) && step.caller == user
  }

  /** A position changes only through calls of its user; one whose transaction failed never changes. */
  lemma {:induction false} OnlyTheUserMoves(s: State, steps: seq<Step>, i: nat)
    requires i < |s.positions|
    requires forall k :: 0 <= k < |steps| ==> !CalledBy(steps[k], s.positions[i].user)
    ensures i < |Run(s, steps).positions| && Run(s, steps).positions[i] == s.positions[i]
    decreases steps
  {
    hide Adjust, Healthy, HasReserve, ReserveOf, Ltv, Reduced;
    if steps != [] {
      assert !CalledBy(steps[0], s.positions[i].user);
      assert Next(s, steps[0]).positions[i] == s.positions[i];
      OnlyTheUserMoves(Next(s, steps[0]), steps[1..], i);
    }
  }

  /** Withdrawing all of what was just supplied restores the reserve and closes the position. */
  lemma SupplyThenWithdraw(s: State, pool: string, mint: string, amount: real, user: Address, p: string, m: string, k: Kind)
    requires Backed(s) && HasReserve(s.pools, pool, mint)
    ensures var i := |s.positions|;
      var t := Next(Next(s, SupplyToPool(pool, mint, amount, Some(user))), WithdrawSupply(i, amount, user, true));
      && Level(t.pools, p, m, k) == Level(s.pools, p, m, k)
      && |t.positions| == i + 1 && t.positions[i].amount == 0.0 && t.positions[i].status == Closed
  {
    hide Find, Adjust, HasReserve, ReserveOf, Ltv, Level, Held;
    var i := |s.positions|;
    var u := Next(s, SupplyToPool(pool, mint, amount, Some(user)));
    var t := Next(u, WithdrawSupply(i, amount, user, true));
    StepConserves(s, SupplyToPool(pool, mint, amount, Some(user)), p, m, k);
    StepConserves(u, WithdrawSupply(i, amount, user, true), p, m, k);
    assert u.positions == s.positions + [u.positions[i]];
    HeldAppend(s.positions, u.positions[i], p, m, k);
    HeldUpdate(u.positions, i, t.positions[i], p, m, k);
  }

  // ---------------------------------------------------------------- overpayments

  /** What the step, if it goes through, takes out of the positions of one kind in one reserve. */
  function Taken(s: State, step: Step, pool: string, mint: string, kind: Kind): real {
    match step
    case SupplyToPool(p, m, amount, user) =>
      if user.Some? && HasReserve(s.pools, p, m) && p == pool && m == mint && kind == Supply then -amount else 0.0
    case BorrowFromPool(p, m, amount, collateral, user) =>
      if user.Some? && HasReserve(s.pools, p, m) && Healthy(collateral, Ltv(ReserveOf(s.pools, p, m)), amount)
         && p == pool && m == mint && kind == Borrow then -amount else 0.0
    case RepayBorrow(i, amount, caller, sent) =>
      if MayReduce(s, i, Borrow, caller) && sent && Weighs(s.positions[i], pool, mint, kind) then amount else 0.0
    case WithdrawSupply(i, amount, caller, sent) =>
      if MayReduce(s, i, Supply, caller) && sent && Weighs(s.positions[i], pool, mint, kind) then amount else 0.0
  }

  lemma HeldChange(s: State, step: Step, pool: string, mint: string, kind: Kind)
    ensures Held(Next(s, step).positions, pool, mint, kind) == Held(s.positions, pool, mint, kind) - Taken(s, step, pool, mint, kind)
  {
    hide Held, Healthy, HasReserve, ReserveOf, Ltv, Adjust;
    var t := Next(s, step);
    if |t.positions| > |s.positions| {
      HeldAppend(s.positions, t.positions[|s.positions|], pool, mint, kind);
    } else if (step.RepayBorrow? || step.WithdrawSupply?) && step.position < |s.positions| {
      HeldUpdate(s.positions, step.position, t.positions[step.position], pool, mint, kind);
    }
  }

  /** Every step takes at most what is held. */
  predicate WithinHoldings(s: State, steps: seq<Step>, pool: string, mint: string, kind: Kind)
    decreases steps
  {
    steps == [] ||
    (Taken(s, steps[0], pool, mint, kind) <= Held(s.positions, pool, mint, kind)
     && WithinHoldings(Next(s, steps[0]), steps[1..], pool, mint, kind))
  }

  /** The level is at or above the floor in every state of the run. */
  predicate NeverBelow(floor: real, s: State, steps: seq<Step>, pool: string, mint: string, kind: Kind)
    decreases steps
  {
    && Level(s.pools, pool, mint, kind) >= floor
    && (steps != [] ==> NeverBelow(floor, Next(s, steps[0]), steps[1..], pool, mint, kind))
  }

  lemma {:induction false} NeverBelowFrom(floor: real, s: State, steps: seq<Step>, pool: string, mint: string, kind: Kind)
    requires Backed(s) && Rest(s, pool, mint, kind) == floor && Held(s.positions, pool, mint, kind) >= 0.0
    ensures NeverBelow(floor, s, steps, pool, mint, kind) <==> WithinHoldings(s, steps, pool, mint, kind)
    decreases steps
  {
    hide Backed, Level, Held, Next, Taken;
    if steps != [] {
      var t := Next(s, steps[0]);
      HeldChange(s, steps[0], pool, mint, kind);
      StepConserves(s, steps[0], pool, mint, kind);
      if Held(t.positions, pool, mint, kind) >= 0.0 { NeverBelowFrom(floor, t, steps[1..], pool, mint, kind); }
    }
  }

  /**
   For all pools and runs: a level stays at or above where it started, throughout, if and only if no step that
   goes through takes more out of the reserve than all its positions hold. The service compares neither.
   */
  lemma LevelsStayAboveStart(pools: map<string, seq<Reserve>>, steps: seq<Step>, pool: string, mint: string, kind: Kind)
    ensures NeverBelow(Level(pools, pool, mint, kind), State(pools, []), steps, pool, mint, kind)
       <==> WithinHoldings(State(pools, []), steps, pool, mint, kind)
  {
    hide Level, NeverBelow, WithinHoldings;
    NeverBelowFrom(Level(pools, pool, mint, kind), State(pools, []), steps, pool, mint, kind);
  }

  /** If it goes through, the step takes no more than its position holds, or opens a position for no less than nothing. */
  predicate Modest(s: State, step: Step) {
    match step
    case SupplyToPool(pool, mint, amount, user) => user.Some? && HasReserve(s.pools, pool, mint) ==> amount >= 0.0
    case BorrowFromPool(pool, mint, amount, collateral, user) =>
      user.Some? && HasReserve(s.pools, pool, mint) && Healthy(collateral, Ltv(ReserveOf(s.pools, pool, mint)), amount) ==> amount >= 0.0
    case RepayBorrow(i, amount, caller, sent) => MayReduce(s, i, Borrow, caller) && sent ==> amount <= s.positions[i].amount
    case WithdrawSupply(i, amount, caller, sent) => MayReduce(s, i, Supply, caller) && sent ==> amount <= s.positions[i].amount
  }

  predicate ModestRun(s: State, steps: seq<Step>)
    decreases steps
  {
    steps == [] || (Modest(s, steps[0]) && ModestRun(Next(s, steps[0]), steps[1..]))
  }

  /** No user's position is below zero. */
  ghost predicate NoDebts(s: State) {
    forall i :: 0 <= i < |s.positions| && s.positions[i].user != "" ==> s.positions[i].amount >= 0.0
  }

  ghost predicate NeverDebts(s: State, steps: seq<Step>)
    decreases steps
  {
    NoDebts(s) && (steps != [] ==> NeverDebts(Next(s, steps[0]), steps[1..]))
  }

  lemma StepNoDebts(s: State, step: Step)
    requires NoDebts(s)
    ensures NoDebts(Next(s, step)) <==> Modest(s, step)
  {
    hide Healthy, HasReserve, ReserveOf, Ltv, Adjust;
    var t := Next(s, step);
    if |t.positions| > |s.positions| {
      assert t.positions == s.positions + [t.positions[|s.positions|]];
    } else if (step.RepayBorrow? || step.WithdrawSupply?) && step.position < |s.positions| {
      assert t.positions == s.positions[step.position := t.positions[step.position]];
    }
  }

  /** For all runs: no user's position ever falls below zero if and only if every step that goes through is modest. */
  lemma {:induction false} PositionsStayPositive(s: State, steps: seq<Step>)
    requires NoDebts(s)
    ensures NeverDebts(s, steps) <==> ModestRun(s, steps)
    decreases steps
  {
    hide NoDebts, Next, Modest;
    if steps != [] {
      StepNoDebts(s, steps[0]);
      if NoDebts(Next(s, steps[0])) { PositionsStayPositive(Next(s, steps[0]), steps[1..]); }
    }
  }

  lemma {:induction false} NoDebtsAtEnd(s: State, steps: seq<Step>)
    requires NeverDebts(s, steps)
    ensures NoDebts(Run(s, steps))
    decreases steps
  {
    hide NoDebts, Next;
    if steps != [] { NoDebtsAtEnd(Next(s, steps[0]), steps[1..]); }
  }

  lemma {:induction false} HeldNotNegative(positions: seq<Position>, pool: string, mint: string, kind: Kind)
    requires forall i :: 0 <= i < |positions| && positions[i].user != "" ==> positions[i].amount >= 0.0
    ensures Held(positions, pool, mint, kind) >= 0.0
  {
    if positions != [] {
      HeldNotNegative(positions[..|positions| - 1], pool, mint, kind);
    }
  }

  /** In particular modest runs leave every level at or above its start. */
  lemma ModestRunsKeepLevels(pools: map<string, seq<Reserve>>, steps: seq<Step>, pool: string, mint: string, kind: Kind)
    requires ModestRun(State(pools, []), steps)
    ensures Level(Run(State(pools, []), steps).pools, pool, mint, kind) >= Level(pools, pool, mint, kind)
  {
    hide Level, ModestRun;
    PositionsStayPositive(State(pools, []), steps);
    NoDebtsAtEnd(State(pools, []), steps);
    ReservesMatchPositions(pools, steps, pool, mint, kind);
    HeldNotNegative(Run(State(pools, []), steps).positions, pool, mint, kind);
  }

  /** Whatever a reserve holds, any amount can be borrowed from it: enough collateral is all that is asked for. */
  lemma NothingBacksBorrows(s: State, pool: string, mint: string, amount: real, user: Address) returns (collateral: real)
    requires Backed(s) && HasReserve(s.pools, pool, mint) && amount > 0.0
    ensures var t := Next(s, BorrowFromPool(pool, mint, amount, collateral, Some(user)));
      && Level(t.pools, pool, mint, Borrow) == Level(s.pools, pool, mint, Borrow) + amount
      && Level(t.pools, pool, mint, Supply) == Level(s.pools, pool, mint, Supply)
  {
    hide Level, Held, HasReserve, ReserveOf, Adjust, Ltv, Healthy;
    var ltv := Ltv(ReserveOf(s.pools, pool, mint));
    LtvNotZero(ReserveOf(s.pools, pool, mint));
    collateral := MIN_HEALTH * amount / ltv;
    Quotient(MIN_HEALTH * amount, ltv);
    HealthMeaning(collateral, ltv, amount);
    var step := BorrowFromPool(pool, mint, amount, collateral, Some(user));
    StepConserves(s, step, pool, mint, Borrow);
    StepConserves(s, step, pool, mint, Supply);
    HeldChange(s, step, pool, mint, Borrow);
    HeldChange(s, step, pool, mint, Supply);
  }

  lemma LtvNotZero(r: Reserve)
    ensures Ltv(r) != 0.0
  {
  }

  /** Repayments are not compared with what is owed: by any excess the reserve ends up lending less than nothing. */
  lemma OverpaymentGoesNegative(pool: string, mint: string, user: Address, excess: real)
    requires excess > 0.0
    ensures var pools := map[pool := [Reserve(mint, 100.0, 0.0, 0.75)]];
      Level(Run(State(pools, []), [BorrowFromPool(pool, mint, 10.0, 20.0, Some(user)),
                                   RepayBorrow(0, 10.0 + excess, user, true)]).pools, pool, mint, Borrow) == -excess
  {
    var r := Reserve(mint, 100.0, 0.0, 0.75);
    var pools := map[pool := [r]];
    assert Find([r], mint) == Some(0);
    var steps := [BorrowFromPool(pool, mint, 10.0, 20.0, Some(user)), RepayBorrow(0, 10.0 + excess, user, true)];
    HealthMeaning(20.0, 0.75, 10.0);
    var s0 := State(pools, []);
    assert Healthy(20.0, Ltv(r), 10.0);
    var s1 := Next(s0, steps[0]);
    assert |s1.positions| == 1 && s1.positions[0].amount == 10.0;
    var s2 := Next(s1, steps[1]);
    ReservesMatchPositions(pools, steps, pool, mint, Borrow);
    assert steps[1..] == [steps[1]] && [steps[1]][1..] == [];
    assert Run(s0, steps) == Run(s1, [steps[1]]) == Run(s2, []) == s2;
    assert s2.positions[..0] == [];
    assert Held(s2.positions, pool, mint, Borrow) == -excess;
  }

  // ---------------------------------------------------------------- the service

  class LendingService {
    var pools: map<string, seq<Reserve>>
    var positions: seq<Position>

    ghost function Abs(): State
      reads this
    {
      State(pools, positions)
    }

    constructor (reserves: map<string, seq<Reserve>>)
      ensures Abs() == State(reserves, [])
    {
      pools, positions := reserves, [];
    }

    static method FindReserve(reserves: seq<Reserve>, assetMint: string) returns (found: Option<nat>)
      ensures found == Find(reserves, assetMint)
    {
      var k := 0;
      while k < |reserves|
        invariant k <= |reserves|
        invariant forall i :: 0 <= i < k ==> reserves[i].mint != assetMint
      {
        if reserves[k].mint == assetMint {
          return Some(k);
        }
        k := k + 1;
      }
      return None;
    }

    method SupplyToPool(poolId: string, assetMint: string, amount: real, user: Option<Address>) returns (ok: bool)
      modifies this
      ensures Abs() == Next(old(Abs()), Step.SupplyToPool(poolId, assetMint, amount, user))
      ensures ok <==> poolId in old(pools) && Find(old(pools)[poolId], assetMint).Some? && user.Some?
      ensures ok ==>
        var k := Find(old(pools)[poolId], assetMint).value;
        var r := old(pools)[poolId][k];
        pools == old(pools)[poolId := old(pools)[poolId][k := r.(supplied := r.supplied + amount)]]
      ensures !ok ==> pools == old(pools)
      ensures
        if HasReserve(old(pools), poolId, assetMint) then
          && |positions| == |old(positions)| + 1 && positions[..|old(positions)|] == old(positions)
          && var p := positions[|old(positions)|];
             && p.pool == poolId && p.mint == assetMint && p.kind == Supply && p.amount == amount && p.collateral == 0.0
             && p.user == (if ok then user.value else "") && p.status == (if ok then Active else Closed)
        else positions == old(positions)
    {
      hide Find, Ltv;
      if poolId !in pools {
        return false;
      }
      var found := FindReserve(pools[poolId], assetMint);
      if found.None? {
        return false;
      }
      var reserve := pools[poolId][found.value];
      var position := Position(poolId, assetMint, Supply, "", amount, Active, 0.0, amount, Ltv(reserve));
      positions := positions + [position];
      if user.None? {
        positions := positions[..|positions| - 1] + [position.(status := Closed)];
        return false;
      }
      reserve := reserve.(supplied := reserve.supplied + amount);
      pools := pools[poolId := pools[poolId][found.value := reserve]];
      positions := positions[..|positions| - 1] + [position.(user := user.value)];
      return true;
    }

    method BorrowFromPool(poolId: string, assetMint: string, amount: real, collateralAmount: real, user: Option<Address>)
      returns (ok: bool)
      modifies this
      ensures Abs() == Next(old(Abs()), Step.BorrowFromPool(poolId, assetMint, amount, collateralAmount, user))
      ensures ok <==> poolId in old(pools) && Find(old(pools)[poolId], assetMint).Some? && user.Some?
                      && Healthy(collateralAmount, Ltv(ReserveOf(old(pools), poolId, assetMint)), amount)
      ensures ok ==>
        var k := Find(old(pools)[poolId], assetMint).value;
        var r := old(pools)[poolId][k];
        pools == old(pools)[poolId := old(pools)[poolId][k := r.(borrowed := r.borrowed + amount)]]
      ensures !ok ==> pools == old(pools)
      ensures
        if HasReserve(old(pools), poolId, assetMint) && Healthy(collateralAmount, Ltv(ReserveOf(old(pools), poolId, assetMint)), amount) then
          && |positions| == |old(positions)| + 1 && positions[..|old(positions)|] == old(positions)
          && var p := positions[|old(positions)|];
             && p.pool == poolId && p.mint == assetMint && p.kind == Borrow && p.amount == amount && p.collateral == collateralAmount
             && p.user == (if ok then user.value else "") && p.status == (if ok then Active else Closed)
        else positions == old(positions)
    {
      hide Find, Ltv, Healthy;
      if poolId !in pools {
        return false;
      }
      var found := FindReserve(pools[poolId], assetMint);
      if found.None? {
        return false;
      }
      var reserve := pools[poolId][found.value];
      if !Healthy(collateralAmount, Ltv(reserve), amount) {
        return false;
      }
      var position := Position(poolId, assetMint, Borrow, "", amount, Active, collateralAmount, amount, Ltv(reserve));
      positions := positions + [position];
      if user.None? {
        positions := positions[..|positions| - 1] + [position.(status := Closed)];
        return false;
      }
      reserve := reserve.(borrowed := reserve.borrowed + amount);
      pools := pools[poolId := pools[poolId][found.value := reserve]];
      positions := positions[..|positions| - 1] + [position.(user := user.value)];
      return true;
    }

    method RepayBorrow(positionId: nat, repayAmount: real, caller: Address, sent: bool) returns (ok: bool)
      modifies this
      ensures Abs() == Next(old(Abs()), Step.RepayBorrow(positionId, repayAmount, caller, sent))
      ensures ok <==>
        && positionId < |old(positions)| && old(positions)[positionId].kind == Borrow
        && old(positions)[positionId].user == caller && sent
      ensures !ok ==> pools == old(pools) && positions == old(positions)
      ensures ok ==>
        var p := old(positions)[positionId];
        && |positions| == |old(positions)|
        && positions == old(positions)[positionId := p.(amount := p.amount - repayAmount,
                                                        status := if p.amount - repayAmount <= 0.0 then Closed else p.status)]
        && pools == if p.pool !in old(pools) || Find(old(pools)[p.pool], p.mint).None? then old(pools)
                    else
                      var k := Find(old(pools)[p.pool], p.mint).value;
                      var r := old(pools)[p.pool][k];
                      old(pools)[p.pool := old(pools)[p.pool][k := r.(borrowed := r.borrowed - repayAmount)]]
    {
      hide Find;
      if positionId >= |positions| || positions[positionId].kind != Borrow || positions[positionId].user != caller || !sent {
        return false;
      }
      var position := positions[positionId];
      position := position.(amount := position.amount - repayAmount);
      if position.amount <= 0.0 {
        position := position.(status := Closed);
      }
      positions := positions[positionId := position];
      if position.pool in pools {
        var found := FindReserve(pools[position.pool], position.mint);
        if found.Some? {
          var reserve := pools[position.pool][found.value];
          reserve := reserve.(borrowed := reserve.borrowed - repayAmount);
          pools := pools[position.pool := pools[position.pool][found.value := reserve]];
        }
      }
      return true;
    }

    method WithdrawSupply(positionId: nat, withdrawAmount: real, caller: Address, sent: bool) returns (ok: bool)
      modifies this
      ensures Abs() == Next(old(Abs()), Step.WithdrawSupply(positionId, withdrawAmount, caller, sent))
      ensures ok <==>
        && positionId < |old(positions)| && old(positions)[positionId].kind == Supply
        && old(positions)[positionId].user == caller && sent
      ensures !ok ==> pools == old(pools) && positions == old(positions)
      ensures ok ==>
        var p := old(positions)[positionId];
        && |positions| == |old(positions)|
        && positions == old(positions)[positionId := p.(amount := p.amount - withdrawAmount,
                                                        status := if p.amount - withdrawAmount <= 0.0 then Closed else p.status)]
        && pools == if p.pool !in old(pools) || Find(old(pools)[p.pool], p.mint).None? then old(pools)
                    else
                      var k := Find(old(pools)[p.pool], p.mint).value;
                      var r := old(pools)[p.pool][k];
                      old(pools)[p.pool := old(pools)[p.pool][k := r.(supplied := r.supplied - withdrawAmount)]]
    {
      hide Find;
      if positionId >= |positions| || positions[positionId].kind != Supply || positions[positionId].user != caller || !sent {
        return false;
      }
      var position := positions[positionId];
      position := position.(amount := position.amount - withdrawAmount);
      if position.amount <= 0.0 {
        position := position.(status := Closed);
      }
      positions := positions[positionId := position];
      if position.pool in pools {
        var found := FindReserve(pools[position.pool], position.mint);
        if found.Some? {
          var reserve := pools[position.pool][found.value];
          reserve := reserve.(supplied := reserve.supplied - withdrawAmount);
          pools := pools[position.pool := pools[position.pool][found.value := reserve]];
        }
      }
      return true;
    }
  }
}
