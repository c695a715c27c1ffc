/**
 Gas meters and the program executions that are checked against them and charged to them. An execution is
 three steps, because others run between them: the check, the transaction, the charge.
 */
module GasMeter {
  import opened Options

  const SIMULATED_UNITS: nat := 100_000

  type Allocation = n: nat | n >= 1 witness 1

  datatype MeterStatus = Active | Paused | Exceeded

  datatype Meter = Meter(
    status: MeterStatus,
    gasAllocated: Allocation,
    gasUsed: nat,
    gasRemaining: nat,
    gasLimitPerOperation: nat,
    operationCount: nat,
    averageGasPerOperation: real,
    peakGasUsage: nat,
    efficiencyRating: real,
    autoPauseOnThreshold: bool
  )

  datatype ExecutionStatus = Running | Sent | Success | Failed

  /** Sent is a running execution whose transaction is confirmed and whose units are counted. */
  datatype Execution = Execution(program: string, unitsAllocated: nat, unitsUsed: nat, status: ExecutionStatus)

  /** How sending went: SlotUnread is a confirmed transaction after which the slot could not be read. */
  datatype Sending = Rejected | SlotUnread | Confirmed

  datatype Charge = Charge(execution: nat, amount: nat)

  /**
   What happened to a meter: the consumptions accepted since it was created or fully reset, and by how much
   the last partial reset since then put the allocation below the gas already used.
   */
  datatype History = History(charges: seq<Charge>, overdraft: nat)

  /** Meters are named by the program or account they belong to. */
  datatype State = State(meters: map<string, Meter>, history: map<string, History>, executions: seq<Execution>)

  datatype Step =
    | CreateMeter(id: string, allocation: Allocation, limitPerOperation: nat, autoPause: bool)
    | UpdateMeter(id: string, added: nat, newStatus: Option<MeterStatus>, newLimit: Option<nat>, newAutoPause: Option<bool>)
    | ResetMeter(id: string, fullReset: bool, newAllocation: Option<Allocation>)
    | DeleteMeter(id: string)
    | CheckAndStart(program: string, units: nat)
    | Transact(execution: nat, sending: Sending)
    | ChargeFor(execution: nat)

  const INITIAL: State := State(map[], map[], [])

  function Min(a: int, b: int): int {
    if a <= b then a else b
  }

  function Max(a: int, b: int): int {
    if a >= b then a else b
  }

  function NonNegative(r: real): real {
    if r < 0.0 then 0.0 else r
  }

  /** How much of the allocation is unused, in percent; 0 when more than all of it is used. */
  function Rating(used: nat, allocation: Allocation): real {
    NonNegative(100.0 - (used * 100) as real / allocation as real)
  }

  function Mean(total: nat, count: nat): real {
    if count == 0 then 0.0 else total as real / count as real
  }

  function NewMeter(allocation: Allocation, limitPerOperation: nat, autoPause: bool): Meter {
    Meter(Active, allocation, 0, allocation, limitPerOperation, 0, 0.0, 0, 100.0, autoPause)
  }

  function OrElse<T>(o: Option<T>, default: T): T {
    if o.Some? then o.value else default
  }

  function Updated(m: Meter, step: Step): Meter
    requires step.UpdateMeter?
  {
    m.(gasAllocated := m.gasAllocated + step.added,
       gasRemaining := m.gasRemaining + step.added,
       status := OrElse(step.newStatus, m.status),
       gasLimitPerOperation := OrElse(step.newLimit, m.gasLimitPerOperation),
       autoPauseOnThreshold := OrElse(step.newAutoPause, m.autoPauseOnThreshold))
  }

  function FullyReset(m: Meter): Meter {
    m.(status := Active, gasUsed := 0, gasRemaining := m.gasAllocated, operationCount := 0,
       averageGasPerOperation := 0.0, peakGasUsage := 0, efficiencyRating := 100.0)
  }

  function Reallocated(m: Meter, allocation: Allocation): Meter {
    if allocation < m.gasUsed
      then m.(gasAllocated := allocation, gasRemaining := 0, status := Exceeded)
      else m.(gasAllocated := allocation, gasRemaining := allocation - m.gasUsed)
  }

  predicate Affordable(m: Meter, amount: nat) {
    m.status == Active && amount <= m.gasRemaining
  }

  predicate PassesCheck(m: Meter, units: nat) {
    Affordable(m, units) && units <= m.gasLimitPerOperation
  }

  /** A consumption that is turned down can only pause the meter. */
  function Consumed(m: Meter, amount: nat): Meter {
    if Affordable(m, amount) then
      var used := m.gasUsed + amount;
      m.(gasUsed := used, gasRemaining := m.gasRemaining - amount, operationCount := m.operationCount + 1,
         averageGasPerOperation := Mean(used, m.operationCount + 1),
         peakGasUsage := Max(m.peakGasUsage, amount), efficiencyRating := Rating(used, m.gasAllocated))
    else if m.status == Active && m.autoPauseOnThreshold then m.(status := Exceeded)
    else m
  }

  /** No meter means no limit. */
  predicate Allowed(s: State, id: string, amount: nat) {
    id in s.meters ==> Affordable(s.meters[id], amount)
  }

  predicate CheckPasses(s: State, id: string, units: nat) {
    id in s.meters ==> PassesCheck(s.meters[id], units)
  }

  function SetMeter(s: State, id: string, m: Meter, h: History): State {
    s.(meters := s.meters[id := m], history := s.history[id := h])
  }

  function HistoryOf(s: State, id: string): History {
    if id in s.history then s.history[id] else History([], 0)
  }

  function AfterReset(s: State, id: string, fullReset: bool, newAllocation: Option<Allocation>): State
    requires id in s.meters
  {
    var m, h := s.meters[id], HistoryOf(s, id);
    if fullReset then SetMeter(s, id, FullyReset(m), History([], 0))
    else if newAllocation.Some? then
      SetMeter(s, id, Reallocated(m, newAllocation.value), h.(overdraft := Max(0, m.gasUsed - newAllocation.value)))
    else s
  }

  function AfterCharge(s: State, e: nat): State
    requires e < |s.executions|
  {
    var x := s.executions[e];
    var done := s.(executions := s.executions[e := x.(status := if Allowed(s, x.program, x.unitsUsed) then Success else Failed)]);
    if x.program !in s.meters then done
    else
      var m, h := s.meters[x.program], HistoryOf(s, x.program);
      SetMeter(done, x.program, Consumed(m, x.unitsUsed),
               if Affordable(m, x.unitsUsed) then h.(charges := h.charges + [Charge(e, x.unitsUsed)]) else h)
  }

  /** Calls that throw leave the state alone; an identifier has at most one meter at a time. */
  function Next(s: State, step: Step): State {
    match step
    case CreateMeter(id, allocation, limit, autoPause) =>
      if id in s.meters then s else SetMeter(s, id, NewMeter(allocation, limit, autoPause), History([], 0))
    case UpdateMeter(id, _, _, _, _) =>
      if id in s.meters then SetMeter(s, id, Updated(s.meters[id], step), HistoryOf(s, id)) else s
    case ResetMeter(id, fullReset, newAllocation) =>
      if id in s.meters then AfterReset(s, id, fullReset, newAllocation) else s
    case DeleteMeter(id) => if id in s.meters then s.(meters := s.meters - {id}, history := s.history - {id}) else s
    case CheckAndStart(program, units) =>
      s.(executions := s.executions + [Execution(program, units, 0, if CheckPasses(s, program, units) then Running else Failed)])
    case Transact(e, sending) =>
      if e < |s.executions| && s.executions[e].status == Running
        then s.(executions := s.executions[e := Transacted(s.executions[e], sending)])
        else s
    case ChargeFor(e) =>
      if e < |s.executions| && s.executions[e].status == Sent then AfterCharge(s, e) else s
  }

  /** The units are counted before the slot is read; without the slot the execution fails and is never charged. */
  function Transacted(x: Execution, sending: Sending): Execution {
    match sending
    case Rejected => x.(status := Failed)
    case SlotUnread => x.(status := Failed, unitsUsed := Min(x.unitsAllocated, SIMULATED_UNITS))
    case Confirmed => x.(status := Sent, unitsUsed := Min(x.unitsAllocated, SIMULATED_UNITS))
  }

  function Run(s: State, steps: seq<Step>): State
    decreases steps
  {
    if steps == [] then s else Run(Next(s, steps[0]), steps[1..])
  }

  // ---------------------------------------------------------------- a meter is the digest of its log

  function Total(charges: seq<Charge>): nat {
    if charges == [] then 0 else Total(charges[..|charges| - 1]) + charges[|charges| - 1].amount
  }

  /** m is the largest amount charged, 0 when there is none. */
  ghost predicate IsPeak(m: nat, charges: seq<Charge>) {
    && (forall i :: 0 <= i < |charges| ==> charges[i].amount <= m)
    && (m == 0 || exists i :: 0 <= i < |charges| && charges[i].amount == m)
  }

  ghost predicate Digest(m: Meter, h: History) {
    && m.gasUsed == Total(h.charges)
    && m.operationCount == |h.charges|
    && m.averageGasPerOperation == Mean(Total(h.charges), |h.charges|)
    && IsPeak(m.peakGasUsage, h.charges)
    && m.gasUsed + m.gasRemaining == m.gasAllocated + h.overdraft
    && h.overdraft <= m.gasUsed
    && 0.0 <= m.efficiencyRating <= 100.0
  }

  /** Each charge is the charge of one successful execution of the metered program. */
  ghost predicate Traceable(charges: seq<Charge>, executions: seq<Execution>, id: string) {
    && (forall i :: 0 <= i < |charges| ==>
          && charges[i].execution < |executions|
          && executions[charges[i].execution].program == id
          && executions[charges[i].execution].unitsUsed == charges[i].amount
          && executions[charges[i].execution].status == Success)
    && (forall i, j :: 0 <= i < j < |charges| ==> charges[i].execution != charges[j].execution)
  }

  ghost predicate Metered(s: State) {
    && s.history.Keys == s.meters.Keys
    && (forall id :: id in s.meters ==>
          Digest(s.meters[id], s.history[id]) && Traceable(s.history[id].charges, s.executions, id))
    && (forall e :: 0 <= e < |s.executions| ==> UnitsFit(s.executions[e]))
  }

  predicate UnitsFit(x: Execution) {
    && (x.status in {Sent, Success} ==> x.unitsUsed == Min(x.unitsAllocated, SIMULATED_UNITS))
    && (x.status == Running ==> x.unitsUsed == 0)
  }

  /** The rating is the unused part of the allocation, in percent of it. */
  lemma RatingRange(used: nat, allocation: Allocation)
    ensures 0.0 <= Rating(used, allocation) <= 100.0
    ensures Rating(used, allocation) * allocation as real == if used <= allocation then 100.0 * (allocation - used) as real else 0.0
  {
    var taken := (used * 100) as real / allocation as real;
    assert taken * allocation as real == (used * 100) as real;
  }

  /**
   What a consumption does to a meter: an active meter with enough gas pays, and everything else about it follows from what
   was paid and how often; any other meter stays as it is, but an active one with the option on becomes exceeded.
   */
  lemma ConsumptionExactly(m: Meter, amount: nat)
    ensures var t := Consumed(m, amount);
      if m.status == Active && amount <= m.gasRemaining then
        && t.gasUsed == m.gasUsed + amount && t.gasRemaining == m.gasRemaining - amount
        && t.operationCount == m.operationCount + 1
        && t.averageGasPerOperation * t.operationCount as real == t.gasUsed as real
        && t.peakGasUsage == (if m.peakGasUsage < amount then amount else m.peakGasUsage)
        && t.efficiencyRating * m.gasAllocated as real
           == (if t.gasUsed <= m.gasAllocated then 100.0 * (m.gasAllocated - t.gasUsed) as real else 0.0)
        && t.status == Active && t.gasAllocated == m.gasAllocated && t.gasLimitPerOperation == m.gasLimitPerOperation
        && t.autoPauseOnThreshold == m.autoPauseOnThreshold
      else t == if m.status == Active && m.autoPauseOnThreshold then m.(status := Exceeded) else m
  {
    hide Rating;
    RatingRange(m.gasUsed + amount, m.gasAllocated);
  }

  lemma ConsumptionDigest(m: Meter, h: History, e: nat, amount: nat)
    requires Digest(m, h) && Affordable(m, amount)
    ensures Digest(Consumed(m, amount), h.(charges := h.charges + [Charge(e, amount)]))
  {
    hide Rating, Mean, IsPeak, Total;
    TotalGrows(h.charges, Charge(e, amount));
    PeakGrows(m.peakGasUsage, h.charges, Charge(e, amount));
    RatingRange(m.gasUsed + amount, m.gasAllocated);
  }

  lemma TotalGrows(charges: seq<Charge>, c: Charge)
    ensures Total(charges + [c]) == Total(charges) + c.amount
  {
  }

  lemma PeakGrows(m: nat, charges: seq<Charge>, c: Charge)
    requires IsPeak(m, charges)
    ensures IsPeak(Max(m, c.amount), charges + [c])
  {
    var more := charges + [c];
    assert more[|charges|] == c;
    if m > c.amount {
      var i :| 0 <= i < |charges| && charges[i].amount == m;
      assert more[i].amount == m;
    }
  }

  lemma ReallocationDigest(m: Meter, h: History, allocation: Allocation)
    requires Digest(m, h)
    ensures Digest(Reallocated(m, allocation), h.(overdraft := Max(0, m.gasUsed - allocation)))
  {
  }

  lemma UpdateDigest(m: Meter, h: History, step: Step)
    requires Digest(m, h) && step.UpdateMeter?
    ensures Digest(Updated(m, step), h)
  {
  }

  lemma FreshDigest(m: Meter, allocation: Allocation, limit: nat, autoPause: bool)
    ensures Digest(NewMeter(allocation, limit, autoPause), History([], 0)) && Digest(FullyReset(m), History([], 0))
  {
  }

  lemma StepKeepsMeters(s: State, step: Step)
    requires Metered(s)
    requires step.CreateMeter? || step.UpdateMeter? || step.ResetMeter? || step.DeleteMeter?
    ensures Metered(Next(s, step))
  {
    hide Digest, Traceable, UnitsFit, NewMeter, FullyReset, Reallocated, Updated;
    match step
    case CreateMeter(id, allocation, limit, autoPause) =>
      FreshIsTraceable(s.executions, id);
      FreshDigest(NewMeter(allocation, limit, autoPause), allocation, limit, autoPause);
    case UpdateMeter(id, _, _, _, _) => if id in s.meters { UpdateDigest(s.meters[id], s.history[id], step); }
    case ResetMeter(id, fullReset, newAllocation) =>
      FreshIsTraceable(s.executions, id);
      if id in s.meters {
        FreshDigest(s.meters[id], 1, 0, false);
        if newAllocation.Some? { ReallocationDigest(s.meters[id], s.history[id], newAllocation.value); }
      }
    case DeleteMeter(id) =>
  }

  lemma FreshIsTraceable(executions: seq<Execution>, id: string)
    ensures Traceable([], executions, id)
  {
  }

  /** Success is final, so an execution that was charged stays one. */
  lemma TraceStays(charges: seq<Charge>, before: seq<Execution>, after: seq<Execution>, id: string)
    requires Traceable(charges, before, id) && |before| <= |after|
    requires forall e :: 0 <= e < |before| && before[e].status == Success ==> after[e] == before[e]
    ensures Traceable(charges, after, id)
  {
  }

  lemma StepKeepsExecutions(s: State, step: Step)
    requires Metered(s) && (step.CheckAndStart? || step.Transact?)
    ensures Metered(Next(s, step))
  {
    hide Digest, Traceable, CheckPasses;
    var t := Next(s, step);
    forall id | id in s.meters ensures Traceable(t.history[id].charges, t.executions, id) {
      TraceStays(s.history[id].charges, s.executions, t.executions, id);
    }
  }

  lemma ChargeIsTraceable(charges: seq<Charge>, executions: seq<Execution>, e: nat)
    requires e < |executions| && executions[e].status == Sent
    requires Traceable(charges, executions, executions[e].program)
    ensures var x := executions[e];
      Traceable(charges + [Charge(e, x.unitsUsed)], executions[e := x.(status := Success)], x.program)
  {
  }

  lemma ChargeKeeps(s: State, e: nat)
    requires Metered(s) && e < |s.executions| && s.executions[e].status == Sent
    ensures Metered(AfterCharge(s, e))
  {
    hide Digest, Traceable, Consumed;
    var t := AfterCharge(s, e);
    var x := s.executions[e];
    forall id | id in s.meters && id != x.program ensures Traceable(t.history[id].charges, t.executions, id) {
      TraceStays(s.history[id].charges, s.executions, t.executions, id);
    }
    if x.program in s.meters {
      var m, h := s.meters[x.program], s.history[x.program];
      if Affordable(m, x.unitsUsed) {
        ConsumptionDigest(m, h, e, x.unitsUsed);
        ChargeIsTraceable(h.charges, s.executions, e);
      } else {
        RefusalDigest(m, h, x.unitsUsed);
        TraceStays(h.charges, s.executions, t.executions, x.program);
      }
    }
  }

  lemma RefusalDigest(m: Meter, h: History, amount: nat)
    requires Digest(m, h) && !Affordable(m, amount)
    ensures Digest(Consumed(m, amount), h)
  {
  }

  lemma {:induction false} RunMetered(s: State, steps: seq<Step>)
    requires Metered(s)
    ensures Metered(Run(s, steps))
    decreases steps
  {
    hide Metered, AfterReset, AfterCharge;
    if steps != [] {
      var step := steps[0];
      if step.CheckAndStart? || step.Transact? {
        StepKeepsExecutions(s, step);
      } else if step.ChargeFor? {
        if step.execution < |s.executions| && s.executions[step.execution].status == Sent { ChargeKeeps(s, step.execution); }
      } else {
        StepKeepsMeters(s, step);
      }
      RunMetered(Next(s, step), steps[1..]);
    }
  }

  /**
   In every reachable state, with executions interleaved in any way, a meter's aggregates are the sum, count,
   mean and maximum of the charges accepted since its last full reset; used plus remaining exceeds the
   allocation by exactly the overdraft left by a partial reset; every charge belongs to its own execution.
   */
  lemma MeterIsDigestOfItsCharges(steps: seq<Step>, id: string)
    requires id in Run(INITIAL, steps).meters
    ensures var s := Run(INITIAL, steps);
      && id in s.history
      && Digest(s.meters[id], s.history[id])
      && Traceable(s.history[id].charges, s.executions, id)
      && (s.meters[id].gasUsed + s.meters[id].gasRemaining == s.meters[id].gasAllocated <==> s.history[id].overdraft == 0)
  {
    RunMetered(INITIAL, steps);
  }

  /**
   Who may run: with a meter, exactly executions whose units its remaining gas and its limit per operation both cover,
   while it is active; without one, all. In every reachable state that meter has used no more than it was allocated,
   unless its allocation was cut below what it had used.
   */
  lemma CheckExactly(steps: seq<Step>, program: string, units: nat)
    ensures var s := Run(INITIAL, steps);
      var t := Next(s, CheckAndStart(program, units));
      && |t.executions| == |s.executions| + 1
      && var x := t.executions[|s.executions|];
         && x.program == program && x.unitsAllocated == units && x.unitsUsed == 0
         && (program !in s.meters ==> x.status == Running)
         && (program in s.meters ==>
               var m := s.meters[program];
               && (x.status == Running <==> m.status == Active && units <= m.gasRemaining && units <= m.gasLimitPerOperation)
               && (x.status == Failed <==> x.status != Running)
               && program in s.history
               && (s.history[program].overdraft == 0 ==> m.gasUsed <= m.gasAllocated))
  {
    hide Traceable, IsPeak, Mean;
    RunMetered(INITIAL, steps);
  }

  // ---------------------------------------------------------------- when a check holds until the charge

  /** Steps that cannot make gas that was there unavailable to others on meter `id`. */
  predicate Quiet(s: State, step: Step, id: string) {
    match step
    case CreateMeter(x, _, _, _) => x != id
    case UpdateMeter(x, _, status, _, _) => x != id || status in {None, Some(Active)}
    case ResetMeter(x, fullReset, newAllocation) => x != id || fullReset || newAllocation.None?
    case DeleteMeter(_) => true
    case CheckAndStart(_, _) => true
    case Transact(_, _) => true
    case ChargeFor(e) => e < |s.executions| && s.executions[e].status == Sent ==> s.executions[e].program != id
  }

  predicate QuietRun(s: State, steps: seq<Step>, id: string)
    decreases steps
  {
    steps == [] || (Quiet(s, steps[0], id) && QuietRun(Next(s, steps[0]), steps[1..], id))
  }

  lemma QuietKeepsGas(s: State, step: Step, id: string, units: nat)
    requires Metered(s) && Allowed(s, id, units) && Quiet(s, step, id)
    ensures Allowed(Next(s, step), id, units)
  {
    hide Traceable, IsPeak, Mean, Rating;
  }

  lemma {:induction false} CheckHolds(s: State, steps: seq<Step>, id: string, units: nat)
    requires Metered(s) && Allowed(s, id, units) && QuietRun(s, steps, id)
    ensures Allowed(Run(s, steps), id, units)
    decreases steps
  {
    hide Metered, Allowed, Next, Quiet;
    if steps != [] {
      QuietKeepsGas(s, steps[0], id, units);
      RunMetered(s, [steps[0]]);
      assert Run(s, [steps[0]]) == Next(s, steps[0]) by { assert steps[..1] == [steps[0]]; }
      CheckHolds(Next(s, steps[0]), steps[1..], id, units);
    }
  }

  /**
   A check that passed guarantees the charge, whatever top-ups, full resets, checks, transactions and charges
   to other meters come between them: in every reachable state, if the check passes for `units`, then after
   any quiet run the charge of min(units, 100000) is accepted.
   */
  lemma CheckSuffices(before: seq<Step>, id: string, units: nat, between: seq<Step>)
    requires CheckPasses(Run(INITIAL, before), id, units) && QuietRun(Run(INITIAL, before), between, id)
    ensures Allowed(Run(Run(INITIAL, before), between), id, Min(units, SIMULATED_UNITS))
  {
    RunMetered(INITIAL, before);
    CheckHolds(Run(INITIAL, before), between, id, units);
  }

  /** An execution whose three steps are not interrupted: checked, sent and charged. */
  function Execute(s: State, program: string, units: nat, sending: Sending): State {
    var e := |s.executions|;
    Next(Next(Next(s, CheckAndStart(program, units)), Transact(e, sending)), ChargeFor(e))
  }

  /** What an uninterrupted execution leaves behind. */
  lemma ExecuteLeaves(s: State, program: string, units: nat, sending: Sending)
    ensures var passes := CheckPasses(s, program, units);
      var used := if passes && sending != Rejected then Min(units, 100_000) else 0;
      var ok := passes && sending == Confirmed;
      var t := s.(executions := s.executions + [Execution(program, units, used, if ok then Success else Failed)]);
      var h := HistoryOf(s, program);
      Execute(s, program, units, sending) ==
        if ok && program in s.meters
          then SetMeter(t, program, Consumed(s.meters[program], used),
                        h.(charges := h.charges + [Charge(|s.executions|, used)]))
          else t
  {
    hide Consumed, HistoryOf;
    var e := |s.executions|;
    var used := Min(units, SIMULATED_UNITS);
    LastReplaced(s.executions, Execution(program, units, 0, Running), Transacted(Execution(program, units, 0, Running), sending));
    LastReplaced(s.executions, Execution(program, units, used, Sent), Execution(program, units, used, Success));
    var s1 := Next(s, CheckAndStart(program, units));
    var s2 := Next(s1, Transact(e, sending));
    if CheckPasses(s, program, units) && sending == Confirmed {
      assert s2 == s.(executions := s.executions + [Execution(program, units, used, Sent)]);
      assert Allowed(s2, program, used);
      SameHistory(s, s2, program);
    }
  }

  lemma LastReplaced<T>(xs: seq<T>, x: T, y: T)
    ensures (xs + [x])[|xs| := y] == xs + [y]
  {
  }

  lemma SameHistory(s: State, t: State, id: string)
    requires s.history == t.history
    ensures HistoryOf(s, id) == HistoryOf(t, id)
  {
  }

  /** Executions one at a time succeed exactly when the check passes, the transaction is confirmed and the slot is read. */
  lemma SerialExecution(s: State, program: string, units: nat, sending: Sending)
    ensures var t := Execute(s, program, units, sending);
      && |t.executions| == |s.executions| + 1
      && t.executions[..|s.executions|] == s.executions
      && (t.executions[|s.executions|].status == Success <==> CheckPasses(s, program, units) && sending == Confirmed)
      && (t.executions[|s.executions|].status == Failed <==> !(CheckPasses(s, program, units) && sending == Confirmed))
  {
    hide Consumed, HistoryOf, Execute;
    ExecuteLeaves(s, program, units, sending);
  }

  /** Only what was sent costs units, but units can go uncharged: exactly when the slot could not be read. */
  lemma UnchargedUnits(s: State, program: string, units: nat, sending: Sending)
    requires program in s.meters && units > 0
    ensures var t := Execute(s, program, units, sending);
      var x := t.executions[|s.executions|];
      && program in t.meters
      && (x.unitsUsed > 0 && t.meters[program] == s.meters[program] <==>
            CheckPasses(s, program, units) && sending == SlotUnread)
  {
    hide HistoryOf, Execute, Rating, Mean;
    ExecuteLeaves(s, program, units, sending);
  }

  // ---------------------------------------------------------------- executions side by side

  function Amounts(amounts: seq<nat>): nat {
    if amounts == [] then 0 else amounts[0] + Amounts(amounts[1..])
  }

  /** Charges that reach a meter one after the other are all accepted. */
  predicate AllAccepted(m: Meter, amounts: seq<nat>)
    decreases amounts
  {
    amounts == [] || (Affordable(m, amounts[0]) && AllAccepted(Consumed(m, amounts[0]), amounts[1..]))
  }

  /** Executions checked side by side are all charged if and only if the meter can pay for them together. */
  lemma {:induction false} TogetherExactlyWhenSumFits(m: Meter, amounts: seq<nat>)
    requires m.status == Active
    ensures AllAccepted(m, amounts) <==> Amounts(amounts) <= m.gasRemaining
    decreases amounts
  {
    hide Mean, Rating;
    if amounts != [] && Affordable(m, amounts[0]) {
      TogetherExactlyWhenSumFits(Consumed(m, amounts[0]), amounts[1..]);
    }
  }

  function ChargeAll(es: seq<nat>): seq<Step> {
    if es == [] then [] else [ChargeFor(es[0])] + ChargeAll(es[1..])
  }

  function UnitsOf(executions: seq<Execution>, es: seq<nat>): nat
    requires forall k :: 0 <= k < |es| ==> es[k] < |executions|
  {
    if es == [] then 0
    else
      executions[es[0]].unitsUsed + UnitsOf(executions, es[1..])
  }

  /** Different executions of one program that were sent and wait for their charge. */
  predicate Waiting(s: State, program: string, es: seq<nat>) {
    && (forall k :: 0 <= k < |es| ==>
          es[k] < |s.executions| && s.executions[es[k]].program == program && s.executions[es[k]].status == Sent)
    && (forall i, j :: 0 <= i < j < |es| ==> es[i] != es[j])
  }

  lemma {:induction false} SameUnits(a: seq<Execution>, b: seq<Execution>, es: seq<nat>)
    requires forall k :: 0 <= k < |es| ==> es[k] < |a| && es[k] < |b| && a[es[k]] == b[es[k]]
    ensures UnitsOf(a, es) == UnitsOf(b, es)
  {
    if es != [] { SameUnits(a, b, es[1..]); }
  }

  /** A charge settles its execution and leaves the others alone. */
  lemma ChargeShape(s: State, e: nat)
    requires e < |s.executions| && s.executions[e].status == Sent
    ensures var t := Next(s, ChargeFor(e));
      var x := s.executions[e];
      && t.executions == s.executions[e := x.(status := if Allowed(s, x.program, x.unitsUsed) then Success else Failed)]
      && t.meters == if x.program in s.meters then s.meters[x.program := Consumed(s.meters[x.program], x.unitsUsed)] else s.meters
  {
  }

  lemma {:induction false} ChargesElsewhere(s: State, es: seq<nat>, e: nat)
    requires e < |s.executions| && e !in es
    ensures var t := Run(s, ChargeAll(es)); |t.executions| == |s.executions| && t.executions[e] == s.executions[e]
    decreases es
  {
    hide Consumed;
    if es != [] {
      assert ChargeAll(es)[1..] == ChargeAll(es[1..]);
      ChargesElsewhere(Next(s, ChargeFor(es[0])), es[1..], e);
    }
  }

  lemma ConsumedLeaves(m: Meter, amount: nat)
    requires Affordable(m, amount)
    ensures Consumed(m, amount).status == Active && Consumed(m, amount).gasRemaining == m.gasRemaining - amount
  {
  }

  predicate AllSucceeded(s: State, es: seq<nat>) {
    forall k :: 0 <= k < |es| ==> es[k] < |s.executions| && s.executions[es[k]].status == Success
  }

  lemma NoneFailed(s: State)
    ensures AllSucceeded(s, [])
  {
  }

  lemma AllSucceededSplit(s: State, es: seq<nat>)
    requires es != []
    ensures AllSucceeded(s, es) <==> es[0] < |s.executions| && s.executions[es[0]].status == Success && AllSucceeded(s, es[1..])
  {
    if AllSucceeded(s, es[1..]) {
      assert forall k :: 0 < k < |es| ==> es[k] == es[1..][k - 1];
    }
  }

  /**
   In the step system: executions of one program that passed their checks side by side and were sent all succeed,
   in whatever order they are charged, if and only if the active meter can pay for their units together.
   */
  lemma {:induction false} SideBySideExactly(s: State, program: string, es: seq<nat>)
    requires program in s.meters && s.meters[program].status == Active && Waiting(s, program, es)
    ensures AllSucceeded(Run(s, ChargeAll(es)), es) <==> UnitsOf(s.executions, es) <= s.meters[program].gasRemaining
    decreases es
  {
    hide Next, Consumed, AllSucceeded;
    if es == [] {
      NoneFailed(s);
    } else {
      var e, rest := es[0], es[1..];
      assert ChargeAll(es)[0] == ChargeFor(e) && ChargeAll(es)[1..] == ChargeAll(rest);
      assert forall k :: 0 <= k < |rest| ==> rest[k] == es[k + 1];
      var t := Next(s, ChargeFor(e));
      ChargeShape(s, e);
      ChargesElsewhere(t, rest, e);
      var after := Run(t, ChargeAll(rest));
      AllSucceededSplit(after, es);
      if Affordable(s.meters[program], s.executions[e].unitsUsed) {
        ConsumedLeaves(s.meters[program], s.executions[e].unitsUsed);
        SameUnits(s.executions, t.executions, rest);
        SideBySideExactly(t, program, rest);
      } else {
        assert after.executions[e].status == Failed;
      }
    }
  }

  function TwoChecked(program: string): State {
    Next(Next(Next(INITIAL, CreateMeter(program, 150_000, 200_000, false)),
              CheckAndStart(program, 100_000)), CheckAndStart(program, 100_000))
  }

  lemma BothChecksPass(program: string)
    ensures var s := TwoChecked(program);
      && s.executions == [Execution(program, 100_000, 0, Running), Execution(program, 100_000, 0, Running)]
      && s.meters == map[program := NewMeter(150_000, 200_000, false)]
  {
    var s1 := Next(INITIAL, CreateMeter(program, 150_000, 200_000, false));
    assert s1.meters == map[program := NewMeter(150_000, 200_000, false)];
    var s2 := Next(s1, CheckAndStart(program, 100_000));
    assert s2.executions == [Execution(program, 100_000, 0, Running)];
  }

  /** Both were sent with 100000 units used; the second charge finds 50000 left. */
  lemma SecondChargeFails(s: State, program: string)
    requires program in s.meters && s.meters[program] == NewMeter(150_000, 200_000, false)
    requires |s.executions| == 2
    requires s.executions[0] == s.executions[1] == Execution(program, 100_000, 100_000, Sent)
    ensures var t := Next(Next(s, ChargeFor(0)), ChargeFor(1));
      && |t.executions| == 2 && t.executions[0].status == Success && t.executions[1].status == Failed
      && t.executions[1].unitsUsed == 100_000 && program in t.meters && t.meters[program].gasUsed == 100_000
  {
    hide Mean, Rating, HistoryOf;
    var u := Next(s, ChargeFor(0));
    assert u.meters[program].gasRemaining == 50_000 && u.executions[1] == s.executions[1];
  }

  /** Two executions of 100000 units on a meter of 150000: both pass the check, both are sent, one is not charged. */
  lemma SideBySideOverruns(program: string)
    ensures var checked := Run(INITIAL, [CreateMeter(program, 150_000, 200_000, false),
                                         CheckAndStart(program, 100_000), CheckAndStart(program, 100_000)]);
      && |checked.executions| == 2
      && checked.executions[0].status == Running && checked.executions[1].status == Running
      && var done := Run(checked, [Transact(0, Confirmed), Transact(1, Confirmed), ChargeFor(0), ChargeFor(1)]);
         |done.executions| == 2 && done.executions[0].status == Success && done.executions[1].status == Failed
         && done.executions[1].unitsUsed == 100_000 && program in done.meters && done.meters[program].gasUsed == 100_000
  {
    hide Run, NewMeter, AfterCharge;
    RunThree(INITIAL, CreateMeter(program, 150_000, 200_000, false), CheckAndStart(program, 100_000), CheckAndStart(program, 100_000));
    BothChecksPass(program);
    var s := TwoChecked(program);
    RunFour(s, Transact(0, Confirmed), Transact(1, Confirmed), ChargeFor(0), ChargeFor(1));
    SecondChargeFails(Next(Next(s, Transact(0, Confirmed)), Transact(1, Confirmed)), program);
  }

  lemma RunThree(s: State, a: Step, b: Step, c: Step)
    ensures Run(s, [a, b, c]) == Next(Next(Next(s, a), b), c)
  {
    hide Next;
    assert [a, b, c][1..] == [b, c] && [b, c][1..] == [c] && [c][1..] == [];
    assert Run(s, [a, b, c]) == Run(Next(s, a), [b, c]);
    assert Run(Next(s, a), [b, c]) == Run(Next(Next(s, a), b), [c]);
    assert Run(Next(Next(s, a), b), [c]) == Run(Next(Next(Next(s, a), b), c), []);
  }

  lemma RunFour(s: State, a: Step, b: Step, c: Step, d: Step)
    ensures Run(s, [a, b, c, d]) == Next(Next(Next(Next(s, a), b), c), d)
  {
    hide Next;
    assert [a, b, c, d][1..] == [b, c, d];
    RunThree(Next(s, a), b, c, d);
  }

  // ---------------------------------------------------------------- the service

  class SvmService {
    var meters: map<string, Meter>
    var executions: seq<Execution>
    ghost var history: map<string, History>

    ghost function Abs(): State
      reads this
    {
      State(meters, history, executions)
    }

    constructor ()
      ensures Abs() == INITIAL
    {
      meters, executions, history := map[], [], map[];
    }

    method CreateGasMeter(id: string, gasAllocated: Allocation, gasLimitPerOperation: nat, autoPause: bool)
      requires id !in meters
      modifies this
      ensures Abs() == Next(old(Abs()), CreateMeter(id, gasAllocated, gasLimitPerOperation, autoPause))
      ensures executions == old(executions)
      ensures meters == old(meters)[id := Meter(Active, gasAllocated, 0, gasAllocated, gasLimitPerOperation, 0, 0.0, 0, 100.0, autoPause)]
    {
      meters := meters[id := Meter(Active, gasAllocated, 0, gasAllocated, gasLimitPerOperation, 0, 0.0, 0, 100.0, autoPause)];
      history := history[id := History([], 0)];
    }

    method UpdateGasMeter(id: string, addGasAllocation: nat, status: Option<MeterStatus>,
                          gasLimitPerOperation: Option<nat>, autoPause: Option<bool>) returns (ok: bool)
      modifies this
      ensures Abs() == Next(old(Abs()), UpdateMeter(id, addGasAllocation, status, gasLimitPerOperation, autoPause))
      ensures ok <==> id in old(meters)
      ensures meters ==
        if !ok then old(meters)
        else
          var m := old(meters)[id];
          old(meters)[id := m.(
            gasAllocated := m.gasAllocated + addGasAllocation, gasRemaining := m.gasRemaining + addGasAllocation,
            status := if status.Some? then status.value else m.status,
            gasLimitPerOperation := if gasLimitPerOperation.Some? then gasLimitPerOperation.value else m.gasLimitPerOperation,
            autoPauseOnThreshold := if autoPause.Some? then autoPause.value else m.autoPauseOnThreshold)]
    {
      if id !in meters {
        return false;
      }
      var meter := meters[id];
      if addGasAllocation != 0 {
        meter := meter.(gasAllocated := meter.gasAllocated + addGasAllocation);
        meter := meter.(gasRemaining := meter.gasRemaining + addGasAllocation);
      }
      if status.Some? { meter := meter.(status := status.value); }
      if gasLimitPerOperation.Some? { meter := meter.(gasLimitPerOperation := gasLimitPerOperation.value); }
      if autoPause.Some? { meter := meter.(autoPauseOnThreshold := autoPause.value); }
      history := history[id := HistoryOf(Abs(), id)];
      meters := meters[id := meter];
      return true;
    }

    method ResetGasMeter(id: string, fullReset: bool, newAllocation: Option<Allocation>) returns (ok: bool)
      modifies this
      ensures Abs() == Next(old(Abs()), ResetMeter(id, fullReset, newAllocation))
      ensures ok <==> id in old(meters)
      ensures meters ==
        if !ok || (!fullReset && newAllocation.None?) then old(meters)
        else
          var m := old(meters)[id];
          old(meters)[id :=
            if fullReset then Meter(Active, m.gasAllocated, 0, m.gasAllocated, m.gasLimitPerOperation, 0, 0.0, 0, 100.0, m.autoPauseOnThreshold)
            else if newAllocation.value < m.gasUsed then m.(gasAllocated := newAllocation.value, gasRemaining := 0, status := Exceeded)
            else m.(gasAllocated := newAllocation.value, gasRemaining := newAllocation.value - m.gasUsed)]
    {
      if id !in meters {
        return false;
      }
      var meter := meters[id];
      ghost var h := HistoryOf(Abs(), id);
      if fullReset {
        meter := meter.(gasUsed := 0, gasRemaining := meter.gasAllocated, operationCount := 0,
                        averageGasPerOperation := 0.0, peakGasUsage := 0, efficiencyRating := 100.0);
        meter := meter.(status := Active);
        history := history[id := History([], 0)];
      } else if newAllocation.Some? {
        history := history[id := h.(overdraft := Max(0, meter.gasUsed - newAllocation.value))];
        var remaining: int := newAllocation.value - meter.gasUsed;
        meter := meter.(gasAllocated := newAllocation.value);
        if remaining < 0 {
          meter := meter.(gasRemaining := 0, status := Exceeded);
        } else {
          meter := meter.(gasRemaining := remaining);
        }
      } else {
        return true;
      }
      meters := meters[id := meter];
      return true;
    }

    method DeleteGasMeter(id: string) returns (ok: bool)
      modifies this
      ensures Abs() == Next(old(Abs()), DeleteMeter(id)) && meters == old(meters) - {id}
      ensures ok <==> id in old(meters)
    {
      if id !in meters {
        return false;
      }
      meters := meters - {id};
      history := history - {id};
      return true;
    }

    method CheckGasMeter(identifier: string, requiredGas: nat) returns (ok: bool)
      ensures ok <==> CheckPasses(Abs(), identifier, requiredGas)
      ensures ok <==> (identifier in meters ==>
                         var m := meters[identifier];
                         m.status == Active && requiredGas <= m.gasRemaining && requiredGas <= m.gasLimitPerOperation)
    {
      if identifier !in meters {
        return true;
      }
      var meter := meters[identifier];
      if meter.status != Active {
        return false;
      }
      if meter.gasRemaining < requiredGas {
        return false;
      }
      if requiredGas > meter.gasLimitPerOperation {
        return false;
      }
      return true;
    }

    /** The charge of execution `execution`; what it does to the executions table is left to the caller. */
    method ConsumeGas(identifier: string, gasAmount: nat, ghost execution: nat) returns (ok: bool)
      modifies this`meters, this`history
      ensures ok <==> (identifier in old(meters) ==>
                         old(meters)[identifier].status == Active && gasAmount <= old(meters)[identifier].gasRemaining)
      ensures identifier !in old(meters) ==> ok && Abs() == old(Abs())
      ensures identifier in old(meters) ==>
        var h := HistoryOf(old(Abs()), identifier);
        Abs() == SetMeter(old(Abs()), identifier, Consumed(old(meters)[identifier], gasAmount),
                          if ok then h.(charges := h.charges + [Charge(execution, gasAmount)]) else h)
    {
      if identifier !in meters {
        return true;
      }
      var meter := meters[identifier];
      ghost var h := HistoryOf(Abs(), identifier);
      history := history[identifier := h];
      if meter.status != Active {
        meters := meters[identifier := meter];
        return false;
      }
      if meter.gasRemaining < gasAmount {
        if meter.autoPauseOnThreshold {
          meter := meter.(status := Exceeded);
        }
        meters := meters[identifier := meter];
        return false;
      }
      meter := meter.(gasUsed := meter.gasUsed + gasAmount);
      meter := meter.(gasRemaining := meter.gasRemaining - gasAmount);
      meter := meter.(operationCount := meter.operationCount + 1);
      meter := meter.(averageGasPerOperation := Mean(meter.gasUsed, meter.operationCount));
      meter := meter.(peakGasUsage := Max(meter.peakGasUsage, gasAmount));
      meter := meter.(efficiencyRating := Rating(meter.gasUsed, meter.gasAllocated));
      history := history[identifier := h.(charges := h.charges + [Charge(execution, gasAmount)])];
      meters := meters[identifier := meter];
      return true;
    }

    /** Nothing else runs meanwhile. How sending the transaction goes is an argument. */
    method ExecuteProgram(programId: string, units: nat, sending: Sending) returns (status: ExecutionStatus)
      modifies this
      ensures Abs() == Execute(old(Abs()), programId, units, sending)
      ensures var passes := programId in old(meters) ==>
          var m := old(meters)[programId]; m.status == Active && units <= m.gasRemaining && units <= m.gasLimitPerOperation;
        var used := if !passes || sending == Rejected then 0 else if units <= 100_000 then units else 100_000;
        && status == (if passes && sending == Confirmed then Success else Failed)
        && executions == old(executions) + [Execution(programId, units, used, status)]
        && meters == if status == Success && programId in old(meters)
                       then old(meters)[programId := Consumed(old(meters)[programId], used)] else old(meters)
    {
      hide Consumed, HistoryOf, Execute;
      ExecuteLeaves(Abs(), programId, units, sending);
      var e := |executions|;
      var execution := Execution(programId, units, 0, Running);
      var passes := CheckGasMeter(programId, units);
      if !passes || sending == Rejected {
        executions := executions + [execution.(status := Failed)];
        return Failed;
      }
      execution := execution.(unitsUsed := Min(units, SIMULATED_UNITS));
      if sending == SlotUnread {
        executions := executions + [execution.(status := Failed)];
        return Failed;
      }
      var charged := ConsumeGas(programId, execution.unitsUsed, e);
      status := if charged then Success else Failed;
      executions := executions + [execution.(status := status)];
    }
  }
}
