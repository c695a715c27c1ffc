/**
 The retrying consumer as a step system over the partitions of the `transactions` topic.

 A partition is handled one message at a time. A handler run that fails re-emits the message with an
 incremented retry count, or dead-letters it after three retries, and then commits the offset. If the
 re-emit itself fails the handler throws and the message is delivered again; if the dead-letter publish
 fails the error is swallowed. Between any two of these steps the handler may be cut off, because the process
 ends or the partition moves elsewhere; the message is then delivered again.
 */
module Consumer {
  import opened Messages

  const MAX_RETRIES: nat := 3

  /** How far the handler has come with the first uncommitted message. */
  datatype Phase = Idle | Failing | Succeeded | Settled

  /** `done` lies before the committed offset, `todo` from it on. */
  datatype Partition = Partition(done: seq<Message>, todo: seq<Message>, phase: Phase)

  datatype State = State(
    topic: seq<Partition>,
    processed: seq<Event>,
    deadLettered: seq<Event>,
    lost: seq<Event>,         // dead-letter publish failed and was swallowed
    accepted: seq<Event>,     // first copies that entered the topic
    attempted: seq<Event>,    // handler runs
    redelivered: seq<Event>,  // runs that failed and neither re-emitted nor dead-lettered
    reopened: seq<Event>      // crashes after the message was dealt with and before its commit
  )

  datatype Step =
    | Accept(partition: nat, event: Event)
    | HandleOk(partition: nat)
    | HandleFail(partition: nat)
    | RetrySent(partition: nat, target: nat)
    | RetryFailed(partition: nat)
    | DeadLetterSent(partition: nat)
    | DeadLetterFailed(partition: nat)
    | Commit(partition: nat)
    | Crash(partition: nat)

  /** Partition p has a message in hand and its handler is in the given phase. */
  predicate InPhase(s: State, p: nat, phase: Phase) {
    p < |s.topic| && s.topic[p].todo != [] && s.topic[p].phase == phase
  }

  function Head(s: State, p: nat): Message
    requires p < |s.topic| && s.topic[p].todo != []
  {
    s.topic[p].todo[0]
  }

  predicate Possible(s: State, step: Step) {
    match step
    case Accept(p, _) => p < |s.topic|
    case HandleOk(p) => InPhase(s, p, Idle)
    case HandleFail(p) => InPhase(s, p, Idle)
    case RetrySent(p, q) => InPhase(s, p, Failing) && Head(s, p).retryCount < MAX_RETRIES && q < |s.topic|
    case RetryFailed(p) => InPhase(s, p, Failing) && Head(s, p).retryCount < MAX_RETRIES
    case DeadLetterSent(p) => InPhase(s, p, Failing) && Head(s, p).retryCount >= MAX_RETRIES
    case DeadLetterFailed(p) => InPhase(s, p, Failing) && Head(s, p).retryCount >= MAX_RETRIES
    case Commit(p) => InPhase(s, p, Succeeded) || InPhase(s, p, Settled)
    case Crash(p) => p < |s.topic| && s.topic[p].todo != [] && s.topic[p].phase != Idle
  }

  function Enter(s: State, p: nat, phase: Phase): State
    requires p < |s.topic|
  {
    s.(topic := s.topic[p := s.topic[p].(phase := phase)])
  }

  function Append(s: State, p: nat, m: Message): State
    requires p < |s.topic|
  {
    s.(topic := s.topic[p := s.topic[p].(todo := s.topic[p].todo + [m])])
  }

  function Apply(s: State, step: Step): State
    requires Possible(s, step)
  {
    match step
    case Accept(p, e) => Append(s, p, Message(e, 0)).(accepted := s.accepted + [e])
    case HandleOk(p) =>
      Enter(s, p, Succeeded).(processed := s.processed + [Head(s, p).event],
                              attempted := s.attempted + [Head(s, p).event])
    case HandleFail(p) => Enter(s, p, Failing).(attempted := s.attempted + [Head(s, p).event])
    case RetrySent(p, q) =>
      Append(Enter(s, p, Settled), q, Message(Head(s, p).event, Head(s, p).retryCount + 1))
    case RetryFailed(p) => Enter(s, p, Idle).(redelivered := s.redelivered + [Head(s, p).event])
    case DeadLetterSent(p) => Enter(s, p, Settled).(deadLettered := s.deadLettered + [Head(s, p).event])
    case DeadLetterFailed(p) => Enter(s, p, Settled).(lost := s.lost + [Head(s, p).event])
    case Commit(p) =>
      var part := s.topic[p];
      s.(topic := s.topic[p := Partition(part.done + [part.todo[0]], part.todo[1..], Idle)])
    case Crash(p) =>
      if s.topic[p].phase == Failing
      then Enter(s, p, Idle).(redelivered := s.redelivered + [Head(s, p).event])
      else Enter(s, p, Idle).(reopened := s.reopened + [Head(s, p).event])
  }

  /** Steps that are not possible in `s` leave it alone. */
  function Next(s: State, step: Step): State {
    if Possible(s, step) then Apply(s, step) else s
  }

  function Run(s: State, steps: seq<Step>): State
    decreases steps
  {
    if steps == [] then s else Run(Next(s, steps[0]), steps[1..])
  }

  // ---------------------------------------------------------------- accounting

  /** Copies of a partition that nothing has been decided about. */
  function Open(part: Partition): seq<Message> {
    if part.todo != [] && Resolved(part.phase) then part.todo[1..] else part.todo
  }

  function Events(ms: seq<Message>): seq<Event> {
    seq(|ms|, i requires 0 <= i < |ms| => ms[i].event)
  }

  /** Open copies of e. */
  ghost function OpenIn(part: Partition, e: Event): nat {
    Count(Events(Open(part)), e)
  }

  /** A quantity summed over all partitions. */
  ghost function Sum(f: Partition -> nat, topic: seq<Partition>): nat {
    if topic == [] then 0 else f(topic[0]) + Sum(f, topic[1..])
  }

  lemma {:induction false} SumUpdate(f: Partition -> nat, topic: seq<Partition>, p: nat, part: Partition)
    requires p < |topic|
    ensures Sum(f, topic[p := part]) + f(topic[p]) == Sum(f, topic) + f(part)
  {
    if p == 0 {
      assert topic[0 := part][1..] == topic[1..];
    } else {
      SumUpdate(f, topic[1..], p - 1, part);
      assert topic[p := part][1..] == topic[1..][p - 1 := part];
    }
  }

  ghost function OpenCopies(topic: seq<Partition>, e: Event): nat {
    Sum(part => OpenIn(part, e), topic)
  }

  predicate Resolved(phase: Phase) {
    phase == Succeeded || phase == Settled
  }

  /**
   Every copy that entered the topic, and every copy a crash brought back, is processed,
   dead-lettered, lost or still open: each exactly once.
   */
  ghost predicate Accounted(s: State, e: Event) {
    Count(s.accepted, e) + Count(s.reopened, e)
    == Count(s.processed, e) + Count(s.deadLettered, e) + Count(s.lost, e) + OpenCopies(s.topic, e)
  }

  lemma EventsAppend(ms: seq<Message>, m: Message, e: Event)
    ensures Count(Events(ms + [m]), e) == Count(Events(ms), e) + Count([m.event], e)
  {
    assert Events(ms + [m]) == Events(ms) + [m.event];
  }

  lemma EventsHead(ms: seq<Message>, e: Event)
    requires ms != []
    ensures Count(Events(ms), e) == Count([ms[0].event], e) + Count(Events(ms[1..]), e)
  {
    assert Events(ms) == [ms[0].event] + Events(ms[1..]);
  }

  lemma AppendOpens(s: State, p: nat, m: Message, e: Event)
    requires p < |s.topic| && (s.topic[p].phase != Idle ==> s.topic[p].todo != [])
    ensures OpenCopies(Append(s, p, m).topic, e) == OpenCopies(s.topic, e) + Count([m.event], e)
  {
    var part := s.topic[p];
    var after := part.(todo := part.todo + [m]);
    SumUpdate(part => OpenIn(part, e), s.topic, p, after);
    assert Open(after) == Open(part) + [m];
    EventsAppend(Open(part), m, e);
  }

  lemma EnterOpens(s: State, p: nat, phase: Phase, e: Event)
    requires p < |s.topic| && s.topic[p].todo != []
    ensures var head := Count([Head(s, p).event], e);
      OpenCopies(Enter(s, p, phase).topic, e) + (if Resolved(phase) then head else 0)
      == OpenCopies(s.topic, e) + (if Resolved(s.topic[p].phase) then head else 0)
  {
    SumUpdate(part => OpenIn(part, e), s.topic, p, s.topic[p].(phase := phase));
    EventsHead(s.topic[p].todo, e);
  }

  lemma OnlyAcceptAdmits(s: State, step: Step)
    ensures !step.Accept? ==> Next(s, step).accepted == s.accepted
  {
  }

  /** A handler is active only over a message, and retry counts stay within the limit. */
  ghost predicate WellFormed(s: State) {
    forall p :: 0 <= p < |s.topic| ==>
      && (s.topic[p].phase != Idle ==> s.topic[p].todo != [])
      && (forall m :: m in s.topic[p].todo ==> m.retryCount <= MAX_RETRIES)
  }

  lemma StepWellFormed(s: State, step: Step)
    requires WellFormed(s)
    ensures WellFormed(Next(s, step))
  {
  }

  lemma RetryAccounted(s: State, p: nat, q: nat, e: Event)
    requires WellFormed(s) && Accounted(s, e) && Possible(s, RetrySent(p, q))
    ensures Accounted(Apply(s, RetrySent(p, q)), e)
  {
    hide OpenCopies, Count;
    EnterOpens(s, p, Settled, e);
    AppendOpens(Enter(s, p, Settled), q, Message(Head(s, p).event, Head(s, p).retryCount + 1), e);
  }

  lemma CommitAccounted(s: State, p: nat, e: Event)
    requires Accounted(s, e) && Possible(s, Commit(p))
    ensures Accounted(Apply(s, Commit(p)), e)
  {
    var part := s.topic[p];
    var after := Partition(part.done + [part.todo[0]], part.todo[1..], Idle);
    SumUpdate(part => OpenIn(part, e), s.topic, p, after);
    assert Open(after) == Open(part);
  }

  lemma ResolvingAccounted(s: State, step: Step, e: Event)
    requires Accounted(s, e) && Possible(s, step)
    requires step.HandleOk? || step.DeadLetterSent? || step.DeadLetterFailed?
    ensures Accounted(Apply(s, step), e)
  {
    hide OpenCopies, Count;
    var p := step.partition;
    var head := Head(s, p).event;
    EnterOpens(s, p, if step.HandleOk? then Succeeded else Settled, e);
    if step.HandleOk? {
      CountConcat(s.processed, [head], e);
    } else if step.DeadLetterSent? {
      CountConcat(s.deadLettered, [head], e);
    } else {
      CountConcat(s.lost, [head], e);
    }
  }

  lemma UnresolvedAccounted(s: State, step: Step, e: Event)
    requires Accounted(s, e) && Possible(s, step)
    requires step.HandleFail? || step.RetryFailed? || step.Crash?
    ensures Accounted(Apply(s, step), e)
  {
    hide OpenCopies, Count;
    var p := step.partition;
    EnterOpens(s, p, if step.HandleFail? then Failing else Idle, e);
    CountConcat(s.reopened, [Head(s, p).event], e);
  }

  lemma StepAccounted(s: State, step: Step, e: Event)
    requires WellFormed(s) && Accounted(s, e)
    ensures Accounted(Next(s, step), e)
  {
    if Possible(s, step) {
      if step.Accept? {
        AppendOpens(s, step.partition, Message(step.event, 0), e);
      } else if step.RetrySent? {
        RetryAccounted(s, step.partition, step.target, e);
      } else if step.Commit? {
        CommitAccounted(s, step.partition, e);
      } else if step.HandleFail? || step.RetryFailed? || step.Crash? {
        UnresolvedAccounted(s, step, e);
      } else {
        ResolvingAccounted(s, step, e);
      }
    }
  }

  ghost predicate Fresh(s: State) {
    s == State(seq(|s.topic|, _ => Partition([], [], Idle)), [], [], [], [], [], [], [])
  }

  lemma {:induction false} FreshSums(f: Partition -> nat, topic: seq<Partition>)
    requires f(Partition([], [], Idle)) == 0
    requires forall p :: 0 <= p < |topic| ==> topic[p] == Partition([], [], Idle)
    ensures Sum(f, topic) == 0
  {
    if topic != [] { FreshSums(f, topic[1..]); }
  }

  lemma {:induction false} RunAccounted(s: State, steps: seq<Step>, e: Event)
    requires WellFormed(s) && Accounted(s, e)
    ensures WellFormed(Run(s, steps)) && Accounted(Run(s, steps), e)
    decreases steps
  {
    if steps != [] {
      StepWellFormed(s, steps[0]);
      StepAccounted(s, steps[0], e);
      RunAccounted(Next(s, steps[0]), steps[1..], e);
    }
  }

  // ---------------------------------------------------------------- restarts

  function CrashFrom(s: State, p: nat): State
    decreases |s.topic| - p
  {
    if p < |s.topic| then CrashFrom(Next(s, Crash(p)), p + 1) else s
  }

  /** The process ends: the handlers of all partitions are cut off. */
  function Restarted(s: State): State {
    CrashFrom(s, 0)
  }

  lemma {:induction false} CrashFromKeeps(s: State, p: nat, e: Event)
    requires WellFormed(s) && Accounted(s, e)
    ensures var t := CrashFrom(s, p); WellFormed(t) && Accounted(t, e) && t.accepted == s.accepted
    decreases |s.topic| - p
  {
    hide Next, WellFormed, Accounted;
    if p < |s.topic| {
      StepWellFormed(s, Crash(p));
      StepAccounted(s, Crash(p), e);
      OnlyAcceptAdmits(s, Crash(p));
      CrashShape(s, p);
      CrashFromKeeps(Next(s, Crash(p)), p + 1, e);
    }
  }

  /** A cut-off handler leaves its message where it was, and other partitions alone. */
  lemma CrashShape(s: State, p: nat)
    requires p < |s.topic|
    ensures var t := Next(s, Crash(p));
      && |t.topic| == |s.topic|
      && (forall q :: 0 <= q < |s.topic| ==> t.topic[q] == if q == p && s.topic[q].todo != [] then s.topic[q].(phase := Idle) else s.topic[q])
      && t.processed == s.processed && t.deadLettered == s.deadLettered && t.lost == s.lost
  {
  }

  /** After a restart every uncommitted message is about to be handled again, and nothing else has changed. */
  lemma {:induction false} RestartShape(s: State, p: nat)
    ensures var t := CrashFrom(s, p);
      && |t.topic| == |s.topic|
      && (forall q :: 0 <= q < |s.topic| ==>
            t.topic[q] == if q >= p && s.topic[q].todo != [] then s.topic[q].(phase := Idle) else s.topic[q])
      && t.processed == s.processed && t.deadLettered == s.deadLettered && t.lost == s.lost
    decreases |s.topic| - p
  {
    hide Next;
    if p < |s.topic| {
      CrashShape(s, p);
      RestartShape(Next(s, Crash(p)), p + 1);
    }
  }

  // ---------------------------------------------------------------- attempts

  /** How many entries of the log concern an event of interest. */
  ghost function Picked(xs: seq<Event>, sel: iset<Event>): nat {
    if xs == [] then 0 else Picked(xs[..|xs| - 1], sel) + (if xs[|xs| - 1] in sel then 1 else 0)
  }

  lemma PickedAppend(xs: seq<Event>, e: Event, sel: iset<Event>)
    ensures Picked(xs + [e], sel) == Picked(xs, sel) + (if e in sel then 1 else 0)
  {
  }

  /** Handler runs a message may still cause after the current one fails. */
  ghost function RunsLeft(m: Message, sel: iset<Event>): nat {
    if m.event in sel && m.retryCount < MAX_RETRIES then MAX_RETRIES - m.retryCount else 0
  }

  /** Handler runs the messages of interest may still cause. */
  ghost function Allowance(ms: seq<Message>, sel: iset<Event>): nat {
    if ms == [] then 0
    else RunsLeft(ms[0], sel) + (if ms[0].event in sel then 1 else 0) + Allowance(ms[1..], sel)
  }

  lemma {:induction false} AllowanceAppend(ms: seq<Message>, m: Message, sel: iset<Event>)
    ensures Allowance(ms + [m], sel) == Allowance(ms, sel) + Allowance([m], sel)
  {
    if ms == [] {
      assert ms + [m] == [m];
    } else {
      AllowanceAppend(ms[1..], m, sel);
      assert (ms + [m])[1..] == ms[1..] + [m];
    }
  }

  ghost function PartitionAllowance(part: Partition, sel: iset<Event>): nat {
    if part.todo == [] then 0
    else if part.phase == Failing then RunsLeft(part.todo[0], sel) + Allowance(part.todo[1..], sel)
    else Allowance(Open(part), sel)
  }

  ghost function TopicAllowance(topic: seq<Partition>, sel: iset<Event>): nat {
    Sum(part => PartitionAllowance(part, sel), topic)
  }

  /**
   Every accepted copy pays for four handler runs; only a failed re-emit, or a crash, pays for more.
   */
  ghost predicate WithinBudget(s: State, sel: iset<Event>) {
    Picked(s.attempted, sel) + TopicAllowance(s.topic, sel)
    <= 4 * Picked(s.accepted, sel) + 4 * Picked(s.reopened, sel) + Picked(s.redelivered, sel)
  }

  lemma AppendAllowance(s: State, p: nat, m: Message, sel: iset<Event>)
    requires p < |s.topic| && (s.topic[p].phase != Idle ==> s.topic[p].todo != [])
    ensures TopicAllowance(Append(s, p, m).topic, sel) == TopicAllowance(s.topic, sel) + Allowance([m], sel)
  {
    var part := s.topic[p];
    var after := part.(todo := part.todo + [m]);
    SumUpdate(part => PartitionAllowance(part, sel), s.topic, p, after);
    AllowanceAppend(Open(part), m, sel);
    if part.todo != [] {
      AllowanceAppend(part.todo[1..], m, sel);
      assert after.todo[1..] == part.todo[1..] + [m];
    }
  }

  /** What the first message of a partition contributes to the allowance, by phase. */
  ghost function HeadAllowance(m: Message, phase: Phase, sel: iset<Event>): nat {
    if Resolved(phase) then 0
    else if phase == Failing then RunsLeft(m, sel)
    else RunsLeft(m, sel) + (if m.event in sel then 1 else 0)
  }

  lemma EnterAllowance(s: State, p: nat, phase: Phase, sel: iset<Event>)
    requires p < |s.topic| && s.topic[p].todo != []
    ensures TopicAllowance(Enter(s, p, phase).topic, sel) + HeadAllowance(Head(s, p), s.topic[p].phase, sel)
         == TopicAllowance(s.topic, sel) + HeadAllowance(Head(s, p), phase, sel)
  {
    SumUpdate(part => PartitionAllowance(part, sel), s.topic, p, s.topic[p].(phase := phase));
  }

  lemma CommitAllowance(s: State, p: nat, sel: iset<Event>)
    requires Possible(s, Commit(p))
    ensures TopicAllowance(Apply(s, Commit(p)).topic, sel) == TopicAllowance(s.topic, sel)
  {
    var part := s.topic[p];
    SumUpdate(part => PartitionAllowance(part, sel), s.topic, p,
              Partition(part.done + [part.todo[0]], part.todo[1..], Idle));
  }

  lemma HandleWithinBudget(s: State, step: Step, sel: iset<Event>)
    requires WellFormed(s) && WithinBudget(s, sel) && Possible(s, step) && (step.HandleOk? || step.HandleFail?)
    ensures WithinBudget(Apply(s, step), sel)
  {
    hide TopicAllowance, Picked;
    var p := step.partition;
    EnterAllowance(s, p, if step.HandleOk? then Succeeded else Failing, sel);
    PickedAppend(s.attempted, Head(s, p).event, sel);
  }

  lemma DeadLetterWithinBudget(s: State, step: Step, sel: iset<Event>)
    requires WithinBudget(s, sel) && Possible(s, step) && (step.DeadLetterSent? || step.DeadLetterFailed?)
    ensures WithinBudget(Apply(s, step), sel)
  {
    hide TopicAllowance, Picked;
    EnterAllowance(s, step.partition, Settled, sel);
  }

  lemma AgainWithinBudget(s: State, step: Step, sel: iset<Event>)
    requires WellFormed(s) && WithinBudget(s, sel) && Possible(s, step) && (step.RetryFailed? || step.Crash?)
    ensures WithinBudget(Apply(s, step), sel)
  {
    hide TopicAllowance, Picked;
    var p := step.partition;
    EnterAllowance(s, p, Idle, sel);
    assert Head(s, p) in s.topic[p].todo;
    if s.topic[p].phase == Failing {
      PickedAppend(s.redelivered, Head(s, p).event, sel);
    } else {
      PickedAppend(s.reopened, Head(s, p).event, sel);
    }
  }

  lemma RetryWithinBudget(s: State, p: nat, q: nat, sel: iset<Event>)
    requires WellFormed(s) && WithinBudget(s, sel) && Possible(s, RetrySent(p, q))
    ensures WithinBudget(Apply(s, RetrySent(p, q)), sel)
  {
    hide TopicAllowance, Picked;
    EnterAllowance(s, p, Settled, sel);
    AppendAllowance(Enter(s, p, Settled), q, Message(Head(s, p).event, Head(s, p).retryCount + 1), sel);
  }

  lemma StepWithinBudget(s: State, step: Step, sel: iset<Event>)
    requires WellFormed(s) && WithinBudget(s, sel)
    ensures WithinBudget(Next(s, step), sel)
  {
    if Possible(s, step) {
      if step.Accept? {
        AppendAllowance(s, step.partition, Message(step.event, 0), sel);
        PickedAppend(s.accepted, step.event, sel);
      } else if step.RetrySent? {
        RetryWithinBudget(s, step.partition, step.target, sel);
      } else if step.Commit? {
        CommitAllowance(s, step.partition, sel);
      } else if step.HandleOk? || step.HandleFail? {
        HandleWithinBudget(s, step, sel);
      } else if step.RetryFailed? || step.Crash? {
        AgainWithinBudget(s, step, sel);
      } else {
        DeadLetterWithinBudget(s, step, sel);
      }
    }
  }

  lemma {:induction false} RunWithinBudget(s: State, steps: seq<Step>, sel: iset<Event>)
    requires WellFormed(s) && WithinBudget(s, sel)
    ensures WithinBudget(Run(s, steps), sel)
    decreases steps
  {
    if steps != [] {
      StepWellFormed(s, steps[0]);
      StepWithinBudget(s, steps[0], sel);
      RunWithinBudget(Next(s, steps[0]), steps[1..], sel);
    }
  }

  /**
   The retry protocol, for every set of events and every run: without failed re-emits and crashes,
   n accepted copies cause at most 4n handler runs (one event: at most four; all events: 4N).
   */
  lemma AtMostFourRunsEach(s: State, steps: seq<Step>, sel: iset<Event>)
    requires Fresh(s)
    ensures var t := Run(s, steps);
      t.redelivered == [] && t.reopened == [] ==> Picked(t.attempted, sel) <= 4 * Picked(t.accepted, sel)
  {
    FreshSums(part => PartitionAllowance(part, sel), s.topic);
    RunWithinBudget(s, steps, sel);
  }

  /** The fate of a copy, for every run: without crashes each ends in exactly one place or is still open. */
  lemma EachCopyEndsOnce(s: State, steps: seq<Step>, e: Event)
    requires Fresh(s)
    ensures var t := Run(s, steps);
      && Accounted(t, e)
      && (t.reopened == [] ==>
            Count(t.processed, e) + Count(t.deadLettered, e) + Count(t.lost, e) + OpenCopies(t.topic, e)
            == Count(t.accepted, e))
  {
    FreshSums(part => OpenIn(part, e), s.topic);
    RunAccounted(s, steps, e);
  }

  // ---------------------------------------------------------------- four attempts before giving up

  /** Attempts that the message has behind it, counting one that has just failed. */
  ghost function Invested(ms: seq<Message>, e: Event): nat {
    if ms == [] then 0 else Invested(ms[..|ms| - 1], e) + (if ms[|ms| - 1].event == e then ms[|ms| - 1].retryCount else 0)
  }

  lemma InvestedAppend(ms: seq<Message>, m: Message, e: Event)
    ensures Invested(ms + [m], e) == Invested(ms, e) + (if m.event == e then m.retryCount else 0)
  {
    assert (ms + [m])[..|ms|] == ms;
  }

  lemma {:induction false} InvestedHead(ms: seq<Message>, e: Event)
    requires ms != []
    ensures Invested(ms, e) == (if ms[0].event == e then ms[0].retryCount else 0) + Invested(ms[1..], e)
  {
    var n := |ms| - 1;
    if n > 0 {
      InvestedHead(ms[..n], e);
      assert ms[..n][1..] == ms[1..][..n - 1];
    } else {
      assert ms[1..] == [] && ms[..0] == [];
    }
  }

  ghost function PartitionInvested(part: Partition, e: Event): nat {
    Invested(Open(part), e) + (if part.todo != [] && part.phase == Failing && part.todo[0].event == e then 1 else 0)
  }

  ghost function TopicInvested(topic: seq<Partition>, e: Event): nat {
    Sum(part => PartitionInvested(part, e), topic)
  }

  /** What the first message of a partition contributes, by phase. */
  ghost function HeadInvested(m: Message, phase: Phase, e: Event): nat {
    if m.event != e || Resolved(phase) then 0 else m.retryCount + (if phase == Failing then 1 else 0)
  }

  lemma EnterInvested(s: State, p: nat, phase: Phase, e: Event)
    requires p < |s.topic| && s.topic[p].todo != []
    ensures TopicInvested(Enter(s, p, phase).topic, e) + HeadInvested(Head(s, p), s.topic[p].phase, e)
         == TopicInvested(s.topic, e) + HeadInvested(Head(s, p), phase, e)
  {
    SumUpdate(part => PartitionInvested(part, e), s.topic, p, s.topic[p].(phase := phase));
    InvestedHead(s.topic[p].todo, e);
  }

  lemma AppendInvested(s: State, p: nat, m: Message, e: Event)
    requires p < |s.topic| && (s.topic[p].phase != Idle ==> s.topic[p].todo != [])
    ensures TopicInvested(Append(s, p, m).topic, e) == TopicInvested(s.topic, e) + (if m.event == e then m.retryCount else 0)
  {
    var part := s.topic[p];
    var after := part.(todo := part.todo + [m]);
    SumUpdate(part => PartitionInvested(part, e), s.topic, p, after);
    assert Open(after) == Open(part) + [m];
    InvestedAppend(Open(part), m, e);
  }

  lemma CommitInvested(s: State, p: nat, e: Event)
    requires Possible(s, Commit(p))
    ensures TopicInvested(Apply(s, Commit(p)).topic, e) == TopicInvested(s.topic, e)
  {
    var part := s.topic[p];
    var after := Partition(part.done + [part.todo[0]], part.todo[1..], Idle);
    SumUpdate(part => PartitionInvested(part, e), s.topic, p, after);
    assert Open(after) == Open(part);
  }

  /** Nothing is given up before four attempts: each dead-lettered or lost copy has paid for them, or a crash has. */
  ghost predicate PaidFor(s: State, e: Event) {
    Count(s.attempted, e) + 4 * Count(s.reopened, e)
    >= 4 * (Count(s.deadLettered, e) + Count(s.lost, e)) + Count(s.processed, e) + TopicInvested(s.topic, e)
  }

  lemma RetryPaidFor(s: State, p: nat, q: nat, e: Event)
    requires WellFormed(s) && PaidFor(s, e) && Possible(s, RetrySent(p, q))
    ensures PaidFor(Apply(s, RetrySent(p, q)), e)
  {
    hide TopicInvested, Count;
    EnterInvested(s, p, Settled, e);
    AppendInvested(Enter(s, p, Settled), q, Message(Head(s, p).event, Head(s, p).retryCount + 1), e);
  }

  lemma OtherPaidFor(s: State, step: Step, e: Event)
    requires WellFormed(s) && PaidFor(s, e) && Possible(s, step)
    requires !step.Accept? && !step.RetrySent? && !step.Commit?
    ensures PaidFor(Apply(s, step), e)
  {
    hide TopicInvested, Count;
    var p := step.partition;
    var head := Head(s, p);
    assert head in s.topic[p].todo;
    var t := Apply(s, step);
    EnterInvested(s, p, t.topic[p].phase, e);
    CountOne(s.attempted, head.event, e);
    CountOne(s.processed, head.event, e);
    CountOne(s.deadLettered, head.event, e);
    CountOne(s.lost, head.event, e);
    CountOne(s.reopened, head.event, e);
  }

  lemma CountOne(xs: seq<Event>, x: Event, e: Event)
    ensures Count(xs + [x], e) == Count(xs, e) + if x == e then 1 else 0
  {
  }

  lemma StepPaidFor(s: State, step: Step, e: Event)
    requires WellFormed(s) && PaidFor(s, e)
    ensures PaidFor(Next(s, step), e)
  {
    hide TopicInvested, Count;
    if Possible(s, step) {
      if step.Accept? {
        AppendInvested(s, step.partition, Message(step.event, 0), e);
      } else if step.RetrySent? {
        RetryPaidFor(s, step.partition, step.target, e);
      } else if step.Commit? {
        CommitInvested(s, step.partition, e);
      } else {
        OtherPaidFor(s, step, e);
      }
    }
  }

  lemma {:induction false} RunPaidFor(s: State, steps: seq<Step>, e: Event)
    requires WellFormed(s) && PaidFor(s, e)
    ensures WellFormed(Run(s, steps)) && PaidFor(Run(s, steps), e)
    decreases steps
  {
    hide WellFormed, PaidFor, Next;
    if steps != [] {
      StepWellFormed(s, steps[0]);
      StepPaidFor(s, steps[0], e);
      RunPaidFor(Next(s, steps[0]), steps[1..], e);
    }
  }

  /**
   The other side of the retry protocol, for every run: an event is dead-lettered or lost only after four attempts
   for each such copy, and processed after one; only a crash lets attempts count again.
   */
  lemma FourAttemptsBeforeGivingUp(s: State, steps: seq<Step>, e: Event)
    requires Fresh(s)
    ensures var t := Run(s, steps);
      Count(t.attempted, e) + 4 * Count(t.reopened, e)
      >= 4 * (Count(t.deadLettered, e) + Count(t.lost, e)) + Count(t.processed, e)
  {
    FreshSums(part => PartitionInvested(part, e), s.topic);
    RunPaidFor(s, steps, e);
  }

  // ---------------------------------------------------------------- progress

  /** Steps with which the handler comes closer to an empty backlog. */
  predicate Settles(step: Step) {
    !step.Accept? && !step.RetryFailed? && !step.Crash?
  }

  ghost const EVERYTHING: iset<Event> := iset e: Event | true

  ghost function PhaseRank(part: Partition): nat {
    if part.todo == [] || part.phase == Idle then 0 else if part.phase == Failing then 2 else 1
  }

  /** Bounds the settling steps left. */
  ghost function Rank(topic: seq<Partition>): nat {
    3 * TopicAllowance(topic, EVERYTHING) + Sum(PhaseRank, topic)
  }

  predicate AllCommitted(s: State) {
    forall p :: 0 <= p < |s.topic| ==> s.topic[p].todo == []
  }

  lemma RetryLowersRank(s: State, p: nat, q: nat)
    requires WellFormed(s) && Possible(s, RetrySent(p, q))
    ensures Rank(Apply(s, RetrySent(p, q)).topic) < Rank(s.topic)
  {
    hide TopicAllowance, Sum;
    var t := Enter(s, p, Settled);
    var m := Message(Head(s, p).event, Head(s, p).retryCount + 1);
    EnterAllowance(s, p, Settled, EVERYTHING);
    SumUpdate(PhaseRank, s.topic, p, t.topic[p]);
    AppendAllowance(t, q, m, EVERYTHING);
    SumUpdate(PhaseRank, t.topic, q, Append(t, q, m).topic[q]);
  }

  lemma SettlingLowersRank(s: State, step: Step)
    requires WellFormed(s) && Possible(s, step) && Settles(step)
    ensures Rank(Apply(s, step).topic) < Rank(s.topic)
  {
    hide TopicAllowance, Sum;
    var p := step.partition;
    assert Head(s, p) in s.topic[p].todo;
    if step.Commit? {
      CommitAllowance(s, p, EVERYTHING);
      SumUpdate(PhaseRank, s.topic, p, Apply(s, step).topic[p]);
    } else if step.RetrySent? {
      RetryLowersRank(s, p, step.target);
    } else {
      var phase := Apply(s, step).topic[p].phase;
      EnterAllowance(s, p, phase, EVERYTHING);
      SumUpdate(PhaseRank, s.topic, p, Enter(s, p, phase).topic[p]);
      assert Apply(s, step).topic == Enter(s, p, phase).topic;
    }
  }

  /** Whatever is uncommitted can be worked on: some settling step is possible. */
  lemma NeverStuck(s: State) returns (step: Step)
    requires WellFormed(s) && !AllCommitted(s)
    ensures Settles(step) && Possible(s, step)
  {
    var p :| 0 <= p < |s.topic| && s.topic[p].todo != [];
    step := match s.topic[p].phase
      case Idle => HandleFail(p)
      case Failing => if Head(s, p).retryCount < MAX_RETRIES then RetrySent(p, p) else DeadLetterSent(p)
      case _ => Commit(p);
  }

  /** Every step is a settling step that is possible where it is taken. */
  ghost predicate SettlingRun(s: State, steps: seq<Step>)
    decreases steps
  {
    steps != [] ==>
      Possible(s, steps[0]) && Settles(steps[0]) && SettlingRun(Next(s, steps[0]), steps[1..])
  }

  /**
   Even if every handler run fails, a schedule of settling steps is no longer than the rank and can be
   extended until everything is committed: poison messages do not block a partition.
   */
  lemma {:induction false} BacklogDrains(s: State, steps: seq<Step>)
    requires WellFormed(s) && SettlingRun(s, steps)
    ensures WellFormed(Run(s, steps)) && |steps| + Rank(Run(s, steps).topic) <= Rank(s.topic)
    decreases steps
  {
    if steps != [] {
      SettlingLowersRank(s, steps[0]);
      StepWellFormed(s, steps[0]);
      BacklogDrains(Next(s, steps[0]), steps[1..]);
    }
  }

  // ---------------------------------------------------------------- the service

  /** The steps of one undisturbed handler run. */
  function HandlerRun(retryCount: nat, p: nat, handlerOk: bool, sendOk: bool, target: nat): seq<Step> {
    if handlerOk then [HandleOk(p), Commit(p)]
    else if retryCount < MAX_RETRIES then
      if sendOk then [HandleFail(p), RetrySent(p, target), Commit(p)] else [HandleFail(p), RetryFailed(p)]
    else
      [HandleFail(p), if sendOk then DeadLetterSent(p) else DeadLetterFailed(p), Commit(p)]
  }

  function CommitHead(topic: seq<Partition>, p: nat): seq<Partition>
    requires p < |topic| && topic[p].todo != []
  {
    topic[p := Partition(topic[p].done + [topic[p].todo[0]], topic[p].todo[1..], Idle)]
  }

  function AppendTo(topic: seq<Partition>, p: nat, m: Message): seq<Partition>
    requires p < |topic|
  {
    topic[p := topic[p].(todo := topic[p].todo + [m])]
  }

  /** The outcome of one undisturbed handler run. */
  function Handled(s: State, p: nat, handlerOk: bool, sendOk: bool, target: nat): State
    requires InPhase(s, p, Idle) && target < |s.topic|
  {
    var m := Head(s, p);
    var t := s.(attempted := s.attempted + [m.event]);
    if handlerOk then
      t.(processed := s.processed + [m.event], topic := CommitHead(s.topic, p))
    else if m.retryCount < MAX_RETRIES then
      if sendOk then
        t.(topic := CommitHead(AppendTo(s.topic, target, Message(m.event, m.retryCount + 1)), p))
      else
        t.(redelivered := s.redelivered + [m.event])
    else if sendOk then
      t.(deadLettered := s.deadLettered + [m.event], topic := CommitHead(s.topic, p))
    else
      t.(lost := s.lost + [m.event], topic := CommitHead(s.topic, p))
  }

  /** The state after HandleFail, and after the message has been dealt with. */
  function Failed(s: State, p: nat): State
    requires InPhase(s, p, Idle)
  {
    s.(topic := s.topic[p := s.topic[p].(phase := Failing)], attempted := s.attempted + [Head(s, p).event])
  }

  lemma FailThen(s: State, p: nat, step: Step, last: Step)
    requires InPhase(s, p, Idle)
    ensures Run(s, [HandleFail(p), step]) == Next(Failed(s, p), step)
    ensures Run(s, [HandleFail(p), step, last]) == Next(Next(Failed(s, p), step), last)
  {
    assert Next(s, HandleFail(p)) == Failed(s, p);
    assert Run(Failed(s, p), [step]) == Next(Failed(s, p), step);
    assert [HandleFail(p), step, last][1..] == [step, last] && [step, last][1..] == [last];
    assert Run(Next(Failed(s, p), step), [last]) == Next(Next(Failed(s, p), step), last);
  }

  lemma OkIsRun(s: State, p: nat)
    requires InPhase(s, p, Idle)
    ensures Handled(s, p, true, true, p) == Run(s, [HandleOk(p), Commit(p)])
  {
    var t := Next(s, HandleOk(p));
    assert t.topic == s.topic[p := s.topic[p].(phase := Succeeded)];
    assert CommitHead(t.topic, p) == CommitHead(s.topic, p);
    assert Run(t, [Commit(p)]) == Next(t, Commit(p));
  }

  lemma DeadLetterIsRun(s: State, p: nat, sendOk: bool)
    requires InPhase(s, p, Idle) && Head(s, p).retryCount >= MAX_RETRIES
    ensures Handled(s, p, false, sendOk, p)
         == Run(s, [HandleFail(p), if sendOk then DeadLetterSent(p) else DeadLetterFailed(p), Commit(p)])
  {
    var step := if sendOk then DeadLetterSent(p) else DeadLetterFailed(p);
    FailThen(s, p, step, Commit(p));
    var t := Next(Failed(s, p), step);
    assert t.topic == s.topic[p := s.topic[p].(phase := Settled)];
    assert CommitHead(t.topic, p) == CommitHead(s.topic, p);
  }

  lemma RetryFailedIsRun(s: State, p: nat)
    requires InPhase(s, p, Idle) && Head(s, p).retryCount < MAX_RETRIES
    ensures Handled(s, p, false, false, p) == Run(s, [HandleFail(p), RetryFailed(p)])
  {
    FailThen(s, p, RetryFailed(p), Commit(p));
    assert Next(Failed(s, p), RetryFailed(p)).topic == s.topic;
  }

  lemma CommitIs(s: State, p: nat)
    requires Possible(s, Commit(p))
    ensures Next(s, Commit(p)) == s.(topic := CommitHead(s.topic, p))
  {
  }

  lemma RetryIs(s: State, p: nat, target: nat)
    requires InPhase(s, p, Idle) && target < |s.topic| && Head(s, p).retryCount < MAX_RETRIES
    ensures var again := Message(Head(s, p).event, Head(s, p).retryCount + 1);
      Next(Failed(s, p), RetrySent(p, target))
      == Failed(s, p).(topic := AppendTo(s.topic[p := s.topic[p].(phase := Settled)], target, again))
  {
    assert Enter(Failed(s, p), p, Settled).topic == s.topic[p := s.topic[p].(phase := Settled)];
  }

  lemma RetryIsRun(s: State, p: nat, target: nat)
    requires InPhase(s, p, Idle) && target < |s.topic| && Head(s, p).retryCount < MAX_RETRIES
    ensures Handled(s, p, false, true, target) == Run(s, [HandleFail(p), RetrySent(p, target), Commit(p)])
  {
    hide Run, Next, CommitHead, AppendTo;
    FailThen(s, p, RetrySent(p, target), Commit(p));
    var again := Message(Head(s, p).event, Head(s, p).retryCount + 1);
    RetryIs(s, p, target);
    SettledAfterAppend(s.topic, p, target, again);
    CommitIs(Next(Failed(s, p), RetrySent(p, target)), p);
    CommitAfterAppend(s.topic, p, target, again);
  }

  lemma SettledAfterAppend(topic: seq<Partition>, p: nat, target: nat, m: Message)
    requires p < |topic| && target < |topic| && topic[p].todo != []
    ensures var settled := AppendTo(topic[p := topic[p].(phase := Settled)], target, m);
      |settled| == |topic| && settled[p].todo != [] && settled[p].phase == Settled
  {
  }

  lemma CommitAfterAppend(topic: seq<Partition>, p: nat, target: nat, m: Message)
    requires p < |topic| && target < |topic| && topic[p].todo != []
    ensures var settled := AppendTo(topic[p := topic[p].(phase := Settled)], target, m);
      settled[p].todo != [] && CommitHead(settled, p) == CommitHead(AppendTo(topic, target, m), p)
  {
  }

  /** The outcome agrees with the step system: its guarantees therefore hold for every handler run. */
  lemma HandledIsRun(s: State, p: nat, handlerOk: bool, sendOk: bool, target: nat)
    requires InPhase(s, p, Idle) && target < |s.topic|
    ensures Handled(s, p, handlerOk, sendOk, target)
         == Run(s, HandlerRun(Head(s, p).retryCount, p, handlerOk, sendOk, target))
  {
    if handlerOk {
      OkIsRun(s, p);
    } else if Head(s, p).retryCount >= MAX_RETRIES {
      DeadLetterIsRun(s, p, sendOk);
    } else if sendOk {
      RetryIsRun(s, p, target);
    } else {
      RetryFailedIsRun(s, p);
    }
  }

  /** A handler run that fails and re-emits into the same partition. */
  function RetryRun(p: nat): seq<Step> {
    [HandleFail(p), RetrySent(p, p), Commit(p)]
  }

  lemma TopicAfterRetry(topic: seq<Partition>, p: nat, done: seq<Message>, m: Message, again: Message)
    requires p < |topic| && topic[p] == Partition(done, [m], Idle)
    ensures AppendTo(topic, p, again)[p].todo != []
    ensures CommitHead(AppendTo(topic, p, again), p) == topic[p := Partition(done + [m], [again], Idle)]
  {
    assert ([m] + [again])[1..] == [again];
  }

  lemma TopicAfterLast(topic: seq<Partition>, p: nat, done: seq<Message>, m: Message)
    requires p < |topic| && topic[p] == Partition(done, [m], Idle)
    ensures CommitHead(topic, p) == topic[p := Partition(done + [m], [], Idle)]
  {
    assert [m][1..] == [];
  }

  lemma RetryRunLeaves(s: State, p: nat, done: seq<Message>, e: Event, n: nat)
    requires p < |s.topic| && s.topic[p] == Partition(done, [Message(e, n)], Idle) && n < 3
    ensures Run(s, RetryRun(p)) == s.(
      topic := s.topic[p := Partition(done + [Message(e, n)], [Message(e, n + 1)], Idle)], attempted := s.attempted + [e])
  {
    hide Run, CommitHead, AppendTo;
    RetryIsRun(s, p, p);
    TopicAfterRetry(s.topic, p, done, Message(e, n), Message(e, n + 1));
  }

  lemma DeadLetterRunLeaves(s: State, p: nat, done: seq<Message>, e: Event)
    requires p < |s.topic| && s.topic[p] == Partition(done, [Message(e, 3)], Idle)
    ensures Run(s, [HandleFail(p), DeadLetterSent(p), Commit(p)]) == s.(
      topic := s.topic[p := Partition(done + [Message(e, 3)], [], Idle)],
      attempted := s.attempted + [e], deadLettered := s.deadLettered + [e])
  {
    hide Run, CommitHead;
    DeadLetterIsRun(s, p, true);
    TopicAfterLast(s.topic, p, done, Message(e, 3));
  }

  lemma {:induction false} RunConcat(s: State, a: seq<Step>, b: seq<Step>)
    ensures Run(s, a + b) == Run(Run(s, a), b)
    decreases a
  {
    hide Next;
    if a == [] {
      assert a + b == b;
    } else {
      RunConcat(Next(s, a[0]), a[1..], b);
      assert (a + b)[1..] == a[1..] + b;
    }
  }

  /** What can become of a failed attempt: below three retries only a re-emit, sent or not; from three on only the dead-letter topic. */
  lemma GivesUpAfterThree(s: State, p: nat, q: nat)
    requires InPhase(s, p, Failing) && q < |s.topic|
    ensures var retries := s.topic[p].todo[0].retryCount < 3;
      && (Next(s, RetrySent(p, q)) != s <==> retries) && (Next(s, RetryFailed(p)) != s <==> retries)
      && (Next(s, DeadLetterSent(p)) != s <==> !retries) && (Next(s, DeadLetterFailed(p)) != s <==> !retries)
      && Next(s, Commit(p)) == s && Next(s, HandleOk(p)) == s && Next(s, HandleFail(p)) == s
  {
    assert Head(s, p).retryCount < 3 ==> Next(s, RetrySent(p, q)).topic[p].phase == Settled;
  }

  /**
   A message that always fails, produced to a partition that is caught up: re-emitted three times and dead-lettered after
   the fourth attempt, with every copy committed.
   */
  lemma PoisonMessage(s: State, p: nat, done: seq<Message>, e: Event)
    requires p < |s.topic| && s.topic[p] == Partition(done, [], Idle)
    ensures var t := Run(Next(s, Accept(p, e)), RetryRun(p) + (RetryRun(p) + (RetryRun(p) + [HandleFail(p), DeadLetterSent(p), Commit(p)])));
      && t.attempted == s.attempted + [e] + [e] + [e] + [e]
      && t.deadLettered == s.deadLettered + [e] && t.processed == s.processed && t.lost == s.lost
      && t.topic == s.topic[p := Partition(done + [Message(e, 0)] + [Message(e, 1)] + [Message(e, 2)] + [Message(e, 3)], [], Idle)]
  {
    hide Run, RetryRun;
    var last := [HandleFail(p), DeadLetterSent(p), Commit(p)];
    var s0 := Next(s, Accept(p, e));
    assert [] + [Message(e, 0)] == [Message(e, 0)];
    RunConcat(s0, RetryRun(p), RetryRun(p) + (RetryRun(p) + last));
    RetryRunLeaves(s0, p, done, e, 0);
    var s1 := Run(s0, RetryRun(p));
    RunConcat(s1, RetryRun(p), RetryRun(p) + last);
    RetryRunLeaves(s1, p, done + [Message(e, 0)], e, 1);
    var s2 := Run(s1, RetryRun(p));
    RunConcat(s2, RetryRun(p), last);
    RetryRunLeaves(s2, p, done + [Message(e, 0)] + [Message(e, 1)], e, 2);
    DeadLetterRunLeaves(Run(s2, RetryRun(p)), p, done + [Message(e, 0)] + [Message(e, 1)] + [Message(e, 2)], e);
  }

  /** Kafka as the handler sees it: logs, committed offsets and the dead-letter topic. */
  class TransactionEventConsumer {
    var logs: seq<seq<Message>>
    var offsets: seq<nat>
    var deadLetterQueue: seq<Event>
    ghost var processed: seq<Event>
    ghost var lost: seq<Event>
    ghost var accepted: seq<Event>
    ghost var attempted: seq<Event>
    ghost var redelivered: seq<Event>

    ghost predicate Valid()
      reads this
    {
      |offsets| == |logs| && forall p :: 0 <= p < |logs| ==> offsets[p] <= |logs[p]|
    }

    ghost function Topic(): seq<Partition>
      requires Valid()
      reads this
    {
      TopicOf(logs, offsets)
    }

    ghost function Abs(): State
      requires Valid()
      reads this
    {
      State(Topic(), processed, deadLetterQueue, lost, accepted, attempted, redelivered, [])
    }

    constructor (partitions: nat)
      ensures Valid() && Fresh(Abs()) && |logs| == partitions
    {
      logs, offsets := seq(partitions, _ => []), seq(partitions, _ => 0);
      deadLetterQueue, processed, lost, accepted, attempted, redelivered := [], [], [], [], [], [];
    }

    /** A producer appends to a partition. */
    method Emit(p: nat, m: Message)
      requires Valid() && p < |logs|
      modifies this`logs
      ensures Valid() && Topic() == AppendTo(old(Topic()), p, m)
      ensures logs == old(logs)[p := old(logs[p]) + [m]]
    {
      AppendExtends(logs[p], offsets[p], m);
      logs := logs[p := logs[p] + [m]];
    }

    /** Commits the offset after the message in hand. */
    method CommitOffset(p: nat, offset: nat)
      requires Valid() && p < |logs| && offset == offsets[p] < |logs[p]|
      modifies this`offsets
      ensures Valid() && Topic() == CommitHead(old(Topic()), p) && offsets == old(offsets)[p := offset + 1]
    {
      CommitAdvances(logs[p], offset);
      offsets := offsets[p := offset + 1];
    }

    /**
     Handles the message at the committed offset of partition p. The outcome of the event-type handler,
     of the one publish a failure causes, and the partition that publish goes to are arguments.
     */
    method HandleTransactionEvent(p: nat, handlerOk: bool, sendOk: bool, target: nat) returns (threw: bool)
      requires Valid() && p < |logs| && offsets[p] < |logs[p]| && target < |logs|
      modifies this
      ensures Valid() && Abs() == Handled(old(Abs()), p, handlerOk, sendOk, target)
      ensures offsets == if threw then old(offsets) else old(offsets)[p := old(offsets[p]) + 1]
      ensures var message := old(logs[p][offsets[p]]);
        var retries := !handlerOk && message.retryCount < 3;
        && (threw <==> retries && !sendOk)
        && logs == (if retries && sendOk
                    then old(logs)[target := old(logs[target]) + [Message(message.event, message.retryCount + 1)]] else old(logs))
        && processed == old(processed) + (if handlerOk then [message.event] else [])
        && deadLetterQueue == old(deadLetterQueue) + (if !handlerOk && !retries && sendOk then [message.event] else [])
        && lost == old(lost) + (if !handlerOk && !retries && !sendOk then [message.event] else [])
        && attempted == old(attempted) + [message.event] && accepted == old(accepted)
        && redelivered == old(redelivered) + (if threw then [message.event] else [])
    {
      hide CommitHead, AppendTo;
      var offset := offsets[p];
      var message := logs[p][offset];
      var retryCount := message.retryCount;
      attempted := attempted + [message.event];
      if handlerOk {
        processed := processed + [message.event];
        CommitOffset(p, offset);
        return false;
      }
      if retryCount < MAX_RETRIES {
        if !sendOk {
          redelivered := redelivered + [message.event];
          return true;
        }
        Emit(target, Message(message.event, retryCount + 1));
      } else if sendOk {
        deadLetterQueue := deadLetterQueue + [message.event];
      } else {
        lost := lost + [message.event];
      }
      CommitOffset(p, offset);
      return false;
    }
  }

  /** A partition as its log and committed offset. */
  function AsPartition(log: seq<Message>, offset: nat): Partition
    requires offset <= |log|
  {
    Partition(log[..offset], log[offset..], Idle)
  }

  function TopicOf(logs: seq<seq<Message>>, offsets: seq<nat>): seq<Partition>
    requires |offsets| == |logs| && forall p :: 0 <= p < |logs| ==> offsets[p] <= |logs[p]|
  {
    seq(|logs|, p requires 0 <= p < |logs| => AsPartition(logs[p], offsets[p]))
  }

  lemma CommitAdvances(log: seq<Message>, offset: nat)
    requires offset < |log|
    ensures var part := AsPartition(log, offset);
      AsPartition(log, offset + 1) == Partition(part.done + [part.todo[0]], part.todo[1..], Idle)
  {
  }

  lemma AppendExtends(log: seq<Message>, offset: nat, m: Message)
    requires offset <= |log|
    ensures var part := AsPartition(log, offset);
      AsPartition(log + [m], offset) == part.(todo := part.todo + [m])
  {
  }
}
