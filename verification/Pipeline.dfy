/**
 Publisher and consumer joined through the topic: an acknowledged emit puts the event into a partition.
 Which partition is the broker's choice and an argument of the step. Both are parts of one process: when it
 ends, the publisher loses its memory and every handler is cut off.
 */
module Pipeline {
  import opened Messages
  import P = Publisher
  import C = Consumer

  datatype State = State(pub: P.State, con: C.State)

  datatype Step =
    | Publishing(send: P.Step)                  // any publisher step but an acknowledged emit and a crash
    | Deliver(flight: nat, partition: nat)      // an acknowledged emit
    | Consuming(handle: C.Step)                 // any consumer step but the arrival of a first copy
    | Restart                                   // the process ends and starts again

  function Next(s: State, step: Step): State {
    match step
    case Publishing(ps) => if ps.EmitOk? || ps.Crash? then s else s.(pub := P.Next(s.pub, ps))
    case Deliver(i, p) =>
      if P.CanEmit(s.pub, i) && p < |s.con.topic| then
        State(P.Next(s.pub, P.EmitOk(i)), C.Next(s.con, C.Accept(p, s.pub.flights[i].unsent[0])))
      else s
    case Consuming(cs) => if cs.Accept? then s else s.(con := C.Next(s.con, cs))
    case Restart => State(P.Next(s.pub, P.Crash), C.Restarted(s.con))
  }

  function Run(s: State, steps: seq<Step>): State
    decreases steps
  {
    if steps == [] then s else Run(Next(s, steps[0]), steps[1..])
  }

  /** Messages and crash records concern events that entered the topic. */
  ghost predicate Genuine(c: C.State) {
    && (forall p, m :: 0 <= p < |c.topic| && m in c.topic[p].todo ==> m.event in c.accepted)
    && (forall e :: e in c.reopened ==> e in c.accepted)
  }

  lemma StepGenuine(c: C.State, step: C.Step)
    requires Genuine(c)
    ensures Genuine(C.Next(c, step))
  {
  }

  lemma {:induction false} CrashFromGenuine(c: C.State, p: nat)
    requires Genuine(c)
    ensures Genuine(C.CrashFrom(c, p))
    decreases |c.topic| - p
  {
    hide C.Next, Genuine;
    if p < |c.topic| {
      StepGenuine(c, C.Crash(p));
      C.CrashShape(c, p);
      CrashFromGenuine(C.Next(c, C.Crash(p)), p + 1);
    }
  }

  ghost predicate Inv(s: State, e: Event) {
    && s.con.accepted == s.pub.emitted
    && P.Conserved(s.pub, e) && P.Honest(s.pub)
    && C.WellFormed(s.con) && C.Accounted(s.con, e) && Genuine(s.con)
  }

  lemma ConsumeInv(s: State, step: C.Step, e: Event)
    requires Inv(s, e) && !step.Accept?
    ensures Inv(s.(con := C.Next(s.con, step)), e)
  {
    hide C.Next, C.WellFormed, C.Accounted, Genuine, P.Honest, P.Conserved;
    C.StepWellFormed(s.con, step);
    C.StepAccounted(s.con, step, e);
    StepGenuine(s.con, step);
    C.OnlyAcceptAdmits(s.con, step);
  }

  lemma DeliverInv(s: State, i: nat, p: nat, e: Event)
    requires Inv(s, e)
    ensures Inv(Next(s, Deliver(i, p)), e)
  {
    hide C.WellFormed, C.Accounted, Genuine, P.Honest, P.Conserved;
    if P.CanEmit(s.pub, i) && p < |s.con.topic| {
      var arrival := C.Accept(p, s.pub.flights[i].unsent[0]);
      P.StepConserves(s.pub, P.EmitOk(i), e);
      P.StepHonest(s.pub, P.EmitOk(i));
      C.StepWellFormed(s.con, arrival);
      C.StepAccounted(s.con, arrival, e);
      StepGenuine(s.con, arrival);
      assert C.Next(s.con, arrival).accepted == P.Next(s.pub, P.EmitOk(i)).emitted;
    }
  }

  lemma RestartInv(s: State, e: Event)
    requires Inv(s, e)
    ensures Inv(Next(s, Restart), e)
  {
    hide C.WellFormed, C.Accounted, C.CrashFrom, Genuine, P.Honest, P.Conserved;
    P.StepConserves(s.pub, P.Crash, e);
    P.StepHonest(s.pub, P.Crash);
    C.CrashFromKeeps(s.con, 0, e);
    CrashFromGenuine(s.con, 0);
  }

  lemma StepInv(s: State, step: Step, e: Event)
    requires Inv(s, e)
    ensures Inv(Next(s, step), e)
  {
    hide C.Next, C.WellFormed, C.Accounted, Genuine, P.Honest, P.Conserved;
    match step
    case Publishing(ps) =>
      P.StepConserves(s.pub, ps, e);
      P.StepHonest(s.pub, ps);
    case Deliver(i, p) => DeliverInv(s, i, p, e);
    case Consuming(cs) => if !cs.Accept? { ConsumeInv(s, cs, e); }
    case Restart => RestartInv(s, e);
  }

  lemma {:induction false} RunInv(s: State, steps: seq<Step>, e: Event)
    requires Inv(s, e)
    ensures Inv(Run(s, steps), e)
    decreases steps
  {
    if steps != [] {
      StepInv(s, steps[0], e);
      RunInv(Next(s, steps[0]), steps[1..], e);
    }
  }

  ghost predicate Start(s: State) {
    s.pub == P.INITIAL && C.Fresh(s.con)
  }

  lemma StartInv(s: State, e: Event)
    requires Start(s)
    ensures Inv(s, e)
  {
    C.FreshSums(part => C.OpenIn(part, e), s.con.topic);
  }

  /** Some partition holds e at or after its committed offset. */
  predicate Uncommitted(topic: seq<C.Partition>, e: Event) {
    exists p :: 0 <= p < |topic| && e in C.Events(topic[p].todo)
  }

  lemma {:induction false} OpenIsUncommitted(topic: seq<C.Partition>, e: Event)
    ensures C.OpenCopies(topic, e) > 0 ==> Uncommitted(topic, e)
  {
    if topic != [] && C.OpenCopies(topic, e) > 0 {
      if C.OpenIn(topic[0], e) > 0 {
        var open := C.Events(C.Open(topic[0]));
        assert e in open;
        var k :| 0 <= k < |open| && open[k] == e;
        var todo := C.Events(topic[0].todo);
        assert todo[if C.Open(topic[0]) == topic[0].todo then k else k + 1] == e;
      } else {
        OpenIsUncommitted(topic[1..], e);
        var p :| 0 <= p < |topic[1..]| && e in C.Events(topic[1..][p].todo);
        assert e in C.Events(topic[p + 1].todo);
      }
    }
  }

  /** Where the copies of an event are. */
  ghost predicate Balanced(s: State, e: Event) {
    Count(s.pub.published, e) + Count(s.pub.requeued, e) + Count(s.con.reopened, e)
    == Count(s.pub.buffer, e) + P.Unsent(s.pub.flights, e) + C.OpenCopies(s.con.topic, e)
       + Count(s.con.processed, e) + Count(s.con.deadLettered, e) + Count(s.con.lost, e) + Count(s.pub.dropped, e)
  }

  ghost predicate Somewhere(s: State, e: Event) {
    || e in s.pub.buffer || P.Unsent(s.pub.flights, e) > 0 || C.OpenCopies(s.con.topic, e) > 0
    || e in s.con.processed || e in s.con.deadLettered || e in s.con.lost || e in s.pub.dropped
  }

  /**
   End to end, for every interleaving with failed flushes, failed handlers, failed re-emits, cut-off handlers and
   restarts of the process: the copies balance; an event has been published if and only if it is buffered, in
   flight, open in the topic (and then before no committed offset), processed, dead-lettered, lost because its
   dead-letter publish failed, or dropped from the publisher's memory by a restart.
   */
  lemma AtLeastOnce(s: State, steps: seq<Step>, e: Event)
    requires Start(s)
    ensures var t := Run(s, steps);
      && Balanced(t, e)
      && (e in t.pub.published <==> Somewhere(t, e))
      && (C.OpenCopies(t.con.topic, e) > 0 ==> Uncommitted(t.con.topic, e))
  {
    StartInv(s, e);
    RunInv(s, steps, e);
    var t := Run(s, steps);
    OpenIsUncommitted(t.con.topic, e);
    BalanceLocates(t, e);
  }

  lemma BalanceLocates(s: State, e: Event)
    requires Inv(s, e)
    ensures Balanced(s, e) && (e in s.pub.published <==> Somewhere(s, e))
  {
  }

  // ---------------------------------------------------------------- what restarts lose

  predicate CleanRestarts(s: State, steps: seq<Step>)
    decreases steps
  {
    steps == [] || ((steps[0].Restart? ==> P.Clean(s.pub)) && CleanRestarts(Next(s, steps[0]), steps[1..]))
  }

  lemma StepDropped(s: State, step: Step)
    ensures |s.pub.dropped| <= |Next(s, step).pub.dropped|
    ensures |s.pub.dropped| == |Next(s, step).pub.dropped| <==> (step.Restart? ==> P.Clean(s.pub))
  {
    hide P.Next, P.Clean, C.Next, C.Restarted;
    match step
    case Publishing(ps) => P.StepDropped(s.pub, ps);
    case Deliver(i, p) => P.StepDropped(s.pub, P.EmitOk(i));
    case Consuming(cs) =>
    case Restart => P.StepDropped(s.pub, P.Crash);
  }

  lemma {:induction false} DroppedGrows(s: State, steps: seq<Step>)
    ensures |s.pub.dropped| <= |Run(s, steps).pub.dropped|
    ensures |s.pub.dropped| == |Run(s, steps).pub.dropped| <==> CleanRestarts(s, steps)
    decreases steps
  {
    hide Next, P.Clean;
    if steps != [] {
      StepDropped(s, steps[0]);
      DroppedGrows(Next(s, steps[0]), steps[1..]);
    }
  }

  /** Restarts drop nothing if and only if the publisher's buffer is empty and its flushes are through at each. */
  lemma NothingDroppedExactly(s: State, steps: seq<Step>)
    requires Start(s)
    ensures Run(s, steps).pub.dropped == [] <==> CleanRestarts(s, steps)
  {
    DroppedGrows(s, steps);
  }

  // ---------------------------------------------------------------- exactly once

  /** Nothing is left to do. */
  ghost predicate Drained(s: State) {
    s.pub.buffer == [] && s.pub.flights == [] && C.AllCommitted(s.con)
  }

  /** Every published copy was processed or dead-lettered once, and none was lost or dropped. */
  ghost predicate ExactlyOnce(s: State, e: Event) {
    && Count(s.con.processed, e) + Count(s.con.deadLettered, e) == Count(s.pub.published, e)
    && Count(s.con.lost, e) == 0 && Count(s.pub.dropped, e) == 0
  }

  /** Nothing of e was put back after it was acknowledged, dealt with but not committed, lost or dropped. */
  ghost predicate Undisturbed(s: State, e: Event) {
    Count(s.pub.requeued, e) == Count(s.con.reopened, e) == Count(s.con.lost, e) == Count(s.pub.dropped, e) == 0
  }

  /**
   A drained system has processed, dead-lettered, lost or dropped every published event; and it has dealt with an
   event exactly once if and only if none of the four disturbances has touched it. Flushes that fail on their
   first emit, failed handlers and failed re-emits do no harm.
   */
  lemma DrainedExactlyOnce(s: State, steps: seq<Step>, e: Event)
    requires Start(s) && Drained(Run(s, steps))
    ensures var t := Run(s, steps);
      && (e in t.pub.published <==>
            e in t.con.processed || e in t.con.deadLettered || e in t.con.lost || e in t.pub.dropped)
      && (ExactlyOnce(t, e) <==> Undisturbed(t, e))
  {
    AtLeastOnce(s, steps, e);
    var t := Run(s, steps);
    NothingOpen(t, e);
  }

  lemma NothingOpen(s: State, e: Event)
    requires Drained(s)
    ensures C.OpenCopies(s.con.topic, e) == 0 && P.Unsent(s.pub.flights, e) == 0
  {
    OpenIsUncommitted(s.con.topic, e);
    assert !Uncommitted(s.con.topic, e);
  }

  /** Partition p holds a copy of e that was dealt with and is not committed. */
  predicate Uncounted(topic: seq<C.Partition>, p: nat, e: Event) {
    p < |topic| && topic[p].todo != [] && C.Resolved(topic[p].phase) && topic[p].todo[0].event == e
  }

  /** The steps that spoil exactly-once for e. */
  ghost predicate Disturbs(s: State, step: Step, e: Event) {
    match step
    case Publishing(ps) => ps.EmitFail? && P.CanEmit(s.pub, ps.flight) && e in s.pub.flights[ps.flight].sent
    case Deliver(_, _) => false
    case Consuming(cs) =>
      || (cs.DeadLetterFailed? && C.Possible(s.con, cs) && C.Head(s.con, cs.partition).event == e)
      || (cs.Crash? && Uncounted(s.con.topic, cs.partition, e))
    case Restart =>
      || e in s.pub.buffer || P.Unsent(s.pub.flights, e) > 0
      || (exists p :: 0 <= p < |s.con.topic| && Uncounted(s.con.topic, p, e))
  }

  ghost predicate UndisturbedRun(s: State, steps: seq<Step>, e: Event)
    decreases steps
  {
    steps == [] || (!Disturbs(s, steps[0], e) && UndisturbedRun(Next(s, steps[0]), steps[1..], e))
  }

  ghost function Disturbances(s: State, e: Event): nat {
    Count(s.pub.requeued, e) + Count(s.con.reopened, e) + Count(s.con.lost, e) + Count(s.pub.dropped, e)
  }

  lemma PublisherDisturbs(s: P.State, step: P.Step, e: Event)
    ensures var t := P.Next(s, step);
      && Count(t.requeued, e) == Count(s.requeued, e)
           + (if step.EmitFail? && P.CanEmit(s, step.flight) then Count(s.flights[step.flight].sent, e) else 0)
      && Count(t.dropped, e) == Count(s.dropped, e)
           + (if step.Crash? then P.Unsent(s.flights, e) + Count(s.buffer, e) else 0)
  {
    P.AllUnsentCount(s.flights, e);
  }

  lemma ConsumerDisturbs(c: C.State, step: C.Step, e: Event)
    ensures var t := C.Next(c, step);
      && Count(t.reopened, e) == Count(c.reopened, e) + (if step.Crash? && Uncounted(c.topic, step.partition, e) then 1 else 0)
      && Count(t.lost, e) == Count(c.lost, e)
           + (if step.DeadLetterFailed? && C.Possible(c, step) && C.Head(c, step.partition).event == e then 1 else 0)
  {
  }

  lemma {:induction false} CrashFromDisturbs(c: C.State, p: nat, e: Event)
    ensures var t := C.CrashFrom(c, p);
      && t.lost == c.lost
      && Count(t.reopened, e) >= Count(c.reopened, e)
      && (Count(t.reopened, e) == Count(c.reopened, e) <==> forall q :: p <= q < |c.topic| ==> !Uncounted(c.topic, q, e))
    decreases |c.topic| - p
  {
    hide C.Next, Count;
    if p < |c.topic| {
      var d := C.Next(c, C.Crash(p));
      ConsumerDisturbs(c, C.Crash(p), e);
      C.CrashShape(c, p);
      CrashFromDisturbs(d, p + 1, e);
      assert forall q :: p < q < |c.topic| ==> d.topic[q] == c.topic[q] && (Uncounted(d.topic, q, e) <==> Uncounted(c.topic, q, e));
    }
  }

  lemma StepDisturbs(s: State, step: Step, e: Event)
    ensures Disturbances(Next(s, step), e) >= Disturbances(s, e)
    ensures Disturbances(Next(s, step), e) == Disturbances(s, e) <==> !Disturbs(s, step, e)
  {
    hide P.Next, C.Next, C.CrashFrom, C.Possible, Count, P.Unsent, Uncounted;
    match step
    case Publishing(ps) =>
      PublisherDisturbs(s.pub, ps, e);
      if ps.EmitFail? && P.CanEmit(s.pub, ps.flight) { CountMember(s.pub.flights[ps.flight].sent, e); }
    case Deliver(i, p) =>
      PublisherDisturbs(s.pub, P.EmitOk(i), e);
      if P.CanEmit(s.pub, i) { ConsumerDisturbs(s.con, C.Accept(p, s.pub.flights[i].unsent[0]), e); }
    case Consuming(cs) => ConsumerDisturbs(s.con, cs, e);
    case Restart =>
      PublisherDisturbs(s.pub, P.Crash, e);
      CrashFromDisturbs(s.con, 0, e);
      CountMember(s.pub.buffer, e);
  }

  lemma {:induction false} RunDisturbs(s: State, steps: seq<Step>, e: Event)
    ensures Disturbances(Run(s, steps), e) >= Disturbances(s, e)
    ensures Disturbances(Run(s, steps), e) == Disturbances(s, e) <==> UndisturbedRun(s, steps, e)
    decreases steps
  {
    hide Next, Disturbs, Disturbances;
    if steps != [] {
      StepDisturbs(s, steps[0], e);
      RunDisturbs(Next(s, steps[0]), steps[1..], e);
    }
  }

  /**
   The condition, step by step: a drained system has dealt with an event exactly once if and only if, in the run that
   led there, no flush failed that had already sent it, no dead-letter publish of it failed, no handler was cut off
   that had dealt with it, and no restart came while it was so, or was buffered or about to be sent.
   */
  lemma ExactlyOnceWhen(s: State, steps: seq<Step>, e: Event)
    requires Start(s) && Drained(Run(s, steps))
    ensures ExactlyOnce(Run(s, steps), e) <==> UndisturbedRun(s, steps, e)
  {
    hide Disturbs, Run, Next;
    DrainedExactlyOnce(s, steps, e);
    RunDisturbs(s, steps, e);
  }

  /** A topic with one partition. */
  const ONE_PARTITION: State := State(P.INITIAL, C.State([C.Partition([], [], C.Idle)], [], [], [], [], [], [], []))

  lemma {:induction false} RunConcat(s: State, a: seq<Step>, b: seq<Step>)
    ensures Run(s, a + b) == Run(Run(s, a), b)
    decreases a
  {
    hide Next;
    if a == [] {
      assert a + b == b;
    } else {
      RunConcat(Next(s, a[0]), a[1..], b);
      assert (a + b)[1..] == a[1..] + b;
    }
  }

  lemma RunThree(s: State, a: Step, b: Step, c: Step)
    ensures Run(s, [a, b, c]) == Next(Next(Next(s, a), b), c)
  {
    hide Next;
    assert [a, b, c][1..] == [b, c] && [b, c][1..] == [c] && [c][1..] == [];
    assert Run(Next(s, a), [b, c]) == Run(Next(Next(s, a), b), [c]);
    assert Run(Next(Next(s, a), b), [c]) == Run(Next(Next(Next(s, a), b), c), []);
  }

  /** A flush of a and b that fails after a was acknowledged, and a second one that succeeds. */
  function PartialFlush(a: Event, b: Event): seq<Step> {
    [Publishing(P.Publish(a)), Publishing(P.Publish(b)), Publishing(P.StartFlush(P.Forced))]
    + [Deliver(0, 0), Publishing(P.EmitFail(0)), Publishing(P.StartFlush(P.Forced))]
    + [Deliver(0, 0), Deliver(0, 0), Publishing(P.Finish(0))]
  }

  /** Handling the only partition without an error. */
  function Handle(): seq<Step> {
    [Consuming(C.HandleOk(0)), Consuming(C.Commit(0))]
  }

  function OneTopic(done: seq<Message>, todo: seq<Message>): seq<C.Partition> {
    [C.Partition(done, todo, C.Idle)]
  }

  lemma HandleHead(s: State, done: seq<Message>, m: Message, rest: seq<Message>)
    requires s.con.topic == OneTopic(done, [m] + rest)
    ensures Run(s, Handle()) == s.(con := s.con.(topic := OneTopic(done + [m], rest),
                                                 processed := s.con.processed + [m.event], attempted := s.con.attempted + [m.event]))
  {
    var t := Next(s, Consuming(C.HandleOk(0)));
    assert t.con.topic == [C.Partition(done, [m] + rest, C.Succeeded)];
    assert ([m] + rest)[1..] == rest;
    var u := Next(t, Consuming(C.Commit(0)));
    assert u.con.topic == OneTopic(done + [m], rest);
    assert Handle()[1..] == [Consuming(C.Commit(0))] && Handle()[1..][1..] == [];
    assert Run(t, [Consuming(C.Commit(0))]) == u;
  }

  lemma DeliverHead(s: State, sent: seq<Event>, e: Event, rest: seq<Event>, origin: P.Origin, done: seq<Message>, todo: seq<Message>)
    requires s.pub.flights == [P.Flight(sent, [e] + rest, origin)] && s.con.topic == OneTopic(done, todo)
    ensures Next(s, Deliver(0, 0)) == State(
      s.pub.(flights := [P.Flight(sent + [e], rest, origin)], emitted := s.pub.emitted + [e]),
      s.con.(topic := OneTopic(done, todo + [Message(e, 0)]), accepted := s.con.accepted + [e]))
  {
    assert ([e] + rest)[1..] == rest;
    var part := C.Partition(done, todo, C.Idle);
    assert [part][0 := part.(todo := todo + [Message(e, 0)])] == OneTopic(done, todo + [Message(e, 0)]);
    assert P.CanEmit(s.pub, 0);
  }

  lemma PartialFlushSends(a: Event, b: Event)
    ensures var s := Run(ONE_PARTITION, PartialFlush(a, b));
      && s.pub == P.State([], [], [a, b], [a, a, b], [a], [], 1)
      && s.con == C.State(OneTopic([], [Message(a, 0), Message(a, 0), Message(b, 0)]), [], [], [], [a, a, b], [], [], [])
  {
    hide Run;
    var first := [Publishing(P.Publish(a)), Publishing(P.Publish(b)), Publishing(P.StartFlush(P.Forced))];
    var second := [Deliver(0, 0), Publishing(P.EmitFail(0)), Publishing(P.StartFlush(P.Forced))];
    var third := [Deliver(0, 0), Deliver(0, 0), Publishing(P.Finish(0))];
    RunConcat(ONE_PARTITION, first + second, third);
    RunConcat(ONE_PARTITION, first, second);
    FirstThree(a, b);
    var s := Run(ONE_PARTITION, first);
    NextThree(s, a, b);
    LastThree(Run(s, second), a, b);
  }

  lemma FirstThree(a: Event, b: Event)
    ensures Run(ONE_PARTITION, [Publishing(P.Publish(a)), Publishing(P.Publish(b)), Publishing(P.StartFlush(P.Forced))])
      == ONE_PARTITION.(pub := P.State([], [P.Flight([], [a, b], P.Forced)], [a, b], [], [], [], 0))
  {
    hide Run;
    RunThree(ONE_PARTITION, Publishing(P.Publish(a)), Publishing(P.Publish(b)), Publishing(P.StartFlush(P.Forced)));
    assert [] + [a] == [a] && [a] + [b] == [a, b];
  }

  lemma NextThree(s: State, a: Event, b: Event)
    requires s == ONE_PARTITION.(pub := P.State([], [P.Flight([], [a, b], P.Forced)], [a, b], [], [], [], 0))
    ensures Run(s, [Deliver(0, 0), Publishing(P.EmitFail(0)), Publishing(P.StartFlush(P.Forced))])
      == State(P.State([], [P.Flight([], [a, b], P.Forced)], [a, b], [a], [a], [], 1),
               C.State(OneTopic([], [Message(a, 0)]), [], [], [], [a], [], [], []))
  {
    hide Run;
    RunThree(s, Deliver(0, 0), Publishing(P.EmitFail(0)), Publishing(P.StartFlush(P.Forced)));
    assert [a, b] == [a] + [b] && [] + [a] == [a] && [] + [Message(a, 0)] == [Message(a, 0)];
    DeliverHead(s, [], a, [b], P.Forced, [], []);
    var u := Next(Next(s, Deliver(0, 0)), Publishing(P.EmitFail(0)));
    assert [a] + [b] + [] == [a, b];
    assert u.pub == P.State([a, b], [], [a, b], [a], [a], [], 1);
  }

  lemma LastThree(s: State, a: Event, b: Event)
    requires s == State(P.State([], [P.Flight([], [a, b], P.Forced)], [a, b], [a], [a], [], 1),
                        C.State(OneTopic([], [Message(a, 0)]), [], [], [], [a], [], [], []))
    ensures Run(s, [Deliver(0, 0), Deliver(0, 0), Publishing(P.Finish(0))])
      == State(P.State([], [], [a, b], [a, a, b], [a], [], 1),
               C.State(OneTopic([], [Message(a, 0), Message(a, 0), Message(b, 0)]), [], [], [], [a, a, b], [], [], []))
  {
    hide Run, Next;
    RunThree(s, Deliver(0, 0), Deliver(0, 0), Publishing(P.Finish(0)));
    var m, n := Message(a, 0), Message(b, 0);
    assert [a, b] == [a] + [b] && [] + [a] == [a] && [b] == [b] + [] && [m] + [m] == [m, m] && [m, m] + [n] == [m, m, n];
    assert [a] + [a] == [a, a] && [a, a] + [b] == [a, a, b];
    DeliverHead(s, [], a, [b], P.Forced, [], [m]);
    DeliverHead(Next(s, Deliver(0, 0)), [a], b, [], P.Forced, [], [m, m]);
    FinishOnly(Next(Next(s, Deliver(0, 0)), Deliver(0, 0)), [a, b], P.Forced);
  }

  lemma FinishOnly(s: State, sent: seq<Event>, origin: P.Origin)
    requires s.pub.flights == [P.Flight(sent, [], origin)]
    ensures Next(s, Publishing(P.Finish(0))) == s.(pub := s.pub.(flights := []))
  {
  }

  /** Not exactly once: the batch of a partly acknowledged flush is sent again, and nobody notices the repetition. */
  lemma PartialFlushRepeats(a: Event, b: Event)
    ensures var t := Run(ONE_PARTITION, PartialFlush(a, b) + (Handle() + (Handle() + Handle())));
      Start(ONE_PARTITION) && Drained(t) && t.pub.published == [a, b] && t.con.processed == [a, a, b]
  {
    hide Run, Handle;
    var m, n := Message(a, 0), Message(b, 0);
    PartialFlushSends(a, b);
    var s := Run(ONE_PARTITION, PartialFlush(a, b));
    RunConcat(ONE_PARTITION, PartialFlush(a, b), Handle() + (Handle() + Handle()));
    RunConcat(s, Handle(), Handle() + Handle());
    assert [m, m, n] == [m] + [m, n] && [m, n] == [m] + [n] && [n] == [n] + [];
    HandleHead(s, [], m, [m, n]);
    var t := Run(s, Handle());
    RunConcat(t, Handle(), Handle());
    HandleHead(t, [] + [m], m, [n]);
    HandleHead(Run(t, Handle()), [] + [m] + [m], n, []);
    assert [] + [a] + [a] + [b] == [a, a, b];
  }

  /** Nor when the process ends between handling a message and committing it, without any failure at all. */
  lemma RestartRepeats(a: Event)
    ensures var t := Run(ONE_PARTITION, [Publishing(P.Publish(a)), Publishing(P.StartFlush(P.Timer)), Deliver(0, 0)]
                                        + ([Publishing(P.Finish(0)), Consuming(C.HandleOk(0)), Restart] + Handle()));
      && Drained(t) && t.pub.published == [a] && t.con.processed == [a, a]
      && t.pub.requeued == t.pub.dropped == t.con.lost == [] && t.pub.failures == 0
  {
    hide Run, Handle;
    var first := [Publishing(P.Publish(a)), Publishing(P.StartFlush(P.Timer)), Deliver(0, 0)];
    var second := [Publishing(P.Finish(0)), Consuming(C.HandleOk(0)), Restart];
    RunConcat(ONE_PARTITION, first, second + Handle());
    SendOne(a);
    var s := Run(ONE_PARTITION, first);
    RunConcat(s, second, Handle());
    RestartAfterHandling(s, a);
    assert [Message(a, 0)] == [Message(a, 0)] + [];
    HandleHead(Run(s, second), [], Message(a, 0), []);
    assert [a] + [a] == [a, a];
  }

  lemma SendOne(a: Event)
    ensures Run(ONE_PARTITION, [Publishing(P.Publish(a)), Publishing(P.StartFlush(P.Timer)), Deliver(0, 0)])
      == State(P.State([], [P.Flight([a], [], P.Timer)], [a], [a], [], [], 0),
               C.State(OneTopic([], [Message(a, 0)]), [], [], [], [a], [], [], []))
  {
    hide Run;
    RunThree(ONE_PARTITION, Publishing(P.Publish(a)), Publishing(P.StartFlush(P.Timer)), Deliver(0, 0));
    var s := Next(ONE_PARTITION, Publishing(P.Publish(a)));
    assert s.pub.buffer == [a] && s.pub.published == [a];
    var t := Next(s, Publishing(P.StartFlush(P.Timer)));
    assert t.pub.flights == [P.Flight([], [a], P.Timer)];
    assert [a] == [a] + [] && [] + [a] == [a] && [] + [Message(a, 0)] == [Message(a, 0)];
    DeliverHead(t, [], a, [], P.Timer, [], []);
  }

  lemma RestartAfterHandling(s: State, a: Event)
    requires s == State(P.State([], [P.Flight([a], [], P.Timer)], [a], [a], [], [], 0),
                        C.State(OneTopic([], [Message(a, 0)]), [], [], [], [a], [], [], []))
    ensures Run(s, [Publishing(P.Finish(0)), Consuming(C.HandleOk(0)), Restart])
      == State(P.State([], [], [a], [a], [], [], 0),
               C.State(OneTopic([], [Message(a, 0)]), [a], [], [], [a], [a], [], [a]))
  {
    hide Run;
    RunThree(s, Publishing(P.Finish(0)), Consuming(C.HandleOk(0)), Restart);
    var t := Next(s, Publishing(P.Finish(0)));
    assert t.pub.flights == [];
    var u := Next(t, Consuming(C.HandleOk(0)));
    assert u.con.topic == [C.Partition([], [Message(a, 0)], C.Succeeded)] && u.con.processed == [a];
    var v := C.Next(u.con, C.Crash(0));
    assert v.topic == OneTopic([], [Message(a, 0)]) && v.reopened == [a];
    assert C.CrashFrom(u.con, 0) == C.CrashFrom(v, 1) == v;
  }
}
