/**
 The buffering publisher as a step system.

 A flush copies and clears the buffer in one turn of the event loop and then awaits one emit
 after another, so several flushes may be suspended at once and further events may be published
 meanwhile. Each suspended flush is a Flight.
 */
module Publisher {
  import opened Messages
  import opened Options

  const MAX_BUFFER_SIZE: nat := 100

  /** Who started a flush: the timer, a publish that filled the buffer, or forceFlush and onModuleDestroy. */
  datatype Origin = Timer | Publishing | Forced

  /** A suspended flush: the part of its batch that Kafka acknowledged, and the rest. */
  datatype Flight = Flight(sent: seq<Event>, unsent: seq<Event>, origin: Origin)

  /** `buffer` and `flights` are the service's memory; the other fields record the history. */
  datatype State = State(
    buffer: seq<Event>,
    flights: seq<Flight>,
    published: seq<Event>,  // every event handed to publishEvent, in order
    emitted: seq<Event>,    // every event Kafka acknowledged, in order
    requeued: seq<Event>,   // acknowledged events that went back to the buffer with a failed batch
    dropped: seq<Event>,    // events that were buffered or about to be sent when the process ended
    failures: nat           // failed flushes
  )

  datatype Step =
    | Publish(event: Event)
    | StartFlush(origin: Origin)
    | EmitOk(flight: nat)
    | EmitFail(flight: nat)
    | Finish(flight: nat)
    | Crash  // of the process, with everything in its memory

  const INITIAL: State := State([], [], [], [], [], [], 0)

  function Without<T>(xs: seq<T>, i: nat): seq<T>
    requires i < |xs|
  {
    xs[..i] + xs[i + 1..]
  }

  function BeginFlush(s: State, origin: Origin): State {
    if s.buffer == [] then s
    else s.(buffer := [], flights := s.flights + [Flight([], s.buffer, origin)])
  }

  function AfterPublish(s: State, e: Event): State {
    var t := s.(buffer := s.buffer + [e], published := s.published + [e]);
    if |t.buffer| >= MAX_BUFFER_SIZE then BeginFlush(t, Publishing) else t
  }

  predicate CanEmit(s: State, i: nat) {
    i < |s.flights| && s.flights[i].unsent != []
  }

  function AfterEmit(s: State, i: nat): State
    requires CanEmit(s, i)
  {
    var f := s.flights[i];
    s.(flights := s.flights[i := Flight(f.sent + [f.unsent[0]], f.unsent[1..], f.origin)],
       emitted := s.emitted + [f.unsent[0]])
  }

  /** The whole batch goes back to the front, acknowledged part included. */
  function AfterEmitFailure(s: State, i: nat): State
    requires CanEmit(s, i)
  {
    var f := s.flights[i];
    s.(flights := Without(s.flights, i),
       buffer := f.sent + f.unsent + s.buffer,
       requeued := s.requeued + f.sent,
       failures := s.failures + 1)
  }

  /** Everything that is about to be sent, by flush. */
  function AllUnsent(flights: seq<Flight>): seq<Event> {
    if flights == [] then [] else flights[0].unsent + AllUnsent(flights[1..])
  }

  function AfterCrash(s: State): State {
    s.(buffer := [], flights := [], dropped := s.dropped + AllUnsent(s.flights) + s.buffer)
  }

  /** Steps that are not possible in `s` leave it alone. */
  function Next(s: State, step: Step): State {
    match step
    case Publish(e) => AfterPublish(s, e)
    case StartFlush(origin) => BeginFlush(s, origin)
    case EmitOk(i) => if CanEmit(s, i) then AfterEmit(s, i) else s
    case EmitFail(i) => if CanEmit(s, i) then AfterEmitFailure(s, i) else s
    case Finish(i) =>
      if i < |s.flights| && s.flights[i].unsent == []
      then s.(flights := Without(s.flights, i)) else s
    case Crash => AfterCrash(s)
  }

  function Run(s: State, steps: seq<Step>): State
    decreases steps
  {
    if steps == [] then s else Run(Next(s, steps[0]), steps[1..])
  }

  lemma {:induction false} RunConcat(s: State, a: seq<Step>, b: seq<Step>)
    ensures Run(s, a + b) == Run(Run(s, a), b)
    decreases a
  {
    hide Next;
    if a == [] {
      assert a + b == b;
    } else {
      RunConcat(Next(s, a[0]), a[1..], b);
      assert (a + b)[1..] == a[1..] + b;
    }
  }

  // ---------------------------------------------------------------- conservation

  /** Copies of e in suspended flushes that Kafka has not acknowledged in that flush. */
  ghost function Unsent(flights: seq<Flight>, e: Event): nat {
    if flights == [] then 0 else Count(flights[0].unsent, e) + Unsent(flights[1..], e)
  }

  lemma {:induction false} UnsentConcat(a: seq<Flight>, b: seq<Flight>, e: Event)
    ensures Unsent(a + b, e) == Unsent(a, e) + Unsent(b, e)
    decreases a
  {
    if a == [] {
      assert a + b == b;
    } else {
      UnsentConcat(a[1..], b, e);
      assert (a + b)[1..] == a[1..] + b;
    }
  }

  /** Splits the unsent copies around flight i. */
  lemma UnsentAt(flights: seq<Flight>, i: nat, e: Event)
    requires i < |flights|
    ensures Unsent(flights, e) == Unsent(Without(flights, i), e) + Count(flights[i].unsent, e)
  {
    var tail := flights[i..];
    assert tail[0] == flights[i] && tail[1..] == flights[i + 1..];
    assert flights == flights[..i] + tail;
    UnsentConcat(flights[..i], tail, e);
    UnsentConcat(flights[..i], flights[i + 1..], e);
  }

  lemma {:induction false} AllUnsentCount(flights: seq<Flight>, e: Event)
    ensures Count(AllUnsent(flights), e) == Unsent(flights, e)
  {
    if flights != [] {
      AllUnsentCount(flights[1..], e);
    }
  }

  /** Copies handed in or put back are exactly the copies acknowledged, buffered, still to be sent or dropped. */
  ghost predicate Conserved(s: State, e: Event) {
    Count(s.published, e) + Count(s.requeued, e)
    == Count(s.emitted, e) + Count(s.buffer, e) + Unsent(s.flights, e) + Count(s.dropped, e)
  }

  lemma BeginFlushConserves(s: State, origin: Origin, e: Event)
    requires Conserved(s, e)
    ensures Conserved(BeginFlush(s, origin), e)
  {
    UnsentConcat(s.flights, [Flight([], s.buffer, origin)], e);
  }

  lemma CrashConserves(s: State, e: Event)
    requires Conserved(s, e)
    ensures Conserved(AfterCrash(s), e)
  {
    AllUnsentCount(s.flights, e);
  }

  lemma EmitConserves(s: State, i: nat, e: Event)
    requires Conserved(s, e) && CanEmit(s, i)
    ensures Conserved(AfterEmit(s, i), e)
  {
    var f := s.flights[i];
    var t := AfterEmit(s, i);
    UnsentAt(s.flights, i, e);
    UnsentAt(t.flights, i, e);
    assert Without(t.flights, i) == Without(s.flights, i);
    CountConcat([f.unsent[0]], f.unsent[1..], e);
    assert f.unsent == [f.unsent[0]] + f.unsent[1..];
  }

  lemma EmitFailureConserves(s: State, i: nat, e: Event)
    requires Conserved(s, e) && CanEmit(s, i)
    ensures Conserved(AfterEmitFailure(s, i), e)
  {
    var f := s.flights[i];
    UnsentAt(s.flights, i, e);
    CountConcat(f.sent + f.unsent, s.buffer, e);
    CountConcat(f.sent, f.unsent, e);
  }

  lemma StepConserves(s: State, step: Step, e: Event)
    requires Conserved(s, e)
    ensures Conserved(Next(s, step), e)
  {
    match step
    case Publish(x) =>
      BeginFlushConserves(s.(buffer := s.buffer + [x], published := s.published + [x]), Publishing, e);
    case StartFlush(origin) => BeginFlushConserves(s, origin, e);
    case EmitOk(i) => if CanEmit(s, i) { EmitConserves(s, i, e); }
    case EmitFail(i) => if CanEmit(s, i) { EmitFailureConserves(s, i, e); }
    case Finish(i) => if i < |s.flights| { UnsentAt(s.flights, i, e); }
    case Crash => CrashConserves(s, e);
  }

  /** Nothing in the service or in Kafka was never published, and without failures nothing is repeated. */
  ghost predicate Honest(s: State) {
    && (forall e :: e in s.buffer ==> e in s.published)
    && (forall e :: e in s.emitted ==> e in s.published)
    && (forall e :: e in s.requeued ==> e in s.published)
    && (forall e :: e in s.dropped ==> e in s.published)
    && (forall f :: f in s.flights ==> forall e :: e in f.sent || e in f.unsent ==> e in s.published)
    && (s.failures == 0 ==> s.requeued == [] && |s.buffer| < MAX_BUFFER_SIZE)
  }

  lemma CrashHonest(s: State)
    requires Honest(s)
    ensures Honest(AfterCrash(s))
  {
    forall e | e in AllUnsent(s.flights) ensures e in s.published {
      CountMember(AllUnsent(s.flights), e);
      AllUnsentCount(s.flights, e);
      UnsentPublished(s, s.flights, e);
    }
  }

  lemma StepHonest(s: State, step: Step)
    requires Honest(s)
    ensures Honest(Next(s, step))
  {
    if step.Crash? { CrashHonest(s); }
  }

  lemma {:induction false} RunConserves(s: State, steps: seq<Step>, e: Event)
    requires Conserved(s, e) && Honest(s)
    ensures Conserved(Run(s, steps), e) && Honest(Run(s, steps))
    decreases steps
  {
    if steps != [] {
      StepConserves(s, steps[0], e);
      StepHonest(s, steps[0]);
      RunConserves(Next(s, steps[0]), steps[1..], e);
    }
  }

  /**
   For every interleaving of publishes, overlapping flushes, emit outcomes and crashes: copies are conserved,
   an event is published if and only if it is acknowledged, buffered, about to be sent or dropped by a crash,
   and until an emit fails the buffer stays below its maximum and nothing is sent twice.
   */
  lemma NoEventLostOrInvented(steps: seq<Step>, e: Event)
    ensures var s := Run(INITIAL, steps);
      && Conserved(s, e)
      && (e in s.published <==> e in s.emitted || e in s.buffer || Unsent(s.flights, e) > 0 || e in s.dropped)
      && (s.failures == 0 ==> s.requeued == [] && |s.buffer| < MAX_BUFFER_SIZE)
  {
    RunConserves(INITIAL, steps, e);
    var s := Run(INITIAL, steps);
    UnsentPublished(s, s.flights, e);
    CountMember(s.published, e);
  }

  lemma {:induction false} UnsentPublished(s: State, flights: seq<Flight>, e: Event)
    requires Honest(s) && (forall f :: f in flights ==> f in s.flights)
    ensures Unsent(flights, e) > 0 ==> e in s.published
  {
    if flights != [] {
      assert flights[0] in s.flights;
      UnsentPublished(s, flights[1..], e);
    }
  }

  // ---------------------------------------------------------------- what a crash loses

  /** Every suspended flush has sent its whole batch. */
  predicate AllSent(s: State) {
    forall f :: f in s.flights ==> f.unsent == []
  }

  /** Nothing is buffered or about to be sent. */
  predicate Clean(s: State) {
    s.buffer == [] && AllSent(s)
  }

  predicate CleanCrashes(s: State, steps: seq<Step>)
    decreases steps
  {
    steps == [] || ((steps[0].Crash? ==> Clean(s)) && CleanCrashes(Next(s, steps[0]), steps[1..]))
  }

  lemma {:induction false} NothingUnsent(flights: seq<Flight>)
    ensures AllUnsent(flights) == [] <==> forall f :: f in flights ==> f.unsent == []
  {
    if flights != [] {
      NothingUnsent(flights[1..]);
      assert forall f :: f in flights <==> f == flights[0] || f in flights[1..];
    }
  }

  lemma StepDropped(s: State, step: Step)
    ensures |s.dropped| <= |Next(s, step).dropped|
    ensures |s.dropped| == |Next(s, step).dropped| <==> (step.Crash? ==> Clean(s))
  {
    NothingUnsent(s.flights);
  }

  lemma {:induction false} DroppedGrows(s: State, steps: seq<Step>)
    ensures |s.dropped| <= |Run(s, steps).dropped|
    ensures |s.dropped| == |Run(s, steps).dropped| <==> CleanCrashes(s, steps)
    decreases steps
  {
    hide Next, Clean;
    if steps != [] {
      StepDropped(s, steps[0]);
      DroppedGrows(Next(s, steps[0]), steps[1..]);
    }
  }

  /** No event is dropped if and only if the buffer is empty and every flush is through whenever the process ends. */
  lemma NothingDroppedExactly(steps: seq<Step>)
    ensures Run(INITIAL, steps).dropped == [] <==> CleanCrashes(INITIAL, steps)
  {
    DroppedGrows(INITIAL, steps);
  }

  /**
   A failed flush rejects, and nobody handles that for a flush of the timer. If it ends the process, everything
   not yet sent is dropped, and the batch just put back with it, the acknowledged part included.
   */
  lemma UnhandledFailureDropsAll(s: State, i: nat, e: Event)
    requires CanEmit(s, i)
    ensures var t := Next(Next(s, EmitFail(i)), Crash);
      && Clean(t)
      && Count(t.dropped, e) == Count(s.dropped, e) + Count(s.buffer, e) + Unsent(s.flights, e) + Count(s.flights[i].sent, e)
  {
    var f := s.flights[i];
    var u := AfterEmitFailure(s, i);
    UnsentAt(s.flights, i, e);
    AllUnsentCount(u.flights, e);
    CountConcat(f.sent + f.unsent, s.buffer, e);
    CountConcat(f.sent, f.unsent, e);
  }

  // ---------------------------------------------------------------- order

  ghost predicate NoDuplicates(xs: seq<Event>) {
    forall i, j :: 0 <= i < j < |xs| ==> xs[i] != xs[j]
  }

  /** The emission log with every repetition dropped: the order in which consumers first see events. */
  function Firsts(xs: seq<Event>): seq<Event> {
    if xs == [] then []
    else
      var init := Firsts(xs[..|xs| - 1]);
      if xs[|xs| - 1] in init then init else init + [xs[|xs| - 1]]
  }

  lemma {:induction false} FirstsElements(xs: seq<Event>, e: Event)
    ensures e in Firsts(xs) <==> e in xs
  {
    if xs != [] {
      FirstsElements(xs[..|xs| - 1], e);
      assert xs == xs[..|xs| - 1] + [xs[|xs| - 1]];
    }
  }

  /** Published events whose flush has not completed, oldest first, if at most one flush is suspended. */
  function Pending(s: State): seq<Event> {
    (if s.flights == [] then [] else s.flights[0].sent + s.flights[0].unsent) + s.buffer
  }

  function SentInFlight(s: State): seq<Event> {
    if s.flights == [] then [] else s.flights[0].sent
  }

  /**
   What is pending is the end of the publication order, and the first emissions are a prefix of it
   that reaches at least as far as the suspended flush has come.
   */
  ghost predicate InOrder(s: State) {
    && |s.flights| <= 1
    && |Pending(s)| <= |s.published|
    && s.published[|s.published| - |Pending(s)|..] == Pending(s)
    && Firsts(s.emitted) <= s.published
    && |s.published| - |Pending(s)| + |SentInFlight(s)| <= |Firsts(s.emitted)|
  }

  lemma AppendInOrder(s: State, e: Event)
    requires InOrder(s)
    ensures InOrder(s.(buffer := s.buffer + [e], published := s.published + [e]))
  {
    hide Firsts;
    var t := s.(buffer := s.buffer + [e], published := s.published + [e]);
    assert Pending(t) == Pending(s) + [e];
    assert t.published[|t.published| - |Pending(t)|..] == s.published[|s.published| - |Pending(s)|..] + [e];
  }

  lemma PublishInOrder(s: State, e: Event)
    requires InOrder(s) && |Next(s, Publish(e)).flights| <= 1
    ensures InOrder(Next(s, Publish(e)))
  {
    hide InOrder;
    AppendInOrder(s, e);
    var t := s.(buffer := s.buffer + [e], published := s.published + [e]);
    if |t.buffer| >= MAX_BUFFER_SIZE { StartInOrder(t, Publishing); }
  }

  lemma StartInOrder(s: State, origin: Origin)
    requires InOrder(s) && |BeginFlush(s, origin).flights| <= 1
    ensures InOrder(BeginFlush(s, origin))
  {
  }

  /** Emitting the event at a published position that first emissions have reached keeps them a prefix. */
  lemma FirstsExtend(emitted: seq<Event>, published: seq<Event>, position: nat)
    requires Firsts(emitted) <= published && position <= |Firsts(emitted)| && position < |published|
    requires NoDuplicates(published)
    ensures var more := Firsts(emitted + [published[position]]);
      more <= published && position < |more| && |Firsts(emitted)| <= |more|
  {
    var reached := |Firsts(emitted)|;
    assert (emitted + [published[position]])[..|emitted|] == emitted;
    assert Firsts(emitted) == published[..reached];
    if position < reached {
      assert published[position] == Firsts(emitted)[position];
    } else {
      assert published[position] !in published[..reached];
      assert Firsts(emitted + [published[position]]) == published[..reached + 1];
    }
  }

  lemma EmitInOrder(s: State, i: nat)
    requires InOrder(s) && CanEmit(s, i) && NoDuplicates(s.published)
    ensures InOrder(AfterEmit(s, i))
  {
    hide Firsts, NoDuplicates;
    var f := s.flights[0];
    var e := f.unsent[0];
    assert f.sent + f.unsent == (f.sent + [e]) + f.unsent[1..];
    assert Pending(AfterEmit(s, i)) == Pending(s);
    var position := |s.published| - |Pending(s)| + |f.sent|;
    assert e == Pending(s)[|f.sent|] == s.published[|s.published| - |Pending(s)|..][|f.sent|] == s.published[position];
    FirstsExtend(s.emitted, s.published, position);
  }

  lemma EmitFailureInOrder(s: State, i: nat)
    requires InOrder(s) && CanEmit(s, i)
    ensures InOrder(AfterEmitFailure(s, i))
  {
  }

  lemma FinishInOrder(s: State, i: nat)
    requires InOrder(s) && i < |s.flights| && s.flights[i].unsent == []
    ensures InOrder(Next(s, Finish(i)))
  {
  }

  lemma StepInOrder(s: State, step: Step)
    requires InOrder(s) && |Next(s, step).flights| <= 1 && NoDuplicates(Next(s, step).published)
    requires step.Crash? ==> Clean(s)
    ensures InOrder(Next(s, step))
  {
    match step
    case Publish(e) => PublishInOrder(s, e);
    case StartFlush(origin) => StartInOrder(s, origin);
    case EmitOk(i) => if CanEmit(s, i) { EmitInOrder(s, i); }
    case EmitFail(i) => if CanEmit(s, i) { EmitFailureInOrder(s, i); }
    case Finish(i) => if i < |s.flights| && s.flights[i].unsent == [] { FinishInOrder(s, i); }
    case Crash => CleanCrashInOrder(s);
  }

  lemma CleanCrashInOrder(s: State)
    requires InOrder(s) && Clean(s)
    ensures InOrder(AfterCrash(s))
  {
    hide Firsts;
    if s.flights != [] { assert s.flights[0] in s.flights; }
    assert Pending(s) == SentInFlight(s);
  }

  /** At most one flush is suspended in every state of the run, and the process ends only with nothing to lose. */
  ghost predicate SerialRun(s: State, steps: seq<Step>)
    decreases steps
  {
    && |s.flights| <= 1
    && (steps != [] ==> (steps[0].Crash? ==> Clean(s)) && SerialRun(Next(s, steps[0]), steps[1..]))
  }

  lemma {:induction false} PublishedGrows(s: State, steps: seq<Step>)
    ensures s.published <= Run(s, steps).published
    decreases steps
  {
    if steps != [] {
      PublishedGrows(Next(s, steps[0]), steps[1..]);
    }
  }

  lemma {:induction false} SerialRunInOrder(s: State, steps: seq<Step>)
    requires InOrder(s) && SerialRun(s, steps) && NoDuplicates(Run(s, steps).published)
    ensures InOrder(Run(s, steps))
    decreases steps
  {
    if steps != [] {
      var t := Next(s, steps[0]);
      PublishedGrows(t, steps[1..]);
      assert SerialRun(t, steps[1..]);
      StepInOrder(s, steps[0]);
      SerialRunInOrder(t, steps[1..]);
    }
  }

  /**
   Events first reach Kafka in publication order; and when the suspended flush has sent its whole batch
   (or none is suspended), everything published before the current buffer has been emitted.
   */
  ghost predicate Ordered(s: State) {
    && Firsts(s.emitted) <= s.published
    && |s.buffer| <= |s.published|
    && (AllSent(s) ==> forall e :: e in s.published[..|s.published| - |s.buffer|] ==> e in s.emitted)
  }

  lemma InOrderIsOrdered(s: State)
    requires InOrder(s)
    ensures Ordered(s)
  {
    if AllSent(s) {
      var settled := |s.published| - |s.buffer|;
      assert s.flights != [] ==> s.flights[0] in s.flights;
      assert settled == |s.published| - |Pending(s)| + |SentInFlight(s)|;
      forall e | e in s.published[..settled]
        ensures e in s.emitted
      {
        var k :| 0 <= k < settled && s.published[..settled][k] == e;
        assert Firsts(s.emitted)[k] == e;
        FirstsElements(s.emitted, e);
      }
    }
  }

  lemma InitialInOrder()
    ensures InOrder(INITIAL)
  {
    assert Firsts([]) == [];
  }

  /** While flushes do not overlap, order is kept however many of them fail and are put back. */
  lemma FirstEmissionsFollowPublication(steps: seq<Step>)
    requires SerialRun(INITIAL, steps) && NoDuplicates(Run(INITIAL, steps).published)
    ensures Ordered(Run(INITIAL, steps))
  {
    InitialInOrder();
    SerialRunInOrder(INITIAL, steps);
    InOrderIsOrdered(Run(INITIAL, steps));
  }

  /** Events first reached Kafka in publication order. */
  ghost predicate InPublicationOrder(s: State) {
    Firsts(s.emitted) <= s.published
  }

  predicate OnlyEmits(steps: seq<Step>) {
    forall step :: step in steps ==> step.EmitOk?
  }

  /** Some acknowledgements of what is already being sent put events out of order. */
  ghost predicate CanReorder(s: State) {
    exists steps :: OnlyEmits(steps) && !InPublicationOrder(Run(s, steps))
  }

  /** A suspended flush still has to send something that Kafka has not acknowledged before. */
  predicate Owes(s: State) {
    exists f, e :: f in s.flights && e in f.unsent && e !in s.emitted
  }

  /** A second flush is suspended, and the first one only repeats what was emitted before. */
  ghost predicate Overlapped(s: State) {
    && |s.flights| == 2
    && (forall e :: e in s.flights[0].unsent ==> e in s.emitted)
    && InPublicationOrder(s)
    && var batch := s.flights[1].sent + s.flights[1].unsent;
       && |batch| <= |s.published| && s.published[|s.published| - |batch|..] == batch
       && |s.published| - |batch| + |s.flights[1].sent| <= |Firsts(s.emitted)|
  }

  lemma RepeatKeepsFirsts(emitted: seq<Event>, e: Event)
    requires e in emitted
    ensures Firsts(emitted + [e]) == Firsts(emitted)
  {
    FirstsElements(emitted, e);
    assert (emitted + [e])[..|emitted|] == emitted;
  }

  lemma OverlappedEmits(s: State, i: nat)
    requires Overlapped(s) && CanEmit(s, i) && NoDuplicates(s.published)
    ensures Overlapped(AfterEmit(s, i))
  {
    hide Firsts;
    var e := s.flights[i].unsent[0];
    if i == 0 {
      RepeatKeepsFirsts(s.emitted, e);
    } else {
      var f := s.flights[1];
      var batch := f.sent + f.unsent;
      var position := |s.published| - |batch| + |f.sent|;
      assert e == batch[|f.sent|] == s.published[position];
      assert (f.sent + [e]) + f.unsent[1..] == batch;
      FirstsExtend(s.emitted, s.published, position);
    }
  }

  lemma {:induction false} EmitsKeepOrder(s: State, steps: seq<Step>)
    requires OnlyEmits(steps) && NoDuplicates(s.published) && (InOrder(s) || Overlapped(s))
    ensures InPublicationOrder(Run(s, steps))
    decreases steps
  {
    hide Overlapped, InOrder, NoDuplicates;
    if steps == [] {
      OrderNow(s);
    } else {
      assert steps[0] in steps;
      var i := steps[0].flight;
      if CanEmit(s, i) {
        if InOrder(s) { EmitInOrder(s, i); } else { OverlappedEmits(s, i); }
      }
      EmitsKeepOrder(Next(s, steps[0]), steps[1..]);
    }
  }

  lemma OrderNow(s: State)
    requires InOrder(s) || Overlapped(s)
    ensures InPublicationOrder(s)
  {
  }

  lemma StartKeepsOrder(s: State, origin: Origin)
    requires InOrder(s) && NoDuplicates(s.published) && (s.buffer == [] || !Owes(s))
    ensures InOrder(BeginFlush(s, origin)) || Overlapped(BeginFlush(s, origin))
  {
    hide Firsts;
    var t := BeginFlush(s, origin);
    if |t.flights| <= 1 {
      StartInOrder(s, origin);
    } else {
      FlightEmitted(s);
      assert t.flights[0] == s.flights[0] && t.flights[1] == Flight([], s.buffer, origin);
      assert [] + s.buffer == s.buffer;
      assert s.published[|s.published| - |s.buffer|..] == Pending(s)[|Pending(s)| - |s.buffer|..];
      EmittedReach(s);
    }
  }

  lemma FlightEmitted(s: State)
    requires |s.flights| == 1 && !Owes(s)
    ensures forall e :: e in s.flights[0].unsent ==> e in s.emitted
  {
    assert s.flights[0] in s.flights;
  }

  /** If all of the suspended batch was emitted before, first emissions reach to the buffer. */
  lemma EmittedReach(s: State)
    requires InOrder(s) && NoDuplicates(s.published) && |s.flights| == 1
    requires forall e :: e in s.flights[0].unsent ==> e in s.emitted
    ensures |s.published| - |s.buffer| <= |Firsts(s.emitted)|
  {
    if |Firsts(s.emitted)| < |s.published| - |s.buffer| { UnreachedIsNew(s); }
  }

  lemma UnreachedIsNew(s: State)
    requires InOrder(s) && NoDuplicates(s.published) && |s.flights| == 1
    requires |Firsts(s.emitted)| < |s.published| - |s.buffer|
    ensures exists e :: e in s.flights[0].unsent && e !in s.emitted
  {
    var f := s.flights[0];
    var start, reached := |s.published| - |Pending(s)|, |Firsts(s.emitted)|;
    var e := s.published[reached];
    assert e == s.published[start..][reached - start] == (f.sent + f.unsent)[reached - start];
    assert e == f.unsent[reached - start - |f.sent|];
    FirstsElements(s.emitted, e);
    assert forall k :: 0 <= k < reached ==> Firsts(s.emitted)[k] == s.published[k];
  }

  /** The first event of a second flush, sent while the first flush owes one, comes out of order. */
  lemma OvertakingReorders(s: State, origin: Origin)
    requires InOrder(s) && NoDuplicates(s.published) && s.buffer != [] && Owes(s)
    ensures !InPublicationOrder(Next(Next(s, StartFlush(origin)), EmitOk(1)))
  {
    hide InOrder, NoDuplicates, Firsts;
    var owed := OwedPosition(s);
    OvertakenFirsts(s.emitted, s.published, owed, |s.published| - |s.buffer|);
  }

  /** Where the owed event and the first buffered one were published. */
  lemma OwedPosition(s: State) returns (owed: nat)
    requires InOrder(s) && s.buffer != [] && Owes(s)
    ensures |s.flights| == 1 && Firsts(s.emitted) <= s.published
    ensures owed < |s.published| - |s.buffer| && s.published[owed] !in s.emitted
    ensures s.published[|s.published| - |s.buffer|] == s.buffer[0]
  {
    hide Firsts;
    var f, e :| f in s.flights && e in f.unsent && e !in s.emitted;
    assert f == s.flights[0];
    var j :| 0 <= j < |f.unsent| && f.unsent[j] == e;
    var start := |s.published| - |Pending(s)|;
    owed := start + |f.sent| + j;
    assert Pending(s)[|f.sent| + j] == e && s.published[owed] == s.published[start..][|f.sent| + j];
    var k := |f.sent + f.unsent|;
    assert Pending(s)[k] == s.buffer[0] && s.published[start + k] == s.published[start..][k];
  }

  lemma OvertakenFirsts(emitted: seq<Event>, published: seq<Event>, owed: nat, next: nat)
    requires Firsts(emitted) <= published && NoDuplicates(published)
    requires owed < next < |published| && published[owed] !in emitted
    ensures !(Firsts(emitted + [published[next]]) <= published)
  {
    var reached := |Firsts(emitted)|;
    FirstsElements(emitted, published[owed]);
    assert forall k :: 0 <= k < reached ==> published[k] == Firsts(emitted)[k] && published[k] in Firsts(emitted);
    assert reached <= owed;
    assert (emitted + [published[next]])[..|emitted|] == emitted;
    assert published[next] !in Firsts(emitted);
    assert Firsts(emitted + [published[next]])[reached] == published[next] != published[reached];
  }

  /** The step starts a flush: from outside, or by filling the buffer. */
  predicate StartsFlush(s: State, step: Step) {
    match step
    case StartFlush(_) => s.buffer != []
    case Publish(_) => |s.buffer| + 1 >= MAX_BUFFER_SIZE
    case _ => false
  }

  /**
   When the order can be lost: in every state that serial flushes lead to, a step of any kind that keeps events
   distinct lets acknowledgements come out of publication order if and only if it starts a flush while a suspended
   flush still owes an event. Neither the timer nor a publish checks that.
   */
  lemma OverlapReordersExactly(steps: seq<Step>, step: Step)
    requires SerialRun(INITIAL, steps) && NoDuplicates(Next(Run(INITIAL, steps), step).published)
    ensures var s := Run(INITIAL, steps);
      CanReorder(Next(s, step)) <==> StartsFlush(s, step) && Owes(s)
  {
    hide *;
    InitialInOrder();
    var s := Run(INITIAL, steps);
    DistinctBefore(s, step);
    SerialRunInOrder(INITIAL, steps);
    StepReordersExactly(s, step);
  }

  lemma DistinctBefore(s: State, step: Step)
    requires NoDuplicates(Next(s, step).published)
    ensures NoDuplicates(s.published)
  {
    assert |s.published| <= |Next(s, step).published|;
    assert forall i :: 0 <= i < |s.published| ==> Next(s, step).published[i] == s.published[i];
  }

  lemma StepReordersExactly(s: State, step: Step)
    requires InOrder(s) && NoDuplicates(s.published) && NoDuplicates(Next(s, step).published)
    ensures CanReorder(Next(s, step)) <==> StartsFlush(s, step) && Owes(s)
  {
    hide InOrder, NoDuplicates, Owes, CanReorder, Run;
    if step.StartFlush? {
      StartReordersExactly(s, step.origin);
    } else if step.Publish? {
      var t := s.(buffer := s.buffer + [step.event], published := s.published + [step.event]);
      AppendInOrder(s, step.event);
      SameOwed(s, t);
      if |t.buffer| >= MAX_BUFFER_SIZE { StartReordersExactly(t, Publishing); } else { OrderedCannotReorder(t); }
    } else if step.Crash? {
      CrashCannotReorder(s);
    } else {
      AtMostOneFlight(s, step);
      StepInOrder(s, step);
      OrderedCannotReorder(Next(s, step));
    }
  }

  lemma AtMostOneFlight(s: State, step: Step)
    requires InOrder(s) && (step.EmitOk? || step.EmitFail? || step.Finish?)
    ensures |Next(s, step).flights| <= 1
  {
    hide Firsts;
  }

  lemma SameOwed(s: State, t: State)
    requires t.flights == s.flights && t.emitted == s.emitted
    ensures Owes(t) <==> Owes(s)
  {
  }

  lemma OrderedCannotReorder(s: State)
    requires InOrder(s) && NoDuplicates(s.published)
    ensures !CanReorder(s)
  {
    hide InOrder, Overlapped, NoDuplicates, InPublicationOrder, Run;
    forall more | OnlyEmits(more) ensures InPublicationOrder(Run(s, more)) {
      EmitsKeepOrder(s, more);
    }
  }

  lemma CrashCannotReorder(s: State)
    requires InOrder(s)
    ensures !CanReorder(AfterCrash(s))
  {
    hide Firsts, Run;
    forall more | OnlyEmits(more) ensures InPublicationOrder(Run(AfterCrash(s), more)) {
      NothingToEmit(AfterCrash(s), more);
    }
  }

  lemma {:induction false} NothingToEmit(s: State, steps: seq<Step>)
    requires s.flights == [] && OnlyEmits(steps)
    ensures Run(s, steps) == s
    decreases steps
  {
    if steps != [] {
      assert steps[0] in steps;
      NothingToEmit(s, steps[1..]);
    }
  }

  lemma StartReordersExactly(s: State, origin: Origin)
    requires InOrder(s) && NoDuplicates(s.published)
    ensures CanReorder(BeginFlush(s, origin)) <==> s.buffer != [] && Owes(s)
  {
    hide InOrder, NoDuplicates, Owes, CanReorder;
    if s.buffer != [] && Owes(s) { OvertakingCanReorder(s, origin); } else { StartCannotReorder(s, origin); }
  }

  lemma OvertakingCanReorder(s: State, origin: Origin)
    requires InOrder(s) && NoDuplicates(s.published) && s.buffer != [] && Owes(s)
    ensures CanReorder(Next(s, StartFlush(origin)))
  {
    hide InOrder, NoDuplicates, Owes, Next, InPublicationOrder;
    var t := Next(s, StartFlush(origin));
    OvertakingReorders(s, origin);
    assert OnlyEmits([EmitOk(1)]) && Run(t, [EmitOk(1)]) == Next(t, EmitOk(1));
  }

  lemma StartCannotReorder(s: State, origin: Origin)
    requires InOrder(s) && NoDuplicates(s.published) && (s.buffer == [] || !Owes(s))
    ensures !CanReorder(Next(s, StartFlush(origin)))
  {
    hide InOrder, Overlapped, NoDuplicates, Owes, InPublicationOrder, Run;
    var t := Next(s, StartFlush(origin));
    StartKeepsOrder(s, origin);
    forall more | OnlyEmits(more) ensures InPublicationOrder(Run(t, more)) {
      EmitsKeepOrder(t, more);
    }
  }

  /** A shortest run from the start in which the second of two flushes overtakes the first. */
  lemma OverlappingFlushesReorder(a: Event, b: Event)
    requires a != b
    ensures var s := Run(INITIAL, [Publish(a), StartFlush(Timer), Publish(b), StartFlush(Timer), EmitOk(1)]);
      NoDuplicates(s.published) && !InPublicationOrder(s)
  {
    hide Run, Firsts;
    RunFive(INITIAL, Publish(a), StartFlush(Timer), Publish(b), StartFlush(Timer), EmitOk(1));
    var s1 := Next(INITIAL, Publish(a));
    assert s1.buffer == [a] && s1.published == [a];
    var s2 := Next(s1, StartFlush(Timer));
    assert s2.flights == [Flight([], [a], Timer)];
    var s3 := Next(s2, Publish(b));
    assert s3.buffer == [b] && s3.published == [a, b];
    var s4 := Next(s3, StartFlush(Timer));
    assert s4.flights == [Flight([], [a], Timer), Flight([], [b], Timer)];
    var s5 := Next(s4, EmitOk(1));
    assert s5.emitted == [b] && s5.published == [a, b];
    FirstsOfOne(b);
    assert !([b] <= [a, b]);
  }

  lemma FirstsOfOne(e: Event)
    ensures Firsts([e]) == [e]
  {
    assert [e][..0] == [];
  }
  lemma RunFive(s: State, a: Step, b: Step, c: Step, d: Step, e: Step)
    ensures Run(s, [a, b, c, d, e]) == Next(Next(Next(Next(Next(s, a), b), c), d), e)
  {
    hide Next;
    var steps := [a, b, c, d, e];
    assert steps[1..] == [b, c, d, e] && steps[1..][1..] == [c, d, e];
    assert [c, d, e][1..] == [d, e] && [d, e][1..] == [e];
    var t := Next(Next(Next(s, a), b), c);
    assert Run(Next(t, d), [e]) == Next(Next(t, d), e);
    assert Run(t, [d, e]) == Run(Next(t, d), [e]);
    assert Run(Next(Next(s, a), b), [c, d, e]) == Run(t, [d, e]);
    assert Run(Next(s, a), [b, c, d, e]) == Run(Next(Next(s, a), b), [c, d, e]);
  }

  // ---------------------------------------------------------------- one undisturbed flush

  /** What a flush that nothing interleaves with does when emit number failAt is the first to fail. */
  function Flushed(s: State, failAt: nat): State {
    if s.buffer == [] then s
    else if failAt < |s.buffer| then
      s.(emitted := s.emitted + s.buffer[..failAt],
         requeued := s.requeued + s.buffer[..failAt],
         failures := s.failures + 1)
    else
      s.(buffer := [], emitted := s.emitted + s.buffer)
  }

  function Emits(flight: nat, n: nat): seq<Step> {
    seq(n, _ => EmitOk(flight))
  }

  /** The steps of such a flush: start, the successful emits, then failure or completion. */
  function FlushSchedule(s: State, origin: Origin, failAt: nat): seq<Step> {
    var i := |s.flights|;
    if failAt < |s.buffer| then [StartFlush(origin)] + Emits(i, failAt) + [EmitFail(i)]
    else [StartFlush(origin)] + Emits(i, |s.buffer|) + [Finish(i)]
  }

  lemma TakeFirst(front: seq<Event>, xs: seq<Event>, n: nat)
    requires 0 < n <= |xs|
    ensures front + xs[..n] == (front + [xs[0]]) + xs[1..][..n - 1] && xs[n..] == xs[1..][n - 1..]
  {
    assert xs[..n] == [xs[0]] + xs[1..][..n - 1];
  }

  lemma {:induction false} EmitsRun(s: State, n: nat)
    requires s.flights != [] && n <= |s.flights[|s.flights| - 1].unsent|
    ensures var i := |s.flights| - 1;
      var f := s.flights[i];
      Run(s, Emits(i, n)) == s.(
        flights := s.flights[i := Flight(f.sent + f.unsent[..n], f.unsent[n..], f.origin)],
        emitted := s.emitted + f.unsent[..n])
    decreases n
  {
    var i := |s.flights| - 1;
    var f := s.flights[i];
    if n == 0 {
      assert f.sent + f.unsent[..0] == f.sent;
      assert s.emitted + f.unsent[..0] == s.emitted;
    } else {
      var t := AfterEmit(s, i);
      EmitsRun(t, n - 1);
      assert Emits(i, n)[0] == EmitOk(i) && Emits(i, n)[1..] == Emits(i, n - 1);
      assert Run(s, Emits(i, n)) == Run(t, Emits(i, n - 1));
      TakeFirst(f.sent, f.unsent, n);
      TakeFirst(s.emitted, f.unsent, n);
    }
  }

  /**
   The shortcut agrees with the step system, whoever starts the flush: its guarantees therefore hold for every flush.
   One without failures sends the whole buffer in order; one that fails at an emit has sent what came before it,
   and leaves the buffer as it was.
   */
  lemma FlushedIsRun(s: State, origin: Origin, failAt: nat)
    requires s.buffer != []
    ensures Flushed(s, failAt) == Run(s, FlushSchedule(s, origin, failAt))
    ensures var t := Run(s, FlushSchedule(s, origin, failAt));
      && t.flights == s.flights && t.published == s.published && t.dropped == s.dropped
      && (if failAt < |s.buffer|
          then t.buffer == s.buffer && t.emitted == s.emitted + s.buffer[..failAt] && t.requeued == s.requeued + s.buffer[..failAt]
          else t.buffer == [] && t.emitted == s.emitted + s.buffer && t.requeued == s.requeued)
      && t.failures == s.failures + (if failAt < |s.buffer| then 1 else 0)
  {
    hide Emits, Run;
    var i := |s.flights|;
    var n := if failAt < |s.buffer| then failAt else |s.buffer|;
    var last := if failAt < |s.buffer| then EmitFail(i) else Finish(i);
    var t := BeginFlush(s, origin);
    EmitsRun(t, n);
    var f := Flight([] + s.buffer[..n], s.buffer[n..], origin);
    assert t.flights[i := f] == s.flights + [f];
    RunConcat(t, Emits(i, n), [last]);
    RunFirst(s, StartFlush(origin), Emits(i, n) + [last]);
    assert FlushSchedule(s, origin, failAt) == [StartFlush(origin)] + (Emits(i, n) + [last]);
    FlushEnds(s, origin, n, last);
  }

  lemma RunFirst(s: State, step: Step, rest: seq<Step>)
    ensures Run(s, [step] + rest) == Run(Next(s, step), rest)
  {
    hide Next;
    assert ([step] + rest)[1..] == rest;
  }

  lemma FlushEnds(s: State, origin: Origin, n: nat, last: Step)
    requires s.buffer != [] && n <= |s.buffer|
    requires last == if n < |s.buffer| then EmitFail(|s.flights|) else Finish(|s.flights|)
    ensures var t := s.(buffer := [], flights := s.flights + [Flight([] + s.buffer[..n], s.buffer[n..], origin)],
                        emitted := s.emitted + s.buffer[..n]);
      Run(t, [last]) == Flushed(s, n)
  {
  }

  /** A publish only buffers the event, until the hundredth starts a flush of all of them in the same turn. */
  lemma HundredthPublishFlushes(s: State, e: Event)
    ensures var t := Next(s, Publish(e));
      && t.published == s.published + [e]
      && (|s.buffer| < 99 ==> t.buffer == s.buffer + [e] && t.flights == s.flights)
      && (|s.buffer| >= 99 ==> t.buffer == [] && t.flights == s.flights + [Flight([], s.buffer + [e], Publishing)])
  {
  }

  // ---------------------------------------------------------------- the service

  class MessagePublisherService {
    var eventBuffer: seq<Event>
    /** The local batch of every flushEvents activation that is waiting for Kafka. */
    var suspended: seq<Flight>
    ghost var published: seq<Event>
    ghost var emitted: seq<Event>
    ghost var requeued: seq<Event>
    ghost var dropped: seq<Event>
    ghost var failures: nat

    ghost function Abs(): State
      reads this
    {
      State(eventBuffer, suspended, published, emitted, requeued, dropped, failures)
    }

    constructor ()
      ensures Abs() == INITIAL
    {
      eventBuffer, suspended := [], [];
      published, emitted, requeued, dropped, failures := [], [], [], [], 0;
    }

    /**
     Buffers the message, and in the same turn starts a flush if the buffer is full. The call then awaits that
     flush, and rejects if it does, although the message stays buffered.
     */
    method PublishEvent(message: Event) returns (awaited: Option<nat>)
      modifies this`eventBuffer, this`suspended, this`published
      ensures Abs() == Next(old(Abs()), Publish(message)) && published == old(published) + [message]
      ensures |old(eventBuffer)| < 99 ==>
                eventBuffer == old(eventBuffer) + [message] && suspended == old(suspended) && awaited.None?
      ensures |old(eventBuffer)| >= 99 ==>
                && eventBuffer == [] && awaited == Some(|old(suspended)|)
                && suspended == old(suspended) + [Flight([], old(eventBuffer) + [message], Publishing)]
    {
      eventBuffer := eventBuffer + [message];
      published := published + [message];
      if |eventBuffer| >= MAX_BUFFER_SIZE {
        StartFlushEvents(Publishing);
        return Some(|suspended| - 1);
      }
      return None;
    }

    /** flushEvents up to its first await. */
    method StartFlushEvents(origin: Origin)
      modifies this`eventBuffer, this`suspended
      ensures Abs() == Next(old(Abs()), StartFlush(origin)) && eventBuffer == []
      ensures suspended == old(suspended) + if old(eventBuffer) == [] then [] else [Flight([], old(eventBuffer), origin)]
    {
      if |eventBuffer| == 0 {
        return;
      }
      var eventsToFlush := eventBuffer;
      eventBuffer := [];
      suspended := suspended + [Flight([], eventsToFlush, origin)];
    }

    /** Activation i resumes because its emit was acknowledged. */
    method OnEmitted(i: nat)
      requires i < |suspended| && suspended[i].unsent != []
      modifies this`suspended, this`emitted
      ensures Abs() == Next(old(Abs()), EmitOk(i))
      ensures var f := old(suspended)[i];
        && suspended == old(suspended)[i := Flight(f.sent + [f.unsent[0]], f.unsent[1..], f.origin)]
        && emitted == old(emitted) + [f.unsent[0]]
    {
      var f := suspended[i];
      emitted := emitted + [f.unsent[0]];
      suspended := suspended[i := Flight(f.sent + [f.unsent[0]], f.unsent[1..], f.origin)];
    }

    /**
     Activation i resumes in its catch block: the whole batch is unshifted and the error rethrown, to whoever
     started the flush. The timer does not handle it.
     */
    method OnEmitFailed(i: nat) returns (rejected: Origin)
      requires i < |suspended| && suspended[i].unsent != []
      modifies this`eventBuffer, this`suspended, this`requeued, this`failures
      ensures Abs() == Next(old(Abs()), EmitFail(i))
      ensures var f := old(suspended)[i];
        && rejected == f.origin && eventBuffer == f.sent + f.unsent + old(eventBuffer)
        && suspended == old(suspended)[..i] + old(suspended)[i + 1..]
        && requeued == old(requeued) + f.sent && failures == old(failures) + 1
    {
      var f := suspended[i];
      eventBuffer := f.sent + f.unsent + eventBuffer;
      suspended := suspended[..i] + suspended[i + 1..];
      requeued, failures := requeued + f.sent, failures + 1;
      return f.origin;
    }

    /** The process ends and starts again. */
    method Restart()
      modifies this`eventBuffer, this`suspended, this`dropped
      ensures Abs() == Next(old(Abs()), Crash) && eventBuffer == [] && suspended == []
      ensures dropped == old(dropped) + AllUnsent(old(suspended)) + old(eventBuffer)
    {
      dropped := dropped + AllUnsent(suspended) + eventBuffer;
      eventBuffer, suspended := [], [];
    }

    /** Activation i leaves its loop. */
    method OnBatchSent(i: nat)
      requires i < |suspended| && suspended[i].unsent == []
      modifies this`suspended
      ensures Abs() == Next(old(Abs()), Finish(i)) && suspended == old(suspended)[..i] + old(suspended)[i + 1..]
    {
      suspended := suspended[..i] + suspended[i + 1..];
    }

    /** One flush from start to end with nothing in between; emit number failAt is the first to fail. */
    method FlushEvents(failAt: nat) returns (ok: bool)
      modifies this
      ensures Abs() == Flushed(old(Abs()), failAt)
      ensures ok <==> failAt >= |old(eventBuffer)|
      ensures ok ==> eventBuffer == [] && emitted == old(emitted) + old(eventBuffer) && requeued == old(requeued) && failures == old(failures)
      ensures !ok ==>
                && eventBuffer == old(eventBuffer) && emitted == old(emitted) + old(eventBuffer)[..failAt]
                && requeued == old(requeued) + old(eventBuffer)[..failAt] && failures == old(failures) + 1
      ensures suspended == old(suspended) && published == old(published) && dropped == old(dropped)
    {
      if |eventBuffer| == 0 {
        return true;
      }
      var eventsToFlush := eventBuffer;
      eventBuffer := [];
      var k := 0;
      while k < |eventsToFlush|
        invariant k <= |eventsToFlush| && k <= failAt
        invariant eventBuffer == [] && emitted == old(emitted) + eventsToFlush[..k]
        invariant suspended == old(suspended) && published == old(published)
        invariant requeued == old(requeued) && failures == old(failures) && dropped == old(dropped)
      {
        if k == failAt {
          eventBuffer := eventsToFlush + eventBuffer;
          requeued, failures := requeued + eventsToFlush[..k], failures + 1;
          return false;
        }
        emitted := emitted + [eventsToFlush[k]];
        k := k + 1;
      }
      return true;
    }

    method GetBufferStatus() returns (bufferedEvents: nat, maxBufferSize: nat, isBufferFull: bool)
      ensures bufferedEvents == |Abs().buffer| && maxBufferSize == 100
      ensures Honest(Abs()) && isBufferFull ==> Abs().failures > 0
      ensures isBufferFull <==> bufferedEvents >= maxBufferSize
    {
      bufferedEvents, maxBufferSize := |eventBuffer|, MAX_BUFFER_SIZE;
      isBufferFull := |eventBuffer| >= MAX_BUFFER_SIZE;
    }
  }
}
