/** Start-up of the event bus subscriber: events that arrive before rehydration are buffered and
    handed to the local scheduler by a later drain. Steps are as fine as the code's: testing the
    rehydration flag and appending to the buffer are two steps of the subscriber thread, and the
    drain empties the buffer in one step and hands the events over one by one. */
module EventBus {
  import opened Prelude

  const MAX_BUFFER: nat := 1000

  /** A pub/sub payload: text that is not JSON, or the three fields it may carry. Values that are
      not strings count as absent. */
  datatype Message =
    | Malformed
    | Message(source: Option<string>, eventType: Option<string>, correlation: Option<string>)

  datatype Event = Event(eventType: string, correlation: Option<string>)

  /** The event to act on, unless the message is malformed, our own, or without an event type. */
  function Relevant(instance: string, m: Message): Option<Event> {
    if m.Malformed? then None
    else if m.source == Some(instance) then None
    else if m.eventType.None? || m.eventType.value == "" then None
    else Some(Event(m.eventType.value, if m.correlation == Some("") then None else m.correlation))
  }

  /** `received` lists the relevant events in arrival order; elsewhere an event is its position
      there. `inHand` has been found to precede rehydration and is about to be buffered. */
  datatype State = State(
    received: seq<Event>,
    rehydrated: bool,
    inHand: Option<nat>,
    buffer: seq<nat>,
    draining: Option<seq<nat>>,
    direct: seq<nat>,    // handed over on arrival
    drained: seq<nat>,   // handed over by a drain
    dropped: seq<nat>)   // found the buffer full

  datatype Action =
    | Receive(m: Message)
    | Buffer
    | MarkRehydrated
    | StartDrain
    | HandOver
    | EndDrain

  predicate Enabled(s: State, a: Action) {
    match a
    case Receive(_) => s.inHand.None?
    case Buffer => s.inHand.Some?
    case MarkRehydrated => true
    case StartDrain => s.draining.None?
    case HandOver => s.draining.Some? && s.draining.value != []
    case EndDrain => s.draining == Some([])
  }

  function Next(instance: string, s: State, a: Action): State
    requires Enabled(s, a)
  {
    match a
    case Receive(m) =>
      var e := Relevant(instance, m);
      if e.None? then s
      else
        var n := |s.received|;
        var s1 := s.(received := s.received + [e.value]);
        if s.rehydrated then s1.(direct := s1.direct + [n]) else s1.(inHand := Some(n))
    case Buffer =>
      var n := s.inHand.value;
      if |s.buffer| < MAX_BUFFER then s.(inHand := None, buffer := s.buffer + [n])
      else s.(inHand := None, dropped := s.dropped + [n])
    case MarkRehydrated => s.(rehydrated := true)
    case StartDrain => s.(draining := Some(s.buffer), buffer := [])
    case HandOver =>
      s.(drained := s.drained + [s.draining.value[0]], draining := Some(s.draining.value[1..]))
    case EndDrain => s.(draining := None)
  }

  const START := State([], false, None, [], None, [], [], [])

  predicate IsRun(instance: string, s: State, run: seq<Action>)
    decreases |run|
  {
    run == [] || (Enabled(s, run[0]) && IsRun(instance, Next(instance, s, run[0]), run[1..]))
  }

  function After(instance: string, s: State, run: seq<Action>): State
    requires IsRun(instance, s, run)
    decreases |run|
  {
    if run == [] then s else After(instance, Next(instance, s, run[0]), run[1..])
  }

  // ---- exactly one place per event -----------------------------------------------

  function Is(n: nat): nat -> nat {
    (x: nat) => if x == n then 1 else 0
  }

  function Count(xs: seq<nat>, n: nat): nat {
    Sum(Is(n), xs)
  }

  function Draining(s: State): seq<nat> {
    if s.draining.Some? then s.draining.value else []
  }

  function InHand(s: State): seq<nat> {
    if s.inHand.Some? then [s.inHand.value] else []
  }

  /** How often an event has been handed to the scheduler. */
  function Handed(s: State, n: nat): nat {
    Count(s.direct, n) + Count(s.drained, n)
  }

  /** How often it is still on its way. */
  function Underway(s: State, n: nat): nat {
    Count(InHand(s), n) + Count(s.buffer, n) + Count(Draining(s), n)
  }

  predicate Accounted(s: State, n: nat) {
    Handed(s, n) + Underway(s, n) + Count(s.dropped, n) == (if n < |s.received| then 1 else 0)
  }

  predicate Increasing(xs: seq<nat>) {
    forall i, j :: 0 <= i < j < |xs| ==> xs[i] < xs[j]
  }

  /** What went or will go through the buffer, in order of hand-over. */
  function Path(s: State): seq<nat> {
    s.drained + Draining(s) + s.buffer + InHand(s)
  }

  /** That path is in arrival order. */
  predicate Ordered(s: State) {
    && Increasing(Path(s))
    && (forall i :: 0 <= i < |Path(s)| ==> Path(s)[i] < |s.received|)
    && |s.buffer| <= MAX_BUFFER
  }

  lemma ReceiveAccounts(instance: string, s: State, a: Action, n: nat)
    requires Enabled(s, a) && a.Receive? && Accounted(s, n)
    ensures Accounted(Next(instance, s, a), n)
  {
    var next: nat := |s.received|;
    SumSnoc(Is(n), s.direct, next);
    SumOne(Is(n), next);
  }

  lemma BufferAccounts(instance: string, s: State, a: Action, n: nat)
    requires Enabled(s, a) && a.Buffer? && Accounted(s, n)
    ensures Accounted(Next(instance, s, a), n)
  {
    var x, s' := s.inHand.value, Next(instance, s, a);
    SumOne(Is(n), x);
    assert InHand(s) == [x] && InHand(s') == [];
    if |s.buffer| < MAX_BUFFER {
      SumSnoc(Is(n), s.buffer, x);
      assert s' == s.(inHand := None, buffer := s.buffer + [x]);
    } else {
      SumSnoc(Is(n), s.dropped, x);
      assert s' == s.(inHand := None, dropped := s.dropped + [x]);
    }
  }

  lemma HandOverAccounts(instance: string, s: State, a: Action, n: nat)
    requires Enabled(s, a) && a.HandOver? && Accounted(s, n)
    ensures Accounted(Next(instance, s, a), n)
  {
    SumSnoc(Is(n), s.drained, s.draining.value[0]);
  }

  lemma StepAccounts(instance: string, s: State, a: Action, n: nat)
    requires Enabled(s, a) && Accounted(s, n)
    ensures Accounted(Next(instance, s, a), n)
  {
    match a
    case Receive(_) => ReceiveAccounts(instance, s, a, n);
    case Buffer => BufferAccounts(instance, s, a, n);
    case MarkRehydrated =>
    case StartDrain =>
    case HandOver => HandOverAccounts(instance, s, a, n);
    case EndDrain =>
  }

  lemma IncreasingSnoc(xs: seq<nat>, x: nat)
    requires Increasing(xs) && forall i :: 0 <= i < |xs| ==> xs[i] < x
    ensures Increasing(xs + [x])
  {
  }

  lemma IncreasingDropLast(xs: seq<nat>, x: nat)
    requires Increasing(xs + [x])
    ensures Increasing(xs)
  {
    assert forall i :: 0 <= i < |xs| ==> (xs + [x])[i] == xs[i];
  }

  lemma ReceiveOrders(instance: string, s: State, a: Action)
    requires Enabled(s, a) && Ordered(s) && a.Receive?
    ensures Ordered(Next(instance, s, a))
  {
    var s' := Next(instance, s, a);
    if s'.inHand.Some? {
      IncreasingSnoc(Path(s), |s.received|);
      assert Path(s') == Path(s) + [|s.received|];
    } else {
      assert Path(s') == Path(s);
    }
  }

  lemma BufferOrders(instance: string, s: State, a: Action)
    requires Enabled(s, a) && Ordered(s) && a.Buffer?
    ensures Ordered(Next(instance, s, a))
  {
    var s' := Next(instance, s, a);
    if |s.buffer| < MAX_BUFFER {
      assert Path(s') == Path(s);
    } else {
      assert Path(s) == Path(s') + [s.inHand.value];
      assert forall i :: 0 <= i < |Path(s')| ==> Path(s')[i] == Path(s)[i];
      IncreasingDropLast(Path(s'), s.inHand.value);
    }
  }

  lemma StepOrders(instance: string, s: State, a: Action)
    requires Enabled(s, a) && Ordered(s)
    ensures Ordered(Next(instance, s, a))
  {
    var s' := Next(instance, s, a);
    match a {
      case Receive(_) => ReceiveOrders(instance, s, a);
      case Buffer => BufferOrders(instance, s, a);
      case MarkRehydrated => assert Path(s') == Path(s);
      case StartDrain => assert Path(s') == Path(s);
      case HandOver => assert Path(s') == Path(s);
      case EndDrain => assert Path(s') == Path(s);
    }
  }

  lemma {:induction false} RunKeeps(instance: string, s: State, run: seq<Action>, n: nat)
    requires IsRun(instance, s, run) && Accounted(s, n) && Ordered(s)
    ensures Accounted(After(instance, s, run), n) && Ordered(After(instance, s, run))
    decreases |run|
  {
    if run != [] {
      StepAccounts(instance, s, run[0], n);
      StepOrders(instance, s, run[0]);
      RunKeeps(instance, Next(instance, s, run[0]), run[1..], n);
    }
  }

  /** Over every interleaving of arrivals, marking and draining: each relevant event received is
      in exactly one place, so it is never handed over twice; buffered events are handed over in
      arrival order; and only a full buffer drops one. */
  lemma AtMostOnceInOrder(instance: string, run: seq<Action>, n: nat)
    requires IsRun(instance, START, run)
    ensures var s := After(instance, START, run);
            && Handed(s, n) + Underway(s, n) + Count(s.dropped, n) == (if n < |s.received| then 1 else 0)
            && Increasing(s.drained)
  {
    RunKeeps(instance, START, run, n);
    DrainedInOrder(After(instance, START, run));
  }

  lemma DrainedInOrder(s: State)
    requires Ordered(s)
    ensures Increasing(s.drained)
  {
    assert forall i :: 0 <= i < |s.drained| ==> Path(s)[i] == s.drained[i];
  }

  /** Somewhere in the run this event is to be buffered while the buffer holds the maximum. */
  predicate BufferedWhenFull(instance: string, s: State, run: seq<Action>, n: nat)
    requires IsRun(instance, s, run)
    decreases |run|
  {
    run != [] &&
    ((run[0].Buffer? && s.inHand.value == n && |s.buffer| >= 1000)
     || BufferedWhenFull(instance, Next(instance, s, run[0]), run[1..], n))
  }

  lemma {:induction false} DropsIff(instance: string, s: State, run: seq<Action>, n: nat)
    requires IsRun(instance, s, run)
    ensures Count(After(instance, s, run).dropped, n) >= Count(s.dropped, n)
    ensures Count(After(instance, s, run).dropped, n) > Count(s.dropped, n) <==> BufferedWhenFull(instance, s, run, n)
    decreases |run|
  {
    if run != [] {
      if run[0].Buffer? {
        SumSnoc(Is(n), s.dropped, s.inHand.value);
      }
      DropsIff(instance, Next(instance, s, run[0]), run[1..], n);
    }
  }

  /** Over every run, an event received is neither handed over nor under way exactly when it was to be
      buffered while a thousand events were already waiting. */
  lemma LostIffBufferedWhenFull(instance: string, run: seq<Action>, n: nat)
    requires IsRun(instance, START, run) && n < |After(instance, START, run).received|
    ensures var s := After(instance, START, run);
            Handed(s, n) + Underway(s, n) == 0 <==> BufferedWhenFull(instance, START, run, n)
  {
    AtMostOnceInOrder(instance, run, n);
    DropsIff(instance, START, run, n);
  }

  // ---- the barrier between buffering and draining ----------------------------------

  predicate NoDrainIn(run: seq<Action>) {
    forall i :: 0 <= i < |run| ==> !run[i].StartDrain?
  }

  /** After rehydration nothing new is set aside for buffering, so without another drain the
      buffer, the event that may be in hand and what is dropped from now on are together what was
      buffered and in hand; something is dropped only if the buffer was full. */
  lemma {:induction false} BufferSettles(instance: string, s: State, run: seq<Action>)
    requires s.rehydrated && IsRun(instance, s, run) && NoDrainIn(run)
    ensures var t := After(instance, s, run);
            && t.rehydrated
            && s.dropped <= t.dropped
            && t.buffer + InHand(t) + t.dropped[|s.dropped|..] == s.buffer + InHand(s)
            && (t.dropped != s.dropped ==> |s.buffer| >= MAX_BUFFER)
    decreases |run|
  {
    if run != [] {
      assert !run[0].StartDrain?;
      var s' := Next(instance, s, run[0]);
      if run[0].Buffer? {
        BufferFrozen(instance, s', run[1..]);
      } else {
        BufferSettles(instance, s', run[1..]);
      }
    }
  }

  lemma {:induction false} BufferFrozen(instance: string, s: State, run: seq<Action>)
    requires s.rehydrated && s.inHand.None? && IsRun(instance, s, run) && NoDrainIn(run)
    ensures var t := After(instance, s, run);
            t.rehydrated && t.inHand.None? && t.buffer == s.buffer && t.dropped == s.dropped
    decreases |run|
  {
    if run != [] {
      assert !run[0].StartDrain?;
      BufferFrozen(instance, Next(instance, s, run[0]), run[1..]);
    }
  }

  /** Nothing is in progress. */
  predicate Quiet(s: State) {
    s.inHand.None? && s.draining.None?
  }

  /** The start-up drain, after rehydration was marked: once everything in progress has finished,
      every event ever received has been handed over exactly once or was dropped by a full buffer
      if and only if no event was in hand, set aside but not yet buffered, when the drain emptied the
      buffer. The event in hand then is left in the buffer, and nothing hands it over. */
  lemma DrainDeliversIff(instance: string, before: seq<Action>, after: seq<Action>)
    requires IsRun(instance, START, before)
    requires var s := After(instance, START, before);
             && s.rehydrated && s.draining.None?
             && NoDrainIn(after) && IsRun(instance, Next(instance, s, StartDrain), after)
             && Quiet(After(instance, Next(instance, s, StartDrain), after))
    ensures var s := After(instance, START, before);
            var t := After(instance, Next(instance, s, StartDrain), after);
            && t.buffer == InHand(s)
            && ((forall n :: 0 <= n < |t.received| ==> Handed(t, n) + Count(t.dropped, n) == 1) <==> s.inHand.None?)
  {
    var s := After(instance, START, before);
    var d := Next(instance, s, StartDrain);
    var t := After(instance, d, after);
    BufferSettles(instance, d, after);
    assert t.buffer + InHand(t) == t.buffer && d.buffer + InHand(d) == InHand(s);
    if s.inHand.Some? {
      var n := s.inHand.value;
      AccountedThroughDrain(instance, before, after, n);
      ReceivedGrows(instance, d, after);
      SumOne(Is(n), n);
      assert Accounted(t, n) && Count(t.buffer, n) == 1;
    } else {
      forall n | 0 <= n < |t.received| ensures Handed(t, n) + Count(t.dropped, n) == 1 {
        AccountedThroughDrain(instance, before, after, n);
        assert Accounted(t, n) && Underway(t, n) == 0;
      }
    }
  }

  lemma AccountedThroughDrain(instance: string, before: seq<Action>, after: seq<Action>, n: nat)
    requires IsRun(instance, START, before)
    requires var s := After(instance, START, before);
             s.rehydrated && s.draining.None? && IsRun(instance, Next(instance, s, StartDrain), after)
    ensures var s := After(instance, START, before);
            && Accounted(After(instance, Next(instance, s, StartDrain), after), n)
            && (s.inHand.Some? ==> s.inHand.value < |s.received|)
  {
    var s := After(instance, START, before);
    RunKeeps(instance, START, before, n);
    if s.inHand.Some? {
      assert Path(s)[|Path(s)| - 1] == s.inHand.value;
    }
    StepAccounts(instance, s, StartDrain, n);
    StepOrders(instance, s, StartDrain);
    RunKeeps(instance, Next(instance, s, StartDrain), after, n);
  }

  /** The failing case: an event found to precede rehydration is buffered after the start-up drain has
      emptied the buffer, and stays there when everything has finished. */
  lemma DrainMissesEvent(instance: string, m: Message) returns (run: seq<Action>)
    requires Relevant(instance, m).Some?
    ensures IsRun(instance, START, run)
    ensures var t := After(instance, START, run);
            t.rehydrated && Quiet(t) && t.received == [Relevant(instance, m).value]
            && t.buffer == [0] && Handed(t, 0) == 0 && t.dropped == []
  {
    var s1 := Next(instance, START, Receive(m));
    var s2 := Next(instance, s1, MarkRehydrated);
    var s3 := Next(instance, s2, StartDrain);
    var s4 := Next(instance, s3, Buffer);
    Prepend(instance, s4, EndDrain, []);
    Prepend(instance, s3, Buffer, [EndDrain] + []);
    Prepend(instance, s2, StartDrain, [Buffer] + ([EndDrain] + []));
    Prepend(instance, s1, MarkRehydrated, [StartDrain] + ([Buffer] + ([EndDrain] + [])));
    run := [MarkRehydrated] + ([StartDrain] + ([Buffer] + ([EndDrain] + [])));
    Prepend(instance, START, Receive(m), run);
    run := [Receive(m)] + run;
  }

  lemma Prepend(instance: string, s: State, a: Action, run: seq<Action>)
    requires Enabled(s, a) && IsRun(instance, Next(instance, s, a), run)
    ensures IsRun(instance, s, [a] + run)
    ensures After(instance, s, [a] + run) == After(instance, Next(instance, s, a), run)
  {
    assert ([a] + run)[1..] == run;
  }

  lemma {:induction false} ReceivedGrows(instance: string, s: State, run: seq<Action>)
    requires IsRun(instance, s, run)
    ensures |s.received| <= |After(instance, s, run).received|
    decreases |run|
  {
    if run != [] {
      ReceivedGrows(instance, Next(instance, s, run[0]), run[1..]);
    }
  }

  /** A message meant for us: well-formed, from another instance, with an event type. */
  predicate ForUs(instance: string, m: Message) {
    m.Message? && m.source != Some(instance) && m.eventType.Some? && m.eventType.value != ""
  }

  /** The events of the messages for us, in arrival order: type and correlation id as sent, an empty
      correlation id as none. */
  function Wanted(instance: string, run: seq<Action>): seq<Event> {
    if run == [] then []
    else
      (if run[0].Receive? && ForUs(instance, run[0].m)
       then [Event(run[0].m.eventType.value,
                   if run[0].m.correlation.Some? && run[0].m.correlation.value != "" then run[0].m.correlation else None)]
       else [])
      + Wanted(instance, run[1..])
  }

  /** Over every run exactly those events are received. */
  lemma {:induction false} ReceivesWhatIsWanted(instance: string, s: State, run: seq<Action>)
    requires IsRun(instance, s, run)
    ensures After(instance, s, run).received == s.received + Wanted(instance, run)
    decreases |run|
  {
    if run != [] {
      ReceivesWhatIsWanted(instance, Next(instance, s, run[0]), run[1..]);
    }
  }

  /** The bus object, each method undisturbed. `handed` is what the scheduler was notified of. */
  class EventBusObject {
    const instanceId: string
    var rehydrated: bool
    var buffer: seq<Event>
    var handed: seq<Event>

    constructor (instanceId: string)
      ensures this.instanceId == instanceId && !rehydrated && buffer == [] && handed == []
    {
      this.instanceId := instanceId;
      rehydrated, buffer, handed := false, [], [];
    }

    method HandleMessage(m: Message)
      modifies this`buffer, this`handed
      ensures !ForUs(instanceId, m) ==> handed == old(handed) && buffer == old(buffer)
      ensures ForUs(instanceId, m) ==>
                var correlation := if m.correlation.Some? && m.correlation.value != "" then m.correlation else None;
                var e := Event(m.eventType.value, correlation);
                && handed == (if rehydrated then old(handed) + [e] else old(handed))
                && buffer == (if !rehydrated && |old(buffer)| < 1000 then old(buffer) + [e] else old(buffer))
    {
      if m.Malformed? {
        return;
      }
      if m.source == Some(instanceId) {
        return;
      }
      if m.eventType.None? || m.eventType.value == "" {
        return;
      }
      var correlation := if m.correlation == Some("") then None else m.correlation;
      var e := Event(m.eventType.value, correlation);
      if !rehydrated {
        if |buffer| < MAX_BUFFER {
          buffer := buffer + [e];
        }
        return;
      }
      handed := handed + [e];
    }

    method MarkRehydrationComplete()
      modifies this`rehydrated
      ensures rehydrated
    {
      rehydrated := true;
    }

    method DrainBufferedEvents() returns (dispatched: nat)
      modifies this`buffer, this`handed
      ensures buffer == [] && dispatched == |old(buffer)|
      ensures handed == old(handed) + old(buffer)
    {
      var pending := buffer;
      buffer := [];
      dispatched := 0;
      while dispatched < |pending|
        invariant dispatched <= |pending| && buffer == []
        invariant handed == old(handed) + pending[..dispatched]
      {
        assert pending[..dispatched + 1] == pending[..dispatched] + [pending[dispatched]];
        handed := handed + [pending[dispatched]];
        dispatched := dispatched + 1;
      }
      assert pending[..dispatched] == pending;
    }
  }
}
