/** The circuit breaker: its transitions, their behaviour when calls overlap, and a specification
    of sequential calls that speaks only of the recorded history. */
module CircuitBreaker {
  import opened Prelude

  datatype CircuitState = Closed | Open | HalfOpen

  /** The phase a call was admitted in. */
  datatype Phase = ClosedPhase | HalfOpenPhase

  datatype Config = Config(threshold: int, recovery: int)

  datatype Breaker = Breaker(
    state: CircuitState,
    failures: int,
    openedAt: Option<int>,
    probing: bool)

  const FRESH := Breaker(Closed, 0, None, false)

  function TransitionTo(b: Breaker, state: CircuitState, now: int): Breaker {
    match state
    case Closed => Breaker(Closed, 0, None, false)
    case Open => b.(state := Open, openedAt := Some(now), probing := false)
    case HalfOpen => b.(state := HalfOpen)
  }

  /** Admit a call, telling its phase, or reject it. */
  function Enter(c: Config, b: Breaker, now: int): (Breaker, Option<Phase>) {
    match b.state
    case Closed => (b, Some(ClosedPhase))
    case Open =>
      if b.openedAt.Some? && now - b.openedAt.value >= c.recovery then
        (TransitionTo(b, HalfOpen, now).(probing := true), Some(HalfOpenPhase))
      else (b, None)
    case HalfOpen =>
      if b.probing then (b, None) else (b.(probing := true), Some(HalfOpenPhase))
  }

  function Success(b: Breaker, phase: Phase, now: int): Breaker {
    if phase.HalfOpenPhase? || b.state != Closed then TransitionTo(b, Closed, now) else b.(failures := 0)
  }

  function Failure(c: Config, b: Breaker, phase: Phase, now: int): Breaker {
    if phase.HalfOpenPhase? || b.state.HalfOpen? then
      TransitionTo(b.(failures := c.threshold), Open, now)
    else if b.failures + 1 >= c.threshold then
      TransitionTo(b.(failures := b.failures + 1), Open, now)
    else b.(failures := b.failures + 1)
  }

  // ---- overlapping calls ---------------------------------------------------

  /** Enter and record are separate atomic steps; a call may record only in the phase it was
      admitted in. Clocks may go backwards. */
  datatype Event =
    | Entered(now: int, admitted: Option<Phase>)
    | Succeeded(phase: Phase, now: int)
    | Failed(phase: Phase, now: int)
    | Reset

  /** `calls` and `probes` count the calls admitted in the closed and half-open phase that have not
      recorded a result; `lastFailure` is the time of the latest recorded failure. */
  datatype System = System(b: Breaker, calls: nat, probes: nat, lastFailure: Option<int>)

  function Outstanding(s: System, phase: Phase): nat {
    if phase.ClosedPhase? then s.calls else s.probes
  }

  function Admit(s: System, phase: Phase): System {
    if phase.ClosedPhase? then s.(calls := s.calls + 1) else s.(probes := s.probes + 1)
  }

  function Settle(s: System, phase: Phase): System
    requires Outstanding(s, phase) > 0
  {
    if phase.ClosedPhase? then s.(calls := s.calls - 1) else s.(probes := s.probes - 1)
  }

  predicate Enabled(c: Config, s: System, e: Event) {
    match e
    case Entered(now, admitted) => admitted == Enter(c, s.b, now).1
    case Succeeded(phase, _) => Outstanding(s, phase) > 0
    case Failed(phase, _) => Outstanding(s, phase) > 0
    case Reset => true
  }

  function Next(c: Config, s: System, e: Event): System
    requires Enabled(c, s, e)
  {
    match e
    case Entered(now, admitted) =>
      (if admitted.Some? then Admit(s, admitted.value) else s).(b := Enter(c, s.b, now).0)
    case Succeeded(phase, now) => Settle(s, phase).(b := Success(s.b, phase, now))
    case Failed(phase, now) => Settle(s, phase).(b := Failure(c, s.b, phase, now), lastFailure := Some(now))
    case Reset => s.(b := TransitionTo(s.b, Closed, 0))
  }

  const START := System(FRESH, 0, 0, None)

  /** `states` is the run of `events` from the start: one more state than events. */
  ghost predicate IsRun(c: Config, states: seq<System>, events: seq<Event>) {
    && |states| == |events| + 1
    && states[0] == START
    && forall i :: 0 <= i < |events| ==>
         Enabled(c, states[i], events[i]) && states[i + 1] == Next(c, states[i], events[i])
  }

  /** The state says what the counter and the clock field say. */
  predicate Consistent(c: Config, s: System) {
    && (s.b.state.Closed? <==> s.b.failures < c.threshold)
    && (s.b.state.Closed? <==> s.b.openedAt.None?)
    && (s.b.state.HalfOpen? <==> s.b.probing)
    && (s.b.state.Open? ==> s.b.openedAt == s.lastFailure)
  }

  lemma {:induction false} AlwaysConsistent(c: Config, states: seq<System>, events: seq<Event>, i: nat)
    requires c.threshold >= 1 && IsRun(c, states, events) && i < |states|
    ensures Consistent(c, states[i])
  {
    if i > 0 {
      AlwaysConsistent(c, states, events, i - 1);
      assert Enabled(c, states[i - 1], events[i - 1]);
    }
  }

  ghost predicate ConsistentOnEveryRun(c: Config) {
    forall states, events, i: nat :: IsRun(c, states, events) && i < |states| ==> Consistent(c, states[i])
  }

  /** The threshold is all that matters: zero or less makes a breaker inconsistent from the start. */
  lemma ConsistentIff(c: Config)
    ensures ConsistentOnEveryRun(c) <==> c.threshold >= 1
  {
    if c.threshold >= 1 {
      forall states, events, i: nat | IsRun(c, states, events) && i < |states| ensures Consistent(c, states[i]) {
        AlwaysConsistent(c, states, events, i);
      }
    } else {
      assert IsRun(c, [START], []);
      assert !Consistent(c, [START][0]);
    }
  }

  /** A half-open period: the states from `i` to `j` are half-open and the one before `i` is not. */
  predicate HalfOpenPeriod(states: seq<System>, i: nat, j: nat) {
    && 0 < i <= j < |states|
    && !states[i - 1].b.state.HalfOpen?
    && forall k :: i <= k <= j ==> states[k].b.state.HalfOpen?
  }

  /** Under every interleaving, a half-open period begins by admitting one probe, admits nothing
      else, and is over as soon as any result is recorded. */
  lemma OneProbePerPeriod(c: Config, states: seq<System>, events: seq<Event>, i: nat, j: nat)
    requires c.threshold >= 1 && IsRun(c, states, events) && HalfOpenPeriod(states, i, j)
    ensures events[i - 1].Entered? && events[i - 1].admitted == Some(HalfOpenPhase)
    ensures forall k :: i <= k < j ==> events[k].Entered? && events[k].admitted == None
    ensures j < |events| && !states[j + 1].b.state.HalfOpen? ==> !events[j].Entered?
  {
    assert states[(i - 1) + 1] == Next(c, states[i - 1], events[i - 1]);
    assert states[i].b.state.HalfOpen?;
    forall k | i <= k < j ensures events[k].Entered? && events[k].admitted == None {
      AlwaysConsistent(c, states, events, k);
      assert Enabled(c, states[k], events[k]);
      assert states[k].b.state.HalfOpen? && states[k + 1].b.state.HalfOpen?;
    }
    if j < |events| {
      AlwaysConsistent(c, states, events, j);
      assert Enabled(c, states[j], events[j]);
    }
  }

  /** While open, the recovery timer runs from the latest recorded failure, so a call is admitted
      exactly when the timeout has passed since then. */
  lemma OpenAdmitsIff(c: Config, states: seq<System>, events: seq<Event>, i: nat, now: int)
    requires c.threshold >= 1 && IsRun(c, states, events) && i < |states| && states[i].b.state.Open?
    ensures states[i].lastFailure.Some?
    ensures Enter(c, states[i].b, now).1.Some? <==> now - states[i].lastFailure.value >= c.recovery
  {
    AlwaysConsistent(c, states, events, i);
  }

  lemma {:induction false} HalfOpenIsProbing(c: Config, states: seq<System>, events: seq<Event>, i: nat)
    requires IsRun(c, states, events) && i < |states|
    ensures states[i].b.state.HalfOpen? <==> states[i].b.probing
  {
    if i > 0 {
      HalfOpenIsProbing(c, states, events, i - 1);
      assert states[i] == Next(c, states[i - 1], events[i - 1]);
    }
  }

  /** The result of a probe. */
  predicate ProbeResult(e: Event) {
    (e.Succeeded? || e.Failed?) && e.phase.HalfOpenPhase?
  }

  /** When a half-open period with one probe out ends, the probe is back exactly when it was its own
      result that ended the period. */
  lemma PeriodEndsWithProbeIff(c: Config, states: seq<System>, events: seq<Event>, i: nat)
    requires IsRun(c, states, events) && i < |events|
    requires states[i].b.state.HalfOpen? && states[i].probes == 1 && !states[i + 1].b.state.HalfOpen?
    ensures states[i + 1].probes == 0 <==> ProbeResult(events[i])
  {
    assert Enabled(c, states[i], events[i]) && states[i + 1] == Next(c, states[i], events[i]);
  }

  /** One probe is out during a half-open period and none otherwise. */
  predicate ProbesMatch(s: System) {
    s.probes == if s.b.state.HalfOpen? then 1 else 0
  }

  /** A result of an earlier phase, or a reset, falls into a half-open period. */
  predicate CutsPeriod(s: System, e: Event) {
    s.b.state.HalfOpen? && (e.Reset? || ((e.Succeeded? || e.Failed?) && e.phase.ClosedPhase?))
  }

  lemma StepMatchesIff(c: Config, states: seq<System>, events: seq<Event>, i: nat)
    requires IsRun(c, states, events) && i < |events| && ProbesMatch(states[i])
    ensures ProbesMatch(states[i + 1]) <==> !CutsPeriod(states[i], events[i])
  {
    HalfOpenIsProbing(c, states, events, i);
    assert Enabled(c, states[i], events[i]) && states[i + 1] == Next(c, states[i], events[i]);
  }

  lemma {:induction false} MatchesWithoutCuts(c: Config, states: seq<System>, events: seq<Event>, i: nat)
    requires IsRun(c, states, events) && i < |states|
    requires forall k :: 0 <= k < i ==> !CutsPeriod(states[k], events[k])
    ensures ProbesMatch(states[i])
  {
    if i > 0 {
      MatchesWithoutCuts(c, states, events, i - 1);
      StepMatchesIff(c, states, events, i - 1);
    }
  }

  /** Over whole runs: one probe is out during every half-open period and none outside exactly when no
      result of an earlier phase and no reset falls into a half-open period. */
  lemma OneProbeThroughoutIff(c: Config, states: seq<System>, events: seq<Event>)
    requires IsRun(c, states, events)
    ensures (forall i :: 0 <= i < |states| ==> ProbesMatch(states[i])) <==>
            (forall i :: 0 <= i < |events| ==> !CutsPeriod(states[i], events[i]))
  {
    if forall i :: 0 <= i < |events| ==> !CutsPeriod(states[i], events[i]) {
      forall i | 0 <= i < |states| ensures ProbesMatch(states[i]) {
        MatchesWithoutCuts(c, states, events, i);
      }
    } else {
      var k :| 0 <= k < |events| && CutsPeriod(states[k], events[k]);
      if ProbesMatch(states[k]) {
        StepMatchesIff(c, states, events, k);
      }
    }
  }

  /** In particular never more than one probe is out on such runs. */
  lemma AtMostOneProbe(c: Config, states: seq<System>, events: seq<Event>, i: nat)
    requires IsRun(c, states, events) && i < |states|
    requires forall k :: 0 <= k < |events| ==> !CutsPeriod(states[k], events[k])
    ensures states[i].probes <= 1
  {
    MatchesWithoutCuts(c, states, events, i);
  }

  /** Under every interleaving, whatever the state and whatever phase the call belongs to, a recorded
      success leaves a fresh closed breaker, so that the next call is admitted at any time. */
  lemma SuccessMakesFresh(c: Config, states: seq<System>, events: seq<Event>, i: nat, now: int)
    requires IsRun(c, states, events) && i < |events| && (events[i].Succeeded? || events[i].Reset?)
    ensures states[i + 1].b == Breaker(Closed, 0, None, false)
    ensures Enter(c, states[i + 1].b, now).1 == Some(ClosedPhase)
  {
    ClosedIsIdle(c, states, events, i);
    assert states[i + 1] == Next(c, states[i], events[i]);
  }

  lemma {:induction false} ClosedIsIdle(c: Config, states: seq<System>, events: seq<Event>, i: nat)
    requires IsRun(c, states, events) && i < |states|
    ensures states[i].b.state.Closed? ==> states[i].b.openedAt.None? && !states[i].b.probing
  {
    if i > 0 {
      ClosedIsIdle(c, states, events, i - 1);
      assert states[i] == Next(c, states[i - 1], events[i - 1]);
    }
  }

  /** An open breaker is left exactly by a recorded success, a reset or an admitted probe. */
  lemma OpenIsLeftIff(c: Config, states: seq<System>, events: seq<Event>, i: nat)
    requires IsRun(c, states, events) && i < |events| && states[i].b.state.Open?
    ensures !states[i + 1].b.state.Open? <==>
              events[i].Succeeded? || events[i].Reset? || (events[i].Entered? && events[i].admitted == Some(HalfOpenPhase))
  {
    assert Enabled(c, states[i], events[i]) && states[i + 1] == Next(c, states[i], events[i]);
  }

  // ---- the history rule under overlap ------------------------------------------

  /** How many failures were recorded among the first `i` events since the last success or reset. */
  function FailuresSince(events: seq<Event>, i: nat): nat
    requires i <= |events|
  {
    if i == 0 || events[i - 1].Succeeded? || events[i - 1].Reset? then 0
    else (if events[i - 1].Failed? then 1 else 0) + FailuresSince(events, i - 1)
  }

  /** Whether one of them was the failure of a probe. */
  predicate ProbeFailedSince(events: seq<Event>, i: nat)
    requires i <= |events|
  {
    i > 0 && !events[i - 1].Succeeded? && !events[i - 1].Reset?
    && ((events[i - 1].Failed? && events[i - 1].phase.HalfOpenPhase?) || ProbeFailedSince(events, i - 1))
  }

  /** Under every interleaving the recorded results since the last success or reset decide: the breaker
      is closed exactly while they are fewer failures than the threshold and none is a probe's, and
      then its counter is their number. */
  lemma {:induction false} ClosedIffFewFailures(c: Config, states: seq<System>, events: seq<Event>, i: nat)
    requires c.threshold >= 1 && IsRun(c, states, events) && i < |states|
    ensures states[i].b.state.Closed? <==> FailuresSince(events, i) < c.threshold && !ProbeFailedSince(events, i)
    ensures states[i].b.state.Closed? ==> states[i].b.failures == FailuresSince(events, i)
  {
    if i > 0 {
      ClosedIffFewFailures(c, states, events, i - 1);
      AlwaysConsistent(c, states, events, i - 1);
      assert Enabled(c, states[i - 1], events[i - 1]) && states[i] == Next(c, states[i - 1], events[i - 1]);
    }
  }

  /** When a probe fails the counter stands at the threshold, and the recovery time runs from there. */
  lemma ProbeFailureReopens(c: Config, states: seq<System>, events: seq<Event>, i: nat)
    requires IsRun(c, states, events) && i < |events| && events[i].Failed? && events[i].phase.HalfOpenPhase?
    ensures states[i + 1].b == Breaker(Open, c.threshold, Some(events[i].now), false)
  {
    assert states[i + 1] == Next(c, states[i], events[i]);
  }

  /** More than one probe can be in flight across periods: a late closed-phase result ends the
      half-open period while its probe still runs. */
  lemma TwoProbesInFlight() returns (states: seq<System>, events: seq<Event>)
    ensures IsRun(Config(1, 0), states, events)
    ensures states[|events|].probes == 2
  {
    var c := Config(1, 0);
    events := [Entered(0, Some(ClosedPhase)), Entered(0, Some(ClosedPhase)), Failed(ClosedPhase, 0),
               Entered(0, Some(HalfOpenPhase)), Failed(ClosedPhase, 0), Entered(0, Some(HalfOpenPhase))];
    var s0 := START;
    var s1 := Next(c, s0, events[0]);
    var s2 := Next(c, s1, events[1]);
    var s3 := Next(c, s2, events[2]);
    var s4 := Next(c, s3, events[3]);
    var s5 := Next(c, s4, events[4]);
    var s6 := Next(c, s5, events[5]);
    states := [s0, s1, s2, s3, s4, s5, s6];
  }

  // ---- sequential calls against a history ---------------------------------

  /** One call: when it asks, what the wrapped function does, when its result is recorded. */
  datatype Request = Request(enterAt: int, succeeds: bool, recordAt: int)

  datatype Outcome = Outcome(ok: bool, at: int)

  /** `call`: enter, run the function, record. Tells whether the call was admitted. */
  function CallOnce(c: Config, b: Breaker, r: Request): (Breaker, bool) {
    var (b1, phase) := Enter(c, b, r.enterAt);
    if phase.None? then (b1, false)
    else if r.succeeds then (Success(b1, phase.value, r.recordAt), true)
    else (Failure(c, b1, phase.value, r.recordAt), true)
  }

  function Answers(c: Config, b: Breaker, rs: seq<Request>): seq<bool>
    decreases |rs|
  {
    if rs == [] then []
    else
      var (b', admitted) := CallOnce(c, b, rs[0]);
      [admitted] + Answers(c, b', rs[1..])
  }

  function TrailingFailures(h: seq<Outcome>): nat {
    if h == [] || h[|h| - 1].ok then 0 else 1 + TrailingFailures(h[..|h| - 1])
  }

  /** The rule on the history alone: admit while the trailing run of failures is shorter than the
      threshold, or once the recovery time has passed since the last failure. */
  predicate Admits(c: Config, h: seq<Outcome>, now: int) {
    TrailingFailures(h) < c.threshold || (h != [] && now - h[|h| - 1].at >= c.recovery)
  }

  function RuleAnswers(c: Config, h: seq<Outcome>, rs: seq<Request>): seq<bool>
    decreases |rs|
  {
    if rs == [] then []
    else if Admits(c, h, rs[0].enterAt) then
      [true] + RuleAnswers(c, h + [Outcome(rs[0].succeeds, rs[0].recordAt)], rs[1..])
    else [false] + RuleAnswers(c, h, rs[1..])
  }

  /** The breaker between two sequential calls is determined by the history. */
  predicate Remembers(c: Config, b: Breaker, h: seq<Outcome>) {
    if TrailingFailures(h) < c.threshold then b == Breaker(Closed, TrailingFailures(h), None, false)
    else h != [] && b.state.Open? && b.openedAt == Some(h[|h| - 1].at) && !b.probing
  }

  lemma CallFollowsRule(c: Config, b: Breaker, h: seq<Outcome>, r: Request)
    requires c.threshold >= 1 && Remembers(c, b, h)
    ensures CallOnce(c, b, r).1 == Admits(c, h, r.enterAt)
    ensures Remembers(c, CallOnce(c, b, r).0,
                      if Admits(c, h, r.enterAt) then h + [Outcome(r.succeeds, r.recordAt)] else h)
  {
    var h' := h + [Outcome(r.succeeds, r.recordAt)];
    assert h'[..|h'| - 1] == h;
  }

  lemma {:induction false} CallsFollowRule(c: Config, b: Breaker, h: seq<Outcome>, rs: seq<Request>)
    requires c.threshold >= 1 && Remembers(c, b, h)
    ensures Answers(c, b, rs) == RuleAnswers(c, h, rs)
    decreases |rs|
  {
    if rs != [] {
      CallFollowsRule(c, b, h, rs[0]);
      var h' := if Admits(c, h, rs[0].enterAt) then h + [Outcome(rs[0].succeeds, rs[0].recordAt)] else h;
      CallsFollowRule(c, CallOnce(c, b, rs[0]).0, h', rs[1..]);
    }
  }

  /** For every sequence of non-overlapping calls, a fresh breaker admits exactly the calls the
      history rule admits. */
  lemma RefinesHistoryRule(c: Config, rs: seq<Request>)
    requires c.threshold >= 1
    ensures Answers(c, FRESH, rs) == RuleAnswers(c, [], rs)
  {
    CallsFollowRule(c, FRESH, [], rs);
  }

  /** With threshold zero or less the first call is admitted although the rule, having no failure
      to wait out, would reject it. */
  lemma RefinementNeedsThreshold(c: Config, r: Request)
    requires c.threshold <= 0
    ensures Answers(c, FRESH, [r]) == [true] && RuleAnswers(c, [], [r]) == [false]
  {
    assert [r][1..] == [];
  }

  ghost predicate FollowsRule(c: Config) {
    forall rs :: Answers(c, FRESH, rs) == RuleAnswers(c, [], rs)
  }

  /** Hence a breaker follows the history rule exactly when its threshold is at least one. */
  lemma FollowsRuleIff(c: Config)
    ensures FollowsRule(c) <==> c.threshold >= 1
  {
    if c.threshold >= 1 {
      forall rs ensures Answers(c, FRESH, rs) == RuleAnswers(c, [], rs) {
        RefinesHistoryRule(c, rs);
      }
    } else {
      var r := Request(0, true, 0);
      RefinementNeedsThreshold(c, r);
      assert Answers(c, FRESH, [r]) != RuleAnswers(c, [], [r]);
    }
  }

  /** The breaker object; the clock is a parameter. */
  class CircuitBreakerObject {
    const config: Config
    var state: CircuitState
    var failureCount: int
    var openedAt: Option<int>
    var halfOpenInFlight: bool

    function View(): Breaker
      reads this
    {
      Breaker(state, failureCount, openedAt, halfOpenInFlight)
    }

    constructor (threshold: int, recovery: int)
      ensures config == Config(threshold, recovery) && View() == FRESH
    {
      config := Config(threshold, recovery);
      state, failureCount, openedAt, halfOpenInFlight := Closed, 0, None, false;
    }

    method Transition(target: CircuitState, now: int)
      modifies this
      ensures View() == TransitionTo(old(View()), target, now)
    {
      state := target;
      if target.Closed? {
        failureCount := 0;
        openedAt := None;
        halfOpenInFlight := false;
      } else if target.Open? {
        openedAt := Some(now);
        halfOpenInFlight := false;
      }
    }

    /** None stands for CircuitOpenError. */
    method EnterCall(now: int) returns (phase: Option<Phase>)
      modifies this
      ensures (View(), phase) == Enter(config, old(View()), now)
    {
      if state.Closed? {
        return Some(ClosedPhase);
      }
      if state.Open? {
        if openedAt.Some? {
          var elapsed := now - openedAt.value;
          if elapsed >= config.recovery {
            Transition(HalfOpen, now);
            halfOpenInFlight := true;
            return Some(HalfOpenPhase);
          }
        }
        return None;
      }
      if halfOpenInFlight {
        return None;
      }
      halfOpenInFlight := true;
      phase := Some(HalfOpenPhase);
    }

    method RecordSuccess(phase: Phase, now: int)
      modifies this
      ensures View() == Success(old(View()), phase, now)
    {
      if phase.HalfOpenPhase? || !state.Closed? {
        Transition(Closed, now);
      } else {
        failureCount := 0;
      }
    }

    method RecordFailure(phase: Phase, now: int)
      modifies this
      ensures View() == Failure(config, old(View()), phase, now)
    {
      if phase.HalfOpenPhase? || state.HalfOpen? {
        failureCount := config.threshold;
        Transition(Open, now);
        return;
      }
      failureCount := failureCount + 1;
      if failureCount >= config.threshold {
        Transition(Open, now);
      }
    }

    /** Run a function that succeeds or raises as told. */
    method Call(r: Request) returns (admitted: bool)
      modifies this
      ensures (View(), admitted) == CallOnce(config, old(View()), r)
    {
      var phase := EnterCall(r.enterAt);
      if phase.None? {
        return false;
      }
      if r.succeeds {
        RecordSuccess(phase.value, r.recordAt);
      } else {
        RecordFailure(phase.value, r.recordAt);
      }
      admitted := true;
    }

    method Reset(now: int)
      modifies this
      ensures View() == FRESH
    {
      Transition(Closed, now);
    }
  }
}
