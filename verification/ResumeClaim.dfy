/** Resuming a waiting FlowRun. Any number of processes, on any instances, fire rehydrated
    callbacks for the same run any number of times; dead-lettering and every other writer of the
    status column interleave with them. The conditional UPDATE on status 'waiting' with its commit
    is one atomic step, and is the only arbiter. */
module ResumeClaim {
  import opened Prelude

  datatype Status = Waiting | Executing | DeadLetter | Other(name: string)

  /** A callback is identified by the number of its firing. */
  datatype Pc =
    | Idle
    | Checked(firing: nat, hasEu: bool)             // flow found in the registry, claim to come
    | Won(firing: nat, hasEu: bool, episode: nat)   // claim committed with one row updated
    | EuDone(firing: nat, episode: nat)             // EU step done, skipped or failed; run to come

  /** What happened, in order. An episode is one stay of the row in 'waiting'. */
  datatype Event =
    | Claimed(firing: nat, episode: nat)
    | DeadLettered(episode: nat)
    | LeftOtherwise(episode: nat)
    | EuResumed(firing: nat, episode: nat)
    | Ran(firing: nat, episode: nat)

  datatype State = State(
    status: Status,
    episode: nat,
    firings: nat,
    procs: seq<Pc>,
    log: seq<Event>)

  datatype Action =
    | Fire(w: nat, found: bool, hasEu: bool)
    | Claim(w: nat, commitOk: bool)
    | ResumeEu(w: nat)
    | RunFlow(w: nat)
    | MoveToDeadLetter(commitOk: bool)
    | WriteStatus(status: Status)    // the flow runner, the API, anybody else
    | Crash(w: nat)

  predicate Enabled(s: State, a: Action) {
    match a
    case Fire(w, _, _) => w < |s.procs| && s.procs[w].Idle?
    case Claim(w, _) => w < |s.procs| && s.procs[w].Checked?
    case ResumeEu(w) => w < |s.procs| && s.procs[w].Won?
    case RunFlow(w) => w < |s.procs| && s.procs[w].EuDone?
    case Crash(w) => w < |s.procs|
    case _ => true
  }

  function Next(s: State, a: Action): State
    requires Enabled(s, a)
  {
    match a
    case Fire(w, found, hasEu) =>
      if found then s.(firings := s.firings + 1, procs := s.procs[w := Checked(s.firings, hasEu)])
      else s.(firings := s.firings + 1)
    case Claim(w, commitOk) =>
      var pc := s.procs[w];
      // A failed commit rolls the update back; no row updated means another writer was first.
      if commitOk && s.status.Waiting? then
        s.(status := Executing,
           procs := s.procs[w := Won(pc.firing, pc.hasEu, s.episode)],
           log := s.log + [Claimed(pc.firing, s.episode)])
      else s.(procs := s.procs[w := Idle])
    case ResumeEu(w) =>
      var pc := s.procs[w];
      s.(procs := s.procs[w := EuDone(pc.firing, pc.episode)],
         log := if pc.hasEu then s.log + [EuResumed(pc.firing, pc.episode)] else s.log)
    case RunFlow(w) =>
      var pc := s.procs[w];
      s.(procs := s.procs[w := Idle], log := s.log + [Ran(pc.firing, pc.episode)])
    case MoveToDeadLetter(commitOk) =>
      if commitOk && s.status.Waiting? then
        s.(status := DeadLetter, log := s.log + [DeadLettered(s.episode)])
      else s
    case WriteStatus(status) =>
      s.(status := status,
         episode := if status.Waiting? && !s.status.Waiting? then s.episode + 1 else s.episode,
         log := if s.status.Waiting? && !status.Waiting? then s.log + [LeftOtherwise(s.episode)] else s.log)
    case Crash(w) => s.(procs := s.procs[w := Idle])
  }

  function Start(n: nat, status: Status): State {
    State(status, if status.Waiting? then 1 else 0, 0, seq(n, _ => Idle), [])
  }

  predicate IsRun(s: State, run: seq<Action>)
    decreases |run|
  {
    run == [] || (Enabled(s, run[0]) && IsRun(Next(s, run[0]), run[1..]))
  }

  function After(s: State, run: seq<Action>): State
    requires IsRun(s, run)
    decreases |run|
  {
    if run == [] then s else After(Next(s, run[0]), run[1..])
  }

  // ---- what holds of the log ---------------------------------------------

  predicate Ends(e: Event) {
    e.Claimed? || e.DeadLettered? || e.LeftOtherwise?
  }

  /** Each waiting episode is ended at most once, by whatever ends it. */
  predicate EndedOnce(log: seq<Event>) {
    forall i, j :: 0 <= i < j < |log| && Ends(log[i]) && Ends(log[j]) ==> log[i].episode != log[j].episode
  }

  /** At most one EU resume and one flow resume per episode. */
  predicate ActedOnce(log: seq<Event>) {
    && (forall i, j :: 0 <= i < j < |log| && log[i].EuResumed? && log[j].EuResumed? ==>
          log[i].episode != log[j].episode)
    && (forall i, j :: 0 <= i < j < |log| && log[i].Ran? && log[j].Ran? ==>
          log[i].episode != log[j].episode)
  }

  /** The callback won this episode, earlier in the log. */
  predicate WonBefore(log: seq<Event>, i: nat, firing: nat, episode: nat) {
    exists k :: 0 <= k < i && k < |log| && log[k] == Claimed(firing, episode)
  }

  /** Acting callbacks acted after their own committed claim, the EU step before the flow. */
  predicate ActedAfterOwnClaim(log: seq<Event>) {
    && (forall i :: 0 <= i < |log| && (log[i].EuResumed? || log[i].Ran?) ==>
          WonBefore(log, i, log[i].firing, log[i].episode))
    && (forall i, j :: 0 <= i < j < |log| && log[i].Ran? && log[j].EuResumed? ==>
          log[i].episode != log[j].episode)
  }

  // ---- the inductive invariant --------------------------------------------

  predicate LogBelow(s: State) {
    forall i :: 0 <= i < |s.log| ==>
      && s.log[i].episode <= s.episode
      && (s.status.Waiting? && Ends(s.log[i]) ==> s.log[i].episode < s.episode)
  }

  predicate NotYet(log: seq<Event>, pc: Pc) {
    && (pc.Won? ==> forall i :: 0 <= i < |log| && (log[i].EuResumed? || log[i].Ran?) ==>
          log[i].episode != pc.episode)
    && (pc.EuDone? ==> forall i :: 0 <= i < |log| && log[i].Ran? ==> log[i].episode != pc.episode)
  }

  predicate Holds(pc: Pc) {
    pc.Won? || pc.EuDone?
  }

  predicate LogOk(log: seq<Event>) {
    EndedOnce(log) && ActedOnce(log) && ActedAfterOwnClaim(log)
  }

  /** A process past its claim is entitled to act on its episode and has not done so. */
  predicate PcOk(firings: nat, log: seq<Event>, pc: Pc) {
    && (!pc.Idle? ==> pc.firing < firings)
    && (Holds(pc) ==> WonBefore(log, |log|, pc.firing, pc.episode))
    && NotYet(log, pc)
  }

  predicate DistinctFirings(procs: seq<Pc>) {
    forall v, w :: 0 <= v < w < |procs| && !procs[v].Idle? && !procs[w].Idle? ==>
      procs[v].firing != procs[w].firing
  }

  predicate Inv(s: State) {
    && LogOk(s.log)
    && LogBelow(s)
    && (forall w :: 0 <= w < |s.procs| ==> PcOk(s.firings, s.log, s.procs[w]))
    && DistinctFirings(s.procs)
  }

  /** Two processes entitled to the same episode are the same process. */
  lemma SoleHolder(s: State, v: nat, w: nat)
    requires Inv(s) && v < |s.procs| && w < |s.procs|
    requires Holds(s.procs[v]) && Holds(s.procs[w]) && s.procs[v].episode == s.procs[w].episode
    ensures v == w
  {
    assert PcOk(s.firings, s.log, s.procs[v]) && PcOk(s.firings, s.log, s.procs[w]);
    var i :| 0 <= i < |s.log| && s.log[i] == Claimed(s.procs[v].firing, s.procs[v].episode);
    var j :| 0 <= j < |s.log| && s.log[j] == Claimed(s.procs[w].firing, s.procs[w].episode);
    assert Ends(s.log[i]) && Ends(s.log[j]);
    assert i == j;
  }

  /** Appending to the log keeps what was established about its earlier part. */
  lemma WonStays(log: seq<Event>, e: Event)
    ensures forall i: nat, f, ep :: i <= |log| && WonBefore(log, i, f, ep) ==> WonBefore(log + [e], i, f, ep)
    ensures forall f, ep :: WonBefore(log, |log|, f, ep) ==> WonBefore(log + [e], |log| + 1, f, ep)
  {
    forall i: nat, f, ep | i <= |log| && WonBefore(log, i, f, ep)
      ensures WonBefore(log + [e], i, f, ep)
    {
      var k :| 0 <= k < i && k < |log| && log[k] == Claimed(f, ep);
      assert (log + [e])[k] == Claimed(f, ep);
    }
    forall f, ep | WonBefore(log, |log|, f, ep)
      ensures WonBefore(log + [e], |log| + 1, f, ep)
    {
      var k :| 0 <= k < |log| && log[k] == Claimed(f, ep);
      assert (log + [e])[k] == Claimed(f, ep);
    }
  }

  /** What a new event must satisfy for the log to stay in order. */
  predicate Fits(log: seq<Event>, e: Event) {
    && (Ends(e) ==> forall i :: 0 <= i < |log| && Ends(log[i]) ==> log[i].episode != e.episode)
    && (e.EuResumed? || e.Ran? ==>
          && WonBefore(log, |log|, e.firing, e.episode)
          && forall i :: 0 <= i < |log| && log[i].Ran? ==> log[i].episode != e.episode)
    && (e.EuResumed? ==> forall i :: 0 <= i < |log| && log[i].EuResumed? ==> log[i].episode != e.episode)
  }

  lemma LogGrows(log: seq<Event>, e: Event)
    requires LogOk(log) && Fits(log, e)
    ensures LogOk(log + [e])
  {
    WonStays(log, e);
  }

  lemma PcStays(firings: nat, log: seq<Event>, e: Event, pc: Pc)
    requires PcOk(firings, log, pc)
    requires Holds(pc) && (e.EuResumed? || e.Ran?) ==> e.episode != pc.episode
    ensures PcOk(firings, log + [e], pc)
  {
    WonStays(log, e);
  }

  /** Nobody acts on an episode that has not been ended by a claim. */
  lemma NoActBeforeEnd(s: State, i: nat)
    requires Inv(s) && s.status.Waiting? && i < |s.log| && (s.log[i].EuResumed? || s.log[i].Ran?)
    ensures s.log[i].episode != s.episode
  {
    var k :| 0 <= k < i && s.log[k] == Claimed(s.log[i].firing, s.log[i].episode);
    assert Ends(s.log[k]);
  }

  lemma ClaimKeeps(s: State, a: Action)
    requires Inv(s) && Enabled(s, a) && a.Claim?
    ensures Inv(Next(s, a))
  {
    var pc, s' := s.procs[a.w], Next(s, a);
    assert PcOk(s.firings, s.log, pc);
    if a.commitOk && s.status.Waiting? {
      var e := Claimed(pc.firing, s.episode);
      LogGrows(s.log, e);
      forall w | 0 <= w < |s'.procs| ensures PcOk(s'.firings, s'.log, s'.procs[w]) {
        PcStays(s.firings, s.log, e, s.procs[w]);
        if w == a.w {
          assert s'.log[|s.log|] == e;
          forall i | 0 <= i < |s.log| && (s.log[i].EuResumed? || s.log[i].Ran?)
            ensures s.log[i].episode != s.episode
          {
            NoActBeforeEnd(s, i);
          }
        }
      }
    }
  }

  /** A process at `w` appends an act on its own episode: nobody else is entitled to it. */
  lemma ActKeepsOthers(s: State, w: nat, e: Event, v: nat)
    requires Inv(s) && w < |s.procs| && Holds(s.procs[w]) && v < |s.procs| && v != w
    requires (e.EuResumed? || e.Ran?) && e.episode == s.procs[w].episode
    ensures PcOk(s.firings, s.log + [e], s.procs[v])
  {
    if Holds(s.procs[v]) && s.procs[v].episode == e.episode {
      SoleHolder(s, v, w);
    }
    PcStays(s.firings, s.log, e, s.procs[v]);
  }

  lemma ResumeEuKeepsOwn(s: State, a: Action)
    requires Inv(s) && Enabled(s, a) && a.ResumeEu?
    ensures PcOk(Next(s, a).firings, Next(s, a).log, Next(s, a).procs[a.w])
  {
    var pc := s.procs[a.w];
    assert PcOk(s.firings, s.log, pc);
    WonStays(s.log, EuResumed(pc.firing, pc.episode));
  }

  lemma ResumeEuKeeps(s: State, a: Action)
    requires Inv(s) && Enabled(s, a) && a.ResumeEu?
    ensures Inv(Next(s, a))
  {
    var pc, s' := s.procs[a.w], Next(s, a);
    var e := EuResumed(pc.firing, pc.episode);
    assert PcOk(s.firings, s.log, pc);
    LogGrows(s.log, e);
    assert LogBelow(s') by {
      var k :| 0 <= k < |s.log| && s.log[k] == Claimed(pc.firing, pc.episode);
    }
    forall v | 0 <= v < |s'.procs| ensures PcOk(s'.firings, s'.log, s'.procs[v]) {
      if v == a.w {
        ResumeEuKeepsOwn(s, a);
      } else if pc.hasEu {
        ActKeepsOthers(s, a.w, e, v);
      }
    }
  }

  lemma RunFlowKeeps(s: State, a: Action)
    requires Inv(s) && Enabled(s, a) && a.RunFlow?
    ensures Inv(Next(s, a))
  {
    var pc, s' := s.procs[a.w], Next(s, a);
    var e := Ran(pc.firing, pc.episode);
    assert PcOk(s.firings, s.log, pc);
    LogGrows(s.log, e);
    assert LogBelow(s') by {
      var k :| 0 <= k < |s.log| && s.log[k] == Claimed(pc.firing, pc.episode);
    }
    forall v | 0 <= v < |s'.procs| ensures PcOk(s'.firings, s'.log, s'.procs[v]) {
      if v != a.w {
        ActKeepsOthers(s, a.w, e, v);
      }
    }
  }

  lemma WriterKeeps(s: State, a: Action)
    requires Inv(s) && (a.MoveToDeadLetter? || a.WriteStatus?)
    ensures Inv(Next(s, a))
  {
    var s' := Next(s, a);
    if s'.log != s.log {
      var e := s'.log[|s.log|];
      LogGrows(s.log, e);
      forall w | 0 <= w < |s'.procs| ensures PcOk(s'.firings, s'.log, s'.procs[w]) {
        PcStays(s.firings, s.log, e, s.procs[w]);
      }
    }
  }

  lemma LocalKeeps(s: State, a: Action)
    requires Inv(s) && Enabled(s, a) && (a.Fire? || a.Crash?)
    ensures Inv(Next(s, a))
  {
    var s' := Next(s, a);
    forall w | 0 <= w < |s'.procs| ensures PcOk(s'.firings, s'.log, s'.procs[w]) {
      assert PcOk(s.firings, s.log, s.procs[w]);
    }
    forall v, w | 0 <= v < w < |s'.procs| && !s'.procs[v].Idle? && !s'.procs[w].Idle?
      ensures s'.procs[v].firing != s'.procs[w].firing
    {
      assert PcOk(s.firings, s.log, s.procs[v]) && PcOk(s.firings, s.log, s.procs[w]);
    }
  }

  lemma StepKeeps(s: State, a: Action)
    requires Inv(s) && Enabled(s, a)
    ensures Inv(Next(s, a))
  {
    match a
    case Fire(_, _, _) => LocalKeeps(s, a);
    case Claim(_, _) => ClaimKeeps(s, a);
    case ResumeEu(_) => ResumeEuKeeps(s, a);
    case RunFlow(_) => RunFlowKeeps(s, a);
    case MoveToDeadLetter(_) => WriterKeeps(s, a);
    case WriteStatus(_) => WriterKeeps(s, a);
    case Crash(_) => LocalKeeps(s, a);
  }

  lemma {:induction false} RunKeeps(s: State, run: seq<Action>)
    requires Inv(s) && IsRun(s, run)
    ensures Inv(After(s, run))
    decreases |run|
  {
    if run != [] {
      StepKeeps(s, run[0]);
      RunKeeps(Next(s, run[0]), run[1..]);
    }
  }

  // ---- theorems -----------------------------------------------------------

  /** For every number of processes and every run: a waiting episode is ended at most once, so a
      winning claim and a dead-letter move never both end it; the EU is resumed and the flow run
      at most once per episode; and each only after that callback's own committed claim. */
  lemma ResumedAtMostOnce(n: nat, status: Status, run: seq<Action>)
    requires IsRun(Start(n, status), run)
    ensures var log := After(Start(n, status), run).log;
            EndedOnce(log) && ActedOnce(log) && ActedAfterOwnClaim(log)
  {
    RunKeeps(Start(n, status), run);
  }

  /** A callback that did not win its claim leaves no trace; in particular none acts on an episode
      that was dead-lettered. */
  lemma DeadLetteredNeverRuns(n: nat, status: Status, run: seq<Action>, d: nat, i: nat)
    requires IsRun(Start(n, status), run)
    requires var log := After(Start(n, status), run).log;
             && d < |log| && log[d].DeadLettered?
             && i < |log| && (log[i].EuResumed? || log[i].Ran?)
    ensures var log := After(Start(n, status), run).log;
            log[i].episode != log[d].episode
  {
    RunKeeps(Start(n, status), run);
    var log := After(Start(n, status), run).log;
    var k :| 0 <= k < i && log[k] == Claimed(log[i].firing, log[i].episode);
    assert Ends(log[k]) && Ends(log[d]);
  }

  /** Actions by which no other writer puts the row back to waiting. */
  predicate NoNewEpisode(run: seq<Action>) {
    forall i :: 0 <= i < |run| ==> !(run[i].WriteStatus? && run[i].status.Waiting?)
  }

  lemma {:induction false} NoSecondWinner(s: State, run: seq<Action>)
    requires !s.status.Waiting? && IsRun(s, run) && NoNewEpisode(run)
    ensures var t := After(s, run);
            && !t.status.Waiting?
            && s.log <= t.log
            && (forall i :: |s.log| <= i < |t.log| ==> !Ends(t.log[i]))
    decreases |run|
  {
    if run != [] {
      assert !(run[0].WriteStatus? && run[0].status.Waiting?);
      var s' := Next(s, run[0]);
      NoSecondWinner(s', run[1..]);
    }
  }

  /** This step is the committed claim of this firing on a row that still waits. */
  predicate WinsNow(s: State, a: Action, firing: nat, episode: nat)
    requires Enabled(s, a)
  {
    a.Claim? && a.commitOk && s.status.Waiting? && s.procs[a.w].firing == firing && s.episode == episode
  }

  predicate Wins(s: State, run: seq<Action>, firing: nat, episode: nat)
    requires IsRun(s, run)
    decreases |run|
  {
    run != [] && (WinsNow(s, run[0], firing, episode) || Wins(Next(s, run[0]), run[1..], firing, episode))
  }

  predicate Buries(s: State, run: seq<Action>, episode: nat)
    requires IsRun(s, run)
    decreases |run|
  {
    run != [] &&
    ((run[0].MoveToDeadLetter? && run[0].commitOk && s.status.Waiting? && s.episode == episode)
     || Buries(Next(s, run[0]), run[1..], episode))
  }

  /** Over every run an episode was claimed by a firing exactly when that firing's update found the row
      waiting in that episode and its commit went through; and it was dead-lettered exactly when a
      dead-letter move did. */
  lemma {:induction false} EndedByWhom(s: State, run: seq<Action>, firing: nat, episode: nat)
    requires IsRun(s, run)
    ensures Claimed(firing, episode) in After(s, run).log <==>
              Claimed(firing, episode) in s.log || Wins(s, run, firing, episode)
    ensures DeadLettered(episode) in After(s, run).log <==>
              DeadLettered(episode) in s.log || Buries(s, run, episode)
    decreases |run|
  {
    if run != [] {
      EndedByWhom(Next(s, run[0]), run[1..], firing, episode);
    }
  }

  /** One callback with nobody in between. */
  function CallbackSteps(s: State, w: nat, found: bool, hasEu: bool, commitOk: bool): seq<Action> {
    if !found then [Fire(w, found, hasEu)]
    else if !(s.status.Waiting? && commitOk) then [Fire(w, found, hasEu), Claim(w, commitOk)]
    else [Fire(w, found, hasEu), Claim(w, commitOk), ResumeEu(w), RunFlow(w)]
  }

  lemma Steps2(s: State, a: Action, b: Action)
    requires Enabled(s, a) && Enabled(Next(s, a), b)
    ensures IsRun(s, [a, b]) && After(s, [a, b]) == Next(Next(s, a), b)
  {
    var s1, last: seq<Action> := Next(s, a), [b];
    assert last[1..] == [];
    assert After(s1, last) == After(Next(s1, b), []);
    assert [a, b][1..] == last;
  }

  /** An undisturbed callback runs its flow exactly when the flow is registered, the row waits and the
      commit goes through; then it has resumed the unit, if there is one, before the flow, and left the
      row executing; otherwise nothing has happened. */
  lemma UndisturbedCallback(s: State, w: nat, found: bool, hasEu: bool, commitOk: bool)
    requires w < |s.procs| && s.procs[w].Idle?
    ensures IsRun(s, CallbackSteps(s, w, found, hasEu, commitOk))
    ensures var t := After(s, CallbackSteps(s, w, found, hasEu, commitOk));
            var f, ep := s.firings, s.episode;
            && t.procs == s.procs
            && (if found && commitOk && s.status.Waiting?
                then t.status == Executing
                     && t.log == s.log + [Claimed(f, ep)] + (if hasEu then [EuResumed(f, ep)] else []) + [Ran(f, ep)]
                else t.status == s.status && t.log == s.log)
  {
    var a, b, c, d := Fire(w, found, hasEu), Claim(w, commitOk), ResumeEu(w), RunFlow(w);
    var run := CallbackSteps(s, w, found, hasEu, commitOk);
    if !found {
      assert run[1..] == [];
    } else {
      Steps2(s, a, b);
      var s2 := Next(Next(s, a), b);
      if s.status.Waiting? && commitOk {
        Steps2(s2, c, d);
        assert run[1..] == [b, c, d] && [b, c, d][1..] == [c, d];
        assert After(s, run) == After(s2, [c, d]);
      }
    }
  }

  // ---- the fate of a claimed episode ----------------------------------------

  function HoldsEpisode(firing: nat, episode: nat): Pc -> nat {
    (pc: Pc) => if Holds(pc) && pc.firing == firing && pc.episode == episode then 1 else 0
  }

  function IsEvent(e: Event): Event -> nat {
    (x: Event) => if x == e then 1 else 0
  }

  /** How many processes still have to act on the episode. */
  function HeldBy(s: State, firing: nat, episode: nat): nat {
    Sum(HoldsEpisode(firing, episode), s.procs)
  }

  function Times(s: State, e: Event): nat {
    Sum(IsEvent(e), s.log)
  }

  /** This step crashes a process that had won the episode and not yet handed it to the flow. */
  function StrandsNow(s: State, a: Action, firing: nat, episode: nat): nat
    requires Enabled(s, a)
  {
    if a.Crash? then HoldsEpisode(firing, episode)(s.procs[a.w]) else 0
  }

  function Strands(s: State, run: seq<Action>, firing: nat, episode: nat): nat
    requires IsRun(s, run)
    decreases |run|
  {
    if run == [] then 0
    else StrandsNow(s, run[0], firing, episode) + Strands(Next(s, run[0]), run[1..], firing, episode)
  }

  lemma LogStep(s: State, a: Action, e: Event)
    requires Enabled(s, a)
    ensures Next(s, a).log == s.log
         || (|Next(s, a).log| == |s.log| + 1 && Next(s, a).log[..|s.log|] == s.log
             && Times(Next(s, a), e) == Times(s, e) + IsEvent(e)(Next(s, a).log[|s.log|]))
  {
    var s' := Next(s, a);
    if s'.log != s.log {
      assert s'.log == s.log + [s'.log[|s.log|]];
      SumSnoc(IsEvent(e), s.log, s'.log[|s.log|]);
    }
  }

  lemma StepFate(s: State, a: Action, f: nat, ep: nat)
    requires Enabled(s, a)
    ensures var s' := Next(s, a);
            HeldBy(s', f, ep) + Times(s', Ran(f, ep)) + StrandsNow(s, a, f, ep) + Times(s, Claimed(f, ep))
              == HeldBy(s, f, ep) + Times(s, Ran(f, ep)) + Times(s', Claimed(f, ep))
  {
    var s' := Next(s, a);
    LogStep(s, a, Ran(f, ep));
    LogStep(s, a, Claimed(f, ep));
    if s'.procs != s.procs {
      SumUpdate(HoldsEpisode(f, ep), s.procs, a.w, s'.procs[a.w]);
    }
  }

  lemma {:induction false} RunFate(s: State, run: seq<Action>, f: nat, ep: nat)
    requires IsRun(s, run)
    ensures var t := After(s, run);
            HeldBy(t, f, ep) + Times(t, Ran(f, ep)) + Strands(s, run, f, ep) + Times(s, Claimed(f, ep))
              == HeldBy(s, f, ep) + Times(s, Ran(f, ep)) + Times(t, Claimed(f, ep))
    decreases |run|
  {
    if run != [] {
      StepFate(s, run[0], f, ep);
      RunFate(Next(s, run[0]), run[1..], f, ep);
    }
  }

  lemma ClaimedOnce(s: State, f: nat, ep: nat)
    requires EndedOnce(s.log) && Claimed(f, ep) in s.log
    ensures Times(s, Claimed(f, ep)) == 1
  {
    var k :| 0 <= k < |s.log| && s.log[k] == Claimed(f, ep);
    var rest := RemoveAt(s.log, k);
    SumRemoveAt(IsEvent(Claimed(f, ep)), s.log, k);
    forall i | 0 <= i < |rest| ensures rest[i] != Claimed(f, ep) {
      var j := if i < k then i else i + 1;
      assert rest[i] == s.log[j] && Ends(s.log[k]);
    }
    SumZero(IsEvent(Claimed(f, ep)), rest);
  }

  /** For every number of processes and every run, a claimed episode has exactly one fate: its flow
      was run, or one process still has to run it, or a crash hit the process that had to. */
  lemma ClaimedHasOneFate(n: nat, status: Status, run: seq<Action>, f: nat, ep: nat)
    requires IsRun(Start(n, status), run)
    requires Claimed(f, ep) in After(Start(n, status), run).log
    ensures var t := After(Start(n, status), run);
            Times(t, Ran(f, ep)) + HeldBy(t, f, ep) + Strands(Start(n, status), run, f, ep) == 1
  {
    var s0 := Start(n, status);
    RunKeeps(s0, run);
    RunFate(s0, run, f, ep);
    ClaimedOnce(After(s0, run), f, ep);
    SumZero(HoldsEpisode(f, ep), s0.procs);
  }

  predicate Finished(s: State, f: nat, ep: nat) {
    forall w :: 0 <= w < |s.procs| ==> !(Holds(s.procs[w]) && s.procs[w].firing == f && s.procs[w].episode == ep)
  }

  /** Hence, exactly when resuming is exactly once: of a claimed episode that no process has in hand,
      the flow was run if and only if no crash hit the process that had won it. */
  lemma RanIffNotStranded(n: nat, status: Status, run: seq<Action>, f: nat, ep: nat)
    requires IsRun(Start(n, status), run)
    requires Claimed(f, ep) in After(Start(n, status), run).log && Finished(After(Start(n, status), run), f, ep)
    ensures Ran(f, ep) in After(Start(n, status), run).log <==> Strands(Start(n, status), run, f, ep) == 0
  {
    var t := After(Start(n, status), run);
    ClaimedHasOneFate(n, status, run, f, ep);
    SumZero(HoldsEpisode(f, ep), t.procs);
    SumZero(IsEvent(Ran(f, ep)), t.log);
  }

  /** A stranded episode is run by nobody, ever. */
  lemma StrandedNeverRuns(n: nat, status: Status, run: seq<Action>, f: nat, ep: nat, i: nat)
    requires IsRun(Start(n, status), run) && Strands(Start(n, status), run, f, ep) > 0
    requires Claimed(f, ep) in After(Start(n, status), run).log
    requires i < |After(Start(n, status), run).log| && After(Start(n, status), run).log[i].Ran?
    ensures After(Start(n, status), run).log[i].episode != ep
  {
    var t := After(Start(n, status), run);
    RunKeeps(Start(n, status), run);
    ClaimedHasOneFate(n, status, run, f, ep);
    var k :| 0 <= k < i && t.log[k] == Claimed(t.log[i].firing, t.log[i].episode);
    var c :| 0 <= c < |t.log| && t.log[c] == Claimed(f, ep);
    assert Ends(t.log[k]) && Ends(t.log[c]);
    SumZero(IsEvent(Ran(f, ep)), t.log);
  }

  /** At most once is not exactly once: with any number of processes, a winner that crashes after its
      commit strands the run, whatever anybody does afterwards. */
  lemma CrashedWinnerStrandsRun(n: nat, w: nat, hasEu: bool, run: seq<Action>)
    requires w < n && IsRun(Start(n, Waiting), [Fire(w, true, hasEu), Claim(w, true), Crash(w)] + run)
    ensures var t := After(Start(n, Waiting), [Fire(w, true, hasEu), Claim(w, true), Crash(w)] + run);
            && Claimed(0, 1) in t.log
            && (forall i :: 0 <= i < |t.log| && t.log[i].Ran? ==> t.log[i].episode != 1)
  {
    var s0, a, b, c := Start(n, Waiting), Fire(w, true, hasEu), Claim(w, true), Crash(w);
    var whole := [a, b, c] + run;
    assert whole[1..] == [b, c] + run && ([b, c] + run)[1..] == [c] + run && ([c] + run)[1..] == run;
    var s2 := Next(Next(s0, a), b);
    assert s2.log == [Claimed(0, 1)] && s2.procs[w] == Won(0, hasEu, 1);
    assert Strands(s0, whole, 0, 1) >= Strands(s2, [c] + run, 0, 1) >= 1;
    LogOnlyGrows(s2, [c] + run);
    assert After(s0, whole) == After(s2, [c] + run);
    assert After(s2, [c] + run).log[0] == Claimed(0, 1);
    forall i | 0 <= i < |After(s0, whole).log| && After(s0, whole).log[i].Ran?
      ensures After(s0, whole).log[i].episode != 1
    {
      StrandedNeverRuns(n, Waiting, whole, 0, 1, i);
    }
  }

  lemma {:induction false} LogOnlyGrows(s: State, run: seq<Action>)
    requires IsRun(s, run)
    ensures s.log <= After(s, run).log
    decreases |run|
  {
    if run != [] {
      LogStep(s, run[0], LeftOtherwise(0));
      LogOnlyGrows(Next(s, run[0]), run[1..]);
    }
  }
}
