/** The order in which jobs pass through the Redis queue, over every run of the protocol. */
module RedisOrder {
  import opened Prelude
  import opened JobPayload
  import opened RedisStore
  import opened RedisProtocol

  /** The jobs a step puts on the main list, in the order they arrive: an enqueued one while there is
      room, the ready delayed ones by increasing score, a recovered one. */
  function EntersNow(capacity: nat, s: State, a: Action): seq<Json>
    requires Enabled(s, a)
  {
    match a
    case Enqueue(p) => if |s.st.main| + |s.st.delayed| < capacity then [ToJson(p)] else []
    case Promote(now) => Members(s.st.delayed[..ReadyCount(s.st.delayed, now, 100)])
    case Requeue(w) => [s.procs[w].raw]
    case _ => []
  }

  /** The job a step takes off the main list. */
  function LeavesNow(s: State, a: Action): seq<Json> {
    if a.Pop? && HandOut(s.st) != [] then [HandOut(s.st)[0]] else []
  }

  function Entered(capacity: nat, s: State, run: seq<Action>): seq<Json>
    requires IsRun(capacity, s, run)
    decreases |run|
  {
    if run == [] then []
    else EntersNow(capacity, s, run[0]) + Entered(capacity, Next(capacity, s, run[0]), run[1..])
  }

  function Left(capacity: nat, s: State, run: seq<Action>): seq<Json>
    requires IsRun(capacity, s, run)
    decreases |run|
  {
    if run == [] then [] else LeavesNow(s, run[0]) + Left(capacity, Next(capacity, s, run[0]), run[1..])
  }

  lemma OthersLeaveMain(capacity: nat, s: State, a: Action)
    requires Enabled(s, a) && !(a.Enqueue? || a.Promote? || a.Requeue? || a.Pop?)
    ensures Next(capacity, s, a).st.main == s.st.main
  {
  }

  lemma StepOrder(capacity: nat, s: State, a: Action)
    requires Enabled(s, a)
    ensures HandOut(s.st) + EntersNow(capacity, s, a) == LeavesNow(s, a) + HandOut(Next(capacity, s, a).st)
  {
    match a
    case Enqueue(p) => PushedIsLast(s.st, ToJson(p));
    case Promote(now) => PromotionOrder(s.st, now);
    case Requeue(w) => PushedIsLast(s.st, s.procs[w].raw);
    case Pop(_) =>
    case _ =>
      OthersLeaveMain(capacity, s, a);
      HandOutIsReversed(s.st);
      HandOutIsReversed(Next(capacity, s, a).st);
  }

  lemma {:induction false} RunOrder(capacity: nat, s: State, run: seq<Action>)
    requires IsRun(capacity, s, run)
    ensures HandOut(s.st) + Entered(capacity, s, run) == Left(capacity, s, run) + HandOut(After(capacity, s, run).st)
    decreases |run|
  {
    if run != [] {
      var s' := Next(capacity, s, run[0]);
      StepOrder(capacity, s, run[0]);
      RunOrder(capacity, s', run[1..]);
      Chain(HandOut(s.st), EntersNow(capacity, s, run[0]), Entered(capacity, s', run[1..]),
            LeavesNow(s, run[0]), HandOut(s'.st), Left(capacity, s', run[1..]),
            HandOut(After(capacity, s', run[1..]).st));
    }
  }

  /** First in, first out, over every interleaving with promotions and recoveries: jobs leave the main
      list in exactly the order in which enqueues, promotions and recoveries put them there. */
  lemma LeaveInOrder(capacity: nat, n: nat, run: seq<Action>)
    requires IsRun(capacity, Start(n), run)
    ensures Entered(capacity, Start(n), run)
         == Left(capacity, Start(n), run) + HandOut(After(capacity, Start(n), run).st)
  {
    RunOrder(capacity, Start(n), run);
  }

  lemma StepKeepsDistinct(capacity: nat, s: State, a: Action)
    requires Enabled(s, a) && DistinctMembers(s.st.delayed)
    ensures DistinctMembers(Next(capacity, s, a).st.delayed)
  {
    if a.EnqueueDelayed? && |s.st.main| + |s.st.delayed| < capacity {
      DelayMakesDue(s.st, Delayed(ToJson(a.p), a.score), a.pos, capacity, ToJson(a.p));
    }
  }

  /** In every reachable state the delayed set holds each payload at most once. */
  lemma {:induction false} DelayedIsASet(capacity: nat, s: State, run: seq<Action>)
    requires IsRun(capacity, s, run) && DistinctMembers(s.st.delayed)
    ensures DistinctMembers(After(capacity, s, run).st.delayed)
    decreases |run|
  {
    if run != [] {
      StepKeepsDistinct(capacity, s, run[0]);
      DelayedIsASet(capacity, Next(capacity, s, run[0]), run[1..]);
    }
  }
}
