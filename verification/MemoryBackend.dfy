/** The in-process backend object, proved against the state machine of MemoryQueue, and the
    equivalence of the two backends. */
module MemoryBackend {
  import opened Prelude
  import opened JobPayload
  import opened JobMachine
  import MQ = MemoryQueue
  import RB = RedisBackend
  import RS = RedisStore

  class InMemoryQueueBackend {
    const maxQueueSize: nat
    var q: seq<Payload>
    var inflight: map<JobId, MQ.InFlight>
    var dlq: seq<Dead>
    var timers: seq<Payload>
    var delayedCount: nat
    var returning: seq<Payload>

    function View(): MQ.Mem
      reads this
    {
      MQ.Mem(q, inflight, dlq, timers, delayedCount, returning)
    }

    constructor (size: nat, default: nat)
      ensures maxQueueSize == (if size == 0 then default else size)
      ensures View() == MQ.EMPTY_MEM
    {
      maxQueueSize := if size == 0 then default else size;
      q, inflight, dlq, timers, delayedCount, returning := [], map[], [], [], 0, [];
    }

    method RejectIfFull() returns (full: bool)
      ensures full <==> |q| + delayedCount >= maxQueueSize
    {
      var delayed := delayedCount;
      full := |q| + delayed >= maxQueueSize;
    }

    /** False stands for QueueSaturatedError. */
    method Enqueue(p: Payload) returns (ok: bool)
      modifies this
      ensures View() == MQ.Next(maxQueueSize, old(View()), MQ.Call(JobMachine.Op.Enqueue(p)))
      ensures ok <==> |old(q)| + old(delayedCount) < maxQueueSize
    {
      var full := RejectIfFull();
      if full {
        return false;
      }
      q := q + [p];
      ok := true;
    }

    method Dequeue(now: int) returns (job: Option<Payload>)
      modifies this
      ensures View() == MQ.Next(maxQueueSize, old(View()), MQ.Call(JobMachine.Op.Dequeue(now)))
      ensures job == (if old(q) == [] then None else Some(old(q)[0]))
    {
      if q == [] {
        return None;
      }
      job := Some(q[0]);
      q := q[1..];
      inflight := inflight[job.value.jobId := MQ.InFlight(job.value, now)];
    }

    method Ack(id: JobId)
      modifies this
      ensures View() == MQ.Next(maxQueueSize, old(View()), MQ.Call(JobMachine.Op.Ack(id)))
    {
      inflight := inflight - {id};
    }

    method Fail(id: JobId, error: string)
      modifies this
      ensures View() == MQ.Next(maxQueueSize, old(View()), MQ.Call(JobMachine.Op.Fail(id, error)))
    {
      var entry: Option<Payload> := if id in inflight then Some(inflight[id].job) else None;
      inflight := inflight - {id};
      dlq := dlq + [Dead(id, entry, error)];
    }

    method EnqueueDelayed(p: Payload) returns (ok: bool)
      modifies this
      ensures View() == MQ.Next(maxQueueSize, old(View()), MQ.EnqueueDelayed(p))
      ensures ok <==> |old(q)| + old(delayedCount) < maxQueueSize
    {
      var full := RejectIfFull();
      if full {
        return false;
      }
      delayedCount := delayedCount + 1;
      timers := timers + [p];
      ok := true;
    }

    /** A timer's callback: put, then always decrement the counter. */
    method Fire(i: nat) returns (stored: bool)
      requires i < |timers|
      modifies this
      ensures View() == MQ.Next(maxQueueSize, old(View()), MQ.Fire(i))
      ensures stored <==> |old(q)| < maxQueueSize
    {
      stored := |q| < maxQueueSize;
      if stored {
        q := q + [timers[i]];
      }
      timers := timers[..i] + timers[i + 1..];
      delayedCount := if delayedCount > 0 then delayedCount - 1 else 0;
    }

    /** Recovery: the stale jobs leave flight and go back to the queue one by one. Each put waits while
        the queue is full; `done` is false for a call that waits, with its remaining jobs in
        `returning`. */
    method RequeueStaleJobs(now: int, timeout: int) returns (count: nat, done: bool)
      modifies this
      ensures exists moved ::
                && MQ.ListsStale(old(inflight), now, timeout, moved)
                && count == |moved|
                && View() == MQ.Recovered(maxQueueSize, old(View()), moved)
                && (done <==> |moved| <= MQ.Room(maxQueueSize, old(View())))
      ensures forall id :: id in old(inflight) ==>
                (id !in inflight <==> now - old(inflight)[id].dequeuedAt > timeout)
    {
      ghost var before := View();
      var toRequeue := ListStale(now, timeout);
      var jobs := MQ.JobsOf(inflight, toRequeue);
      inflight := inflight - MQ.IdSet(toRequeue);
      var k := PutWhileRoom(jobs);
      returning := returning + jobs[k..];
      count := |toRequeue|;
      done := k == |jobs|;
      assert View() == MQ.Recovered(maxQueueSize, before, toRequeue);
      forall id | id in before.inflight
        ensures id in MQ.IdSet(toRequeue) <==> now - before.inflight[id].dequeuedAt > timeout
      {
        if MQ.IsStale(before.inflight[id], now, timeout) {
          var i :| 0 <= i < |toRequeue| && toRequeue[i] == id;
        }
      }
    }

    /** Put jobs in order until they are all put or the queue is full. */
    method PutWhileRoom(jobs: seq<Payload>) returns (k: nat)
      modifies this`q
      ensures k == MQ.Least(|jobs|, MQ.Room(maxQueueSize, old(View())))
      ensures q == old(q) + jobs[..k]
    {
      k := 0;
      while k < |jobs| && |q| < maxQueueSize
        invariant k <= |jobs| && k <= MQ.Room(maxQueueSize, old(View()))
        invariant q == old(q) + jobs[..k]
        decreases |jobs| - k
      {
        assert jobs[..k + 1] == jobs[..k] + [jobs[k]];
        q := q + [jobs[k]];
        k := k + 1;
      }
    }

    /** The ids of the stale jobs, each once. */
    method ListStale(now: int, timeout: int) returns (toRequeue: seq<JobId>)
      ensures MQ.ListsStale(inflight, now, timeout, toRequeue)
    {
      toRequeue := [];
      var stale := set id | id in inflight && MQ.IsStale(inflight[id], now, timeout);
      var left := stale;
      while left != {}
        invariant left <= stale
        invariant forall i :: 0 <= i < |toRequeue| ==> toRequeue[i] in stale - left
        invariant forall id :: id in stale - left ==> id in toRequeue
        invariant forall i, j :: 0 <= i < j < |toRequeue| ==> toRequeue[i] != toRequeue[j]
        decreases left
      {
        var id :| id in left;
        left := left - {id};
        ghost var sofar := toRequeue;
        toRequeue := toRequeue + [id];
        assert toRequeue[|sofar|] == id && forall x :: x in sofar ==> x in toRequeue;
      }
    }

    method RemoveDeadLetter(id: JobId) returns (removed: bool)
      modifies this
      ensures View() == MQ.Next(maxQueueSize, old(View()), MQ.RemoveDead(id))
      ensures removed <==> exists i :: 0 <= i < |old(dlq)| && old(dlq)[i].jobId == id
      ensures removed ==>
                exists k :: 0 <= k < |old(dlq)| && old(dlq)[k].jobId == id
                  && (forall i :: 0 <= i < k ==> old(dlq)[i].jobId != id)
                  && dlq == old(dlq)[..k] + old(dlq)[k + 1..]
    {
      var k := 0;
      while k < |dlq| && dlq[k].jobId != id
        invariant k <= |dlq|
        invariant forall i :: 0 <= i < k ==> dlq[i].jobId != id
      {
        k := k + 1;
      }
      removed := k < |dlq|;
      if removed {
        dlq := dlq[..k] + dlq[k + 1..];
      }
    }

    method DrainDeadLetters() returns (count: nat)
      modifies this
      ensures View() == MQ.Next(maxQueueSize, old(View()), MQ.DrainDead)
      ensures count == |old(dlq)| && dlq == []
    {
      count := |dlq|;
      dlq := [];
    }
  }

  // ---- refinement ---------------------------------------------------------

  function Abstract(m: MQ.Mem): Machine {
    Machine(m.q, map id | id in m.inflight :: m.inflight[id].job, m.dlq)
  }

  function DepthsOf(m: MQ.Mem): Depths {
    Depths(|m.q|, |m.inflight|, |m.dlq|)
  }

  function Observe(capacity: nat, m: MQ.Mem, ops: seq<Op>): seq<(Reply, Depths)>
    decreases |ops|
  {
    if ops == [] then []
    else
      var (m', r) := MQ.CallMem(capacity, m, ops[0]);
      [(r, DepthsOf(m'))] + Observe(capacity, m', ops[1..])
  }

  lemma CallSimulates(capacity: nat, m: MQ.Mem, op: Op)
    requires m.delayedCount == 0
    ensures Abstract(MQ.CallMem(capacity, m, op).0) == Apply(capacity, Abstract(m), op).0
    ensures MQ.CallMem(capacity, m, op).1 == Apply(capacity, Abstract(m), op).1
    ensures MQ.CallMem(capacity, m, op).0.delayedCount == 0
  {
  }

  lemma SameSize(m: MQ.Mem)
    ensures DepthsOf(m) == JobMachine.DepthsOf(Abstract(m))
  {
    assert Abstract(m).inflight.Keys == m.inflight.Keys;
    assert |Abstract(m).inflight| == |Abstract(m).inflight.Keys|;
    assert |m.inflight| == |m.inflight.Keys|;
  }

  /** Over every sequence of calls the in-process backend is indistinguishable from the machine. */
  lemma {:induction false} MemoryRefines(capacity: nat, m: MQ.Mem, ops: seq<Op>)
    requires m.delayedCount == 0
    ensures Observe(capacity, m, ops) == JobMachine.Observe(capacity, Abstract(m), ops)
    decreases |ops|
  {
    if ops != [] {
      var m' := MQ.CallMem(capacity, m, ops[0]).0;
      CallSimulates(capacity, m, ops[0]);
      SameSize(m');
      MemoryRefines(capacity, m', ops[1..]);
    }
  }

  /** The two backends give the same answers: for every sequence of enqueue, dequeue, ack and fail
      calls, with any job ids, the replies, payloads and depths agree call by call. */
  lemma BackendsAgree(capacity: nat, ops: seq<Op>)
    ensures RB.Observe(capacity, RS.EMPTY_STORE, ops) == Observe(capacity, MQ.EMPTY_MEM, ops)
  {
    assert RB.Represents(RS.EMPTY_STORE, EMPTY_MACHINE);
    RB.RedisRefines(capacity, RS.EMPTY_STORE, EMPTY_MACHINE, ops);
    assert Abstract(MQ.EMPTY_MEM) == EMPTY_MACHINE;
    MemoryRefines(capacity, MQ.EMPTY_MEM, ops);
  }
}
