/** The abstract job queue both backends implement: a bounded FIFO of payloads, the jobs in
    flight, and the dead letters in the order they were written. */
module JobMachine {
  import opened Prelude
  import opened JobPayload

  datatype Dead = Dead(jobId: JobId, payload: Option<Payload>, error: string)

  datatype Machine = Machine(queue: seq<Payload>, inflight: map<JobId, Payload>, dead: seq<Dead>)

  datatype Op = Enqueue(p: Payload) | Dequeue(now: int) | Ack(id: JobId) | Fail(id: JobId, error: string)

  datatype Reply = Accepted | Saturated | Job(p: Payload) | Empty | Done

  datatype Depths = Depths(queue: nat, inflight: nat, dead: nat)

  const EMPTY_MACHINE := Machine([], map[], [])

  function Lookup(m: map<JobId, Payload>, id: JobId): Option<Payload> {
    if id in m then Some(m[id]) else None
  }

  function Apply(capacity: nat, m: Machine, op: Op): (Machine, Reply) {
    match op
    case Enqueue(p) =>
      if |m.queue| >= capacity then (m, Saturated) else (m.(queue := m.queue + [p]), Accepted)
    case Dequeue(_) =>
      if m.queue == [] then (m, Empty)
      else
        var p := m.queue[0];
        (m.(queue := m.queue[1..], inflight := m.inflight[p.jobId := p]), Job(p))
    case Ack(id) => (m.(inflight := m.inflight - {id}), Done)
    case Fail(id, error) =>
      (m.(inflight := m.inflight - {id}, dead := m.dead + [Dead(id, Lookup(m.inflight, id), error)]), Done)
  }

  function DepthsOf(m: Machine): Depths {
    Depths(|m.queue|, |m.inflight|, |m.dead|)
  }

  /** The replies and depths an observer sees along a sequence of calls. */
  function Observe(capacity: nat, m: Machine, ops: seq<Op>): seq<(Reply, Depths)>
    decreases |ops|
  {
    if ops == [] then []
    else
      var (m', r) := Apply(capacity, m, ops[0]);
      [(r, DepthsOf(m'))] + Observe(capacity, m', ops[1..])
  }

  // ---- first in, first out ----------------------------------------------

  function End(capacity: nat, m: Machine, ops: seq<Op>): Machine
    decreases |ops|
  {
    if ops == [] then m else End(capacity, Apply(capacity, m, ops[0]).0, ops[1..])
  }

  /** Payloads whose enqueue was answered Accepted, in call order. */
  function AcceptedJobs(capacity: nat, m: Machine, ops: seq<Op>): seq<Payload>
    decreases |ops|
  {
    if ops == [] then []
    else
      AcceptedNow(capacity, m, ops[0]) + AcceptedJobs(capacity, Apply(capacity, m, ops[0]).0, ops[1..])
  }

  /** Payloads handed out by dequeues, in call order. */
  function DequeuedJobs(capacity: nat, m: Machine, ops: seq<Op>): seq<Payload>
    decreases |ops|
  {
    if ops == [] then []
    else
      DequeuedNow(capacity, m, ops[0]) + DequeuedJobs(capacity, Apply(capacity, m, ops[0]).0, ops[1..])
  }

  function AcceptedNow(capacity: nat, m: Machine, op: Op): seq<Payload> {
    if Apply(capacity, m, op).1.Accepted? then [op.p] else []
  }

  function DequeuedNow(capacity: nat, m: Machine, op: Op): seq<Payload> {
    var r := Apply(capacity, m, op).1;
    if r.Job? then [r.p] else []
  }

  lemma FifoStep(capacity: nat, m: Machine, op: Op)
    ensures m.queue + AcceptedNow(capacity, m, op) == DequeuedNow(capacity, m, op) + Apply(capacity, m, op).0.queue
  {
  }

  /** First in, first out, over every sequence of calls: what was waiting followed by what was
      accepted is what was handed out followed by what still waits, in that order. */
  lemma {:induction false} Fifo(capacity: nat, m: Machine, ops: seq<Op>)
    ensures m.queue + AcceptedJobs(capacity, m, ops)
         == DequeuedJobs(capacity, m, ops) + End(capacity, m, ops).queue
    decreases |ops|
  {
    if ops != [] {
      var m' := Apply(capacity, m, ops[0]).0;
      var a, h := AcceptedNow(capacity, m, ops[0]), DequeuedNow(capacity, m, ops[0]);
      var more, handed := AcceptedJobs(capacity, m', ops[1..]), DequeuedJobs(capacity, m', ops[1..]);
      var rest := End(capacity, m', ops[1..]).queue;
      FifoStep(capacity, m, ops[0]);
      Fifo(capacity, m', ops[1..]);
      Chain(m.queue, a, more, h, m'.queue, handed, rest);
    }
  }

  /** The job of this id that is out: the one last handed out, unless it was acked or failed since. */
  function Out(capacity: nat, m: Machine, ops: seq<Op>, id: JobId, sofar: Option<Payload>): Option<Payload>
    decreases |ops|
  {
    if ops == [] then sofar
    else
      var given := DequeuedNow(capacity, m, ops[0]);
      Out(capacity, Apply(capacity, m, ops[0]).0, ops[1..], id,
          if given != [] && given[0].jobId == id then Some(given[0])
          else if ops[0] == Ack(id) || (ops[0].Fail? && ops[0].id == id) then None
          else sofar)
  }

  /** Over every sequence of calls, in flight is exactly what was handed out and neither acked nor failed
      since, with the payload last handed out. */
  lemma {:induction false} InFlightIsOut(capacity: nat, m: Machine, ops: seq<Op>, id: JobId)
    ensures Lookup(End(capacity, m, ops).inflight, id) == Out(capacity, m, ops, id, Lookup(m.inflight, id))
    decreases |ops|
  {
    if ops != [] {
      InFlightIsOut(capacity, Apply(capacity, m, ops[0]).0, ops[1..], id);
    }
  }

  /** One dead letter per fail, in call order, with the payload that was out, if any. */
  function FailedJobs(capacity: nat, m: Machine, ops: seq<Op>): seq<Dead>
    decreases |ops|
  {
    if ops == [] then []
    else
      (if ops[0].Fail? then [Dead(ops[0].id, Lookup(m.inflight, ops[0].id), ops[0].error)] else [])
      + FailedJobs(capacity, Apply(capacity, m, ops[0]).0, ops[1..])
  }

  lemma {:induction false} DeadLettersInOrder(capacity: nat, m: Machine, ops: seq<Op>)
    ensures End(capacity, m, ops).dead == m.dead + FailedJobs(capacity, m, ops)
    decreases |ops|
  {
    if ops != [] {
      DeadLettersInOrder(capacity, Apply(capacity, m, ops[0]).0, ops[1..]);
    }
  }

  /** The depths reported: what came in less what went out, one dead letter per fail, and the ids that are out. */
  lemma DepthsAddUp(capacity: nat, m: Machine, ops: seq<Op>)
    ensures var before, after := DepthsOf(m), DepthsOf(End(capacity, m, ops));
            && before.queue + |AcceptedJobs(capacity, m, ops)| == after.queue + |DequeuedJobs(capacity, m, ops)|
            && after.dead == before.dead + |FailedJobs(capacity, m, ops)|
            && after.inflight == |set id | id in End(capacity, m, ops).inflight|
  {
    Fifo(capacity, m, ops);
    DeadLettersInOrder(capacity, m, ops);
    var inflight := End(capacity, m, ops).inflight;
    assert inflight.Keys == set id | id in inflight;
  }

  /** The queue never grows beyond its capacity. */
  lemma {:induction false} QueueBounded(capacity: nat, m: Machine, ops: seq<Op>)
    requires |m.queue| <= capacity
    ensures |End(capacity, m, ops).queue| <= capacity
    decreases |ops|
  {
    if ops != [] {
      QueueBounded(capacity, Apply(capacity, m, ops[0]).0, ops[1..]);
    }
  }
}
