/** The in-process queue as a state machine: each method call and each timer firing is one step,
    except that a recovery takes the stale jobs out of flight in one step and puts each back in a
    step of its own, which waits for a free place. Its books account for every accepted job over
    every run. */
module MemoryQueue {
  import opened Prelude
  import opened JobPayload
  import opened JobMachine

  datatype InFlight = InFlight(job: Payload, dequeuedAt: int)

  /** `timers` are the delayed jobs whose timer has not fired; `delayedCount` is the counter the
      code keeps beside them. `returning` are jobs that recoveries took out of flight and have not
      put back yet. */
  datatype Mem = Mem(
    q: seq<Payload>,
    inflight: map<JobId, InFlight>,
    dlq: seq<Dead>,
    timers: seq<Payload>,
    delayedCount: nat,
    returning: seq<Payload>)

  const EMPTY_MEM := Mem([], map[], [], [], 0, [])

  datatype Step =
    | Call(op: Op)
    | EnqueueDelayed(p: Payload)
    | Fire(i: nat)
    | Recover(now: int, timeout: int, moved: seq<JobId>)
    | PutBack(i: nat)
    | RemoveDead(id: JobId)
    | DrainDead

  predicate IsStale(e: InFlight, now: int, timeout: int) {
    now - e.dequeuedAt > timeout
  }

  /** `moved` lists each stale job id once, in some order. */
  predicate ListsStale(inflight: map<JobId, InFlight>, now: int, timeout: int, moved: seq<JobId>) {
    && (forall i :: 0 <= i < |moved| ==> moved[i] in inflight && IsStale(inflight[moved[i]], now, timeout))
    && (forall id :: id in inflight && IsStale(inflight[id], now, timeout) ==> id in moved)
    && (forall i, j :: 0 <= i < j < |moved| ==> moved[i] != moved[j])
  }

  /** The put of a recovered job waits for a free place in the queue; pending timers are not
      considered. A recovery that finds no place stays with its jobs in `returning`. */
  predicate Enabled(capacity: nat, m: Mem, s: Step) {
    match s
    case Fire(i) => i < |m.timers|
    case Recover(now, timeout, moved) => ListsStale(m.inflight, now, timeout, moved)
    case PutBack(i) => i < |m.returning| && |m.q| < capacity
    case _ => true
  }

  function PendingDepth(m: Mem): nat {
    |m.q| + m.delayedCount
  }

  function JobsOf(inflight: map<JobId, InFlight>, ids: seq<JobId>): (r: seq<Payload>)
    requires forall i :: 0 <= i < |ids| ==> ids[i] in inflight
    ensures |r| == |ids|
  {
    seq(|ids|, i requires 0 <= i < |ids| => inflight[ids[i]].job)
  }

  function IdSet(ids: seq<JobId>): set<JobId> {
    set i | 0 <= i < |ids| :: ids[i]
  }

  function Lookup(m: Mem, id: JobId): Option<Payload> {
    if id in m.inflight then Some(m.inflight[id].job) else None
  }

  function CallMem(capacity: nat, m: Mem, op: Op): (Mem, Reply) {
    match op
    case Enqueue(p) =>
      if PendingDepth(m) >= capacity then (m, Saturated) else (m.(q := m.q + [p]), Accepted)
    case Dequeue(now) =>
      if m.q == [] then (m, Empty)
      else
        var p := m.q[0];
        (m.(q := m.q[1..], inflight := m.inflight[p.jobId := InFlight(p, now)]), Job(p))
    case Ack(id) => (m.(inflight := m.inflight - {id}), Done)
    case Fail(id, error) =>
      (m.(inflight := m.inflight - {id}, dlq := m.dlq + [Dead(id, Lookup(m, id), error)]), Done)
  }

  /** Position of the first dead letter with this job id, or the length when there is none. */
  function FirstDead(dlq: seq<Dead>, id: JobId): (k: nat)
    ensures k <= |dlq|
    ensures k < |dlq| ==> dlq[k].jobId == id
    ensures forall i :: 0 <= i < k ==> dlq[i].jobId != id
  {
    if dlq == [] || dlq[0].jobId == id then 0 else 1 + FirstDead(dlq[1..], id)
  }

  function Next(capacity: nat, m: Mem, s: Step): Mem
    requires Enabled(capacity, m, s)
  {
    match s
    case Call(op) => CallMem(capacity, m, op).0
    case EnqueueDelayed(p) =>
      if PendingDepth(m) >= capacity then m
      else m.(timers := m.timers + [p], delayedCount := m.delayedCount + 1)
    case Fire(i) =>
      // The counter goes down whether or not the put finds room.
      m.(q := if |m.q| < capacity then m.q + [m.timers[i]] else m.q,
         timers := RemoveAt(m.timers, i),
         delayedCount := if m.delayedCount > 0 then m.delayedCount - 1 else 0)
    case Recover(_, _, moved) =>
      m.(returning := m.returning + JobsOf(m.inflight, moved), inflight := m.inflight - IdSet(moved))
    case PutBack(i) => m.(q := m.q + [m.returning[i]], returning := RemoveAt(m.returning, i))
    case RemoveDead(id) =>
      var k := FirstDead(m.dlq, id);
      if k < |m.dlq| then m.(dlq := RemoveAt(m.dlq, k)) else m
    case DrainDead => m.(dlq := [])
  }

  // ---- the books ---------------------------------------------------------

  /** `drained` counts dead letters an operator removed, `lost` timers that met a full queue,
      `merged` in-flight entries replaced by a later job of the same id. */
  datatype Books = Books(
    accepted: multiset<JobId>,
    acked: multiset<JobId>,
    drained: multiset<JobId>,
    lost: multiset<JobId>,
    merged: multiset<JobId>)

  const NO_BOOKS := Books(multiset{}, multiset{}, multiset{}, multiset{}, multiset{})

  function Bag(present: bool, id: JobId): multiset<JobId> {
    if present then multiset{id} else multiset{}
  }

  function DeadBag(d: Dead): multiset<JobId> {
    Bag(d.payload.Some?, d.jobId)
  }

  function DeadBags(dlq: seq<Dead>): multiset<JobId> {
    if dlq == [] then multiset{} else DeadBag(dlq[0]) + DeadBags(dlq[1..])
  }

  function Book(capacity: nat, m: Mem, b: Books, s: Step): Books
    requires Enabled(capacity, m, s)
  {
    match s
    case Call(Enqueue(p)) => b.(accepted := b.accepted + Bag(PendingDepth(m) < capacity, p.jobId))
    case Call(Dequeue(_)) =>
      if m.q == [] then b
      else b.(merged := b.merged + Bag(m.q[0].jobId in m.inflight, m.q[0].jobId))
    case Call(Ack(id)) => b.(acked := b.acked + Bag(id in m.inflight, id))
    case Call(Fail(_, _)) => b
    case EnqueueDelayed(p) => b.(accepted := b.accepted + Bag(PendingDepth(m) < capacity, p.jobId))
    case Fire(i) => b.(lost := b.lost + Bag(|m.q| >= capacity, m.timers[i].jobId))
    case Recover(_, _, _) => b
    case PutBack(_) => b
    case RemoveDead(id) =>
      var k := FirstDead(m.dlq, id);
      if k < |m.dlq| then b.(drained := b.drained + DeadBag(m.dlq[k])) else b
    case DrainDead => b.(drained := b.drained + DeadBags(m.dlq))
  }

  predicate IsRun(capacity: nat, m: Mem, run: seq<Step>)
    decreases |run|
  {
    run == [] || (Enabled(capacity, m, run[0]) && IsRun(capacity, Next(capacity, m, run[0]), run[1..]))
  }

  function After(capacity: nat, m: Mem, b: Books, run: seq<Step>): (Mem, Books)
    requires IsRun(capacity, m, run)
    decreases |run|
  {
    if run == [] then (m, b)
    else After(capacity, Next(capacity, m, run[0]), Book(capacity, m, b, run[0]), run[1..])
  }

  function IsJob(id: JobId): Payload -> nat {
    (p: Payload) => if p.jobId == id then 1 else 0
  }

  function HoldsJob(id: JobId): Dead -> nat {
    (d: Dead) => if d.payload.Some? && d.jobId == id then 1 else 0
  }

  function Count(ps: seq<Payload>, id: JobId): nat {
    Sum(IsJob(id), ps)
  }

  /** Dead letters that hold the job of this id. */
  function CountDead(dlq: seq<Dead>, id: JobId): nat {
    Sum(HoldsJob(id), dlq)
  }

  function CountInFlight(m: Mem, id: JobId): nat {
    if id in m.inflight then 1 else 0
  }

  /** In how many places the queue holds a job. */
  function Held(m: Mem, id: JobId): nat {
    Count(m.q, id) + Count(m.timers, id) + Count(m.returning, id) + CountInFlight(m, id) + CountDead(m.dlq, id)
  }

  predicate Balanced(m: Mem, b: Books, id: JobId) {
    Held(m, id) + b.acked[id] + b.drained[id] + b.lost[id] + b.merged[id] == b.accepted[id]
  }

  /** Entries are filed under their job's id; the counter is the number of unfired timers. */
  predicate Sound(m: Mem) {
    && (forall id :: id in m.inflight ==> m.inflight[id].job.jobId == id)
    && m.delayedCount == |m.timers|
  }

  lemma {:induction false} DeadBagsCount(dlq: seq<Dead>, id: JobId)
    ensures DeadBags(dlq)[id] == CountDead(dlq, id)
  {
    if dlq != [] {
      DeadBagsCount(dlq[1..], id);
    }
  }

  /** The recovered jobs are distinct and each was in flight. */
  lemma {:induction false} CountMoved(inflight: map<JobId, InFlight>, moved: seq<JobId>, id: JobId)
    requires forall i :: 0 <= i < |moved| ==> moved[i] in inflight
    requires forall i, j :: 0 <= i < j < |moved| ==> moved[i] != moved[j]
    requires forall j :: j in inflight ==> inflight[j].job.jobId == j
    ensures Count(JobsOf(inflight, moved), id) == (if id in moved then 1 else 0)
  {
    if moved != [] {
      assert JobsOf(inflight, moved)[1..] == JobsOf(inflight, moved[1..]);
      CountMoved(inflight, moved[1..], id);
    }
  }

  lemma StepSound(capacity: nat, m: Mem, s: Step)
    requires Sound(m) && Enabled(capacity, m, s)
    ensures Sound(Next(capacity, m, s))
  {
  }

  lemma FailKeeps(capacity: nat, m: Mem, b: Books, s: Step, id: JobId)
    requires Sound(m) && Balanced(m, b, id) && s.Call? && s.op.Fail?
    ensures Balanced(Next(capacity, m, s), Book(capacity, m, b, s), id)
  {
    SumSnoc(HoldsJob(id), m.dlq, Dead(s.op.id, Lookup(m, s.op.id), s.op.error));
  }

  lemma DequeueKeeps(capacity: nat, m: Mem, b: Books, s: Step, id: JobId)
    requires Sound(m) && Balanced(m, b, id) && s.Call? && s.op.Dequeue?
    ensures Balanced(Next(capacity, m, s), Book(capacity, m, b, s), id)
  {
    if m.q != [] {
      assert m.q == [m.q[0]] + m.q[1..];
    }
  }

  lemma CallKeeps(capacity: nat, m: Mem, b: Books, s: Step, id: JobId)
    requires Sound(m) && Balanced(m, b, id) && s.Call?
    ensures Balanced(Next(capacity, m, s), Book(capacity, m, b, s), id)
  {
    match s.op {
      case Enqueue(p) => SumSnoc(IsJob(id), m.q, p);
      case Dequeue(_) => DequeueKeeps(capacity, m, b, s, id);
      case Ack(_) =>
      case Fail(_, _) => FailKeeps(capacity, m, b, s, id);
    }
  }

  lemma TimerKeeps(capacity: nat, m: Mem, b: Books, s: Step, id: JobId)
    requires Balanced(m, b, id) && Enabled(capacity, m, s) && s.Fire?
    ensures Balanced(Next(capacity, m, s), Book(capacity, m, b, s), id)
  {
    SumRemoveAt(IsJob(id), m.timers, s.i);
    SumSnoc(IsJob(id), m.q, m.timers[s.i]);
  }

  lemma EnqueueDelayedKeeps(capacity: nat, m: Mem, b: Books, s: Step, id: JobId)
    requires Balanced(m, b, id) && s.EnqueueDelayed?
    ensures Balanced(Next(capacity, m, s), Book(capacity, m, b, s), id)
  {
    SumSnoc(IsJob(id), m.timers, s.p);
  }

  lemma RecoverKeeps(capacity: nat, m: Mem, b: Books, s: Step, id: JobId)
    requires Sound(m) && Balanced(m, b, id) && Enabled(capacity, m, s) && s.Recover?
    ensures Balanced(Next(capacity, m, s), Book(capacity, m, b, s), id)
  {
    SumConcat(IsJob(id), m.returning, JobsOf(m.inflight, s.moved));
    CountMoved(m.inflight, s.moved, id);
  }

  lemma PutBackKeeps(capacity: nat, m: Mem, b: Books, s: Step, id: JobId)
    requires Balanced(m, b, id) && Enabled(capacity, m, s) && s.PutBack?
    ensures Balanced(Next(capacity, m, s), Book(capacity, m, b, s), id)
  {
    SumRemoveAt(IsJob(id), m.returning, s.i);
    SumSnoc(IsJob(id), m.q, m.returning[s.i]);
  }

  lemma DeadKeeps(capacity: nat, m: Mem, b: Books, s: Step, id: JobId)
    requires Balanced(m, b, id) && (s.RemoveDead? || s.DrainDead?)
    ensures Balanced(Next(capacity, m, s), Book(capacity, m, b, s), id)
  {
    if s.RemoveDead? {
      var k := FirstDead(m.dlq, s.id);
      if k < |m.dlq| {
        SumRemoveAt(HoldsJob(id), m.dlq, k);
      }
    } else {
      DeadBagsCount(m.dlq, id);
    }
  }

  lemma StepKeeps(capacity: nat, m: Mem, b: Books, s: Step, id: JobId)
    requires Sound(m) && Balanced(m, b, id) && Enabled(capacity, m, s)
    ensures Balanced(Next(capacity, m, s), Book(capacity, m, b, s), id)
  {
    match s
    case Call(_) => CallKeeps(capacity, m, b, s, id);
    case EnqueueDelayed(_) => EnqueueDelayedKeeps(capacity, m, b, s, id);
    case Fire(_) => TimerKeeps(capacity, m, b, s, id);
    case Recover(_, _, _) => RecoverKeeps(capacity, m, b, s, id);
    case PutBack(_) => PutBackKeeps(capacity, m, b, s, id);
    case RemoveDead(_) => DeadKeeps(capacity, m, b, s, id);
    case DrainDead => DeadKeeps(capacity, m, b, s, id);
  }

  lemma {:induction false} RunKeeps(capacity: nat, m: Mem, b: Books, run: seq<Step>, id: JobId)
    requires Sound(m) && Balanced(m, b, id) && IsRun(capacity, m, run)
    ensures Sound(After(capacity, m, b, run).0)
    ensures Balanced(After(capacity, m, b, run).0, After(capacity, m, b, run).1, id)
    decreases |run|
  {
    if run != [] {
      StepSound(capacity, m, run[0]);
      StepKeeps(capacity, m, b, run[0], id);
      RunKeeps(capacity, Next(capacity, m, run[0]), Book(capacity, m, b, run[0]), run[1..], id);
    }
  }

  /** Conservation over every run, whatever ids are used and whether or not recoveries find room;
      jobs of a recovery that waits for room are among those held. */
  lemma Conservation(capacity: nat, run: seq<Step>, id: JobId)
    requires IsRun(capacity, EMPTY_MEM, run)
    ensures var (m, b) := After(capacity, EMPTY_MEM, NO_BOOKS, run);
            && Held(m, id) + b.acked[id] + b.drained[id] + b.lost[id] + b.merged[id] == b.accepted[id]
            && m.delayedCount == |m.timers|
  {
    RunKeeps(capacity, EMPTY_MEM, NO_BOOKS, run, id);
  }

  // ---- capacity and lost timers -----------------------------------------

  predicate Bounded(capacity: nat, m: Mem) {
    |m.q| + |m.timers| <= capacity
  }

  /** A recovered job is put back while there is room with pending timers counted too. */
  predicate FindsRoom(capacity: nat, m: Mem, s: Step) {
    s.PutBack? ==> |m.q| + |m.timers| < capacity
  }

  predicate RoomyRun(capacity: nat, m: Mem, run: seq<Step>)
    requires IsRun(capacity, m, run)
    decreases |run|
  {
    run == [] || (FindsRoom(capacity, m, run[0]) && RoomyRun(capacity, Next(capacity, m, run[0]), run[1..]))
  }

  predicate AlwaysBounded(capacity: nat, m: Mem, run: seq<Step>)
    requires IsRun(capacity, m, run)
    decreases |run|
  {
    Bounded(capacity, m) && (run == [] || AlwaysBounded(capacity, Next(capacity, m, run[0]), run[1..]))
  }

  /** From a bounded state the bound survives a step exactly when a recovered job finds room; every
      other step keeps it. */
  lemma BoundSurvivesIff(capacity: nat, m: Mem, s: Step)
    requires Sound(m) && Bounded(capacity, m) && Enabled(capacity, m, s)
    ensures Bounded(capacity, Next(capacity, m, s)) <==> FindsRoom(capacity, m, s)
  {
  }

  lemma {:induction false} BoundedIffRoomy(capacity: nat, m: Mem, run: seq<Step>)
    requires Sound(m) && Bounded(capacity, m) && IsRun(capacity, m, run)
    ensures AlwaysBounded(capacity, m, run) <==> RoomyRun(capacity, m, run)
    decreases |run|
  {
    if run != [] {
      StepSound(capacity, m, run[0]);
      BoundSurvivesIff(capacity, m, run[0]);
      if FindsRoom(capacity, m, run[0]) {
        BoundedIffRoomy(capacity, Next(capacity, m, run[0]), run[1..]);
      }
    }
  }

  /** Over whole runs: pending jobs stay within capacity at every point exactly when every recovered
      job is put back while there is room, pending timers counted. */
  lemma WithinCapacityIff(capacity: nat, run: seq<Step>)
    requires IsRun(capacity, EMPTY_MEM, run)
    ensures AlwaysBounded(capacity, EMPTY_MEM, run) <==> RoomyRun(capacity, EMPTY_MEM, run)
  {
    BoundedIffRoomy(capacity, EMPTY_MEM, run);
  }

  /** Somewhere in the run the timer of a job of this id fires while the queue is full. */
  datatype Kind = Taken | Acked | Drained | Lost

  function Page(b: Books, kind: Kind): multiset<JobId> {
    match kind
    case Taken => b.accepted
    case Acked => b.acked
    case Drained => b.drained
    case Lost => b.lost
  }

  /** How many jobs of an id a step accepts while there is room, acks in flight, drains from the dead
      letters, or loses in a timer that meets a full queue. */
  function Amount(kind: Kind, capacity: nat, m: Mem, s: Step, id: JobId): nat
    requires Enabled(capacity, m, s)
  {
    match kind
    case Taken => if OffersIn(s, id) == 1 && |m.q| + m.delayedCount < capacity then 1 else 0
    case Acked => if s == Call(JobMachine.Op.Ack(id)) && id in m.inflight then 1 else 0
    case Drained =>
      if s.DrainDead? then CountDead(m.dlq, id)
      else if s == RemoveDead(id) && HasDead(m.dlq, id) && m.dlq[FirstDead(m.dlq, id)].payload.Some? then 1 else 0
    case Lost => if s.Fire? && m.timers[s.i].jobId == id && |m.q| >= capacity then 1 else 0
  }

  predicate HasDead(dlq: seq<Dead>, id: JobId) {
    exists i :: 0 <= i < |dlq| && dlq[i].jobId == id
  }

  function Amounts(kind: Kind, capacity: nat, m: Mem, run: seq<Step>, id: JobId): nat
    requires IsRun(capacity, m, run)
    decreases |run|
  {
    if run == [] then 0
    else Amount(kind, capacity, m, run[0], id) + Amounts(kind, capacity, Next(capacity, m, run[0]), run[1..], id)
  }

  lemma StepBooks(kind: Kind, capacity: nat, m: Mem, b: Books, s: Step, id: JobId)
    requires Enabled(capacity, m, s)
    ensures Page(Book(capacity, m, b, s), kind)[id] == Page(b, kind)[id] + Amount(kind, capacity, m, s, id)
  {
    match s {
      case RemoveDead(_) => RemovalBooks(kind, capacity, m, b, s, id);
      case DrainDead => DeadBagsCount(m.dlq, id);
      case Call(_) => CallBooks(kind, capacity, m, b, s, id);
      case _ =>
    }
  }

  lemma CallBooks(kind: Kind, capacity: nat, m: Mem, b: Books, s: Step, id: JobId)
    requires Enabled(capacity, m, s) && s.Call?
    ensures Page(Book(capacity, m, b, s), kind)[id] == Page(b, kind)[id] + Amount(kind, capacity, m, s, id)
  {
  }

  lemma RemovalBooks(kind: Kind, capacity: nat, m: Mem, b: Books, s: Step, id: JobId)
    requires Enabled(capacity, m, s) && s.RemoveDead?
    ensures Page(Book(capacity, m, b, s), kind)[id] == Page(b, kind)[id] + Amount(kind, capacity, m, s, id)
  {
    var k := FirstDead(m.dlq, s.id);
    assert k < |m.dlq| <==> HasDead(m.dlq, s.id);
  }

  /** Over every run the books hold, of every kind and for every job, how often it happened. */
  lemma {:induction false} BooksAreHistory(kind: Kind, capacity: nat, m: Mem, b: Books, run: seq<Step>, id: JobId)
    requires IsRun(capacity, m, run)
    ensures Page(After(capacity, m, b, run).1, kind)[id] == Page(b, kind)[id] + Amounts(kind, capacity, m, run, id)
    decreases |run|
  {
    if run != [] {
      StepBooks(kind, capacity, m, b, run[0], id);
      BooksAreHistory(kind, capacity, Next(capacity, m, run[0]), Book(capacity, m, b, run[0]), run[1..], id);
    }
  }

  predicate TimerMeetsFull(capacity: nat, m: Mem, run: seq<Step>, id: JobId)
    requires IsRun(capacity, m, run)
    decreases |run|
  {
    run != [] &&
    ((run[0].Fire? && m.timers[run[0].i].jobId == id && |m.q| >= capacity)
     || TimerMeetsFull(capacity, Next(capacity, m, run[0]), run[1..], id))
  }

  lemma {:induction false} LostIff(capacity: nat, m: Mem, b: Books, run: seq<Step>, id: JobId)
    requires IsRun(capacity, m, run)
    ensures After(capacity, m, b, run).1.lost[id] >= b.lost[id]
    ensures After(capacity, m, b, run).1.lost[id] > b.lost[id] <==> TimerMeetsFull(capacity, m, run, id)
    decreases |run|
  {
    if run != [] {
      LostIff(capacity, Next(capacity, m, run[0]), Book(capacity, m, b, run[0]), run[1..], id);
    }
  }

  lemma {:induction false} RoomyMeetsNoFull(capacity: nat, m: Mem, run: seq<Step>, id: JobId)
    requires Sound(m) && Bounded(capacity, m) && IsRun(capacity, m, run) && RoomyRun(capacity, m, run)
    ensures !TimerMeetsFull(capacity, m, run, id)
    decreases |run|
  {
    if run != [] {
      StepSound(capacity, m, run[0]);
      BoundSurvivesIff(capacity, m, run[0]);
      RoomyMeetsNoFull(capacity, Next(capacity, m, run[0]), run[1..], id);
    }
  }

  /** While every recovered job finds room, no timer loses its job. */
  lemma RoomyLosesNothing(capacity: nat, run: seq<Step>, id: JobId)
    requires IsRun(capacity, EMPTY_MEM, run) && RoomyRun(capacity, EMPTY_MEM, run)
    ensures After(capacity, EMPTY_MEM, NO_BOOKS, run).1.lost[id] == 0
  {
    RoomyMeetsNoFull(capacity, EMPTY_MEM, run, id);
    LostIff(capacity, EMPTY_MEM, NO_BOOKS, run, id);
  }

  // ---- first in, first out --------------------------------------------------

  /** The jobs a step puts into the queue, and the job it takes out. */
  function EntersNow(capacity: nat, m: Mem, s: Step): seq<Payload>
    requires Enabled(capacity, m, s)
  {
    match s
    case Call(Enqueue(p)) => if |m.q| + m.delayedCount < capacity then [p] else []
    case Fire(i) => if |m.q| < capacity then [m.timers[i]] else []
    case PutBack(i) => [m.returning[i]]
    case _ => []
  }

  function LeavesNow(m: Mem, s: Step): seq<Payload> {
    if s.Call? && s.op.Dequeue? && m.q != [] then [m.q[0]] else []
  }

  function Entered(capacity: nat, m: Mem, run: seq<Step>): seq<Payload>
    requires IsRun(capacity, m, run)
    decreases |run|
  {
    if run == [] then []
    else EntersNow(capacity, m, run[0]) + Entered(capacity, Next(capacity, m, run[0]), run[1..])
  }

  function Left(capacity: nat, m: Mem, run: seq<Step>): seq<Payload>
    requires IsRun(capacity, m, run)
    decreases |run|
  {
    if run == [] then [] else LeavesNow(m, run[0]) + Left(capacity, Next(capacity, m, run[0]), run[1..])
  }

  lemma StepOrder(capacity: nat, m: Mem, s: Step)
    requires Enabled(capacity, m, s)
    ensures m.q + EntersNow(capacity, m, s) == LeavesNow(m, s) + Next(capacity, m, s).q
  {
  }

  lemma {:induction false} RunOrder(capacity: nat, m: Mem, b: Books, run: seq<Step>)
    requires IsRun(capacity, m, run)
    ensures m.q + Entered(capacity, m, run) == Left(capacity, m, run) + After(capacity, m, b, run).0.q
    decreases |run|
  {
    if run != [] {
      var m', b' := Next(capacity, m, run[0]), Book(capacity, m, b, run[0]);
      StepOrder(capacity, m, run[0]);
      RunOrder(capacity, m', b', run[1..]);
      Chain(m.q, EntersNow(capacity, m, run[0]), Entered(capacity, m', run[1..]),
            LeavesNow(m, run[0]), m'.q, Left(capacity, m', run[1..]), After(capacity, m', b', run[1..]).0.q);
    }
  }

  /** Over every run with timers and recoveries, jobs leave the queue in exactly the order in which
      enqueues, timers and recoveries put them there. */
  lemma LeaveInOrder(capacity: nat, run: seq<Step>)
    requires IsRun(capacity, EMPTY_MEM, run)
    ensures Entered(capacity, EMPTY_MEM, run)
         == Left(capacity, EMPTY_MEM, run) + After(capacity, EMPTY_MEM, NO_BOOKS, run).0.q
  {
    RunOrder(capacity, EMPTY_MEM, NO_BOOKS, run);
  }

  // ---- which jobs are recovered ------------------------------------------------

  /** When the job was last handed out during a run, or `t` when it was not. */
  function LastHandOut(capacity: nat, m: Mem, run: seq<Step>, id: JobId, t: int): int
    requires IsRun(capacity, m, run)
    decreases |run|
  {
    if run == [] then t
    else
      var given := LeavesNow(m, run[0]);
      LastHandOut(capacity, Next(capacity, m, run[0]), run[1..], id,
                  if given != [] && given[0].jobId == id then run[0].op.now else t)
  }

  lemma {:induction false} EntryTime(capacity: nat, m: Mem, b: Books, run: seq<Step>, id: JobId, t: int)
    requires IsRun(capacity, m, run) && (id in m.inflight ==> m.inflight[id].dequeuedAt == t)
    ensures var u := After(capacity, m, b, run).0;
            id in u.inflight ==> u.inflight[id].dequeuedAt == LastHandOut(capacity, m, run, id, t)
    decreases |run|
  {
    if run != [] {
      var given := LeavesNow(m, run[0]);
      EntryTime(capacity, Next(capacity, m, run[0]), Book(capacity, m, b, run[0]), run[1..], id,
                if given != [] && given[0].jobId == id then run[0].op.now else t);
    }
  }

  /** Over every run, a recovery takes exactly those jobs in flight that were last handed out longer ago
      than the timeout. */
  lemma RecoversStaleIff(capacity: nat, run: seq<Step>, now: int, timeout: int, moved: seq<JobId>, id: JobId)
    requires IsRun(capacity, EMPTY_MEM, run)
    requires var m := After(capacity, EMPTY_MEM, NO_BOOKS, run).0;
             Enabled(capacity, m, Recover(now, timeout, moved)) && id in m.inflight
    ensures var m := After(capacity, EMPTY_MEM, NO_BOOKS, run).0;
            var m' := Next(capacity, m, Recover(now, timeout, moved));
            id !in m'.inflight <==> now - LastHandOut(capacity, EMPTY_MEM, run, id, 0) > timeout
  {
    EntryTime(capacity, EMPTY_MEM, NO_BOOKS, run, id, 0);
    var m := After(capacity, EMPTY_MEM, NO_BOOKS, run).0;
    if IsStale(m.inflight[id], now, timeout) {
      var i :| 0 <= i < |moved| && moved[i] == id;
      assert id in IdSet(moved);
    }
  }

  // ---- one place per job --------------------------------------------------

  function OffersIn(s: Step, id: JobId): nat {
    match s
    case Call(Enqueue(p)) => if p.jobId == id then 1 else 0
    case EnqueueDelayed(p) => if p.jobId == id then 1 else 0
    case _ => 0
  }

  function Offers(run: seq<Step>, id: JobId): nat {
    if run == [] then 0 else OffersIn(run[0], id) + Offers(run[1..], id)
  }

  lemma {:induction false} AcceptedAtMostOffered(capacity: nat, m: Mem, b: Books, run: seq<Step>, id: JobId)
    requires IsRun(capacity, m, run)
    ensures b.accepted[id] <= After(capacity, m, b, run).1.accepted[id] <= b.accepted[id] + Offers(run, id)
    decreases |run|
  {
    if run != [] {
      AcceptedAtMostOffered(capacity, Next(capacity, m, run[0]), Book(capacity, m, b, run[0]), run[1..], id);
    }
  }

  lemma {:induction false} RunMergesNothing(capacity: nat, m: Mem, b: Books, run: seq<Step>, id: JobId)
    requires Sound(m) && Balanced(m, b, id) && IsRun(capacity, m, run)
    requires After(capacity, m, b, run).1.accepted[id] <= 1
    ensures After(capacity, m, b, run).1.merged[id] == b.merged[id]
    decreases |run|
  {
    if run != [] {
      var m', b' := Next(capacity, m, run[0]), Book(capacity, m, b, run[0]);
      StepSound(capacity, m, run[0]);
      StepKeeps(capacity, m, b, run[0], id);
      AcceptedAtMostOffered(capacity, m', b', run[1..], id);
      RunMergesNothing(capacity, m', b', run[1..], id);
    }
  }

  /** Over every run, a job enqueued at most once is, when accepted, in exactly one of: queue, pending
      timer, a recovery that waits, in flight, dead letters, acked, drained; or nowhere, and that
      exactly when its own timer fired while the queue was full. */
  lemma ExactlyOnePlace(capacity: nat, run: seq<Step>, id: JobId)
    requires IsRun(capacity, EMPTY_MEM, run) && Offers(run, id) <= 1
    ensures var (m, b) := After(capacity, EMPTY_MEM, NO_BOOKS, run);
            && b.accepted[id] <= 1
            && Held(m, id) + b.acked[id] + b.drained[id] <= 1
            && (b.accepted[id] == 1 ==>
                  (Held(m, id) + b.acked[id] + b.drained[id] == 0 <==> TimerMeetsFull(capacity, EMPTY_MEM, run, id)))
  {
    Conservation(capacity, run, id);
    LostIff(capacity, EMPTY_MEM, NO_BOOKS, run, id);
    AcceptedAtMostOffered(capacity, EMPTY_MEM, NO_BOOKS, run, id);
    RunMergesNothing(capacity, EMPTY_MEM, NO_BOOKS, run, id);
  }

  lemma StepsOf(capacity: nat, m: Mem, b: Books, s: Step, run: seq<Step>)
    requires Enabled(capacity, m, s) && IsRun(capacity, Next(capacity, m, s), run)
    ensures IsRun(capacity, m, [s] + run)
    ensures After(capacity, m, b, [s] + run)
         == After(capacity, Next(capacity, m, s), Book(capacity, m, b, s), run)
    ensures forall id :: Offers([s] + run, id) == OffersIn(s, id) + Offers(run, id)
  {
    assert ([s] + run)[1..] == run;
  }

  /** Without room a job is really lost: a recovery fills the one-place queue while a timer is
      pending, and the timer's accepted job is nowhere afterwards. */
  lemma RecoveryCanLoseDelayedJob(a: Payload, d: Payload) returns (run: seq<Step>)
    requires a.jobId != d.jobId
    ensures IsRun(1, EMPTY_MEM, run) && Offers(run, d.jobId) == 1
    ensures var (m, b) := After(1, EMPTY_MEM, NO_BOOKS, run);
            b.accepted[d.jobId] == 1 && b.lost[d.jobId] == 1 && Held(m, d.jobId) == 0
  {
    var s1, s2, s3 := Call(Enqueue(a)), Call(Dequeue(0)), EnqueueDelayed(d);
    var s4, s5, s6 := Recover(600, 300, [a.jobId]), PutBack(0), Fire(0);
    var m1, b1 := Next(1, EMPTY_MEM, s1), Book(1, EMPTY_MEM, NO_BOOKS, s1);
    var m2, b2 := Next(1, m1, s2), Book(1, m1, b1, s2);
    var m3, b3 := Next(1, m2, s3), Book(1, m2, b2, s3);
    assert m3 == Mem([], map[a.jobId := InFlight(a, 0)], [], [d], 1, []);
    assert [a.jobId][0] in [a.jobId];
    var m4, b4 := Next(1, m3, s4), Book(1, m3, b3, s4);
    assert m4.returning == [a];
    var m5, b5 := Next(1, m4, s5), Book(1, m4, b4, s5);
    assert m5 == Mem([a], map[], [], [d], 1, []);
    var m6, b6 := Next(1, m5, s6), Book(1, m5, b5, s6);
    assert m6 == Mem([a], map[], [], [], 0, []);
    StepsOf(1, m5, b5, s6, []);
    StepsOf(1, m4, b4, s5, [s6] + []);
    StepsOf(1, m3, b3, s4, [s5] + ([s6] + []));
    StepsOf(1, m2, b2, s3, [s4] + ([s5] + ([s6] + [])));
    StepsOf(1, m1, b1, s2, [s3] + ([s4] + ([s5] + ([s6] + []))));
    StepsOf(1, EMPTY_MEM, NO_BOOKS, s1, [s2] + ([s3] + ([s4] + ([s5] + ([s6] + [])))));
    run := [s1] + ([s2] + ([s3] + ([s4] + ([s5] + ([s6] + [])))));
    SumOne(IsJob(d.jobId), a);
  }

  // ---- a whole recovery ------------------------------------------------------

  function Room(capacity: nat, m: Mem): nat {
    if |m.q| < capacity then capacity - |m.q| else 0
  }

  function Least(a: nat, b: nat): nat {
    if a < b then a else b
  }

  /** A recovery nobody disturbs: it puts back as many of the stale jobs as there are free places and
      keeps the others while it waits. */
  function Recovered(capacity: nat, m: Mem, moved: seq<JobId>): Mem
    requires forall i :: 0 <= i < |moved| ==> moved[i] in m.inflight
  {
    var jobs := JobsOf(m.inflight, moved);
    var k := Least(|jobs|, Room(capacity, m));
    m.(q := m.q + jobs[..k], returning := m.returning + jobs[k..], inflight := m.inflight - IdSet(moved))
  }

  /** Such a recovery is a run: the removal, then the puts in order. */
  lemma RecoveredIsRun(capacity: nat, m: Mem, b: Books, now: int, timeout: int, moved: seq<JobId>)
    returns (run: seq<Step>)
    requires ListsStale(m.inflight, now, timeout, moved)
    ensures IsRun(capacity, m, run) && After(capacity, m, b, run).0 == Recovered(capacity, m, moved)
  {
    var s := Recover(now, timeout, moved);
    var jobs, m1 := JobsOf(m.inflight, moved), Next(capacity, m, s);
    var k := Least(|jobs|, Room(capacity, m));
    run := PutsAre(capacity, m1, Book(capacity, m, b, s), m.returning, jobs, k);
    StepsOf(capacity, m, b, s, run);
    run := [s] + run;
  }

  lemma {:induction false} PutsAre(capacity: nat, m: Mem, b: Books, before: seq<Payload>, jobs: seq<Payload>, k: nat)
    returns (run: seq<Step>)
    requires k <= |jobs| && (k > 0 ==> |m.q| + k <= capacity) && m.returning == before + jobs
    ensures IsRun(capacity, m, run)
    ensures After(capacity, m, b, run).0 == m.(q := m.q + jobs[..k], returning := before + jobs[k..])
    decreases k
  {
    if k == 0 {
      run := [];
      assert m.q + jobs[..0] == m.q && jobs[0..] == jobs;
    } else {
      var s := PutBack(|before|);
      var m1 := Next(capacity, m, s);
      assert m1.returning == before + jobs[1..];
      run := PutsAre(capacity, m1, Book(capacity, m, b, s), before, jobs[1..], k - 1);
      StepsOf(capacity, m, b, s, run);
      run := [s] + run;
      assert m.q + jobs[..k] == m1.q + jobs[1..][..k - 1];
      assert jobs[k..] == jobs[1..][k - 1..];
    }
  }
}
