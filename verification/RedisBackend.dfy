/** The Redis backend used by one caller at a time: each method is its sequence of commands.
    Its list and hash refine the abstract job machine. */
module RedisBackend {
  import opened Prelude
  import opened JobPayload
  import RS = RedisStore
  import RP = RedisProtocol
  import opened JobMachine

  type Store = RS.Store

  /** What one call does to the store, command after command. */
  function Call(capacity: nat, st: Store, op: Op): (Store, Reply) {
    match op
    case Enqueue(p) =>
      var (st1, ok) := RS.EnqueueScript(st, ToJson(p), capacity);
      (st1, if ok then Accepted else Saturated)
    case Dequeue(now) =>
      var (st1, raw) := RS.RPop(st);
      if raw.None? then (st1, Empty)
      else
        var job := FromJson(raw.value, "");
        if job.None? then (st1, Empty)
        else (RS.HSet(st1, job.value.jobId, RS.Entry(raw.value, now)), Job(job.value))
    case Ack(id) => (RS.HDel(st, id), Done)
    case Fail(id, error) =>
      (RS.LPushDead(RS.HDel(st, id), RS.DeadLetter(id, RS.HGet(st, id), error)), Done)
  }

  function DepthsOf(st: Store): Depths {
    Depths(|st.main|, |st.inflight|, |st.dead|)
  }

  function Observe(capacity: nat, st: Store, ops: seq<Op>): seq<(Reply, Depths)>
    decreases |ops|
  {
    if ops == [] then []
    else
      var (st', r) := Call(capacity, st, ops[0]);
      [(r, DepthsOf(st'))] + Observe(capacity, st', ops[1..])
  }

  function WireOf(p: Option<Payload>): Option<Json> {
    if p.Some? then Some(ToJson(p.value)) else None
  }

  /** `list` holds the images of `queue`, the oldest at the right end. */
  predicate Mirrors<A, B(==)>(image: A -> B, list: seq<B>, queue: seq<A>) {
    |list| == |queue| && forall i :: 0 <= i < |queue| ==> list[i] == image(queue[|queue| - 1 - i])
  }

  lemma MirrorsPush<A, B>(image: A -> B, list: seq<B>, queue: seq<A>, x: A)
    requires Mirrors(image, list, queue)
    ensures Mirrors(image, [image(x)] + list, queue + [x])
  {
  }

  lemma MirrorsPop<A, B>(image: A -> B, list: seq<B>, queue: seq<A>)
    requires Mirrors(image, list, queue) && queue != []
    ensures list[|list| - 1] == image(queue[0])
    ensures Mirrors(image, list[..|list| - 1], queue[1..])
  {
  }

  function WireOfDead(d: Dead): RS.DeadLetter {
    RS.DeadLetter(d.jobId, WireOf(d.payload), d.error)
  }

  function WireOfJob(p: Payload): Json {
    ToJson(p)
  }

  predicate HashShows(fields: map<JobId, RS.Entry>, jobs: map<JobId, Payload>) {
    fields.Keys == jobs.Keys && forall id :: id in jobs ==> fields[id].payload == WireOfJob(jobs[id])
  }

  /** The store represents the machine: the list holds the queue's wires, oldest at the right end;
      each in-flight field holds its job's wire; the dead letters are newest first. */
  predicate Represents(st: Store, m: Machine) {
    && st.delayed == []
    && Mirrors(WireOfJob, st.main, m.queue)
    && HashShows(st.inflight, m.inflight)
    && Mirrors(WireOfDead, st.dead, m.dead)
  }

  lemma DequeueSimulates(capacity: nat, st: Store, m: Machine, now: int)
    requires Represents(st, m)
    ensures Represents(Call(capacity, st, Dequeue(now)).0, Apply(capacity, m, Dequeue(now)).0)
    ensures Call(capacity, st, Dequeue(now)).1 == Apply(capacity, m, Dequeue(now)).1
  {
    if m.queue != [] {
      MirrorsPop(WireOfJob, st.main, m.queue);
      WireRoundTrip(m.queue[0], "");
    }
  }

  lemma FailSimulates(capacity: nat, st: Store, m: Machine, id: JobId, error: string)
    requires Represents(st, m)
    ensures Represents(Call(capacity, st, Fail(id, error)).0, Apply(capacity, m, Fail(id, error)).0)
  {
    var d := Dead(id, Lookup(m.inflight, id), error);
    MirrorsPush(WireOfDead, st.dead, m.dead, d);
    assert WireOfDead(d) == RS.DeadLetter(id, RS.HGet(st, id), error);
  }

  lemma EnqueueSimulates(capacity: nat, st: Store, m: Machine, p: Payload)
    requires Represents(st, m)
    ensures Represents(Call(capacity, st, Enqueue(p)).0, Apply(capacity, m, Enqueue(p)).0)
    ensures Call(capacity, st, Enqueue(p)).1 == Apply(capacity, m, Enqueue(p)).1
  {
    MirrorsPush(WireOfJob, st.main, m.queue, p);
  }

  /** One call answers as the machine does and keeps the representation. */
  lemma CallSimulates(capacity: nat, st: Store, m: Machine, op: Op)
    requires Represents(st, m)
    ensures Represents(Call(capacity, st, op).0, Apply(capacity, m, op).0)
    ensures Call(capacity, st, op).1 == Apply(capacity, m, op).1
    ensures DepthsOf(Call(capacity, st, op).0) == JobMachine.DepthsOf(Apply(capacity, m, op).0)
  {
    match op {
      case Enqueue(p) => EnqueueSimulates(capacity, st, m, p);
      case Dequeue(now) => DequeueSimulates(capacity, st, m, now);
      case Ack(_) =>
      case Fail(id, error) => FailSimulates(capacity, st, m, id, error);
    }
    SameSize(Call(capacity, st, op).0, Apply(capacity, m, op).0);
  }

  lemma SameSize(st: Store, m: Machine)
    requires Represents(st, m)
    ensures DepthsOf(st) == JobMachine.DepthsOf(m)
  {
    assert |st.inflight| == |st.inflight.Keys|;
    assert |m.inflight| == |m.inflight.Keys|;
  }

  /** Over every sequence of calls the Redis backend is indistinguishable from the machine:
      the same acceptances and rejections, the same payloads, the same depths. */
  lemma {:induction false} RedisRefines(capacity: nat, st: Store, m: Machine, ops: seq<Op>)
    requires Represents(st, m)
    ensures Observe(capacity, st, ops) == JobMachine.Observe(capacity, m, ops)
    decreases |ops|
  {
    if ops != [] {
      CallSimulates(capacity, st, m, ops[0]);
      RedisRefines(capacity, Call(capacity, st, ops[0]).0, Apply(capacity, m, ops[0]).0, ops[1..]);
    }
  }

  /** The protocol steps process 0 takes for one call. */
  function StepsOf(st: Store, op: Op): seq<RP.Action> {
    match op
    case Enqueue(p) => [RP.Enqueue(p)]
    case Dequeue(now) =>
      if st.main != [] && RawId(st.main[|st.main| - 1]).Some? then [RP.Pop(0), RP.Record(0, now)] else [RP.Pop(0)]
    case Ack(id) => [RP.Ack(id)]
    case Fail(id, error) => [RP.FailGet(0, id, error), RP.FailDel(0), RP.FailPush(0)]
  }

  /** A call is an undisturbed run of the protocol: its commands, taken as protocol steps by one
      process, are enabled in turn and leave the store the call leaves. */
  lemma CallIsProtocolRun(capacity: nat, s: RP.State, op: Op)
    requires |s.procs| >= 1 && s.procs[0].Idle?
    ensures RP.IsRun(capacity, s, StepsOf(s.st, op))
    ensures RP.After(capacity, s, StepsOf(s.st, op)).st == Call(capacity, s.st, op).0
    ensures RP.After(capacity, s, StepsOf(s.st, op)).procs == s.procs
  {
    match op {
      case Enqueue(p) => OneStep(capacity, s, RP.Enqueue(p));
      case Dequeue(now) =>
        OneStep(capacity, s, RP.Pop(0));
        if s.st.main != [] {
          ParseIgnoresClock(s.st.main[|s.st.main| - 1], "");
        }
        if |StepsOf(s.st, op)| == 2 {
          var s1 := RP.Next(capacity, s, RP.Pop(0));
          OneStep(capacity, s1, RP.Record(0, now));
          assert StepsOf(s.st, op)[1..] == [RP.Record(0, now)];
        }
      case Ack(id) => OneStep(capacity, s, RP.Ack(id));
      case Fail(id, error) => FailSteps(capacity, s, id, error);
    }
  }

  lemma OneStep(capacity: nat, s: RP.State, a: RP.Action)
    requires RP.Enabled(s, a)
    ensures RP.IsRun(capacity, s, [a]) && RP.After(capacity, s, [a]) == RP.Next(capacity, s, a)
  {
    assert [a][1..] == [];
  }

  lemma FailSteps(capacity: nat, s: RP.State, id: JobId, error: string)
    requires |s.procs| >= 1 && s.procs[0].Idle?
    ensures var run := [RP.FailGet(0, id, error), RP.FailDel(0), RP.FailPush(0)];
            && RP.IsRun(capacity, s, run)
            && RP.After(capacity, s, run).st == Call(capacity, s.st, Fail(id, error)).0
            && RP.After(capacity, s, run).procs == s.procs
  {
    var a1, a2, a3 := RP.FailGet(0, id, error), RP.FailDel(0), RP.FailPush(0);
    var s1 := RP.Next(capacity, s, a1);
    var s2 := RP.Next(capacity, s1, a2);
    OneStep(capacity, s2, a3);
    assert [a1, a2, a3][1..] == [a2, a3];
    assert [a2, a3][1..] == [a3];
    assert RP.After(capacity, s1, [a2, a3]) == RP.After(capacity, s2, [a3]);
  }

  function Raws(todo: seq<RP.Stale>): (r: seq<Json>)
    ensures |r| == |todo| && forall i :: 0 <= i < |todo| ==> r[i] == todo[i].raw
  {
    seq(|todo|, i requires 0 <= i < |todo| => todo[i].raw)
  }

  function Ids(todo: seq<RP.Stale>): set<JobId> {
    set i | 0 <= i < |todo| :: todo[i].id
  }

  /** The store after recovering the listed entries in order: their fields are gone and their
      payloads are at the left end of the main list, the last recovered leftmost. */
  function Recovered(st: Store, todo: seq<RP.Stale>): Store {
    st.(main := Reversed(Raws(todo)) + st.main, inflight := st.inflight - Ids(todo))
  }

  lemma RecoveredSnoc(st: Store, todo: seq<RP.Stale>, next: RP.Stale)
    ensures Recovered(st, todo + [next]) == RS.LPush(RS.HDel(Recovered(st, todo), next.id), next.raw)
  {
    assert Raws(todo + [next]) == Raws(todo) + [next.raw];
    ReversedSnoc(Raws(todo), next.raw);
    assert Ids(todo + [next]) == Ids(todo) + {next.id} by {
      assert (todo + [next])[|todo|] == next;
      assert forall i :: 0 <= i < |todo| ==> (todo + [next])[i] == todo[i];
    }
    assert st.inflight - (Ids(todo) + {next.id}) == (st.inflight - Ids(todo)) - {next.id};
  }

  lemma RecoveredCons(st: Store, todo: seq<RP.Stale>)
    requires todo != []
    ensures Recovered(RS.LPush(RS.HDel(st, todo[0].id), todo[0].raw), todo[1..]) == Recovered(st, todo)
  {
    assert Raws(todo)[1..] == Raws(todo[1..]);
    assert Ids(todo) == {todo[0].id} + Ids(todo[1..]) by {
      assert forall i :: 0 <= i < |todo| - 1 ==> todo[1..][i] == todo[i + 1];
    }
    assert Reversed(Raws(todo)) + st.main == Reversed(Raws(todo[1..])) + ([todo[0].raw] + st.main);
    assert (st.inflight - {todo[0].id}) - Ids(todo[1..]) == st.inflight - Ids(todo);
  }

  predicate AllInFlight(st: Store, todo: seq<RP.Stale>) {
    && (forall i :: 0 <= i < |todo| ==> todo[i].id in st.inflight)
    && (forall i, j :: 0 <= i < j < |todo| ==> todo[i].id != todo[j].id)
  }

  lemma ReturnOne(capacity: nat, s: RP.State, todo: seq<RP.Stale>) returns (s': RP.State)
    requires |s.procs| >= 1 && todo != [] && s.procs[0] == RP.Scanning(todo) && AllInFlight(s.st, todo)
    ensures RP.IsRun(capacity, s, [RP.Claim(0), RP.Requeue(0)])
    ensures s' == RP.After(capacity, s, [RP.Claim(0), RP.Requeue(0)])
    ensures s'.st == RS.LPush(RS.HDel(s.st, todo[0].id), todo[0].raw)
    ensures s'.procs == s.procs[0 := RP.Scanning(todo[1..])] && AllInFlight(s'.st, todo[1..])
  {
    var s1 := RP.Next(capacity, s, RP.Claim(0));
    OneStep(capacity, s1, RP.Requeue(0));
    assert [RP.Claim(0), RP.Requeue(0)][1..] == [RP.Requeue(0)];
    s' := RP.Next(capacity, s1, RP.Requeue(0));
  }

  lemma {:induction false} ReturnAll(capacity: nat, s: RP.State, todo: seq<RP.Stale>) returns (run: seq<RP.Action>)
    requires |s.procs| >= 1 && s.procs[0] == RP.Scanning(todo) && AllInFlight(s.st, todo)
    ensures RP.IsRun(capacity, s, run)
    ensures RP.After(capacity, s, run).st == Recovered(s.st, todo)
    ensures RP.After(capacity, s, run).procs == s.procs[0 := RP.Scanning([])]
    decreases |todo|
  {
    if todo == [] {
      run := [];
      assert Recovered(s.st, []).main == s.st.main && s.st.inflight - Ids([]) == s.st.inflight;
    } else {
      var s' := ReturnOne(capacity, s, todo);
      run := ReturnAll(capacity, s', todo[1..]);
      RecoveredCons(s.st, todo);
      RP.RunConcat(capacity, s, [RP.Claim(0), RP.Requeue(0)], run);
      run := [RP.Claim(0), RP.Requeue(0)] + run;
    }
  }

  /** A recovery nobody disturbs is a run of the protocol: one scan, and for each stale entry a claim
      that wins and a requeue. */
  lemma RecoveryIsProtocolRun(capacity: nat, s: RP.State, now: int, timeout: int, todo: seq<RP.Stale>)
    returns (run: seq<RP.Action>)
    requires |s.procs| >= 1 && s.procs[0].Idle? && RP.ListsStale(s.st.inflight, now, timeout, todo)
    ensures RP.IsRun(capacity, s, run)
    ensures RP.After(capacity, s, run).st == Recovered(s.st, todo) && RP.After(capacity, s, run).procs == s.procs
  {
    var scan := RP.Scan(0, now, timeout, todo);
    var s1 := RP.Next(capacity, s, scan);
    OneStep(capacity, s, scan);
    run := ReturnAll(capacity, s1, todo);
    RP.RunConcat(capacity, s, [scan], run);
    RP.Extend(capacity, s, [scan] + run, RP.EndScan(0));
    run := [scan] + run + [RP.EndScan(0)];
  }

  lemma ListsOneMore(entries: map<JobId, RS.Entry>, left: set<JobId>, id: JobId, now: int, timeout: int,
                     todo: seq<RP.Stale>)
    requires id in left && id in entries
    requires RP.ListsStale(entries - left, now, timeout, todo)
    ensures !RP.IsStale(entries[id], now, timeout) ==>
              RP.ListsStale(entries - (left - {id}), now, timeout, todo)
    ensures RP.IsStale(entries[id], now, timeout) ==>
              RP.ListsStale(entries - (left - {id}), now, timeout, todo + [RP.Stale(id, entries[id].payload)])
  {
    var more := todo + [RP.Stale(id, entries[id].payload)];
    assert more[|todo|] in more;
    assert forall x :: x in todo ==> x in more;
    assert forall j :: j in entries - (left - {id}) <==> j == id || j in entries - left;
  }

  lemma WithoutStaysSorted(ds: seq<RS.Delayed>, raw: Json)
    requires RS.SortedByScore(ds)
    ensures RS.SortedByScore(RS.Without(ds, raw))
  {
  }

  method FindPosition(ds: seq<RS.Delayed>, d: RS.Delayed) returns (pos: nat)
    requires RS.SortedByScore(ds)
    ensures RS.MayInsertAt(ds, d, pos)
  {
    pos := 0;
    while pos < |ds| && ds[pos].score <= d.score
      invariant pos <= |ds|
      invariant forall i :: 0 <= i < pos ==> ds[i].score <= d.score
    {
      pos := pos + 1;
    }
  }

  lemma RecoveredAreStale(st: Store, now: int, timeout: int, todo: seq<RP.Stale>)
    requires RP.ListsStale(st.inflight, now, timeout, todo)
    ensures forall id :: id in st.inflight ==>
              (id !in Recovered(st, todo).inflight <==> now - st.inflight[id].dequeuedAt > timeout)
  {
    forall id | id in st.inflight ensures id in Ids(todo) <==> now - st.inflight[id].dequeuedAt > timeout {
      if RP.IsStale(st.inflight[id], now, timeout) {
        var i :| 0 <= i < |todo| && todo[i] == RP.Stale(id, st.inflight[id].payload);
        assert todo[i].id == id;
      }
    }
  }

  /** The backend object. Time is a parameter of the calls that read the clock. */
  class RedisQueueBackend {
    const maxQueueSize: nat
    var store: Store

    /** A size of zero means the configured default. */
    constructor (size: nat, default: nat)
      ensures maxQueueSize == (if size == 0 then default else size)
      ensures store == RS.EMPTY_STORE && Represents(store, EMPTY_MACHINE)
    {
      maxQueueSize := if size == 0 then default else size;
      store := RS.EMPTY_STORE;
    }

    /** False stands for QueueSaturatedError. */
    method Enqueue(p: Payload) returns (ok: bool)
      modifies this
      ensures store == Call(maxQueueSize, old(store), JobMachine.Op.Enqueue(p)).0
      ensures ok <==> |old(store.main)| + |old(store.delayed)| < maxQueueSize
      ensures RS.HandOut(store) == RS.HandOut(old(store)) + (if ok then [ToJson(p)] else [])
      ensures store == old(store).(main := store.main)
    {
      RS.PushedIsLast(store, ToJson(p));
      var reply := RS.EnqueueScript(store, ToJson(p), maxQueueSize);
      store := reply.0;
      ok := reply.1;
    }

    method Dequeue(now: int) returns (job: Option<Payload>)
      modifies this
      ensures store == Call(maxQueueSize, old(store), JobMachine.Op.Dequeue(now)).0
      ensures Call(maxQueueSize, old(store), JobMachine.Op.Dequeue(now)).1
           == (if job.Some? then Job(job.value) else Empty)
      ensures old(store.main) == [] ==> job == None && store == old(store)
      ensures old(store.main) != [] ==>
                var next := RS.HandOut(old(store));
                && job == FromJson(next[0], "") && RS.HandOut(store) == next[1..]
                && store.inflight == (if job.None? then old(store.inflight)
                                      else old(store.inflight)[job.value.jobId := RS.Entry(next[0], now)])
      ensures store.delayed == old(store.delayed) && store.dead == old(store.dead)
    {
      var reply := RS.RPop(store);
      store := reply.0;
      if reply.1.None? {
        return None;
      }
      var raw := reply.1.value;
      job := FromJson(raw, "");
      if job.None? {
        return None;
      }
      ghost var rest := store;
      store := RS.HSet(store, job.value.jobId, RS.Entry(raw, now));
      RS.HandOutIsReversed(rest);
      RS.HandOutIsReversed(store);
    }

    method Ack(id: JobId)
      modifies this
      ensures store == Call(maxQueueSize, old(store), JobMachine.Op.Ack(id)).0
      ensures store == old(store).(inflight := old(store.inflight) - {id})
    {
      store := RS.HDel(store, id);
    }

    method Fail(id: JobId, error: string)
      modifies this
      ensures store == Call(maxQueueSize, old(store), JobMachine.Op.Fail(id, error)).0
      ensures var payload := if id in old(store.inflight) then Some(old(store.inflight)[id].payload) else None;
              store == old(store).(inflight := old(store.inflight) - {id},
                                   dead := [RS.DeadLetter(id, payload, error)] + old(store.dead))
    {
      var found := RS.HGet(store, id);
      store := RS.HDel(store, id);
      store := RS.LPushDead(store, RS.DeadLetter(id, found, error));
    }

    /** False stands for QueueSaturatedError. The member goes where its score puts it; an equal
        member is replaced. */
    method EnqueueDelayed(p: Payload, executeAt: int) returns (ok: bool)
      requires RS.SortedByScore(store.delayed)
      modifies this
      ensures RS.SortedByScore(store.delayed)
      ensures ok <==> |old(store.main)| + |old(store.delayed)| < maxQueueSize
      ensures !ok ==> store == old(store)
      ensures ok && RS.DistinctMembers(old(store.delayed)) ==>
                && RS.DistinctMembers(store.delayed)
                && (forall raw :: RS.ScoreOf(store.delayed, raw)
                      == if raw == ToJson(p) then Some(executeAt) else RS.ScoreOf(old(store.delayed), raw))
      ensures ok ==>
                exists pos ::
                  && RS.MayInsertAt(RS.Without(old(store.delayed), ToJson(p)), RS.Delayed(ToJson(p), executeAt), pos)
                  && store == RS.DelayScript(old(store), RS.Delayed(ToJson(p), executeAt), pos, maxQueueSize).0
    {
      var d := RS.Delayed(ToJson(p), executeAt);
      var rest := RS.Without(store.delayed, d.raw);
      WithoutStaysSorted(store.delayed, d.raw);
      var pos := FindPosition(rest, d);
      RP.InsertStaysSorted(rest, d, pos);
      var reply := RS.DelayScript(store, d, pos, maxQueueSize);
      if reply.1 && RS.DistinctMembers(store.delayed) {
        forall raw ensures RS.DistinctMembers(reply.0.delayed) && RS.ScoreOf(reply.0.delayed, raw)
                     == if raw == d.raw then Some(executeAt) else RS.ScoreOf(store.delayed, raw) {
          RS.DelayMakesDue(store, d, pos, maxQueueSize, raw);
        }
        RS.DelayMakesDue(store, d, pos, maxQueueSize, d.raw);
      }
      store := reply.0;
      ok := reply.1;
    }

    /** Promote ready delayed jobs. */
    method ProcessDelayedJobs(now: int) returns (count: nat)
      modifies this
      ensures store == RS.PromoteScript(old(store), now)
      ensures count == RS.ReadyCount(old(store.delayed), now, 100)
      ensures RS.HandOut(store) == RS.HandOut(old(store)) + RS.Members(old(store.delayed)[..count])
      ensures store.delayed == old(store.delayed)[count..]
    {
      store, count := RS.RunPromoteScript(store, now);
    }

    /** Recovery undisturbed by others: exactly the stale entries leave the hash, and each leaves
        one copy of its payload on the main list. */
    method RequeueStaleJobs(now: int, timeout: int) returns (requeued: nat)
      modifies this
      ensures exists todo ::
                && RP.ListsStale(old(store.inflight), now, timeout, todo)
                && requeued == |todo|
                && store == Recovered(old(store), todo)
                && RS.HandOut(store) == RS.HandOut(old(store)) + Raws(todo)
      ensures forall id :: id in old(store.inflight) ==>
                (id !in store.inflight <==> now - old(store.inflight)[id].dequeuedAt > timeout)
    {
      var entries := store.inflight;
      var left := entries.Keys;
      ghost var todo: seq<RP.Stale> := [];
      requeued := 0;
      while left != {}
        invariant left <= entries.Keys && entries == old(store.inflight)
        invariant RP.ListsStale(entries - left, now, timeout, todo)
        invariant requeued == |todo|
        invariant store == Recovered(old(store), todo)
        decreases left
      {
        var id :| id in left;
        ListsOneMore(entries, left, id, now, timeout, todo);
        left := left - {id};
        if now - entries[id].dequeuedAt > timeout {
          var removed := id in store.inflight;
          assert removed;
          if removed {
            store := RS.HDel(store, id);
            store := RS.LPush(store, entries[id].payload);
            requeued := requeued + 1;
            RecoveredSnoc(old(store), todo, RP.Stale(id, entries[id].payload));
            todo := todo + [RP.Stale(id, entries[id].payload)];
          }
        }
      }
      assert entries - left == entries;
      RS.PushedInOrder(old(store), store, Raws(todo));
      RecoveredAreStale(old(store), now, timeout, todo);
    }
  }
}
