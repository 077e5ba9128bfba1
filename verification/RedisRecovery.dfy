/** What recovery does to capacity, to fresh entries and to the number of deliveries. */
module RedisRecovery {
  import opened Prelude
  import opened JobPayload
  import opened RedisStore
  import opened RedisProtocol
  import RF = RedisFailures

  // ---- capacity -------------------------------------------------------------

  /** From within capacity, only a requeue at capacity goes over. */
  lemma WithinSurvivesIff(capacity: nat, s: State, a: Action)
    requires Pending(s.st) <= capacity && Enabled(s, a)
    ensures Pending(Next(capacity, s, a).st) <= capacity <==> !(a.Requeue? && Pending(s.st) == capacity)
  {
    if a.Promote? {
      PromotionPreservesPending(s.st, a.now);
    }
  }

  predicate AlwaysWithin(capacity: nat, s: State, run: seq<Action>)
    requires IsRun(capacity, s, run)
    decreases |run|
  {
    Pending(s.st) <= capacity && (run == [] || AlwaysWithin(capacity, Next(capacity, s, run[0]), run[1..]))
  }

  /** No recovered job is pushed while the queue is at capacity. */
  predicate RequeuesFindRoom(capacity: nat, s: State, run: seq<Action>)
    requires IsRun(capacity, s, run)
    decreases |run|
  {
    run != [] ==>
      && !(run[0].Requeue? && Pending(s.st) == capacity)
      && RequeuesFindRoom(capacity, Next(capacity, s, run[0]), run[1..])
  }

  /** Over whole runs: pending jobs stay within capacity at every point exactly when every recovered
      job is pushed while there is room. */
  lemma {:induction false} AlwaysWithinIff(capacity: nat, s: State, run: seq<Action>)
    requires Pending(s.st) <= capacity && IsRun(capacity, s, run)
    ensures AlwaysWithin(capacity, s, run) <==> RequeuesFindRoom(capacity, s, run)
    decreases |run|
  {
    if run != [] {
      WithinSurvivesIff(capacity, s, run[0]);
      if Pending(Next(capacity, s, run[0]).st) <= capacity {
        AlwaysWithinIff(capacity, Next(capacity, s, run[0]), run[1..]);
      }
    }
  }

  // ---- the capacity bound is attained ------------------------------------------

  function IdOf(i: nat): (id: JobId)
    ensures |id| == i + 1
  {
    seq(i + 1, _ => 'x')
  }

  function JobOf(id: JobId): Payload {
    QueueJobPayload(id, "", id, map[], map[], "")
  }

  function Taken(id: JobId): Entry {
    Entry(ToJson(JobOf(id)), 0)
  }

  function Flight(k: nat): map<JobId, Entry> {
    if k == 0 then map[] else Flight(k - 1)[IdOf(k - 1) := Taken(IdOf(k - 1))]
  }

  function Todo(k: nat): seq<Stale> {
    if k == 0 then [] else [Stale(IdOf(k - 1), ToJson(JobOf(IdOf(k - 1))))] + Todo(k - 1)
  }

  lemma {:induction false} FlightHolds(k: nat, id: JobId)
    requires id in Flight(k)
    ensures |id| <= k && Flight(k)[id] == Taken(id)
  {
    if id != IdOf(k - 1) {
      FlightHolds(k - 1, id);
    }
  }

  lemma {:induction false} TodoIsInFlight(k: nat, i: nat)
    requires i < |Todo(k)|
    ensures |Todo(k)| == k && |Todo(k)[i].id| == k - i
    ensures Todo(k)[i].id in Flight(k) && Todo(k)[i].raw == Taken(Todo(k)[i].id).payload
  {
    if i > 0 {
      TodoIsInFlight(k - 1, i - 1);
    } else if Todo(k - 1) != [] {
      TodoIsInFlight(k - 1, 0);
    }
  }

  lemma {:induction false} FlightIsTodo(k: nat, id: JobId)
    requires id in Flight(k)
    ensures Stale(id, Taken(id).payload) in Todo(k)
  {
    if id == IdOf(k - 1) {
      assert Todo(k)[0] in Todo(k);
    } else {
      FlightIsTodo(k - 1, id);
    }
  }

  lemma AllStale(k: nat)
    ensures ListsStale(Flight(k), 1, 0, Todo(k))
  {
    forall i | 0 <= i < |Todo(k)|
      ensures Todo(k)[i].id in Flight(k) && Flight(k)[Todo(k)[i].id] == Entry(Todo(k)[i].raw, 0)
    {
      TodoIsInFlight(k, i);
      FlightHolds(k, Todo(k)[i].id);
    }
    forall id | id in Flight(k) ensures Stale(id, Flight(k)[id].payload) in Todo(k) {
      FlightHolds(k, id);
      FlightIsTodo(k, id);
    }
    forall i, j | 0 <= i < j < |Todo(k)| ensures Todo(k)[i].id != Todo(k)[j].id {
      TodoIsInFlight(k, i);
      TodoIsInFlight(k, j);
    }
  }

  lemma FlightShrinks(k: nat)
    requires k > 0
    ensures IdOf(k - 1) in Flight(k) && Flight(k) - {IdOf(k - 1)} == Flight(k - 1)
  {
    if IdOf(k - 1) in Flight(k - 1) {
      FlightHolds(k - 1, IdOf(k - 1));
    }
  }

  predicate At(capacity: nat, run: seq<Action>, s: State) {
    IsRun(capacity, Start(1), run) && s == After(capacity, Start(1), run)
  }

  lemma Go(capacity: nat, run: seq<Action>, s: State, a: Action)
    requires At(capacity, run, s) && Enabled(s, a)
    ensures At(capacity, run + [a], Next(capacity, s, a))
  {
    Extend(capacity, Start(1), run, a);
  }

  /** One more job taken. */
  lemma TakeOne(capacity: nat, run: seq<Action>, s: State, k: nat) returns (run': seq<Action>, s': State)
    requires capacity >= 1 && At(capacity, run, s)
    requires s.st == Store([], Flight(k), [], []) && s.procs == [Idle] && s.requeues == 0
    ensures At(capacity, run', s')
    ensures s'.st == Store([], Flight(k + 1), [], []) && s'.procs == [Idle] && s'.requeues == 0
  {
    var p := JobOf(IdOf(k));
    RawIdOfWire(p);
    var s1 := Next(capacity, s, Enqueue(p));
    assert s1.st.main == [ToJson(p)];
    Go(capacity, run, s, Enqueue(p));
    var s2 := Next(capacity, s1, Pop(0));
    assert s2.st.main == [] && s2.procs == [Popped(ToJson(p))];
    Go(capacity, run + [Enqueue(p)], s1, Pop(0));
    Go(capacity, run + [Enqueue(p)] + [Pop(0)], s2, Record(0, 0));
    run', s' := run + [Enqueue(p)] + [Pop(0)] + [Record(0, 0)], Next(capacity, s2, Record(0, 0));
  }

  lemma {:induction false} TakeMany(capacity: nat, k: nat) returns (run: seq<Action>, s: State)
    requires capacity >= 1
    ensures At(capacity, run, s)
    ensures s.st == Store([], Flight(k), [], []) && s.procs == [Idle] && s.requeues == 0
  {
    if k == 0 {
      run, s := [], Start(1);
    } else {
      run, s := TakeMany(capacity, k - 1);
      run, s := TakeOne(capacity, run, s, k - 1);
    }
  }

  lemma {:induction false} FillUp(capacity: nat, k: nat, c: nat) returns (run: seq<Action>, s: State)
    requires 1 <= capacity && c <= capacity
    ensures At(capacity, run, s)
    ensures s.st == Store(s.st.main, Flight(k), [], []) && |s.st.main| == c && s.procs == [Idle] && s.requeues == 0
  {
    if c == 0 {
      run, s := TakeMany(capacity, k);
    } else {
      run, s := FillUp(capacity, k, c - 1);
      var a := Enqueue(JobOf(""));
      Go(capacity, run, s, a);
      run, s := run + [a], Next(capacity, s, a);
    }
  }

  lemma ReturnOne(capacity: nat, run: seq<Action>, s: State, k: nat) returns (run': seq<Action>, s': State)
    requires At(capacity, run, s) && k > 0
    requires s.st.inflight == Flight(k) && s.procs == [Scanning(Todo(k))]
    ensures At(capacity, run', s')
    ensures s'.st.inflight == Flight(k - 1) && s'.procs == [Scanning(Todo(k - 1))]
    ensures Pending(s'.st) == Pending(s.st) + 1 && s'.requeues == s.requeues + 1
  {
    FlightShrinks(k);
    assert Todo(k)[1..] == Todo(k - 1);
    Go(capacity, run, s, Claim(0));
    var s1 := Next(capacity, s, Claim(0));
    assert s1.procs == [Claimed(Todo(k)[0].raw, Todo(k - 1))];
    Go(capacity, run + [Claim(0)], s1, Requeue(0));
    run', s' := run + [Claim(0)] + [Requeue(0)], Next(capacity, s1, Requeue(0));
  }

  lemma {:induction false} ReturnAll(capacity: nat, run: seq<Action>, s: State, k: nat)
    returns (run': seq<Action>, s': State)
    requires At(capacity, run, s)
    requires s.st.inflight == Flight(k) && s.procs == [Scanning(Todo(k))]
    ensures At(capacity, run', s')
    ensures Pending(s'.st) == Pending(s.st) + k && s'.requeues == s.requeues + k
    decreases k
  {
    run', s' := run, s;
    if k > 0 {
      run', s' := ReturnOne(capacity, run, s, k);
      run', s' := ReturnAll(capacity, run', s', k - 1);
    }
  }

  /** The bound of the protocol is exact: for every capacity and every k, some run has k recovered
      jobs and exactly that many pending jobs over capacity. */
  lemma PendingBoundAttained(capacity: nat, k: nat) returns (run: seq<Action>)
    requires capacity >= 1
    ensures IsRun(capacity, Start(1), run)
    ensures var s := After(capacity, Start(1), run); s.requeues == k && Pending(s.st) == capacity + k
  {
    var s;
    run, s := FillUp(capacity, k, capacity);
    var a := Scan(0, 1, 0, Todo(k));
    AllStale(k);
    Go(capacity, run, s, a);
    run, s := run + [a], Next(capacity, s, a);
    run, s := ReturnAll(capacity, run, s, k);
  }

  // ---- deliveries ----------------------------------------------------------------

  /** This step hands a job of this id to a worker. */
  function RecordsNow(s: State, a: Action, id: JobId): nat
    requires Enabled(s, a)
  {
    if a.Record? then Has(s.procs[a.w].raw, id) else 0
  }

  function RequeuesNow(s: State, a: Action, id: JobId): nat
    requires Enabled(s, a)
  {
    if a.Requeue? then Has(s.procs[a.w].raw, id) else 0
  }

  function Records(capacity: nat, s: State, run: seq<Action>, id: JobId): nat
    requires IsRun(capacity, s, run)
    decreases |run|
  {
    if run == [] then 0
    else RecordsNow(s, run[0], id) + Records(capacity, Next(capacity, s, run[0]), run[1..], id)
  }

  function Requeues(capacity: nat, s: State, run: seq<Action>, id: JobId): nat
    requires IsRun(capacity, s, run)
    decreases |run|
  {
    if run == [] then 0
    else RequeuesNow(s, run[0], id) + Requeues(capacity, Next(capacity, s, run[0]), run[1..], id)
  }

  function PoppedHas(id: JobId): Pc -> nat {
    (pc: Pc) => if pc.Popped? then Has(pc.raw, id) else 0
  }

  /** Copies that can still be handed out without another enqueue or recovery. */
  function Upstream(s: State, id: JobId): nat {
    Count(s.st.main, id) + CountDelayed(s.st.delayed, id) + Sum(PoppedHas(id), s.procs)
  }

  /** What a step hands out came from upstream, and only enqueues and requeues feed it. */
  ghost predicate Feeds(capacity: nat, s: State, a: Action, id: JobId)
    requires Enabled(s, a)
  {
    var s' := Next(capacity, s, a);
    Upstream(s', id) + RecordsNow(s, a, id) + s.books.accepted[id]
      <= Upstream(s, id) + s'.books.accepted[id] + RequeuesNow(s, a, id)
  }

  lemma EnqueueFeeds(capacity: nat, s: State, a: Action, id: JobId)
    requires a.Enqueue?
    ensures Feeds(capacity, s, a, id)
  {
    RawIdOfWire(a.p);
    SumCons(HasId(id), ToJson(a.p), s.st.main);
  }

  lemma EnqueueDelayedFeeds(capacity: nat, s: State, a: Action, id: JobId)
    requires Enabled(s, a) && a.EnqueueDelayed?
    ensures Feeds(capacity, s, a, id)
  {
    var d := Delayed(ToJson(a.p), a.score);
    RawIdOfWire(a.p);
    CountWithout(s.st.delayed, d.raw, id);
    CountInserted(Without(s.st.delayed, d.raw), d, a.pos, id);
  }

  lemma PopFeeds(capacity: nat, s: State, a: Action, id: JobId)
    requires Enabled(s, a) && a.Pop?
    ensures Feeds(capacity, s, a, id)
  {
    if s.st.main != [] {
      var raw := s.st.main[|s.st.main| - 1];
      SumLast(HasId(id), s.st.main);
      SumUpdate(PoppedHas(id), s.procs, a.w, Popped(raw));
    }
  }

  lemma RequeueFeeds(capacity: nat, s: State, a: Action, id: JobId)
    requires Enabled(s, a) && a.Requeue?
    ensures Feeds(capacity, s, a, id)
  {
    var pc := s.procs[a.w];
    SumUpdate(PoppedHas(id), s.procs, a.w, Scanning(pc.todo));
    SumCons(HasId(id), pc.raw, s.st.main);
  }

  lemma OtherFeeds(capacity: nat, s: State, a: Action, id: JobId)
    requires Enabled(s, a) && !(a.Enqueue? || a.EnqueueDelayed? || a.Promote? || a.Pop? || a.Requeue?)
    ensures Feeds(capacity, s, a, id)
  {
    if !a.Ack? {
      SumUpdate(PoppedHas(id), s.procs, a.w, Next(capacity, s, a).procs[a.w]);
    }
  }

  lemma StepFeeds(capacity: nat, s: State, a: Action, id: JobId)
    requires Enabled(s, a)
    ensures Feeds(capacity, s, a, id)
  {
    match a
    case Enqueue(_) => EnqueueFeeds(capacity, s, a, id);
    case EnqueueDelayed(_, _, _) => EnqueueDelayedFeeds(capacity, s, a, id);
    case Promote(now) => PromoteMoves(s.st, now, id);
    case Pop(_) => PopFeeds(capacity, s, a, id);
    case Requeue(_) => RequeueFeeds(capacity, s, a, id);
    case _ => OtherFeeds(capacity, s, a, id);
  }

  lemma {:induction false} RunFeeds(capacity: nat, s: State, run: seq<Action>, id: JobId)
    requires IsRun(capacity, s, run)
    ensures var t := After(capacity, s, run);
            Upstream(t, id) + Records(capacity, s, run, id) + s.books.accepted[id]
              <= Upstream(s, id) + t.books.accepted[id] + Requeues(capacity, s, run, id)
    decreases |run|
  {
    if run != [] {
      StepFeeds(capacity, s, run[0], id);
      RunFeeds(capacity, Next(capacity, s, run[0]), run[1..], id);
    }
  }

  /** Deliveries over every run: a job is handed to workers at most once per accepted enqueue and once
      per recovery of it. */
  lemma DeliveryBound(capacity: nat, n: nat, run: seq<Action>, id: JobId)
    requires IsRun(capacity, Start(n), run)
    ensures Records(capacity, Start(n), run, id)
         <= After(capacity, Start(n), run).books.accepted[id] + Requeues(capacity, Start(n), run, id)
  {
    SumZero(PoppedHas(id), Start(n).procs);
    RunFeeds(capacity, Start(n), run, id);
  }

  // ---- claims of fresh entries -----------------------------------------------------

  /** When the job was last handed out during a run, or `t` when it was not. */
  function LastRecord(capacity: nat, s: State, run: seq<Action>, id: JobId, t: int): int
    requires IsRun(capacity, s, run)
    decreases |run|
  {
    if run == [] then t
    else
      LastRecord(capacity, Next(capacity, s, run[0]), run[1..], id,
                 if RecordsNow(s, run[0], id) > 0 then run[0].now else t)
  }

  lemma {:induction false} NoRecordNoChange(capacity: nat, s: State, run: seq<Action>, id: JobId, t: int)
    requires IsRun(capacity, s, run) && Records(capacity, s, run, id) == 0
    ensures LastRecord(capacity, s, run, id, t) == t
    decreases |run|
  {
    if run != [] {
      NoRecordNoChange(capacity, Next(capacity, s, run[0]), run[1..], id, t);
    }
  }

  lemma StepTime(capacity: nat, s: State, a: Action, id: JobId, t: int)
    requires Enabled(s, a) && (id in s.st.inflight ==> s.st.inflight[id].dequeuedAt == t)
    ensures var s' := Next(capacity, s, a);
            id in s'.st.inflight ==>
              s'.st.inflight[id].dequeuedAt == (if RecordsNow(s, a, id) > 0 then a.now else t)
  {
    if !a.Record? {
      HashOnlyShrinks(capacity, s, a);
    }
  }

  lemma {:induction false} EntryTime(capacity: nat, s: State, run: seq<Action>, id: JobId, t: int)
    requires IsRun(capacity, s, run) && (id in s.st.inflight ==> s.st.inflight[id].dequeuedAt == t)
    ensures var u := After(capacity, s, run);
            id in u.st.inflight ==> u.st.inflight[id].dequeuedAt == LastRecord(capacity, s, run, id, t)
    decreases |run|
  {
    if run != [] {
      StepTime(capacity, s, run[0], id, t);
      EntryTime(capacity, Next(capacity, s, run[0]), run[1..], id,
                if RecordsNow(s, run[0], id) > 0 then run[0].now else t);
    }
  }

  /** Recovery is meant for jobs dequeued longer ago than the timeout. A process scans at `s`, others
      and it itself act, and at `u` it claims an entry its scan listed. By the scan's clock the entry
      it takes is stale exactly when the job was not handed out again too recently in between; in
      particular whenever it was not handed out again at all. */
  lemma ClaimIsOfStaleIff(capacity: nat, s: State, scan: Action, between: seq<Action>, stale: Stale)
    requires scan.Scan? && Enabled(s, scan) && stale in scan.todo
    requires IsRun(capacity, Next(capacity, s, scan), between)
    requires stale.id in After(capacity, Next(capacity, s, scan), between).st.inflight
    ensures var s1 := Next(capacity, s, scan); var u := After(capacity, s1, between);
            var entry := u.st.inflight[stale.id];
            && stale.id in s.st.inflight
            && (IsStale(entry, scan.now, scan.timeout) <==>
                  scan.now - LastRecord(capacity, s1, between, stale.id, s.st.inflight[stale.id].dequeuedAt) > scan.timeout)
            && (Records(capacity, s1, between, stale.id) == 0 ==> IsStale(entry, scan.now, scan.timeout))
  {
    var s1 := Next(capacity, s, scan);
    var t := s.st.inflight[stale.id].dequeuedAt;
    EntryTime(capacity, s1, between, stale.id, t);
    if Records(capacity, s1, between, stale.id) == 0 {
      NoRecordNoChange(capacity, s1, between, stale.id, t);
    }
  }

  lemma BothScan(capacity: nat, run: seq<Action>, s: State, id: JobId, raw: Json)
    returns (run': seq<Action>, s': State)
    requires RF.Reached(capacity, run, s, id)
    requires RF.Holding(s, Store([], map[id := Entry(raw, 0)], [], []), Idle, Idle)
    ensures RF.Reached(capacity, run', s', id)
    ensures RF.Holding(s', s.st, Scanning([Stale(id, raw)]), Scanning([Stale(id, raw)]))
  {
    var todo := [Stale(id, raw)];
    assert todo[0] in todo;
    var a, b := Scan(1, 600, 300, todo), Scan(0, 600, 300, todo);
    RF.Take(capacity, run, s, a, id);
    var s1 := Next(capacity, s, a);
    RF.Take(capacity, run + [a], s1, b, id);
    run', s' := run + [a] + [b], Next(capacity, s1, b);
  }

  lemma FirstRequeues(capacity: nat, run: seq<Action>, s: State, id: JobId, raw: Json, pc: Pc)
    returns (run': seq<Action>, s': State)
    requires RF.Reached(capacity, run, s, id)
    requires RF.Holding(s, Store([], map[id := Entry(raw, 0)], [], []), Scanning([Stale(id, raw)]), pc)
    ensures RF.Reached(capacity, run', s', id)
    ensures RF.Holding(s', Store([raw], map[], [], []), Scanning([]), pc)
  {
    assert [Stale(id, raw)][1..] == [];
    RF.Take(capacity, run, s, Claim(0), id);
    var s1 := Next(capacity, s, Claim(0));
    assert RF.Holding(s1, Store([], map[], [], []), Claimed(raw, []), pc);
    RF.Take(capacity, run + [Claim(0)], s1, Requeue(0), id);
    run', s' := run + [Claim(0)] + [Requeue(0)], Next(capacity, s1, Requeue(0));
  }

  lemma FirstTakesAgain(capacity: nat, run: seq<Action>, s: State, id: JobId, raw: Json, pc: Pc)
    returns (run': seq<Action>, s': State)
    requires RF.Reached(capacity, run, s, id) && RawId(raw) == Some(id)
    requires RF.Holding(s, Store([raw], map[], [], []), Scanning([]), pc)
    ensures RF.Reached(capacity, run', s', id)
    ensures RF.Holding(s', Store([], map[id := Entry(raw, 600)], [], []), Idle, pc)
  {
    RF.Take(capacity, run, s, EndScan(0), id);
    var s1 := Next(capacity, s, EndScan(0));
    assert RF.Holding(s1, s.st, Idle, pc);
    RF.Take(capacity, run + [EndScan(0)], s1, Pop(0), id);
    var s2 := Next(capacity, s1, Pop(0));
    assert RF.Holding(s2, Store([], map[], [], []), Popped(raw), pc);
    RF.Take(capacity, run + [EndScan(0)] + [Pop(0)], s2, Record(0, 600), id);
    run', s' := run + [EndScan(0)] + [Pop(0)] + [Record(0, 600)], Next(capacity, s2, Record(0, 600));
  }

  /** Two recoveries scan the same stale entry; the first requeues it and a worker takes it again at
      once; the second then claims the entry that is zero seconds old, from under that worker. */
  lemma FreshEntryIsClaimed(capacity: nat, p: Payload) returns (run: seq<Action>)
    requires capacity >= 1
    ensures IsRun(capacity, Start(2), run) && CrashFree(run)
    ensures var s := After(capacity, Start(2), run);
            && s.procs == [Idle, Scanning([Stale(p.jobId, ToJson(p))])]
            && s.st == Store([], map[p.jobId := Entry(ToJson(p), 600)], [], [])
            && !IsStale(s.st.inflight[p.jobId], 600, 300)
            && Enabled(s, Claim(1)) && Next(capacity, s, Claim(1)).st == EMPTY_STORE
  {
    var s, id, raw := Start(2), p.jobId, ToJson(p);
    RawIdOfWire(p);
    run, s := RF.FirstJob(capacity, p);
    run, s := RF.Dequeued(capacity, run, s, id, raw);
    run, s := BothScan(capacity, run, s, id, raw);
    run, s := FirstRequeues(capacity, run, s, id, raw, Scanning([Stale(id, raw)]));
    run, s := FirstTakesAgain(capacity, run, s, id, raw, Scanning([Stale(id, raw)]));
  }
}
