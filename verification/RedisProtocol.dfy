/** The Redis queue as a protocol: any number of processes, each Redis command one atomic step.
    A process may send ack or fail for any job id at any time, so late acknowledgements from
    workers whose job was already recovered are among the runs. */
module RedisProtocol {
  import opened Prelude
  import opened JobPayload
  import opened RedisStore

  /** A stale entry found by a recovery scan: hash field and raw payload. */
  datatype Stale = Stale(id: JobId, raw: Json)

  /** Where a process stands between two Redis commands. */
  datatype Pc =
    | Idle
    | Popped(raw: Json)                                          // dequeue: RPOP done, HSET to come
    | FailRead(id: JobId, found: Option<Json>, error: string)    // fail: HGET done, HDEL to come
    | FailDeleted(id: JobId, found: Option<Json>, error: string) // fail: HDEL done, LPUSH to come
    | Scanning(todo: seq<Stale>)                                 // recovery: before an HDEL
    | Claimed(raw: Json, todo: seq<Stale>)                       // recovery: HDEL won, LPUSH to come

  /** The books kept about job ids. `accepted` counts enqueues that were not rejected; `acked` and
      `failed` in-flight entries removed by an ack or by the HDEL of a fail; `lost` copies held by a
      process that crashed; `merged` copies that replaced an equal one (HSET on a present field,
      ZADD of a present member).
      Of fails: `blank` counts entries removed by a fail whose HGET had found nothing; `doubled`
      payloads a fail had read while their entry was gone at its HDEL; `unsent` payloads held by a
      process that crashed before the LPUSH. */
  datatype Books = Books(
    accepted: multiset<JobId>,
    acked: multiset<JobId>,
    failed: multiset<JobId>,
    lost: multiset<JobId>,
    merged: multiset<JobId>,
    blank: multiset<JobId>,
    doubled: multiset<JobId>,
    unsent: multiset<JobId>)

  const NO_BOOKS :=
    Books(multiset{}, multiset{}, multiset{}, multiset{}, multiset{}, multiset{}, multiset{}, multiset{})

  datatype State = State(st: Store, procs: seq<Pc>, books: Books, requeues: nat)

  datatype Action =
    | Enqueue(p: Payload)
    | EnqueueDelayed(p: Payload, score: int, pos: nat)
    | Pop(w: nat)
    | Record(w: nat, now: int)
    | Ack(id: JobId)
    | FailGet(w: nat, id: JobId, error: string)
    | FailDel(w: nat)
    | FailPush(w: nat)
    | Promote(now: int)
    | Scan(w: nat, now: int, timeout: int, todo: seq<Stale>)
    | Claim(w: nat)
    | Requeue(w: nat)
    | EndScan(w: nat)
    | Crash(w: nat)

  predicate IsStale(e: Entry, now: int, timeout: int) {
    now - e.dequeuedAt > timeout
  }

  /** `todo` lists each stale entry of the hash once, in some order. */
  predicate ListsStale(inflight: map<JobId, Entry>, now: int, timeout: int, todo: seq<Stale>) {
    && (forall i :: 0 <= i < |todo| ==>
          && todo[i].id in inflight
          && IsStale(inflight[todo[i].id], now, timeout)
          && todo[i].raw == inflight[todo[i].id].payload)
    && (forall id :: id in inflight && IsStale(inflight[id], now, timeout) ==>
          Stale(id, inflight[id].payload) in todo)
    && (forall i, j :: 0 <= i < j < |todo| ==> todo[i].id != todo[j].id)
  }

  predicate Enabled(s: State, a: Action) {
    match a
    case Enqueue(_) => true
    case EnqueueDelayed(p, score, pos) =>
      var raw := ToJson(p);
      MayInsertAt(Without(s.st.delayed, raw), Delayed(raw, score), pos)
    case Pop(w) => w < |s.procs| && s.procs[w].Idle?
    case Record(w, _) => w < |s.procs| && s.procs[w].Popped?
    case Ack(_) => true
    case FailGet(w, _, _) => w < |s.procs| && s.procs[w].Idle?
    case FailDel(w) => w < |s.procs| && s.procs[w].FailRead?
    case FailPush(w) => w < |s.procs| && s.procs[w].FailDeleted?
    case Promote(_) => true
    case Scan(w, now, timeout, todo) =>
      w < |s.procs| && s.procs[w].Idle? && ListsStale(s.st.inflight, now, timeout, todo)
    case Claim(w) => w < |s.procs| && s.procs[w].Scanning? && s.procs[w].todo != []
    case Requeue(w) => w < |s.procs| && s.procs[w].Claimed?
    case EndScan(w) => w < |s.procs| && s.procs[w].Scanning? && s.procs[w].todo == []
    case Crash(w) => w < |s.procs|
  }

  function Bag(present: bool, id: JobId): multiset<JobId> {
    if present then multiset{id} else multiset{}
  }

  function AcceptOne(b: Books, id: JobId, repeated: bool): Books {
    b.(accepted := b.accepted + multiset{id}, merged := b.merged + Bag(repeated, id))
  }

  /** The HDEL of a fail that read `found`, with the field still present or not. */
  function FailOne(b: Books, id: JobId, present: bool, found: bool): Books {
    b.(failed := b.failed + Bag(present, id),
       blank := b.blank + Bag(present && !found, id),
       doubled := b.doubled + Bag(!present && found, id))
  }

  function CrashOne(b: Books, pc: Pc): Books {
    b.(lost := b.lost + InHand(pc), unsent := b.unsent + ToBeSent(pc))
  }

  /** One command, executed atomically, with its bookkeeping. */
  function Next(capacity: nat, s: State, a: Action): State
    requires Enabled(s, a)
  {
    match a
    case Enqueue(p) =>
      var (st, ok) := EnqueueScript(s.st, ToJson(p), capacity);
      if ok then s.(st := st, books := AcceptOne(s.books, p.jobId, false)) else s
    case EnqueueDelayed(p, score, pos) =>
      var d := Delayed(ToJson(p), score);
      var (st, ok) := DelayScript(s.st, d, pos, capacity);
      if ok then s.(st := st, books := AcceptOne(s.books, p.jobId, HasMember(s.st.delayed, d.raw))) else s
    case Pop(w) =>
      var (st, raw) := RPop(s.st);
      // An element that does not parse is dropped and the worker gets nothing.
      if raw.Some? && RawId(raw.value).Some? then s.(st := st, procs := s.procs[w := Popped(raw.value)])
      else s.(st := st)
    case Record(w, now) =>
      var raw := s.procs[w].raw;
      if RawId(raw).None? then s.(procs := s.procs[w := Idle])
      else
        var id := RawId(raw).value;
        s.(st := HSet(s.st, id, Entry(raw, now)),
           procs := s.procs[w := Idle],
           books := s.books.(merged := s.books.merged + Bag(id in s.st.inflight, id)))
    case Ack(id) =>
      s.(st := HDel(s.st, id), books := s.books.(acked := s.books.acked + Bag(id in s.st.inflight, id)))
    case FailGet(w, id, error) =>
      s.(procs := s.procs[w := FailRead(id, HGet(s.st, id), error)])
    case FailDel(w) =>
      var pc := s.procs[w];
      s.(st := HDel(s.st, pc.id),
         procs := s.procs[w := FailDeleted(pc.id, pc.found, pc.error)],
         books := FailOne(s.books, pc.id, pc.id in s.st.inflight, pc.found.Some?))
    case FailPush(w) =>
      var pc := s.procs[w];
      s.(st := LPushDead(s.st, DeadLetter(pc.id, pc.found, pc.error)), procs := s.procs[w := Idle])
    case Promote(now) => s.(st := PromoteScript(s.st, now))
    case Scan(w, _, _, todo) => s.(procs := s.procs[w := Scanning(todo)])
    case Claim(w) =>
      var todo := s.procs[w].todo;
      if todo[0].id in s.st.inflight then
        s.(st := HDel(s.st, todo[0].id), procs := s.procs[w := Claimed(todo[0].raw, todo[1..])])
      else s.(procs := s.procs[w := Scanning(todo[1..])])
    case Requeue(w) =>
      var pc := s.procs[w];
      s.(st := LPush(s.st, pc.raw), procs := s.procs[w := Scanning(pc.todo)], requeues := s.requeues + 1)
    case EndScan(w) => s.(procs := s.procs[w := Idle])
    case Crash(w) => s.(procs := s.procs[w := Idle], books := CrashOne(s.books, s.procs[w]))
  }

  function Start(n: nat): State {
    State(EMPTY_STORE, seq(n, _ => Idle), NO_BOOKS, 0)
  }

  /** A run is a sequence of actions each enabled where it is taken. */
  predicate IsRun(capacity: nat, s: State, run: seq<Action>)
    decreases |run|
  {
    run == [] || (Enabled(s, run[0]) && IsRun(capacity, Next(capacity, s, run[0]), run[1..]))
  }

  function After(capacity: nat, s: State, run: seq<Action>): State
    requires IsRun(capacity, s, run)
    decreases |run|
  {
    if run == [] then s else After(capacity, Next(capacity, s, run[0]), run[1..])
  }

  lemma {:induction false} RunConcat(capacity: nat, s: State, a: seq<Action>, b: seq<Action>)
    ensures IsRun(capacity, s, a + b) <==> IsRun(capacity, s, a) && IsRun(capacity, After(capacity, s, a), b)
    ensures IsRun(capacity, s, a + b) ==>
              After(capacity, s, a + b) == After(capacity, After(capacity, s, a), b)
    decreases |a|
  {
    if a == [] {
      assert a + b == b;
    } else {
      assert (a + b)[1..] == a[1..] + b;
      if Enabled(s, a[0]) {
        RunConcat(capacity, Next(capacity, s, a[0]), a[1..], b);
      }
    }
  }

  /** A run and one more action. */
  lemma Extend(capacity: nat, s: State, run: seq<Action>, a: Action)
    requires IsRun(capacity, s, run)
    ensures IsRun(capacity, s, run + [a]) <==> Enabled(After(capacity, s, run), a)
    ensures IsRun(capacity, s, run + [a]) ==>
              After(capacity, s, run + [a]) == Next(capacity, After(capacity, s, run), a)
  {
    RunConcat(capacity, s, run, [a]);
    assert [a][1..] == [];
  }

  // ---- tracked copies ---------------------------------------------------

  /** The copy a process holds between two commands: popped and not yet recorded, or removed
      from the hash by recovery and not yet pushed back. */
  function InHand(pc: Pc): multiset<JobId> {
    if (pc.Popped? || pc.Claimed?) && RawId(pc.raw).Some? then multiset{RawId(pc.raw).value} else multiset{}
  }

  /** The payload a fail has read and deleted and not yet pushed. */
  function ToBeSent(pc: Pc): multiset<JobId> {
    if pc.FailDeleted? && pc.found.Some? then multiset{pc.id} else multiset{}
  }

  function Holds(id: JobId): Pc -> nat {
    (pc: Pc) => if pc.Popped? || pc.Claimed? then Has(pc.raw, id) else 0
  }

  function Sends(id: JobId): Pc -> nat {
    (pc: Pc) => if pc.FailDeleted? && pc.found.Some? && pc.id == id then 1 else 0
  }

  function HeldBy(procs: seq<Pc>, id: JobId): nat {
    Sum(Holds(id), procs)
  }

  function SentBy(procs: seq<Pc>, id: JobId): nat {
    Sum(Sends(id), procs)
  }

  function InFlight(st: Store, id: JobId): nat {
    if id in st.inflight then 1 else 0
  }

  /** The copies of a job the system still knows: main list, delayed set, in-flight hash, and
      copies in a process's hands. */
  function Tracked(s: State, id: JobId): nat {
    Count(s.st.main, id) + CountDelayed(s.st.delayed, id) + InFlight(s.st, id) + HeldBy(s.procs, id)
  }

  /** Every accepted copy is tracked, acked, failed, lost in a crash or merged into an equal one. */
  predicate Balanced(s: State, id: JobId) {
    Tracked(s, id) + s.books.acked[id] + s.books.failed[id] + s.books.lost[id] + s.books.merged[id]
      == s.books.accepted[id]
  }

  /** Every failed copy has its payload in a dead letter, in the hands of a process about to write
      one, or lost there in a crash, except that fails which read nothing left none and fails whose
      entry was gone left one too many. */
  predicate LettersBalanced(s: State, id: JobId) {
    Letters(s.st.dead, id) + SentBy(s.procs, id) + s.books.unsent[id] + s.books.blank[id]
      == s.books.failed[id] + s.books.doubled[id]
  }

  predicate StaleWellFormed(todo: seq<Stale>) {
    forall i :: 0 <= i < |todo| ==> RawId(todo[i].raw) == Some(todo[i].id)
  }

  predicate PcWellFormed(pc: Pc) {
    match pc
    case Popped(raw) => RawId(raw).Some?
    case Scanning(todo) => StaleWellFormed(todo)
    case Claimed(_, todo) => StaleWellFormed(todo)
    case _ => true
  }

  /** Hash fields are filed under the id of the payload they hold. */
  predicate HashFiled(st: Store) {
    forall id :: id in st.inflight ==> RawId(st.inflight[id].payload) == Some(id)
  }

  predicate PcsWellFormed(procs: seq<Pc>) {
    forall w :: 0 <= w < |procs| ==> PcWellFormed(procs[w])
  }

  /** Fields are filed under their payload's id, also in old scan results, and the delayed set is
      in score order. */
  predicate Filed(s: State) {
    HashFiled(s.st) && PcsWellFormed(s.procs) && SortedByScore(s.st.delayed)
  }

  lemma NobodyHolds(n: nat, id: JobId)
    ensures HeldBy(Start(n).procs, id) == 0 && SentBy(Start(n).procs, id) == 0
  {
    SumZero(Holds(id), Start(n).procs);
    SumZero(Sends(id), Start(n).procs);
  }

  // ---- each command keeps hash fields filed -----------------------------

  lemma InsertStaysSorted(ds: seq<Delayed>, d: Delayed, pos: nat)
    requires SortedByScore(ds) && MayInsertAt(ds, d, pos)
    ensures SortedByScore(ds[..pos] + [d] + ds[pos..])
  {
  }

  lemma HashOnlyShrinks(capacity: nat, s: State, a: Action)
    requires Enabled(s, a) && !a.Record?
    ensures Next(capacity, s, a).st.inflight.Keys <= s.st.inflight.Keys
    ensures forall id :: id in Next(capacity, s, a).st.inflight ==>
              Next(capacity, s, a).st.inflight[id] == s.st.inflight[id]
  {
  }

  lemma StepKeepsHash(capacity: nat, s: State, a: Action)
    requires Filed(s) && Enabled(s, a)
    ensures HashFiled(Next(capacity, s, a).st)
  {
    if a.Record? {
      assert PcWellFormed(s.procs[a.w]);
    } else {
      HashOnlyShrinks(capacity, s, a);
    }
  }

  lemma NextPcWellFormed(capacity: nat, s: State, a: Action, w: nat)
    requires Filed(s) && Enabled(s, a) && w < |s.procs|
    ensures w < |Next(capacity, s, a).procs| && PcWellFormed(Next(capacity, s, a).procs[w])
  {
    assert PcWellFormed(s.procs[w]);
    if a.Scan? {
      assert StaleWellFormed(a.todo);
    }
  }

  lemma StepKeepsSorted(capacity: nat, s: State, a: Action)
    requires Filed(s) && Enabled(s, a)
    ensures SortedByScore(Next(capacity, s, a).st.delayed)
  {
    if a.EnqueueDelayed? {
      InsertStaysSorted(Without(s.st.delayed, ToJson(a.p)), Delayed(ToJson(a.p), a.score), a.pos);
    }
  }

  lemma StepKeepsFiled(capacity: nat, s: State, a: Action)
    requires Filed(s) && Enabled(s, a)
    ensures Filed(Next(capacity, s, a))
  {
    StepKeepsHash(capacity, s, a);
    StepKeepsSorted(capacity, s, a);
    assert |Next(capacity, s, a).procs| == |s.procs|;
    forall w | 0 <= w < |s.procs| ensures PcWellFormed(Next(capacity, s, a).procs[w]) {
      NextPcWellFormed(capacity, s, a, w);
    }
  }

  // ---- each command keeps the books -------------------------------------

  lemma EnqueueKeeps(capacity: nat, s: State, a: Action, id: JobId)
    requires Balanced(s, id) && a.Enqueue?
    ensures Balanced(Next(capacity, s, a), id)
  {
    RawIdOfWire(a.p);
    SumCons(HasId(id), ToJson(a.p), s.st.main);
  }

  lemma EnqueueDelayedKeeps(capacity: nat, s: State, a: Action, id: JobId)
    requires Balanced(s, id) && a.EnqueueDelayed? && Enabled(s, a)
    ensures Balanced(Next(capacity, s, a), id)
  {
    var d := Delayed(ToJson(a.p), a.score);
    RawIdOfWire(a.p);
    CountWithout(s.st.delayed, d.raw, id);
    CountInserted(Without(s.st.delayed, d.raw), d, a.pos, id);
  }

  lemma PopKeeps(capacity: nat, s: State, a: Action, id: JobId)
    requires Balanced(s, id) && a.Pop? && Enabled(s, a)
    ensures Balanced(Next(capacity, s, a), id)
  {
    if s.st.main != [] {
      var raw := s.st.main[|s.st.main| - 1];
      SumLast(HasId(id), s.st.main);
      if RawId(raw).Some? {
        PopMoves(s.procs, a.w, raw, id);
        assert Next(capacity, s, a) == s.(st := RPop(s.st).0, procs := s.procs[a.w := Popped(raw)]);
      } else {
        assert Next(capacity, s, a) == s.(st := RPop(s.st).0);
      }
    }
  }

  lemma PopMoves(procs: seq<Pc>, w: nat, raw: Json, id: JobId)
    requires w < |procs| && procs[w].Idle?
    ensures HeldBy(procs[w := Popped(raw)], id) == HeldBy(procs, id) + Has(raw, id)
  {
    SumUpdate(Holds(id), procs, w, Popped(raw));
  }

  lemma RecordKeeps(capacity: nat, s: State, a: Action, id: JobId)
    requires Balanced(s, id) && Filed(s) && a.Record? && Enabled(s, a)
    ensures Balanced(Next(capacity, s, a), id)
  {
    assert PcWellFormed(s.procs[a.w]);
    SumUpdate(Holds(id), s.procs, a.w, Idle);
  }

  lemma FailKeeps(capacity: nat, s: State, a: Action, id: JobId)
    requires Balanced(s, id) && Enabled(s, a)
    requires a.FailGet? || a.FailDel? || a.FailPush?
    ensures Balanced(Next(capacity, s, a), id)
  {
    SumUpdate(Holds(id), s.procs, a.w, Next(capacity, s, a).procs[a.w]);
  }

  lemma PromoteKeeps(capacity: nat, s: State, a: Action, id: JobId)
    requires Balanced(s, id) && a.Promote?
    ensures Balanced(Next(capacity, s, a), id)
  {
    PromoteMoves(s.st, a.now, id);
  }

  lemma ScanKeeps(capacity: nat, s: State, a: Action, id: JobId)
    requires Balanced(s, id) && Enabled(s, a) && (a.Scan? || a.EndScan?)
    ensures Balanced(Next(capacity, s, a), id)
  {
    SumUpdate(Holds(id), s.procs, a.w, Next(capacity, s, a).procs[a.w]);
  }

  /** The entry a claim removes may be fresher than the one its scan saw. */
  lemma ClaimKeeps(capacity: nat, s: State, a: Action, id: JobId)
    requires Balanced(s, id) && Filed(s) && Enabled(s, a) && a.Claim?
    ensures Balanced(Next(capacity, s, a), id)
  {
    assert PcWellFormed(s.procs[a.w]);
    ClaimMoves(capacity, s, a, id);
  }

  lemma ClaimMoves(capacity: nat, s: State, a: Action, id: JobId)
    requires Balanced(s, id) && Enabled(s, a) && a.Claim?
    requires Has(s.procs[a.w].todo[0].raw, id) == if s.procs[a.w].todo[0].id == id then 1 else 0
    ensures Balanced(Next(capacity, s, a), id)
  {
    var stale := s.procs[a.w].todo[0];
    if stale.id in s.st.inflight {
      SumUpdate(Holds(id), s.procs, a.w, Claimed(stale.raw, s.procs[a.w].todo[1..]));
    } else {
      SumUpdate(Holds(id), s.procs, a.w, Scanning(s.procs[a.w].todo[1..]));
    }
  }

  lemma RequeueKeeps(capacity: nat, s: State, a: Action, id: JobId)
    requires Balanced(s, id) && Enabled(s, a) && a.Requeue?
    ensures Balanced(Next(capacity, s, a), id)
  {
    var pc := s.procs[a.w];
    SumUpdate(Holds(id), s.procs, a.w, Scanning(pc.todo));
    SumCons(HasId(id), pc.raw, s.st.main);
  }

  lemma CrashKeeps(capacity: nat, s: State, a: Action, id: JobId)
    requires Balanced(s, id) && a.Crash? && Enabled(s, a)
    ensures Balanced(Next(capacity, s, a), id)
  {
    SumUpdate(Holds(id), s.procs, a.w, Idle);
  }

  lemma StepKeepsBalance(capacity: nat, s: State, a: Action, id: JobId)
    requires Balanced(s, id) && Filed(s) && Enabled(s, a)
    ensures Balanced(Next(capacity, s, a), id)
  {
    match a
    case Enqueue(_) => EnqueueKeeps(capacity, s, a, id);
    case EnqueueDelayed(_, _, _) => EnqueueDelayedKeeps(capacity, s, a, id);
    case Pop(_) => PopKeeps(capacity, s, a, id);
    case Record(_, _) => RecordKeeps(capacity, s, a, id);
    case Ack(_) =>
    case FailGet(_, _, _) => FailKeeps(capacity, s, a, id);
    case FailDel(_) => FailKeeps(capacity, s, a, id);
    case FailPush(_) => FailKeeps(capacity, s, a, id);
    case Promote(_) => PromoteKeeps(capacity, s, a, id);
    case Crash(_) => CrashKeeps(capacity, s, a, id);
    case Claim(_) => ClaimKeeps(capacity, s, a, id);
    case Requeue(_) => RequeueKeeps(capacity, s, a, id);
    case _ => ScanKeeps(capacity, s, a, id);
  }

  /** The process whose command this is; enqueues, acks and promotions take one command and need none. */
  predicate By(a: Action, w: nat) {
    match a
    case Enqueue(_) => false
    case EnqueueDelayed(_, _, _) => false
    case Ack(_) => false
    case Promote(_) => false
    case _ => a.w == w
  }

  lemma StepLeavesPc(capacity: nat, s: State, a: Action, w: nat)
    requires Enabled(s, a) && w < |s.procs| && !By(a, w)
    ensures w < |Next(capacity, s, a).procs| && Next(capacity, s, a).procs[w] == s.procs[w]
  {
  }

  lemma FailKeepsLetters(capacity: nat, s: State, a: Action, id: JobId)
    requires LettersBalanced(s, id) && Enabled(s, a) && (a.FailDel? || a.FailPush? || a.Crash?)
    ensures LettersBalanced(Next(capacity, s, a), id)
  {
    match a {
      case FailDel(_) => DeleteKeepsLetters(capacity, s, a, id);
      case FailPush(_) => WriteKeepsLetters(capacity, s, a, id);
      case Crash(_) => CrashKeepsLetters(capacity, s, a, id);
    }
  }

  lemma DeleteKeepsLetters(capacity: nat, s: State, a: Action, id: JobId)
    requires LettersBalanced(s, id) && Enabled(s, a) && a.FailDel?
    ensures LettersBalanced(Next(capacity, s, a), id)
  {
    SumUpdate(Sends(id), s.procs, a.w, Next(capacity, s, a).procs[a.w]);
  }

  lemma WriteKeepsLetters(capacity: nat, s: State, a: Action, id: JobId)
    requires LettersBalanced(s, id) && Enabled(s, a) && a.FailPush?
    ensures LettersBalanced(Next(capacity, s, a), id)
  {
    var pc := s.procs[a.w];
    SumUpdate(Sends(id), s.procs, a.w, Idle);
    SumCons(IsLetterOf(id), DeadLetter(pc.id, pc.found, pc.error), s.st.dead);
  }

  lemma CrashKeepsLetters(capacity: nat, s: State, a: Action, id: JobId)
    requires LettersBalanced(s, id) && Enabled(s, a) && a.Crash?
    ensures LettersBalanced(Next(capacity, s, a), id)
  {
    SumUpdate(Sends(id), s.procs, a.w, Idle);
  }

  lemma OthersKeepLetters(capacity: nat, s: State, a: Action, id: JobId)
    requires LettersBalanced(s, id) && Enabled(s, a) && !(a.FailDel? || a.FailPush? || a.Crash?)
    ensures LettersBalanced(Next(capacity, s, a), id)
  {
    DeadUntouched(capacity, s, a);
    if Next(capacity, s, a).procs != s.procs {
      SumUpdate(Sends(id), s.procs, a.w, Next(capacity, s, a).procs[a.w]);
    }
  }

  lemma DeadUntouched(capacity: nat, s: State, a: Action)
    requires Enabled(s, a) && !(a.FailDel? || a.FailPush? || a.Crash?)
    ensures var s' := Next(capacity, s, a);
            && s'.st.dead == s.st.dead
            && s'.books.failed == s.books.failed && s'.books.blank == s.books.blank
            && s'.books.doubled == s.books.doubled && s'.books.unsent == s.books.unsent
  {
  }

  lemma StepKeepsLetters(capacity: nat, s: State, a: Action, id: JobId)
    requires LettersBalanced(s, id) && Enabled(s, a)
    ensures LettersBalanced(Next(capacity, s, a), id)
  {
    if a.FailDel? || a.FailPush? || a.Crash? {
      FailKeepsLetters(capacity, s, a, id);
    } else {
      OthersKeepLetters(capacity, s, a, id);
    }
  }

  // ---- theorems over whole runs -----------------------------------------

  lemma {:induction false} RunKeeps(capacity: nat, s: State, run: seq<Action>, id: JobId)
    requires Balanced(s, id) && LettersBalanced(s, id) && Filed(s) && IsRun(capacity, s, run)
    ensures Balanced(After(capacity, s, run), id) && LettersBalanced(After(capacity, s, run), id)
    ensures Filed(After(capacity, s, run))
    decreases |run|
  {
    if run != [] {
      StepKeepsFiled(capacity, s, run[0]);
      StepKeepsBalance(capacity, s, run[0], id);
      StepKeepsLetters(capacity, s, run[0], id);
      RunKeeps(capacity, Next(capacity, s, run[0]), run[1..], id);
    }
  }

  /** Conservation, for every interleaving of every number of processes, whatever job ids are
      enqueued, acked, failed or recovered, and however processes crash. The copies accepted under
      an id are exactly those tracked, acked, failed, lost in a crash or merged; and the payloads of
      the failed ones are exactly those in dead letters, about to be written or lost in a crash,
      with blank fails one fewer and doubled ones one more. */
  lemma Conservation(capacity: nat, n: nat, run: seq<Action>, id: JobId)
    requires IsRun(capacity, Start(n), run)
    ensures var s := After(capacity, Start(n), run);
            && Tracked(s, id) + s.books.acked[id] + s.books.failed[id] + s.books.lost[id] + s.books.merged[id]
               == s.books.accepted[id]
            && Letters(s.st.dead, id) + SentBy(s.procs, id) + s.books.unsent[id] + s.books.blank[id]
               == s.books.failed[id] + s.books.doubled[id]
  {
    NobodyHolds(n, id);
    RunKeeps(capacity, Start(n), run, id);
  }

  lemma {:induction false} RunPending(capacity: nat, s: State, run: seq<Action>)
    requires Pending(s.st) <= capacity + s.requeues && IsRun(capacity, s, run)
    ensures Pending(After(capacity, s, run).st) <= capacity + After(capacity, s, run).requeues
    decreases |run|
  {
    if run != [] {
      if run[0].Promote? {
        PromotionPreservesPending(s.st, run[0].now);
      }
      RunPending(capacity, Next(capacity, s, run[0]), run[1..]);
    }
  }

  /** The pending jobs exceed the configured capacity by at most the recovered ones, which are
      pushed without a capacity check. */
  lemma PendingBound(capacity: nat, n: nat, run: seq<Action>)
    requires IsRun(capacity, Start(n), run)
    ensures var s := After(capacity, Start(n), run);
            |s.st.main| + |s.st.delayed| <= capacity + s.requeues
  {
    RunPending(capacity, Start(n), run);
  }

  /** In every reachable state a promotion that moves fewer than the limit leaves nothing ready. */
  lemma PromotionLeavesNothingReady(capacity: nat, n: nat, run: seq<Action>, now: int)
    requires IsRun(capacity, Start(n), run)
    requires ReadyCount(After(capacity, Start(n), run).st.delayed, now, PROMOTION_LIMIT) < PROMOTION_LIMIT
    ensures var ds := PromoteScript(After(capacity, Start(n), run).st, now).delayed;
            forall i :: 0 <= i < |ds| ==> ds[i].score > now
  {
    NobodyHolds(n, "");
    RunKeeps(capacity, Start(n), run, "");
    NothingReadyLeft(After(capacity, Start(n), run).st, now);
  }

  lemma NothingReadyLeft(st: Store, now: int)
    requires SortedByScore(st.delayed) && ReadyCount(st.delayed, now, PROMOTION_LIMIT) < PROMOTION_LIMIT
    ensures var ds := PromoteScript(st, now).delayed;
            forall i :: 0 <= i < |ds| ==> ds[i].score > now
  {
    var k := ReadyCount(st.delayed, now, PROMOTION_LIMIT);
    assert forall i :: k < i < |st.delayed| ==> st.delayed[k].score <= st.delayed[i].score;
  }

  /** The enqueues of a run that offer a given job id. */
  function Offers(run: seq<Action>, id: JobId): nat {
    if run == [] then 0
    else (if (run[0].Enqueue? || run[0].EnqueueDelayed?) && run[0].p.jobId == id then 1 else 0)
         + Offers(run[1..], id)
  }

  lemma {:induction false} OffersConcat(a: seq<Action>, b: seq<Action>, id: JobId)
    ensures Offers(a + b, id) == Offers(a, id) + Offers(b, id)
  {
    if a == [] {
      assert a + b == b;
    } else {
      assert (a + b)[1..] == a[1..] + b;
      OffersConcat(a[1..], b, id);
    }
  }

  lemma {:induction false} AcceptedAtMostOffered(capacity: nat, s: State, run: seq<Action>, id: JobId)
    requires IsRun(capacity, s, run)
    ensures s.books.accepted[id] <= After(capacity, s, run).books.accepted[id] <= s.books.accepted[id] + Offers(run, id)
    decreases |run|
  {
    if run != [] {
      AcceptedAtMostOffered(capacity, Next(capacity, s, run[0]), run[1..], id);
    }
  }

  /** A job id enqueued at most once has at most one tracked copy in every reachable state,
      whatever happens to other ids. */
  lemma AtMostOneCopy(capacity: nat, n: nat, run: seq<Action>, id: JobId)
    requires IsRun(capacity, Start(n), run) && Offers(run, id) <= 1
    ensures Tracked(After(capacity, Start(n), run), id) <= 1
  {
    Conservation(capacity, n, run, id);
    AcceptedAtMostOffered(capacity, Start(n), run, id);
  }

  predicate CrashFree(run: seq<Action>) {
    forall i :: 0 <= i < |run| ==> !run[i].Crash?
  }

  lemma {:induction false} CrashFreeLosesNothing(capacity: nat, s: State, run: seq<Action>)
    requires IsRun(capacity, s, run) && CrashFree(run)
    ensures After(capacity, s, run).books.lost == s.books.lost
    ensures After(capacity, s, run).books.unsent == s.books.unsent
    decreases |run|
  {
    if run != [] {
      CrashFreeLosesNothing(capacity, Next(capacity, s, run[0]), run[1..]);
    }
  }

  /** A copy is merged only into another copy of the same id. */
  lemma StepMergesNothing(capacity: nat, s: State, a: Action, id: JobId)
    requires Balanced(s, id) && Filed(s) && Enabled(s, a)
    requires Next(capacity, s, a).books.accepted[id] <= 1
    ensures Next(capacity, s, a).books.merged[id] == s.books.merged[id]
  {
    match a {
      case EnqueueDelayed(_, _, _) => DelayMergesNothing(capacity, s, a, id);
      case Record(_, _) => RecordMergesNothing(capacity, s, a, id);
      case _ =>
    }
  }

  lemma DelayMergesNothing(capacity: nat, s: State, a: Action, id: JobId)
    requires Balanced(s, id) && Enabled(s, a) && a.EnqueueDelayed?
    requires Next(capacity, s, a).books.accepted[id] <= 1
    ensures Next(capacity, s, a).books.merged[id] == s.books.merged[id]
  {
    RawIdOfWire(a.p);
    CountWithout(s.st.delayed, ToJson(a.p), id);
  }

  lemma RecordMergesNothing(capacity: nat, s: State, a: Action, id: JobId)
    requires Balanced(s, id) && Filed(s) && Enabled(s, a) && a.Record?
    requires Next(capacity, s, a).books.accepted[id] <= 1
    ensures Next(capacity, s, a).books.merged[id] == s.books.merged[id]
  {
    assert PcWellFormed(s.procs[a.w]);
    SumUpdate(Holds(id), s.procs, a.w, Idle);
  }

  lemma {:induction false} RunMergesNothing(capacity: nat, s: State, run: seq<Action>, id: JobId)
    requires Balanced(s, id) && Filed(s) && IsRun(capacity, s, run)
    requires After(capacity, s, run).books.accepted[id] <= 1
    ensures After(capacity, s, run).books.merged[id] == s.books.merged[id]
    decreases |run|
  {
    if run != [] {
      var s' := Next(capacity, s, run[0]);
      AcceptedAtMostOffered(capacity, s', run[1..], id);
      StepMergesNothing(capacity, s, run[0], id);
      StepKeepsFiled(capacity, s, run[0]);
      StepKeepsBalance(capacity, s, run[0], id);
      RunMergesNothing(capacity, s', run[1..], id);
    }
  }

  /** Without crashes, a job enqueued at most once is, when accepted, tracked in exactly one place,
      or acked once, or failed once, never two of these; when not accepted it is nowhere. Its dead
      letters, written or about to be, are one per fail that removed it and had read it, and one per
      fail that had read it but came too late. */
  lemma ExactlyOnce(capacity: nat, n: nat, run: seq<Action>, id: JobId)
    requires IsRun(capacity, Start(n), run) && Offers(run, id) <= 1 && CrashFree(run)
    ensures var s := After(capacity, Start(n), run);
            && s.books.accepted[id] <= 1
            && Tracked(s, id) + s.books.acked[id] + s.books.failed[id] == s.books.accepted[id]
            && Letters(s.st.dead, id) + SentBy(s.procs, id) + s.books.blank[id]
               == s.books.failed[id] + s.books.doubled[id]
  {
    NobodyHolds(n, id);
    Conservation(capacity, n, run, id);
    CrashFreeLosesNothing(capacity, Start(n), run);
    AcceptedAtMostOffered(capacity, Start(n), run, id);
    RunMergesNothing(capacity, Start(n), run, id);
  }
}
