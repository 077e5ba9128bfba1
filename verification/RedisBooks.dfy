/** What the books of the Redis protocol count, told from the run alone. */
module RedisBooks {
  import opened Prelude
  import opened JobPayload
  import opened RedisStore
  import opened RedisProtocol

  datatype Kind = Accepted | Acked | Failed | Lost | Blank | Doubled | Unsent

  function Page(b: Books, kind: Kind): multiset<JobId> {
    match kind
    case Accepted => b.accepted
    case Acked => b.acked
    case Failed => b.failed
    case Lost => b.lost
    case Blank => b.blank
    case Doubled => b.doubled
    case Unsent => b.unsent
  }

  /** What happens to a job in one command: it is accepted while there is room; an ack or a fail removes
      its in-flight entry; the process that crashes had it in hand. Of fails: the entry was removed by
      one that had read nothing; it was gone when one that had read it came to delete; the process
      crashed before writing the dead letter. */
  predicate Happens(kind: Kind, capacity: nat, s: State, a: Action, id: JobId)
    requires Enabled(s, a)
  {
    match kind
    case Accepted =>
      (a.Enqueue? || a.EnqueueDelayed?) && a.p.jobId == id && |s.st.main| + |s.st.delayed| < capacity
    case Acked => a == Ack(id) && id in s.st.inflight
    case Failed => a.FailDel? && s.procs[a.w].id == id && id in s.st.inflight
    case Lost =>
      a.Crash? && (s.procs[a.w].Popped? || s.procs[a.w].Claimed?) && RawId(s.procs[a.w].raw) == Some(id)
    case Blank => a.FailDel? && s.procs[a.w].id == id && id in s.st.inflight && s.procs[a.w].found.None?
    case Doubled => a.FailDel? && s.procs[a.w].id == id && id !in s.st.inflight && s.procs[a.w].found.Some?
    case Unsent => a.Crash? && s.procs[a.w].FailDeleted? && s.procs[a.w].id == id && s.procs[a.w].found.Some?
  }

  function Times(kind: Kind, capacity: nat, s: State, run: seq<Action>, id: JobId): nat
    requires IsRun(capacity, s, run)
    decreases |run|
  {
    if run == [] then 0
    else
      (if Happens(kind, capacity, s, run[0], id) then 1 else 0)
      + Times(kind, capacity, Next(capacity, s, run[0]), run[1..], id)
  }

  lemma StepBooks(kind: Kind, capacity: nat, s: State, a: Action, id: JobId)
    requires Enabled(s, a)
    ensures Page(Next(capacity, s, a).books, kind)[id]
         == Page(s.books, kind)[id] + (if Happens(kind, capacity, s, a, id) then 1 else 0)
  {
    match a {
      case Crash(_) => CrashBooks(kind, capacity, s, a, id);
      case FailDel(_) => FailBooks(kind, capacity, s, a, id);
      case Enqueue(_) => EnqueueBooks(kind, capacity, s, a, id);
      case EnqueueDelayed(_, _, _) => EnqueueBooks(kind, capacity, s, a, id);
      case _ =>
    }
  }

  lemma CrashBooks(kind: Kind, capacity: nat, s: State, a: Action, id: JobId)
    requires Enabled(s, a) && a.Crash?
    ensures Page(Next(capacity, s, a).books, kind)[id]
         == Page(s.books, kind)[id] + (if Happens(kind, capacity, s, a, id) then 1 else 0)
  {
  }

  lemma FailBooks(kind: Kind, capacity: nat, s: State, a: Action, id: JobId)
    requires Enabled(s, a) && a.FailDel?
    ensures Page(Next(capacity, s, a).books, kind)[id]
         == Page(s.books, kind)[id] + (if Happens(kind, capacity, s, a, id) then 1 else 0)
  {
  }

  lemma EnqueueBooks(kind: Kind, capacity: nat, s: State, a: Action, id: JobId)
    requires Enabled(s, a) && (a.Enqueue? || a.EnqueueDelayed?)
    ensures Page(Next(capacity, s, a).books, kind)[id]
         == Page(s.books, kind)[id] + (if Happens(kind, capacity, s, a, id) then 1 else 0)
  {
  }

  /** Over every run the books hold, of every kind and for every job, how often it happened. */
  lemma {:induction false} BooksAreHistory(kind: Kind, capacity: nat, s: State, run: seq<Action>, id: JobId)
    requires IsRun(capacity, s, run)
    ensures Page(After(capacity, s, run).books, kind)[id]
         == Page(s.books, kind)[id] + Times(kind, capacity, s, run, id)
    decreases |run|
  {
    if run != [] {
      StepBooks(kind, capacity, s, run[0], id);
      BooksAreHistory(kind, capacity, Next(capacity, s, run[0]), run[1..], id);
    }
  }
}
