/** What failing a job over Redis does when other processes act between its three commands. */
module RedisFailures {
  import opened Prelude
  import opened JobPayload
  import opened RedisStore
  import opened RedisProtocol

  // ---- one fail call, whatever happens around it ----------------------------

  predicate LeavesAlone(run: seq<Action>, w: nat) {
    forall i :: 0 <= i < |run| ==> !By(run[i], w)
  }

  lemma {:induction false} RunLeavesPc(capacity: nat, s: State, run: seq<Action>, w: nat)
    requires IsRun(capacity, s, run) && w < |s.procs| && LeavesAlone(run, w)
    ensures w < |After(capacity, s, run).procs| && After(capacity, s, run).procs[w] == s.procs[w]
    decreases |run|
  {
    if run != [] {
      StepLeavesPc(capacity, s, run[0], w);
      RunLeavesPc(capacity, Next(capacity, s, run[0]), run[1..], w);
    }
  }

  /** A fail call of process `w` that is not disturbed in its own order of commands: `atGet`, `atDel`
      and `atEnd` are the states before its HGET, its HDEL and its last action, which is the LPUSH
      or a crash; others take the actions `first` and `second` between them. */
  ghost predicate FailCall(capacity: nat, w: nat, id: JobId, error: string, atGet: State, first: seq<Action>,
                           atDel: State, second: seq<Action>, atEnd: State, last: Action) {
    && Enabled(atGet, FailGet(w, id, error))
    && LeavesAlone(first, w) && IsRun(capacity, Next(capacity, atGet, FailGet(w, id, error)), first)
    && atDel == After(capacity, Next(capacity, atGet, FailGet(w, id, error)), first)
    && Enabled(atDel, FailDel(w))
    && LeavesAlone(second, w) && IsRun(capacity, Next(capacity, atDel, FailDel(w)), second)
    && atEnd == After(capacity, Next(capacity, atDel, FailDel(w)), second)
    && (last == FailPush(w) || last == Crash(w)) && Enabled(atEnd, last)
  }

  lemma FailCallPcs(capacity: nat, w: nat, id: JobId, error: string, atGet: State, first: seq<Action>,
                    atDel: State, second: seq<Action>, atEnd: State, last: Action)
    requires FailCall(capacity, w, id, error, atGet, first, atDel, second, atEnd, last)
    ensures w < |atDel.procs| && atDel.procs[w] == FailRead(id, HGet(atGet.st, id), error)
    ensures w < |atEnd.procs| && atEnd.procs[w] == FailDeleted(id, HGet(atGet.st, id), error)
  {
    RunLeavesPc(capacity, Next(capacity, atGet, FailGet(w, id, error)), first, w);
    RunLeavesPc(capacity, Next(capacity, atDel, FailDel(w)), second, w);
  }

  /** The call takes the job out of flight. */
  predicate Retires(capacity: nat, atDel: State, w: nat, id: JobId)
    requires Enabled(atDel, FailDel(w))
  {
    Next(capacity, atDel, FailDel(w)).books.failed[id] > atDel.books.failed[id]
  }

  /** The call puts the job's payload into the dead letters. */
  predicate Buries(capacity: nat, atEnd: State, last: Action, id: JobId)
    requires Enabled(atEnd, last)
  {
    Letters(Next(capacity, atEnd, last).st.dead, id) > Letters(atEnd.st.dead, id)
  }

  /** Over every run and whatever others do meanwhile: a fail moves its job from flight to the dead
      letters, payload and all, exactly when the in-flight entry is there at the HGET and at the HDEL
      and the process does not crash before the LPUSH. It retires the job exactly when the entry is
      there at the HDEL, and buries the payload exactly when it was there at the HGET and the LPUSH
      happens; the two can differ either way. */
  lemma FailMovesIff(capacity: nat, w: nat, id: JobId, error: string, atGet: State, first: seq<Action>,
                     atDel: State, second: seq<Action>, atEnd: State, last: Action)
    requires FailCall(capacity, w, id, error, atGet, first, atDel, second, atEnd, last)
    ensures Retires(capacity, atDel, w, id) <==> id in atDel.st.inflight
    ensures Buries(capacity, atEnd, last, id) <==> id in atGet.st.inflight && last == FailPush(w)
    ensures Retires(capacity, atDel, w, id) && Buries(capacity, atEnd, last, id) <==>
              id in atGet.st.inflight && id in atDel.st.inflight && last == FailPush(w)
    ensures Buries(capacity, atEnd, last, id) ==>
              Next(capacity, atEnd, last).st.dead
              == [DeadLetter(id, Some(atGet.st.inflight[id].payload), error)] + atEnd.st.dead
  {
    FailCallPcs(capacity, w, id, error, atGet, first, atDel, second, atEnd, last);
    SumCons(IsLetterOf(id), DeadLetter(id, HGet(atGet.st, id), error), atEnd.st.dead);
  }

  /** An accepted job of which nothing is left: not live, not acked, and in no dead letter, written
      or about to be. */
  predicate Gone(s: State, id: JobId) {
    s.books.accepted[id] == 1 && Tracked(s, id) == 0 && s.books.acked[id] == 0
    && Letters(s.st.dead, id) == 0 && SentBy(s.procs, id) == 0
  }

  /** Over every run, a job enqueued once is gone exactly when its copy was lost in a crash, or it was
      failed, and every payload a fail had read of it was lost in a crash: as many blank and unsent
      fails as there were fails that removed it or came too late. */
  lemma GoneIff(capacity: nat, n: nat, run: seq<Action>, id: JobId)
    requires IsRun(capacity, Start(n), run) && Offers(run, id) <= 1
    ensures var s := After(capacity, Start(n), run); var b := s.books;
            Gone(s, id) <==> b.lost[id] + b.failed[id] == 1 && b.unsent[id] + b.blank[id] == b.failed[id] + b.doubled[id]
  {
    NobodyHolds(n, id);
    Conservation(capacity, n, run, id);
    AcceptedAtMostOffered(capacity, Start(n), run, id);
    RunMergesNothing(capacity, Start(n), run, id);
  }

  // ---- the ways it goes wrong, each reachable -------------------------------

  /** `s` is reached by a run of two processes without crashes in which `id` is offered and accepted
      once. */
  predicate Reached(capacity: nat, run: seq<Action>, s: State, id: JobId) {
    && IsRun(capacity, Start(2), run) && s == After(capacity, Start(2), run)
    && CrashFree(run) && Offers(run, id) == 1 && s.books.accepted[id] == 1
  }

  lemma Take(capacity: nat, run: seq<Action>, s: State, a: Action, id: JobId)
    requires Reached(capacity, run, s, id) && Enabled(s, a) && !a.Crash? && !a.Enqueue? && !a.EnqueueDelayed?
    ensures Reached(capacity, run + [a], Next(capacity, s, a), id)
  {
    Extend(capacity, Start(2), run, a);
    OffersConcat(run, [a], id);
  }

  predicate Holding(s: State, st: Store, pc0: Pc, pc1: Pc) {
    s.st == st && s.procs == [pc0, pc1]
  }

  lemma FirstJob(capacity: nat, p: Payload) returns (run: seq<Action>, s: State)
    requires capacity >= 1
    ensures Reached(capacity, run, s, p.jobId)
    ensures Holding(s, Store([ToJson(p)], map[], [], []), Idle, Idle)
  {
    run, s := [Enqueue(p)], Next(capacity, Start(2), Enqueue(p));
    assert run[1..] == [];
    assert Start(2).procs == [Idle, Idle];
  }

  lemma Dequeued(capacity: nat, run: seq<Action>, s: State, id: JobId, raw: Json)
    returns (run': seq<Action>, s': State)
    requires Reached(capacity, run, s, id) && RawId(raw) == Some(id)
    requires Holding(s, Store([raw], map[], [], []), Idle, Idle)
    ensures Reached(capacity, run', s', id)
    ensures Holding(s', Store([], map[id := Entry(raw, 0)], [], []), Idle, Idle)
  {
    var s1 := Next(capacity, s, Pop(0));
    assert Holding(s1, Store([], map[], [], []), Popped(raw), Idle);
    Take(capacity, run, s, Pop(0), id);
    Take(capacity, run + [Pop(0)], s1, Record(0, 0), id);
    run', s' := run + [Pop(0)] + [Record(0, 0)], Next(capacity, s1, Record(0, 0));
  }

  lemma Failing(capacity: nat, run: seq<Action>, s: State, id: JobId, raw: Json)
    returns (run': seq<Action>, s': State)
    requires Reached(capacity, run, s, id)
    requires Holding(s, Store([], map[id := Entry(raw, 0)], [], []), Idle, Idle)
    ensures Reached(capacity, run', s', id)
    ensures Holding(s', s.st, FailRead(id, Some(raw), "error"), Idle)
  {
    var a := FailGet(0, id, "error");
    Take(capacity, run, s, a, id);
    run', s' := run + [a], Next(capacity, s, a);
  }

  lemma Scanned(capacity: nat, run: seq<Action>, s: State, id: JobId, raw: Json, pc: Pc)
    returns (run': seq<Action>, s': State)
    requires Reached(capacity, run, s, id)
    requires Holding(s, Store([], map[id := Entry(raw, 0)], [], []), pc, Idle)
    ensures Reached(capacity, run', s', id)
    ensures Holding(s', s.st, pc, Scanning([Stale(id, raw)]))
  {
    var todo := [Stale(id, raw)];
    assert todo[0] in todo;
    var a := Scan(1, 600, 300, todo);
    Take(capacity, run, s, a, id);
    run', s' := run + [a], Next(capacity, s, a);
  }

  lemma RecoveredMeanwhile(capacity: nat, run: seq<Action>, s: State, id: JobId, raw: Json, pc: Pc)
    returns (run': seq<Action>, s': State)
    requires Reached(capacity, run, s, id)
    requires Holding(s, Store([], map[id := Entry(raw, 0)], [], []), pc, Idle)
    ensures Reached(capacity, run', s', id)
    ensures Holding(s', Store([raw], map[], [], []), pc, Scanning([]))
  {
    var s1;
    run', s1 := Scanned(capacity, run, s, id, raw, pc);
    assert [Stale(id, raw)][1..] == [];
    Take(capacity, run', s1, Claim(1), id);
    var s2 := Next(capacity, s1, Claim(1));
    assert Holding(s2, Store([], map[], [], []), pc, Claimed(raw, []));
    Take(capacity, run' + [Claim(1)], s2, Requeue(1), id);
    run', s' := run' + [Claim(1)] + [Requeue(1)], Next(capacity, s2, Requeue(1));
  }

  lemma FailCompleted(capacity: nat, run: seq<Action>, s: State, id: JobId, raw: Json)
    returns (run': seq<Action>, s': State)
    requires Reached(capacity, run, s, id)
    requires Holding(s, Store([raw], map[], [], []), FailRead(id, Some(raw), "error"), Scanning([]))
    ensures Reached(capacity, run', s', id)
    ensures s'.st == Store([raw], map[], [], [DeadLetter(id, Some(raw), "error")])
  {
    Take(capacity, run, s, FailDel(0), id);
    var s1 := Next(capacity, s, FailDel(0));
    assert Holding(s1, s.st, FailDeleted(id, Some(raw), "error"), Scanning([]));
    Take(capacity, run + [FailDel(0)], s1, FailPush(0), id);
    run', s' := run + [FailDel(0)] + [FailPush(0)], Next(capacity, s1, FailPush(0));
  }

  /** Both cases of the above are reachable, without any crash: here a job ends in the main list
      and, with its full payload, in the dead-letter list. */
  lemma DeadLetterBesideLiveJob(capacity: nat, p: Payload) returns (run: seq<Action>)
    requires capacity >= 1
    ensures IsRun(capacity, Start(2), run) && CrashFree(run) && Offers(run, p.jobId) == 1
    ensures After(capacity, Start(2), run).st
         == Store([ToJson(p)], map[], [], [DeadLetter(p.jobId, Some(ToJson(p)), "error")])
  {
    var s;
    RawIdOfWire(p);
    run, s := FirstJob(capacity, p);
    run, s := Dequeued(capacity, run, s, p.jobId, ToJson(p));
    run, s := Failing(capacity, run, s, p.jobId, ToJson(p));
    run, s := RecoveredMeanwhile(capacity, run, s, p.jobId, ToJson(p), FailRead(p.jobId, Some(ToJson(p)), "error"));
    run, s := FailCompleted(capacity, run, s, p.jobId, ToJson(p));
  }

  lemma ReadTooEarly(capacity: nat, run: seq<Action>, s: State, id: JobId, raw: Json)
    returns (run': seq<Action>, s': State)
    requires Reached(capacity, run, s, id)
    requires Holding(s, Store([raw], map[], [], []), Idle, Scanning([]))
    ensures Reached(capacity, run', s', id)
    ensures Holding(s', s.st, FailRead(id, None, "error"), Idle)
  {
    var a := FailGet(0, id, "error");
    Take(capacity, run, s, EndScan(1), id);
    var s1 := Next(capacity, s, EndScan(1));
    assert Holding(s1, s.st, Idle, Idle);
    Take(capacity, run + [EndScan(1)], s1, a, id);
    run', s' := run + [EndScan(1)] + [a], Next(capacity, s1, a);
  }

  lemma DequeuedByOther(capacity: nat, run: seq<Action>, s: State, id: JobId, raw: Json, pc: Pc)
    returns (run': seq<Action>, s': State)
    requires Reached(capacity, run, s, id) && RawId(raw) == Some(id)
    requires Holding(s, Store([raw], map[], [], []), pc, Idle)
    ensures Reached(capacity, run', s', id)
    ensures Holding(s', Store([], map[id := Entry(raw, 600)], [], []), pc, Idle)
  {
    var s1 := Next(capacity, s, Pop(1));
    assert Holding(s1, Store([], map[], [], []), pc, Popped(raw));
    Take(capacity, run, s, Pop(1), id);
    Take(capacity, run + [Pop(1)], s1, Record(1, 600), id);
    run', s' := run + [Pop(1)] + [Record(1, 600)], Next(capacity, s1, Record(1, 600));
  }

  lemma BlankFail(capacity: nat, run: seq<Action>, s: State, id: JobId, raw: Json)
    returns (run': seq<Action>, s': State)
    requires Reached(capacity, run, s, id)
    requires Holding(s, Store([], map[id := Entry(raw, 600)], [], []), FailRead(id, None, "error"), Idle)
    ensures Reached(capacity, run', s', id)
    ensures Holding(s', Store([], map[], [], [DeadLetter(id, None, "error")]), Idle, Idle)
  {
    Take(capacity, run, s, FailDel(0), id);
    var s1 := Next(capacity, s, FailDel(0));
    assert Holding(s1, Store([], map[], [], []), FailDeleted(id, None, "error"), Idle);
    Take(capacity, run + [FailDel(0)], s1, FailPush(0), id);
    run', s' := run + [FailDel(0)] + [FailPush(0)], Next(capacity, s1, FailPush(0));
  }

  /** A job can vanish without any crash: its first worker was declared stale, its fail reads the
      hash while the job waits to be handed out again, and deletes the second worker's entry. What
      remains is a dead letter without a payload. */
  lemma FailForgetsPayload(capacity: nat, p: Payload) returns (run: seq<Action>)
    requires capacity >= 1
    ensures IsRun(capacity, Start(2), run) && CrashFree(run) && Offers(run, p.jobId) == 1
    ensures var s := After(capacity, Start(2), run);
            && s.books.accepted[p.jobId] == 1
            && s.st == Store([], map[], [], [DeadLetter(p.jobId, None, "error")])
            && s.procs == [Idle, Idle]
  {
    var s;
    RawIdOfWire(p);
    run, s := FirstJob(capacity, p);
    run, s := Dequeued(capacity, run, s, p.jobId, ToJson(p));
    run, s := RecoveredMeanwhile(capacity, run, s, p.jobId, ToJson(p), Idle);
    run, s := ReadTooEarly(capacity, run, s, p.jobId, ToJson(p));
    run, s := DequeuedByOther(capacity, run, s, p.jobId, ToJson(p), FailRead(p.jobId, None, "error"));
    run, s := BlankFail(capacity, run, s, p.jobId, ToJson(p));
  }

  lemma Deleting(capacity: nat, run: seq<Action>, s: State, id: JobId, raw: Json)
    returns (run': seq<Action>, s': State)
    requires Reached(capacity, run, s, id)
    requires Holding(s, Store([], map[id := Entry(raw, 0)], [], []), FailRead(id, Some(raw), "error"), Idle)
    ensures Reached(capacity, run', s', id)
    ensures Holding(s', EMPTY_STORE, FailDeleted(id, Some(raw), "error"), Idle)
  {
    Take(capacity, run, s, FailDel(0), id);
    run', s' := run + [FailDel(0)], Next(capacity, s, FailDel(0));
  }

  lemma Crashing(capacity: nat, run: seq<Action>, s: State, id: JobId)
    requires Reached(capacity, run, s, id) && |s.procs| == 2
    ensures IsRun(capacity, Start(2), run + [Crash(0)]) && Offers(run + [Crash(0)], id) == 1
    ensures var t := After(capacity, Start(2), run + [Crash(0)]);
            t.st == s.st && t.procs == s.procs[0 := Idle] && t.books.accepted[id] == 1
  {
    Extend(capacity, Start(2), run, Crash(0));
    OffersConcat(run, [Crash(0)], id);
  }

  /** So can a job whose worker crashes between the HDEL and the LPUSH of its fail. */
  lemma CrashedFailForgetsPayload(capacity: nat, p: Payload) returns (run: seq<Action>)
    requires capacity >= 1
    ensures IsRun(capacity, Start(2), run) && Offers(run, p.jobId) == 1
    ensures var s := After(capacity, Start(2), run);
            s.books.accepted[p.jobId] == 1 && s.st == EMPTY_STORE && s.procs == [Idle, Idle]
  {
    var s;
    RawIdOfWire(p);
    run, s := FirstJob(capacity, p);
    run, s := Dequeued(capacity, run, s, p.jobId, ToJson(p));
    run, s := Failing(capacity, run, s, p.jobId, ToJson(p));
    run, s := Deleting(capacity, run, s, p.jobId, ToJson(p));
    Crashing(capacity, run, s, p.jobId);
    run := run + [Crash(0)];
  }
}
