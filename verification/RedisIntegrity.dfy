/** Whole-run facts about what the Redis queue's copies contain. */
module RedisIntegrity {
  import opened Prelude
  import opened JobPayload
  import opened RedisStore
  import opened RedisProtocol

  // ---- payload integrity ------------------------------------------------

  /** The wires a run offers to the queue. */
  function OfferedWires(run: seq<Action>): set<Json> {
    if run == [] then {}
    else (if run[0].Enqueue? || run[0].EnqueueDelayed? then {ToJson(run[0].p)} else {})
         + OfferedWires(run[1..])
  }

  predicate OptionFrom(found: Option<Json>, wires: set<Json>) {
    found.Some? ==> found.value in wires
  }

  predicate TodoFrom(todo: seq<Stale>, wires: set<Json>) {
    forall i :: 0 <= i < |todo| ==> todo[i].raw in wires
  }

  predicate PcFrom(pc: Pc, wires: set<Json>) {
    match pc
    case Idle => true
    case Popped(raw) => raw in wires
    case FailRead(_, found, _) => OptionFrom(found, wires)
    case FailDeleted(_, found, _) => OptionFrom(found, wires)
    case Scanning(todo) => TodoFrom(todo, wires)
    case Claimed(raw, todo) => raw in wires && TodoFrom(todo, wires)
  }

  predicate StoreFrom(st: Store, wires: set<Json>) {
    && (forall i :: 0 <= i < |st.main| ==> st.main[i] in wires)
    && (forall i :: 0 <= i < |st.delayed| ==> st.delayed[i].raw in wires)
    && (forall id :: id in st.inflight ==> st.inflight[id].payload in wires)
    && (forall i :: 0 <= i < |st.dead| ==> OptionFrom(st.dead[i].payload, wires))
  }

  predicate PcsFrom(procs: seq<Pc>, wires: set<Json>) {
    forall w :: 0 <= w < |procs| ==> PcFrom(procs[w], wires)
  }

  /** Every raw element anywhere, dead letters and old scan results included, is among `wires`. */
  predicate AllFrom(s: State, wires: set<Json>) {
    StoreFrom(s.st, wires) && PcsFrom(s.procs, wires)
  }

  lemma {:induction false} ReversedFrom(raws: seq<Json>, wires: set<Json>)
    requires forall i :: 0 <= i < |raws| ==> raws[i] in wires
    ensures forall i :: 0 <= i < |raws| ==> Reversed(raws)[i] in wires
  {
    if raws != [] {
      ReversedFrom(raws[1..], wires);
    }
  }

  function Offered(a: Action): set<Json> {
    if a.Enqueue? || a.EnqueueDelayed? then {ToJson(a.p)} else {}
  }

  lemma PromoteStoreFrom(st: Store, now: int, wires: set<Json>)
    requires StoreFrom(st, wires)
    ensures StoreFrom(PromoteScript(st, now), wires)
  {
    var n := ReadyCount(st.delayed, now, PROMOTION_LIMIT);
    ReversedFrom(Members(st.delayed[..n]), wires);
  }

  lemma EnqueueStoreFrom(st: Store, raw: Json, capacity: nat, wires: set<Json>)
    requires StoreFrom(st, wires) && raw in wires
    ensures StoreFrom(EnqueueScript(st, raw, capacity).0, wires)
  {
  }

  lemma DelayStoreFrom(st: Store, d: Delayed, pos: nat, capacity: nat, wires: set<Json>)
    requires StoreFrom(st, wires) && d.raw in wires && MayInsertAt(Without(st.delayed, d.raw), d, pos)
    ensures StoreFrom(DelayScript(st, d, pos, capacity).0, wires)
  {
    WithoutFrom(st.delayed, d.raw, wires);
  }

  lemma {:induction false} WithoutFrom(ds: seq<Delayed>, raw: Json, wires: set<Json>)
    requires forall i :: 0 <= i < |ds| ==> ds[i].raw in wires
    ensures forall i :: 0 <= i < |Without(ds, raw)| ==> Without(ds, raw)[i].raw in wires
  {
    if ds != [] {
      WithoutFrom(ds[1..], raw, wires);
    }
  }

  lemma WorkerStoreFrom(capacity: nat, s: State, a: Action, wires: set<Json>)
    requires AllFrom(s, wires) && Enabled(s, a)
    requires a.Pop? || a.Record? || a.FailGet? || a.FailDel? || a.FailPush?
    ensures StoreFrom(Next(capacity, s, a).st, wires)
  {
    assert PcFrom(s.procs[a.w], wires);
  }

  lemma RecoveryStoreFrom(capacity: nat, s: State, a: Action, wires: set<Json>)
    requires AllFrom(s, wires) && Enabled(s, a)
    requires a.Scan? || a.Claim? || a.Requeue? || a.EndScan? || a.Crash?
    ensures StoreFrom(Next(capacity, s, a).st, wires)
  {
    assert PcFrom(s.procs[a.w], wires);
  }

  lemma StepStoreFrom(capacity: nat, s: State, a: Action, wires: set<Json>)
    requires AllFrom(s, wires) && Enabled(s, a) && Offered(a) <= wires
    ensures StoreFrom(Next(capacity, s, a).st, wires)
  {
    match a
    case Enqueue(p) => EnqueueStoreFrom(s.st, ToJson(p), capacity, wires);
    case EnqueueDelayed(p, score, pos) => DelayStoreFrom(s.st, Delayed(ToJson(p), score), pos, capacity, wires);
    case Promote(now) => PromoteStoreFrom(s.st, now, wires);
    case Ack(_) =>
    case Pop(_) => WorkerStoreFrom(capacity, s, a, wires);
    case Record(_, _) => WorkerStoreFrom(capacity, s, a, wires);
    case FailGet(_, _, _) => WorkerStoreFrom(capacity, s, a, wires);
    case FailDel(_) => WorkerStoreFrom(capacity, s, a, wires);
    case FailPush(_) => WorkerStoreFrom(capacity, s, a, wires);
    case _ => RecoveryStoreFrom(capacity, s, a, wires);
  }

  lemma StepPcFrom(capacity: nat, s: State, a: Action, wires: set<Json>, w: nat)
    requires AllFrom(s, wires) && Enabled(s, a) && w < |s.procs|
    ensures w < |Next(capacity, s, a).procs| && PcFrom(Next(capacity, s, a).procs[w], wires)
  {
    assert PcFrom(s.procs[w], wires);
    if By(a, w) {
      if a.Pop? || a.Record? || a.FailGet? || a.FailDel? || a.FailPush? {
        WorkerPcFrom(capacity, s, a, wires);
      } else {
        RecoveryPcFrom(capacity, s, a, wires);
      }
    } else {
      StepLeavesPc(capacity, s, a, w);
    }
  }

  lemma WorkerPcFrom(capacity: nat, s: State, a: Action, wires: set<Json>)
    requires AllFrom(s, wires) && Enabled(s, a)
    requires a.Pop? || a.Record? || a.FailGet? || a.FailDel? || a.FailPush?
    ensures a.w < |Next(capacity, s, a).procs| && PcFrom(Next(capacity, s, a).procs[a.w], wires)
  {
    assert PcFrom(s.procs[a.w], wires);
  }

  lemma RecoveryPcFrom(capacity: nat, s: State, a: Action, wires: set<Json>)
    requires AllFrom(s, wires) && Enabled(s, a)
    requires a.Scan? || a.Claim? || a.Requeue? || a.EndScan? || a.Crash?
    ensures a.w < |Next(capacity, s, a).procs| && PcFrom(Next(capacity, s, a).procs[a.w], wires)
  {
    assert PcFrom(s.procs[a.w], wires);
  }

  lemma StepFrom(capacity: nat, s: State, a: Action, wires: set<Json>)
    requires AllFrom(s, wires) && Enabled(s, a) && Offered(a) <= wires
    ensures AllFrom(Next(capacity, s, a), wires)
  {
    StepStoreFrom(capacity, s, a, wires);
    assert |Next(capacity, s, a).procs| == |s.procs|;
    forall w | 0 <= w < |s.procs| ensures PcFrom(Next(capacity, s, a).procs[w], wires) {
      StepPcFrom(capacity, s, a, wires, w);
    }
  }

  lemma {:induction false} RunFrom(capacity: nat, s: State, run: seq<Action>, wires: set<Json>)
    requires AllFrom(s, wires) && IsRun(capacity, s, run) && OfferedWires(run) <= wires
    ensures AllFrom(After(capacity, s, run), wires)
    decreases |run|
  {
    if run != [] {
      StepFrom(capacity, s, run[0], wires);
      RunFrom(capacity, Next(capacity, s, run[0]), run[1..], wires);
    }
  }

  lemma {:induction false} NoOfferNoWire(run: seq<Action>, raw: Json, id: JobId)
    requires Offers(run, id) == 0 && raw in OfferedWires(run)
    ensures RawId(raw) != Some(id)
  {
    if raw in OfferedWires(run[1..]) {
      NoOfferNoWire(run[1..], raw, id);
    } else {
      RawIdOfWire(run[0].p);
    }
  }

  lemma {:induction false} SingleOfferWire(run: seq<Action>, a: Json, b: Json, id: JobId)
    requires Offers(run, id) <= 1
    requires a in OfferedWires(run) && b in OfferedWires(run)
    requires RawId(a) == Some(id) == RawId(b)
    ensures a == b
  {
    if run[0].Enqueue? || run[0].EnqueueDelayed? {
      RawIdOfWire(run[0].p);
      if a == ToJson(run[0].p) && b in OfferedWires(run[1..]) {
        NoOfferNoWire(run[1..], b, id);
      } else if b == ToJson(run[0].p) && a in OfferedWires(run[1..]) {
        NoOfferNoWire(run[1..], a, id);
      } else if a != ToJson(run[0].p) {
        SingleOfferWire(run[1..], a, b, id);
      }
    } else {
      SingleOfferWire(run[1..], a, b, id);
    }
  }

  /** The wire carried by the copy a worker is handed, by an in-flight entry, by a recovery claim
      or by a dead letter. */
  predicate Carries(s: State, raw: Json) {
    || raw in s.st.main
    || (exists i :: 0 <= i < |s.st.delayed| && s.st.delayed[i].raw == raw)
    || (exists id :: id in s.st.inflight && s.st.inflight[id].payload == raw)
    || (exists w :: 0 <= w < |s.procs| && (s.procs[w].Popped? || s.procs[w].Claimed?) && s.procs[w].raw == raw)
    || (exists i :: 0 <= i < |s.st.dead| && s.st.dead[i].payload == Some(raw))
  }

  /** No payload is altered or swapped: whatever the interleaving, crashes and recoveries, every
      copy of a job enqueued once, wherever it is and in dead letters too, is the wire of the
      payload that was enqueued under its id. */
  lemma PayloadIntegrity(capacity: nat, n: nat, run: seq<Action>, i: nat, raw: Json)
    requires IsRun(capacity, Start(n), run)
    requires i < |run| && (run[i].Enqueue? || run[i].EnqueueDelayed?)
    requires Offers(run, run[i].p.jobId) <= 1
    requires Carries(After(capacity, Start(n), run), raw) && RawId(raw) == Some(run[i].p.jobId)
    ensures raw == ToJson(run[i].p)
  {
    var s := After(capacity, Start(n), run);
    RunFrom(capacity, Start(n), run, OfferedWires(run));
    CarriedFrom(s, OfferedWires(run), raw);
    OfferIsOffered(run, i);
    RawIdOfWire(run[i].p);
    SingleOfferWire(run, raw, ToJson(run[i].p), run[i].p.jobId);
  }

  lemma CarriedFrom(s: State, wires: set<Json>, raw: Json)
    requires AllFrom(s, wires) && Carries(s, raw)
    ensures raw in wires
  {
    if w :| 0 <= w < |s.procs| && (s.procs[w].Popped? || s.procs[w].Claimed?) && s.procs[w].raw == raw {
      assert PcFrom(s.procs[w], wires);
    } else if i :| 0 <= i < |s.st.dead| && s.st.dead[i].payload == Some(raw) {
      assert OptionFrom(s.st.dead[i].payload, wires);
    }
  }

  lemma {:induction false} OfferIsOffered(run: seq<Action>, i: nat)
    requires i < |run| && (run[i].Enqueue? || run[i].EnqueueDelayed?)
    ensures ToJson(run[i].p) in OfferedWires(run)
  {
    if i > 0 {
      OfferIsOffered(run[1..], i - 1);
    }
  }
}
