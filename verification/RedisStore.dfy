/** The four Redis keys of the queue and the atomic commands the backend sends:
    the three Lua scripts, RPOP, HSET, HGET, HDEL and LPUSH. */
module RedisStore {
  import opened Prelude
  import opened JobPayload

  /** Value of one in-flight hash field: the raw payload and the time it was dequeued. */
  datatype Entry = Entry(payload: Json, dequeuedAt: int)

  /** Member of the delayed sorted set with its score. */
  datatype Delayed = Delayed(raw: Json, score: int)

  datatype DeadLetter = DeadLetter(jobId: JobId, payload: Option<Json>, error: string)

  /** `main[0]` is the left end, where LPUSH inserts; `delayed` is listed by increasing score. */
  datatype Store = Store(
    main: seq<Json>,
    inflight: map<JobId, Entry>,
    delayed: seq<Delayed>,
    dead: seq<DeadLetter>)

  const EMPTY_STORE := Store([], map[], [], [])

  /** Most items one promotion script moves. */
  const PROMOTION_LIMIT: nat := 100

  function Pending(st: Store): nat {
    |st.main| + |st.delayed|
  }

  function LPush(st: Store, raw: Json): Store {
    st.(main := [raw] + st.main)
  }

  function RPop(st: Store): (Store, Option<Json>) {
    if st.main == [] then (st, None)
    else (st.(main := st.main[..|st.main| - 1]), Some(st.main[|st.main| - 1]))
  }

  function HSet(st: Store, id: JobId, e: Entry): Store {
    st.(inflight := st.inflight[id := e])
  }

  function HGet(st: Store, id: JobId): Option<Json> {
    if id in st.inflight then Some(st.inflight[id].payload) else None
  }

  function HDel(st: Store, id: JobId): Store {
    st.(inflight := st.inflight - {id})
  }

  function LPushDead(st: Store, d: DeadLetter): Store {
    st.(dead := [d] + st.dead)
  }

  /** Script: push unless the main list and the delayed set together are at capacity. */
  function EnqueueScript(st: Store, raw: Json, capacity: nat): (Store, bool) {
    if Pending(st) >= capacity then (st, false) else (LPush(st, raw), true)
  }

  function Members(ds: seq<Delayed>): (r: seq<Json>)
    ensures |r| == |ds| && forall i :: 0 <= i < |ds| ==> r[i] == ds[i].raw
  {
    seq(|ds|, i requires 0 <= i < |ds| => ds[i].raw)
  }

  predicate SortedByScore(ds: seq<Delayed>) {
    forall i, j :: 0 <= i < j < |ds| ==> ds[i].score <= ds[j].score
  }

  /** Position of a member, or the length when it is absent. */
  function IndexOf(ds: seq<Delayed>, raw: Json): (k: nat)
    ensures k <= |ds|
    ensures k < |ds| ==> ds[k].raw == raw
    ensures forall i :: 0 <= i < k ==> ds[i].raw != raw
  {
    if ds == [] || ds[0].raw == raw then 0 else 1 + IndexOf(ds[1..], raw)
  }

  predicate HasMember(ds: seq<Delayed>, raw: Json) {
    IndexOf(ds, raw) < |ds|
  }

  /** The sorted set without one member. */
  function Without(ds: seq<Delayed>, raw: Json): seq<Delayed> {
    var k := IndexOf(ds, raw);
    if k < |ds| then RemoveAt(ds, k) else ds
  }

  /** ZADD may place the member at `pos` when the set stays ordered by score.
      Members of equal score may come in either order. */
  predicate MayInsertAt(ds: seq<Delayed>, d: Delayed, pos: nat) {
    && pos <= |ds|
    && (forall i :: 0 <= i < pos ==> ds[i].score <= d.score)
    && (forall i :: pos <= i < |ds| ==> d.score <= ds[i].score)
  }

  /** Script: add to the delayed set unless at capacity. An equal member is replaced. */
  function DelayScript(st: Store, d: Delayed, pos: nat, capacity: nat): (Store, bool)
    requires MayInsertAt(Without(st.delayed, d.raw), d, pos)
  {
    if Pending(st) >= capacity then (st, false)
    else
      var rest := Without(st.delayed, d.raw);
      (st.(delayed := rest[..pos] + [d] + rest[pos..]), true)
  }

  /** The sorted set holds each member once. */
  predicate DistinctMembers(ds: seq<Delayed>) {
    forall i, j :: 0 <= i < j < |ds| ==> ds[i].raw != ds[j].raw
  }

  /** When a member is due. */
  function ScoreOf(ds: seq<Delayed>, raw: Json): Option<int> {
    var k := IndexOf(ds, raw);
    if k < |ds| then Some(ds[k].score) else None
  }

  lemma ScoreAt(ds: seq<Delayed>, i: nat)
    requires DistinctMembers(ds) && i < |ds|
    ensures ScoreOf(ds, ds[i].raw) == Some(ds[i].score)
  {
    var k := IndexOf(ds, ds[i].raw);
    assert k <= i;
  }

  lemma RemoveAtStaysDistinct(ds: seq<Delayed>, k: nat)
    requires DistinctMembers(ds) && k < |ds|
    ensures DistinctMembers(RemoveAt(ds, k))
    ensures forall i :: 0 <= i < |ds| - 1 ==> RemoveAt(ds, k)[i] == ds[if i < k then i else i + 1]
  {
  }

  lemma RemoveAtDistinct(ds: seq<Delayed>, k: nat, raw: Json)
    requires DistinctMembers(ds) && k < |ds|
    ensures DistinctMembers(RemoveAt(ds, k))
    ensures ScoreOf(RemoveAt(ds, k), raw) == if raw == ds[k].raw then None else ScoreOf(ds, raw)
  {
    RemoveAtStaysDistinct(ds, k);
    var rest, j := RemoveAt(ds, k), IndexOf(ds, raw);
    if j < |ds| && j != k {
      var i := if j < k then j else j - 1;
      assert rest[i] == ds[j];
      ScoreAt(rest, i);
    }
  }

  lemma InsertedIsDistinct(ds: seq<Delayed>, d: Delayed, pos: nat, after: seq<Delayed>)
    requires DistinctMembers(ds) && !HasMember(ds, d.raw) && pos <= |ds| && |after| == |ds| + 1
    requires after[pos] == d
    requires forall i :: 0 <= i < pos ==> after[i] == ds[i]
    requires forall i :: pos < i < |after| ==> after[i] == ds[i - 1]
    ensures DistinctMembers(after)
  {
    assert forall i :: 0 <= i < |ds| ==> ds[i].raw != d.raw;
  }

  lemma InsertDistinct(ds: seq<Delayed>, d: Delayed, pos: nat, raw: Json)
    requires DistinctMembers(ds) && !HasMember(ds, d.raw) && pos <= |ds|
    ensures DistinctMembers(ds[..pos] + [d] + ds[pos..])
    ensures ScoreOf(ds[..pos] + [d] + ds[pos..], raw) == if raw == d.raw then Some(d.score) else ScoreOf(ds, raw)
  {
    var after := ds[..pos] + [d] + ds[pos..];
    InsertedIsDistinct(ds, d, pos, after);
    assert RemoveAt(after, pos) == ds;
    if raw == d.raw {
      ScoreAt(after, pos);
    } else {
      RemoveAtDistinct(after, pos, raw);
    }
  }

  /** A delayed enqueue that is accepted makes its member due at the given time, whether or not it was
      there before, and changes no other; the set stays a set. */
  lemma DelayMakesDue(st: Store, d: Delayed, pos: nat, capacity: nat, raw: Json)
    requires DistinctMembers(st.delayed) && MayInsertAt(Without(st.delayed, d.raw), d, pos)
    requires |st.main| + |st.delayed| < capacity
    ensures var st' := DelayScript(st, d, pos, capacity).0;
            && DistinctMembers(st'.delayed)
            && ScoreOf(st'.delayed, raw) == (if raw == d.raw then Some(d.score) else ScoreOf(st.delayed, raw))
            && st'.main == st.main && st'.inflight == st.inflight && st'.dead == st.dead
  {
    var k := IndexOf(st.delayed, d.raw);
    var rest := Without(st.delayed, d.raw);
    if k < |st.delayed| {
      RemoveAtDistinct(st.delayed, k, raw);
      RemoveAtDistinct(st.delayed, k, d.raw);
    }
    InsertDistinct(rest, d, pos, raw);
  }

  /** How many leading delayed members one promotion at time `now` takes. */
  function ReadyCount(ds: seq<Delayed>, now: int, limit: nat): (n: nat)
    ensures n <= |ds| && n <= limit
    ensures forall i :: 0 <= i < n ==> ds[i].score <= now
    ensures n < |ds| && n < limit ==> ds[n].score > now
  {
    if limit == 0 || ds == [] || ds[0].score > now then 0
    else 1 + ReadyCount(ds[1..], now, limit - 1)
  }

  /** Script: move the ready members, earliest first, to the left end of the main list. */
  function PromoteScript(st: Store, now: int): Store {
    var n := ReadyCount(st.delayed, now, PROMOTION_LIMIT);
    st.(main := Reversed(Members(st.delayed[..n])) + st.main, delayed := st.delayed[n..])
  }

  /** The order in which the waiting jobs are handed out: what repeated RPOPs return. */
  function HandOut(st: Store): seq<Json>
    decreases |st.main|
  {
    if st.main == [] then []
    else
      var (rest, raw) := RPop(st);
      [raw.value] + HandOut(rest)
  }

  lemma {:induction false} HandOutIsReversed(st: Store)
    ensures HandOut(st) == Reversed(st.main)
    decreases |st.main|
  {
    if st.main != [] {
      var front, last := st.main[..|st.main| - 1], st.main[|st.main| - 1];
      assert st.main == front + [last];
      HandOutIsReversed(RPop(st).0);
      ReversedSnoc(front, last);
    }
  }

  /** A pushed job is handed out after all that wait. */
  lemma PushedIsLast(st: Store, raw: Json)
    ensures HandOut(LPush(st, raw)) == HandOut(st) + [raw]
  {
    HandOutIsReversed(st);
    HandOutIsReversed(LPush(st, raw));
    assert ([raw] + st.main)[1..] == st.main;
  }

  lemma PushedInOrder(before: Store, after: Store, raws: seq<Json>)
    requires after.main == Reversed(raws) + before.main
    ensures HandOut(after) == HandOut(before) + raws
  {
    HandOutIsReversed(before);
    HandOutIsReversed(after);
    ReversedConcat(Reversed(raws), before.main);
    ReversedTwice(raws);
  }

  /** A promotion lets the ready jobs, by increasing score and at most a hundred, queue up behind all
      that wait. */
  lemma PromotionOrder(st: Store, now: int)
    ensures var n := ReadyCount(st.delayed, now, 100);
            && HandOut(PromoteScript(st, now)) == HandOut(st) + Members(st.delayed[..n])
            && PromoteScript(st, now).delayed == st.delayed[n..]
  {
    var raws := Members(st.delayed[..ReadyCount(st.delayed, now, 100)]);
    PushedInOrder(st, PromoteScript(st, now), raws);
  }

  /** Promotion moves jobs and neither creates nor drops pending ones. */
  lemma PromotionPreservesPending(st: Store, now: int)
    ensures Pending(PromoteScript(st, now)) == Pending(st)
  {
  }

  /** The script's loop, one LPUSH and one ZREM per ready member, is the promotion above. */
  method RunPromoteScript(st: Store, now: int) returns (r: Store, count: nat)
    ensures r == PromoteScript(st, now)
    ensures count == ReadyCount(st.delayed, now, 100)
    ensures HandOut(r) == HandOut(st) + Members(st.delayed[..count]) && r.delayed == st.delayed[count..]
    ensures Pending(r) == Pending(st)
  {
    var ready := st.delayed[..ReadyCount(st.delayed, now, PROMOTION_LIMIT)];
    r := st;
    count := 0;
    while count < |ready|
      invariant count <= |ready|
      invariant r.main == Reversed(Members(ready[..count])) + st.main
      invariant r.delayed == st.delayed[count..]
      invariant r.inflight == st.inflight && r.dead == st.dead
    {
      var raw := ready[count].raw;
      ReversedNext(ready, count);
      assert [raw] + r.main == Reversed(Members(ready[..count + 1])) + st.main;
      r := LPush(r, raw);
      r := r.(delayed := r.delayed[1..]);
      count := count + 1;
    }
    assert ready[..count] == ready;
    assert r == PromoteScript(st, now);
    PromotionOrder(st, now);
  }

  lemma ReversedNext(ds: seq<Delayed>, k: nat)
    requires k < |ds|
    ensures Reversed(Members(ds[..k + 1])) == [ds[k].raw] + Reversed(Members(ds[..k]))
  {
    assert Members(ds[..k + 1]) == Members(ds[..k]) + [ds[k].raw];
    ReversedSnoc(Members(ds[..k]), ds[k].raw);
  }

  // ---- accounting -------------------------------------------------------

  function Has(raw: Json, id: JobId): nat {
    if RawId(raw) == Some(id) then 1 else 0
  }

  function HasId(id: JobId): Json -> nat {
    raw => Has(raw, id)
  }

  function DelayedHasId(id: JobId): Delayed -> nat {
    (d: Delayed) => Has(d.raw, id)
  }

  /** How many raw elements carry a job id. */
  function Count(raws: seq<Json>, id: JobId): nat {
    Sum(HasId(id), raws)
  }

  function CountDelayed(ds: seq<Delayed>, id: JobId): nat {
    Sum(DelayedHasId(id), ds)
  }

  lemma {:induction false} CountMembers(ds: seq<Delayed>, id: JobId)
    ensures Count(Members(ds), id) == CountDelayed(ds, id)
  {
    if ds != [] {
      assert Members(ds)[1..] == Members(ds[1..]);
      CountMembers(ds[1..], id);
    }
  }

  /** Inserting a member adds one copy of its id. */
  lemma CountInserted(ds: seq<Delayed>, d: Delayed, pos: nat, id: JobId)
    requires pos <= |ds|
    ensures CountDelayed(ds[..pos] + [d] + ds[pos..], id) == CountDelayed(ds, id) + Has(d.raw, id)
  {
    var after := ds[..pos] + [d] + ds[pos..];
    assert RemoveAt(after, pos) == ds;
    SumRemoveAt(DelayedHasId(id), after, pos);
  }

  /** Removing a member removes one copy of its id; removing an absent one changes nothing. */
  lemma CountWithout(ds: seq<Delayed>, raw: Json, id: JobId)
    ensures CountDelayed(ds, id)
         == CountDelayed(Without(ds, raw), id) + (if HasMember(ds, raw) then Has(raw, id) else 0)
    ensures |Without(ds, raw)| <= |ds|
  {
    var k := IndexOf(ds, raw);
    if k < |ds| {
      SumRemoveAt(DelayedHasId(id), ds, k);
    }
  }

  /** Promotion moves every ready copy from the delayed set to the main list. */
  lemma PromoteMoves(st: Store, now: int, id: JobId)
    ensures var st' := PromoteScript(st, now);
            Count(st'.main, id) + CountDelayed(st'.delayed, id) == Count(st.main, id) + CountDelayed(st.delayed, id)
  {
    var ds := st.delayed;
    var n := ReadyCount(ds, now, PROMOTION_LIMIT);
    SumReversed(HasId(id), Members(ds[..n]));
    SumConcat(HasId(id), Reversed(Members(ds[..n])), st.main);
    CountMembers(ds[..n], id);
    assert ds == ds[..n] + ds[n..];
    SumConcat(DelayedHasId(id), ds[..n], ds[n..]);
  }

  function IsLetterOf(id: JobId): DeadLetter -> nat {
    (d: DeadLetter) => if d.jobId == id && d.payload.Some? then 1 else 0
  }

  /** How many dead letters hold the payload of a job id. */
  function Letters(dead: seq<DeadLetter>, id: JobId): nat {
    Sum(IsLetterOf(id), dead)
  }
}
