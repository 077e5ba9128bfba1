/** ExecutionUnits: the status machine, resuming, and the gate that requires a unit for a source.
    Rows live in creation order and a row's id is its position. */
module ExecutionUnits {
  import opened Prelude

  datatype Status = Pending | Executing | Waiting | Resumed | Completed | Failed | Other(name: string)

  const RETRY_POLICY := "retry_policy"

  /** `trail` lists the statuses the row has had, oldest first; an audit query could read it off. */
  datatype Eu = Eu(
    status: Status,
    sourceType: string,
    sourceId: string,
    waitCondition: Option<string>,
    extra: Option<map<string, string>>,
    updatedAt: int,
    completedAt: Option<int>,
    trail: seq<Status>)

  function Allowed(status: Status): set<Status> {
    match status
    case Pending => {Executing, Failed}
    case Executing => {Waiting, Resumed, Completed, Failed}
    case Waiting => {Resumed, Executing, Failed}
    case Resumed => {Executing, Failed}
    case _ => {}
  }

  predicate Terminal(status: Status) {
    status.Completed? || status.Failed?
  }

  function NewEu(sourceType: string, sourceId: string, extra: Option<map<string, string>>, status: Status, now: int): Eu {
    Eu(status, sourceType, sourceId, None, extra, now, None, [status])
  }

  /** A successful status update of one row. */
  function Moved(eu: Eu, status: Status, now: int): Eu {
    eu.(status := status,
        updatedAt := now,
        completedAt := if Terminal(status) then Some(now) else eu.completedAt,
        trail := eu.trail + [status])
  }

  function UpdateStatus(store: seq<Eu>, id: nat, status: Status, now: int): (seq<Eu>, bool) {
    if id < |store| && status in Allowed(store[id].status)
    then (store[id := Moved(store[id], status, now)], true)
    else (store, false)
  }

  predicate AlreadyResumed(status: Status) {
    status.Resumed? || status.Executing? || status.Completed?
  }

  function ClearWait(store: seq<Eu>, id: nat, now: int): seq<Eu> {
    if id < |store| && store[id].waitCondition.Some?
    then store[id := store[id].(waitCondition := None, updatedAt := now)]
    else store
  }

  /** waiting to resumed, clear the wait condition, resumed to executing; a no-op that reports
      success when the unit was already resumed. */
  function Resume(store: seq<Eu>, id: nat, now: int): (seq<Eu>, bool) {
    if id < |store| && AlreadyResumed(store[id].status) then (store, true)
    else
      var (s1, ok) := UpdateStatus(store, id, Resumed, now);
      if !ok then (s1, false) else UpdateStatus(ClearWait(s1, id, now), id, Executing, now)
  }

  function SetWaitCondition(store: seq<Eu>, id: nat, condition: Option<string>, now: int): (seq<Eu>, bool) {
    if id < |store| then (store[id := store[id].(waitCondition := condition, updatedAt := now)], true)
    else (store, false)
  }

  /** The latest row of a source, or the length when there is none. */
  function BySource(store: seq<Eu>, sourceType: string, sourceId: string): (k: nat)
    ensures k <= |store|
    ensures k < |store| ==> store[k].sourceType == sourceType && store[k].sourceId == sourceId
    ensures forall i :: 0 <= i < |store| && store[i].sourceType == sourceType && store[i].sourceId == sourceId ==> i <= k < |store|
  {
    if store == [] then 0
    else
      var last := |store| - 1;
      if store[last].sourceType == sourceType && store[last].sourceId == sourceId then last
      else
        var k := BySource(store[..last], sourceType, sourceId);
        if k < last then k else |store|
  }

  function HasPolicy(eu: Eu): bool {
    eu.extra.Some? && RETRY_POLICY in eu.extra.value
  }

  /** Store the policy on an existing row that has none. */
  function Backfill(store: seq<Eu>, id: nat, policy: string): seq<Eu>
    requires id < |store|
  {
    if HasPolicy(store[id]) then store
    else
      var extra := if store[id].extra.Some? then store[id].extra.value else map[];
      store[id := store[id].(extra := Some(extra[RETRY_POLICY := policy]))]
  }

  datatype Gate = Gate(sourceType: string, sourceId: string, extra: map<string, string>, policy: string)

  /** Ensure a unit exists for the source and is executing; returns its id. */
  function Require(store: seq<Eu>, g: Gate, now: int): (seq<Eu>, nat) {
    var k := BySource(store, g.sourceType, g.sourceId);
    if k == |store| then
      (store + [NewEu(g.sourceType, g.sourceId, Some(g.extra[RETRY_POLICY := g.policy]), Executing, now)], k)
    else (Backfill(UpdateStatus(store, k, Executing, now).0, k, g.policy), k)
  }

  datatype Op =
    | Create(sourceType: string, sourceId: string, extra: Option<map<string, string>>, status: Status)
    | Update(id: nat, status: Status)
    | DoResume(id: nat)
    | SetWait(id: nat, condition: Option<string>)
    | DoRequire(gate: Gate)

  function Apply(store: seq<Eu>, op: Op, now: int): seq<Eu> {
    match op
    case Create(st, sid, extra, status) => store + [NewEu(st, sid, extra, status, now)]
    case Update(id, status) => UpdateStatus(store, id, status, now).0
    case DoResume(id) => Resume(store, id, now).0
    case SetWait(id, condition) => SetWaitCondition(store, id, condition, now).0
    case DoRequire(g) => Require(store, g, now).0
  }

  /** Timed operations, applied one after another. */
  function Run(store: seq<Eu>, ops: seq<(Op, int)>): seq<Eu>
    decreases |ops|
  {
    if ops == [] then store else Run(Apply(store, ops[0].0, ops[0].1), ops[1..])
  }

  // ---- what an update does -------------------------------------------------------

  /** Exactly which updates succeed, by target, and what they write: the status, the time, the
      completion time on completed and failed; nothing else, and no other unit. */
  lemma UpdateIff(store: seq<Eu>, id: nat, status: Status, now: int)
    ensures UpdateStatus(store, id, status, now).1 <==>
              id < |store| &&
              match status
              case Executing => store[id].status in {Pending, Waiting, Resumed}
              case Waiting => store[id].status == Executing
              case Resumed => store[id].status in {Executing, Waiting}
              case Completed => store[id].status == Executing
              case Failed => store[id].status in {Pending, Executing, Waiting, Resumed}
              case Pending => false
              case Other(_) => false
    ensures var (after, ok) := UpdateStatus(store, id, status, now);
            && (!ok ==> after == store)
            && |after| == |store| && (forall i :: 0 <= i < |store| && i != id ==> after[i] == store[i])
            && (ok ==>
                  && after[id].status == status && after[id].updatedAt == now
                  && after[id].completedAt == (if status in {Completed, Failed} then Some(now) else store[id].completedAt)
                  && after[id].trail == store[id].trail + [status]
                  && after[id].waitCondition == store[id].waitCondition && after[id].extra == store[id].extra
                  && after[id].sourceType == store[id].sourceType && after[id].sourceId == store[id].sourceId)
  {
  }

  /** Setting a wait condition changes that and the time, on an existing unit, and nothing else. */
  lemma SetWaitEffect(store: seq<Eu>, id: nat, condition: Option<string>, now: int)
    ensures var (after, ok) := SetWaitCondition(store, id, condition, now);
            && (ok <==> id < |store|)
            && |after| == |store| && (forall i :: 0 <= i < |store| && i != id ==> after[i] == store[i])
            && (ok ==>
                  && after[id].waitCondition == condition && after[id].updatedAt == now
                  && after[id].status == store[id].status && after[id].trail == store[id].trail
                  && after[id].completedAt == store[id].completedAt && after[id].extra == store[id].extra)
  {
  }

  // ---- invariants over every run -------------------------------------------

  /** Every step of a row's trail is in the transition table, and the trail ends where it is. */
  predicate TrailLegal(eu: Eu) {
    && eu.trail != []
    && eu.trail[|eu.trail| - 1] == eu.status
    && forall i :: 0 < i < |eu.trail| ==> eu.trail[i] in Allowed(eu.trail[i - 1])
  }

  /** The completion time is set exactly when the row is terminal, unless it was created terminal. */
  predicate CompletionMarked(eu: Eu) {
    && (eu.completedAt.Some? ==> Terminal(eu.status))
    && (eu.trail != [] && Terminal(eu.status) ==> (eu.completedAt.Some? <==> !Terminal(eu.trail[0])))
  }

  predicate EuOk(eu: Eu) {
    TrailLegal(eu) && CompletionMarked(eu)
  }

  predicate StoreOk(store: seq<Eu>) {
    forall i :: 0 <= i < |store| ==> EuOk(store[i])
  }

  lemma MovedOk(eu: Eu, status: Status, now: int)
    requires EuOk(eu) && status in Allowed(eu.status)
    ensures EuOk(Moved(eu, status, now))
  {
    var eu' := Moved(eu, status, now);
    assert forall i :: 0 <= i < |eu.trail| ==> eu'.trail[i] == eu.trail[i];
    if |eu.trail| > 1 {
      assert eu.trail[1] in Allowed(eu.trail[0]);
    }
  }

  lemma UpdateOk(store: seq<Eu>, id: nat, status: Status, now: int)
    requires StoreOk(store)
    ensures StoreOk(UpdateStatus(store, id, status, now).0)
  {
    if id < |store| && status in Allowed(store[id].status) {
      MovedOk(store[id], status, now);
    }
  }

  lemma ResumeOk(store: seq<Eu>, id: nat, now: int)
    requires StoreOk(store)
    ensures StoreOk(Resume(store, id, now).0)
  {
    var s1 := UpdateStatus(store, id, Resumed, now).0;
    UpdateOk(store, id, Resumed, now);
    UpdateOk(ClearWait(s1, id, now), id, Executing, now);
  }

  lemma RequireOk(store: seq<Eu>, g: Gate, now: int)
    requires StoreOk(store)
    ensures StoreOk(Require(store, g, now).0)
  {
    UpdateOk(store, BySource(store, g.sourceType, g.sourceId), Executing, now);
  }

  lemma ApplyOk(store: seq<Eu>, op: Op, now: int)
    requires StoreOk(store)
    ensures StoreOk(Apply(store, op, now))
  {
    match op {
      case Create(_, _, _, _) =>
      case Update(id, status) => UpdateOk(store, id, status, now);
      case DoResume(id) => ResumeOk(store, id, now);
      case SetWait(_, _) =>
      case DoRequire(g) => RequireOk(store, g, now);
    }
  }

  /** Over every sequence of operations: trails follow the table, and the completion time is set
      exactly on terminal rows that were created non-terminal. */
  lemma {:induction false} RunOk(store: seq<Eu>, ops: seq<(Op, int)>)
    requires StoreOk(store)
    ensures StoreOk(Run(store, ops))
    decreases |ops|
  {
    if ops != [] {
      ApplyOk(store, ops[0].0, ops[0].1);
      RunOk(Apply(store, ops[0].0, ops[0].1), ops[1..]);
    }
  }

  lemma TrailsFollowTable(ops: seq<(Op, int)>, id: nat)
    requires id < |Run([], ops)|
    ensures var eu := Run([], ops)[id];
            && TrailLegal(eu)
            && (eu.completedAt.Some? <==> Terminal(eu.status) && !Terminal(eu.trail[0]))
  {
    RunOk([], ops);
    assert EuOk(Run([], ops)[id]);
  }

  /** Over every run, what came right before: completed only after executing, executing only after
      pending, waiting or resumed, waiting only after executing, resumed only after executing or
      waiting, and nothing after completed or failed. */
  lemma TrailSteps(ops: seq<(Op, int)>, id: nat, i: nat)
    requires id < |Run([], ops)| && 0 < i < |Run([], ops)[id].trail|
    ensures var trail := Run([], ops)[id].trail;
            && (trail[i] == Completed ==> trail[i - 1] == Executing)
            && (trail[i] == Waiting ==> trail[i - 1] == Executing)
            && (trail[i] == Executing ==> trail[i - 1] in {Pending, Waiting, Resumed})
            && (trail[i] == Resumed ==> trail[i - 1] in {Executing, Waiting})
            && trail[i - 1] !in {Completed, Failed}
            && trail[i] in {Executing, Waiting, Resumed, Completed, Failed}
  {
    TrailsFollowTable(ops, id);
  }

  lemma RunCons(store: seq<Eu>, op: (Op, int), ops: seq<(Op, int)>)
    ensures Run(store, [op] + ops) == Run(Apply(store, op.0, op.1), ops)
  {
    assert ([op] + ops)[1..] == ops;
  }

  /** A unit created pending can become each of these, and by the above nothing else. */
  lemma PendingReaches(target: Status) returns (ops: seq<(Op, int)>)
    requires target in {Executing, Waiting, Resumed, Completed, Failed}
    ensures |Run([], ops)| == 1 && Run([], ops)[0].status == target
    ensures [Pending] <= Run([], ops)[0].trail
  {
    var create, execute, last := (Create("", "", None, Pending), 0), (Update(0, Executing), 0), (Update(0, target), 0);
    var s1 := Apply([], create.0, create.1);
    if target == Executing || target == Failed {
      RunCons(s1, last, []);
      RunCons([], create, [last] + []);
      ops := [create] + ([last] + []);
    } else {
      RunCons(Apply(s1, execute.0, execute.1), last, []);
      RunCons(s1, execute, [last] + []);
      RunCons([], create, [execute] + ([last] + []));
      ops := [create] + ([execute] + ([last] + []));
    }
  }

  /** The failing case: a unit created completed has no completion time, whatever happens later. */
  lemma CreatedCompletedIsNeverMarked(sourceType: string, sourceId: string, now: int, ops: seq<(Op, int)>)
    ensures var all := [(Create(sourceType, sourceId, None, Completed), now)] + ops;
            |Run([], all)| > 0 && Run([], all)[0].status == Completed && Run([], all)[0].completedAt == None
  {
    var first := (Create(sourceType, sourceId, None, Completed), now);
    assert ([first] + ops)[1..] == ops;
    TerminalForever(Apply([], first.0, first.1), ops, 0);
  }

  /** Terminal rows keep their status, completion time and trail for ever. */
  predicate Frozen(before: Eu, after: Eu) {
    after.status == before.status && after.completedAt == before.completedAt && after.trail == before.trail
  }

  lemma ApplyFreezes(store: seq<Eu>, op: Op, now: int, id: nat)
    requires id < |store| && Terminal(store[id].status)
    ensures id < |Apply(store, op, now)| && Frozen(store[id], Apply(store, op, now)[id])
  {
  }

  lemma {:induction false} TerminalForever(store: seq<Eu>, ops: seq<(Op, int)>, id: nat)
    requires id < |store| && Terminal(store[id].status)
    ensures id < |Run(store, ops)| && Frozen(store[id], Run(store, ops)[id])
    decreases |ops|
  {
    if ops != [] {
      ApplyFreezes(store, ops[0].0, ops[0].1, id);
      TerminalForever(Apply(store, ops[0].0, ops[0].1), ops[1..], id);
    }
  }

  // ---- resume and require ---------------------------------------------------

  /** What resuming does: it acts on waiting rows only, taking them through resumed to executing
      without a wait condition; it reports success there and on rows already resumed; every other
      row of the store is untouched. */
  lemma ResumeEffect(store: seq<Eu>, id: nat, now: int)
    ensures var (after, ok) := Resume(store, id, now);
            && ok == (id < |store| && store[id].status in {Waiting, Resumed, Executing, Completed})
            && |after| == |store|
            && (forall i :: 0 <= i < |store| && i != id ==> after[i] == store[i])
            && (id < |store| && store[id].status.Waiting? ==>
                  && after[id].status == Executing
                  && after[id].waitCondition == None
                  && after[id].trail == store[id].trail + [Resumed, Executing]
                  && after[id].updatedAt == now && after[id].completedAt == store[id].completedAt
                  && after[id].sourceType == store[id].sourceType && after[id].sourceId == store[id].sourceId
                  && after[id].extra == store[id].extra)
            && (id < |store| && !store[id].status.Waiting? ==> after == store)
  {
    if id < |store| && store[id].status.Waiting? {
      assert store[id].trail + [Resumed] + [Executing] == store[id].trail + [Resumed, Executing];
    }
  }

  /** Resuming twice is resuming once, from every store, so duplicate callbacks are harmless. */
  lemma ResumeIdempotent(store: seq<Eu>, id: nat, now: int, later: int)
    ensures Resume(Resume(store, id, now).0, id, later).0 == Resume(store, id, now).0
  {
    ResumeEffect(store, id, now);
    ResumeEffect(Resume(store, id, now).0, id, later);
  }

  lemma {:induction false} BySourceSame(a: seq<Eu>, b: seq<Eu>, sourceType: string, sourceId: string)
    requires |a| == |b|
    requires forall i :: 0 <= i < |a| ==> a[i].sourceType == b[i].sourceType && a[i].sourceId == b[i].sourceId
    ensures BySource(a, sourceType, sourceId) == BySource(b, sourceType, sourceId)
  {
    if a != [] {
      BySourceSame(a[..|a| - 1], b[..|b| - 1], sourceType, sourceId);
    }
  }

  /** Requiring a unit twice for one source equals requiring it once: same store, same id. */
  lemma RequireIdempotent(store: seq<Eu>, g: Gate, now: int, later: int)
    ensures Require(Require(store, g, now).0, g, later) == Require(store, g, now)
  {
    var (after, k) := Require(store, g, now);
    if k < |store| {
      BySourceSame(store, after, g.sourceType, g.sourceId);
    } else {
      assert after[|store|].sourceType == g.sourceType;
    }
    assert BySource(after, g.sourceType, g.sourceId) == k;
    assert after[k].status !in {Pending, Waiting, Resumed};
    assert Executing !in Allowed(after[k].status);
    assert HasPolicy(after[k]);
  }

  /** The unit returned belongs to the source, and is executing unless it was completed, failed or in a status the table does not know, which it never leaves. */
  lemma RequireEffect(store: seq<Eu>, g: Gate, now: int)
    ensures var (after, k) := Require(store, g, now);
            && k < |after| && after[k].sourceType == g.sourceType && after[k].sourceId == g.sourceId
            && (after[k].status == Executing
                <==> !(k < |store| && (store[k].status in {Completed, Failed} || store[k].status.Other?)))
            && (k < |store| && store[k].status in {Completed, Failed} ==> Frozen(store[k], after[k]))
  {
  }

  /** And nothing else changes: a unit is created exactly when the source has none, with the caller's
      extra fields and the policy; an existing one keeps its extra fields and gets the policy exactly
      when it had none; other units stay as they are. */
  lemma RequireKeepsTheRest(store: seq<Eu>, g: Gate, now: int)
    ensures var (after, k) := Require(store, g, now);
            && (k == |store| <==> forall i :: 0 <= i < |store| ==>
                                    !(store[i].sourceType == g.sourceType && store[i].sourceId == g.sourceId))
            && |after| == (if k == |store| then |store| + 1 else |store|)
            && (forall i :: 0 <= i < |store| && i != k ==> after[i] == store[i])
            && after[k].extra.Some?
            && (k == |store| ==> after[k].extra.value == g.extra["retry_policy" := g.policy])
            && (k < |store| && store[k].extra.Some? && "retry_policy" in store[k].extra.value ==>
                  after[k].extra == store[k].extra)
            && (k < |store| && store[k].extra.Some? && "retry_policy" !in store[k].extra.value ==>
                  after[k].extra.value == store[k].extra.value["retry_policy" := g.policy])
            && (k < |store| && store[k].extra.None? ==> after[k].extra.value == map["retry_policy" := g.policy])
  {
  }

  /** The service object over its rows. */
  class ExecutionUnitService {
    var rows: seq<Eu>

    constructor ()
      ensures rows == []
    {
      rows := [];
    }

    method CreateUnit(sourceType: string, sourceId: string, extra: Option<map<string, string>>, status: Status, now: int)
      returns (id: nat)
      modifies this
      ensures rows == Apply(old(rows), Create(sourceType, sourceId, extra, status), now)
      ensures id == |old(rows)|
      ensures rows == old(rows) + [Eu(status, sourceType, sourceId, None, extra, now, None, [status])]
    {
      id := |rows|;
      rows := rows + [Eu(status, sourceType, sourceId, None, extra, now, None, [status])];
    }

    method SetStatus(id: nat, status: Status, now: int) returns (ok: bool)
      modifies this
      ensures (rows, ok) == UpdateStatus(old(rows), id, status, now)
    {
      if id >= |rows| {
        return false;
      }
      if status !in Allowed(rows[id].status) {
        return false;
      }
      var eu := rows[id].(status := status, updatedAt := now, trail := rows[id].trail + [status]);
      if status.Completed? || status.Failed? {
        eu := eu.(completedAt := Some(now));
      }
      rows := rows[id := eu];
      ok := true;
    }

    method ResumeUnit(id: nat, now: int) returns (ok: bool)
      modifies this
      ensures (rows, ok) == Resume(old(rows), id, now)
    {
      if id < |rows| && AlreadyResumed(rows[id].status) {
        return true;
      }
      ok := SetStatus(id, Resumed, now);
      if !ok {
        return false;
      }
      if rows[id].waitCondition != None {
        rows := rows[id := rows[id].(waitCondition := None, updatedAt := now)];
      }
      ok := SetStatus(id, Executing, now);
    }

    method SetWaiting(id: nat, condition: Option<string>, now: int) returns (ok: bool)
      modifies this
      ensures (rows, ok) == SetWaitCondition(old(rows), id, condition, now)
    {
      if id >= |rows| {
        return false;
      }
      rows := rows[id := rows[id].(waitCondition := condition, updatedAt := now)];
      ok := true;
    }

    method RequireUnit(g: Gate, now: int) returns (id: nat)
      modifies this
      ensures (rows, id) == Require(old(rows), g, now)
    {
      var merged := g.extra[RETRY_POLICY := g.policy];
      id := BySource(rows, g.sourceType, g.sourceId);
      if id == |rows| {
        id := CreateUnit(g.sourceType, g.sourceId, Some(merged), Executing, now);
      } else {
        var moved := SetStatus(id, Executing, now);
        if rows[id].extra == None || RETRY_POLICY !in rows[id].extra.value {
          var current := if rows[id].extra.Some? then rows[id].extra.value else map[];
          rows := rows[id := rows[id].(extra := Some(current[RETRY_POLICY := merged[RETRY_POLICY]]))];
        }
      }
    }
  }
}
