/** The resource manager in local mode: per-tenant concurrency, per-unit usage, deferred purge. */
module ResourceManager {
  import opened Prelude

  /** Limits come from the environment and may be any integers. */
  datatype Limits = Limits(cpuMs: int, syscalls: int, concurrent: int)

  datatype Snapshot = Snapshot(tenant: string, cpuMs: int, memory: int, syscalls: nat)

  datatype Rm = Rm(
    usage: map<string, Snapshot>,
    active: map<string, nat>,
    euTenant: map<string, string>,
    pending: set<string>)

  const EMPTY_RM := Rm(map[], map[], map[], {})

  function Active(rm: Rm, tenant: string): nat {
    if tenant in rm.active then rm.active[tenant] else 0
  }

  function Syscalls(rm: Rm, eu: string): nat {
    if eu in rm.usage then rm.usage[eu].syscalls else 0
  }

  function Purged(rm: Rm): Rm {
    rm.(usage := rm.usage - rm.pending, euTenant := rm.euTenant - rm.pending, pending := {})
  }

  /** May this tenant start another execution? Purges completed units on the way. */
  function CanExecute(c: Limits, rm: Rm, tenant: string): (Rm, bool) {
    var rm1 := Purged(rm);
    (rm1, Active(rm1, tenant) < c.concurrent)
  }

  /** Mid-execution check; an unknown unit passes, and so does one purged by the check itself. */
  function CheckQuota(c: Limits, rm: Rm, eu: string): (Rm, bool) {
    if eu !in rm.usage then (rm, true)
    else
      var (rm1, ok) := CanExecute(c, rm, rm.usage[eu].tenant);
      if !ok then (rm1, false)
      else if eu !in rm1.usage then (rm1, true)
      else (rm1, rm1.usage[eu].cpuMs <= c.cpuMs && rm1.usage[eu].syscalls <= c.syscalls)
  }

  /** An empty unit id stands for none. */
  function MarkStarted(rm: Rm, tenant: string, eu: string): Rm {
    var rm1 := rm.(active := rm.active[tenant := Active(rm, tenant) + 1]);
    if eu == "" then rm1
    else rm1.(usage := if eu in rm1.usage then rm1.usage else rm1.usage[eu := Snapshot(tenant, 0, 0, 0)],
              euTenant := rm1.euTenant[eu := tenant])
  }

  /** Also tells whether `resource_available` is published. */
  function MarkCompleted(c: Limits, rm: Rm, tenant: string, eu: string): (Rm, bool) {
    var count := Active(rm, tenant);
    var rm1 := if count > 0 then rm.(active := rm.active[tenant := count - 1]) else rm;
    var rm2 := if eu != "" then rm1.(pending := rm1.pending + {eu}) else rm1;
    (rm2, count >= c.concurrent && Active(rm1, tenant) < c.concurrent)
  }

  function Touch(rm: Rm, eu: string): Snapshot {
    if eu in rm.usage then rm.usage[eu] else Snapshot("", 0, 0, 0)
  }

  function RecordCpu(rm: Rm, eu: string, ms: int): Rm {
    var snap := Touch(rm, eu);
    rm.(usage := rm.usage[eu := snap.(cpuMs := snap.cpuMs + ms)])
  }

  /** A high-water mark. */
  function RecordMemory(rm: Rm, eu: string, bytes: int): Rm {
    var snap := Touch(rm, eu);
    rm.(usage := rm.usage[eu := snap.(memory := if bytes > snap.memory then bytes else snap.memory)])
  }

  function RecordSyscalls(rm: Rm, eu: string, count: int): Rm {
    if count <= 0 then rm
    else
      var snap := Touch(rm, eu);
      rm.(usage := rm.usage[eu := snap.(syscalls := snap.syscalls + count)])
  }

  function RecordUsage(rm: Rm, eu: string, cpuMs: int, memory: int, syscalls: int): Rm {
    RecordSyscalls(RecordMemory(RecordCpu(rm, eu, cpuMs), eu, memory), eu, syscalls)
  }

  function PurgeEu(rm: Rm, eu: string): Rm {
    rm.(usage := rm.usage - {eu}, euTenant := rm.euTenant - {eu})
  }

  // ---- runs -----------------------------------------------------------------

  datatype Op =
    | Start(tenant: string, eu: string)
    | Complete(tenant: string, eu: string)
    | AskExecute(tenant: string)
    | AskQuota(eu: string)
    | Record(eu: string, cpuMs: int, memory: int, syscalls: int)
    | Forget(eu: string)

  function Apply(c: Limits, rm: Rm, op: Op): Rm {
    match op
    case Start(t, eu) => MarkStarted(rm, t, eu)
    case Complete(t, eu) => MarkCompleted(c, rm, t, eu).0
    case AskExecute(t) => CanExecute(c, rm, t).0
    case AskQuota(eu) => CheckQuota(c, rm, eu).0
    case Record(eu, cpu, mem, n) => RecordUsage(rm, eu, cpu, mem, n)
    case Forget(eu) => PurgeEu(rm, eu)
  }

  function Run(c: Limits, rm: Rm, ops: seq<Op>): Rm
    decreases |ops|
  {
    if ops == [] then rm else Run(c, Apply(c, rm, ops[0]), ops[1..])
  }

  // ---- concurrency counters ---------------------------------------------------

  function Delta(op: Op, tenant: string): int {
    match op
    case Start(t, _) => if t == tenant then 1 else 0
    case Complete(t, _) => if t == tenant then -1 else 0
    case _ => 0
  }

  /** Starts minus completions of a tenant, from `live` executions on. */
  function Live(live: int, ops: seq<Op>, tenant: string): int
    decreases |ops|
  {
    if ops == [] then live else Live(live + Delta(ops[0], tenant), ops[1..], tenant)
  }

  /** At no point were there more completions than starts. */
  predicate Bracketed(live: int, ops: seq<Op>, tenant: string)
    decreases |ops|
  {
    live >= 0 && (ops == [] || Bracketed(live + Delta(ops[0], tenant), ops[1..], tenant))
  }

  lemma ApplyActive(c: Limits, rm: Rm, op: Op, tenant: string)
    ensures Active(Apply(c, rm, op), tenant)
         == (if Active(rm, tenant) + Delta(op, tenant) >= 0 then Active(rm, tenant) + Delta(op, tenant) else 0)
  {
  }

  lemma {:induction false} ActiveIsLive(c: Limits, rm: Rm, ops: seq<Op>, live: int, tenant: string)
    requires Active(rm, tenant) >= live
    ensures Active(Run(c, rm, ops), tenant) >= Live(live, ops, tenant)
    ensures Active(rm, tenant) == live ==>
              (Active(Run(c, rm, ops), tenant) == Live(live, ops, tenant) <==> Bracketed(live, ops, tenant))
    ensures Active(rm, tenant) > live ==> Active(Run(c, rm, ops), tenant) > Live(live, ops, tenant)
    decreases |ops|
  {
    if ops != [] {
      ApplyActive(c, rm, ops[0], tenant);
      ActiveIsLive(c, Apply(c, rm, ops[0]), ops[1..], live + Delta(ops[0], tenant), tenant);
    }
  }

  /** The counter of a tenant equals its live executions exactly when starts and completions are
      bracketed; a completion without a start makes it overcount for good. */
  lemma CounterCountsLiveIff(c: Limits, ops: seq<Op>, tenant: string)
    ensures Active(Run(c, EMPTY_RM, ops), tenant) == Live(0, ops, tenant) <==> Bracketed(0, ops, tenant)
    ensures Active(Run(c, EMPTY_RM, ops), tenant) >= Live(0, ops, tenant)
  {
    ActiveIsLive(c, EMPTY_RM, ops, 0, tenant);
  }

  /** `resource_available` is published exactly on the completion that takes a tenant from its
      limit to one below. */
  lemma PublishedIff(c: Limits, rm: Rm, tenant: string, eu: string)
    ensures MarkCompleted(c, rm, tenant, eu).1 <==>
              Active(rm, tenant) == c.concurrent && Active(MarkCompleted(c, rm, tenant, eu).0, tenant) == c.concurrent - 1
  {
  }

  /** Check and start as one step. */
  function TryStart(c: Limits, rm: Rm, tenant: string, eu: string): Rm {
    var (rm1, ok) := CanExecute(c, rm, tenant);
    if ok then MarkStarted(rm1, tenant, eu) else rm1
  }

  datatype Admission = Try(tenant: string, eu: string) | Other(op: Op)

  function RunAdmissions(c: Limits, rm: Rm, steps: seq<Admission>): Rm
    decreases |steps|
  {
    if steps == [] then rm
    else
      RunAdmissions(c,
        match steps[0] case Try(t, eu) => TryStart(c, rm, t, eu) case Other(op) => Apply(c, rm, op),
        steps[1..])
  }

  /** When executions start only through the check, in one step, no tenant ever exceeds its limit. */
  lemma {:induction false} NeverOverLimit(c: Limits, rm: Rm, steps: seq<Admission>, tenant: string)
    requires c.concurrent >= 0 && Active(rm, tenant) <= c.concurrent
    requires forall i :: 0 <= i < |steps| && steps[i].Other? ==> !steps[i].op.Start?
    ensures Active(RunAdmissions(c, rm, steps), tenant) <= c.concurrent
    decreases |steps|
  {
    if steps != [] {
      var rm' := match steps[0] case Try(t, eu) => TryStart(c, rm, t, eu) case Other(op) => Apply(c, rm, op);
      if steps[0].Other? {
        ApplyActive(c, rm, steps[0].op, tenant);
      }
      NeverOverLimit(c, rm', steps[1..], tenant);
    }
  }

  predicate AlwaysWithin(c: Limits, rm: Rm, ops: seq<Op>, tenant: string)
    decreases |ops|
  {
    Active(rm, tenant) <= c.concurrent && (ops == [] || AlwaysWithin(c, Apply(c, rm, ops[0]), ops[1..], tenant))
  }

  /** Whenever an execution of the tenant starts, the check would pass at that moment. */
  predicate StartsPass(c: Limits, rm: Rm, ops: seq<Op>, tenant: string)
    decreases |ops|
  {
    ops != [] ==>
      && (ops[0].Start? && ops[0].tenant == tenant ==> CanExecute(c, rm, tenant).1)
      && StartsPass(c, Apply(c, rm, ops[0]), ops[1..], tenant)
  }

  /** With checks and starts as separate steps, a tenant stays within its limit throughout a run
      exactly when the check would still pass at every start. */
  lemma {:induction false} AlwaysWithinIff(c: Limits, rm: Rm, ops: seq<Op>, tenant: string)
    requires Active(rm, tenant) <= c.concurrent
    ensures AlwaysWithin(c, rm, ops, tenant) <==> StartsPass(c, rm, ops, tenant)
    decreases |ops|
  {
    if ops != [] {
      ApplyActive(c, rm, ops[0], tenant);
      if Active(Apply(c, rm, ops[0]), tenant) <= c.concurrent {
        AlwaysWithinIff(c, Apply(c, rm, ops[0]), ops[1..], tenant);
      }
    }
  }

  /** A check that passed earlier is not enough: two callers both pass the check before either starts. */
  lemma CheckThenStartOvershoots(c: Limits, tenant: string)
    requires c.concurrent == 1
    ensures var rm1 := CanExecute(c, EMPTY_RM, tenant).0;
            && CanExecute(c, EMPTY_RM, tenant).1
            && CanExecute(c, rm1, tenant).1
            && Active(MarkStarted(MarkStarted(CanExecute(c, rm1, tenant).0, tenant, "a"), tenant, "b"), tenant) == 2
  {
  }

  // ---- usage of live units ------------------------------------------------------

  /** Syscalls recorded for a unit along a run. */
  function Recorded(ops: seq<Op>, eu: string): nat {
    if ops == [] then 0
    else (if ops[0].Record? && ops[0].eu == eu && ops[0].syscalls > 0 then ops[0].syscalls else 0)
         + Recorded(ops[1..], eu)
  }

  /** The operation neither completes nor forgets the unit. */
  predicate Keeps(op: Op, eu: string) {
    !(op.Complete? && op.eu == eu) && !(op.Forget? && op.eu == eu)
  }

  lemma ApplyKeepsUsage(c: Limits, rm: Rm, op: Op, eu: string)
    requires eu !in rm.pending && Keeps(op, eu) && eu != ""
    ensures eu !in Apply(c, rm, op).pending
    ensures Syscalls(Apply(c, rm, op), eu) == Syscalls(rm, eu) + Recorded([op], eu)
    ensures eu in rm.usage ==> eu in Apply(c, rm, op).usage
  {
    assert [op][1..] == [];
  }

  /** A unit that has not completed keeps its whole usage, whatever else happens: purging touches
      only completed units, and the syscall count is exactly what was recorded. */
  lemma {:induction false} LiveUsageKept(c: Limits, rm: Rm, ops: seq<Op>, eu: string)
    requires eu !in rm.pending && eu != ""
    requires forall i :: 0 <= i < |ops| ==> Keeps(ops[i], eu)
    ensures eu !in Run(c, rm, ops).pending
    ensures Syscalls(Run(c, rm, ops), eu) == Syscalls(rm, eu) + Recorded(ops, eu)
    ensures eu in rm.usage ==> eu in Run(c, rm, ops).usage
    decreases |ops|
  {
    if ops != [] {
      assert Keeps(ops[0], eu);
      ApplyKeepsUsage(c, rm, ops[0], eu);
      assert [ops[0]][1..] == [];
      LiveUsageKept(c, Apply(c, rm, ops[0]), ops[1..], eu);
    }
  }

  // ---- what the quota check answers ---------------------------------------------------

  function Cpu(rm: Rm, eu: string): int {
    if eu in rm.usage then rm.usage[eu].cpuMs else 0
  }

  function Memory(rm: Rm, eu: string): int {
    if eu in rm.usage then rm.usage[eu].memory else 0
  }

  /** Processor time recorded for a unit along a run, and its highest memory from `top` on. */
  function RecordedCpu(ops: seq<Op>, eu: string): int {
    if ops == [] then 0
    else (if ops[0].Record? && ops[0].eu == eu then ops[0].cpuMs else 0) + RecordedCpu(ops[1..], eu)
  }

  function HighestMemory(ops: seq<Op>, eu: string, top: int): int {
    if ops == [] then top
    else HighestMemory(ops[1..], eu, if ops[0].Record? && ops[0].eu == eu && ops[0].memory > top then ops[0].memory else top)
  }

  /** The tenant a unit is first known under: that of its start, or none when something is recorded
      for it before it starts. */
  function FirstKnown(ops: seq<Op>, eu: string): Option<string> {
    if ops == [] then None
    else if ops[0].Start? && ops[0].eu == eu then Some(ops[0].tenant)
    else if ops[0].Record? && ops[0].eu == eu then Some("")
    else FirstKnown(ops[1..], eu)
  }

  lemma ApplySnapshot(c: Limits, rm: Rm, op: Op, eu: string)
    requires eu !in rm.pending && Keeps(op, eu) && eu != ""
    ensures var rm' := Apply(c, rm, op);
            && Cpu(rm', eu) == Cpu(rm, eu) + (if op.Record? && op.eu == eu then op.cpuMs else 0)
            && Memory(rm', eu) == (if op.Record? && op.eu == eu && op.memory > Memory(rm, eu) then op.memory else Memory(rm, eu))
            && (eu in rm'.usage <==> eu in rm.usage || ((op.Start? || op.Record?) && op.eu == eu))
            && (eu in rm.usage ==> rm'.usage[eu].tenant == rm.usage[eu].tenant)
            && (eu !in rm.usage && eu in rm'.usage ==> rm'.usage[eu].tenant == if op.Start? then op.tenant else "")
  {
  }

  /** Over every run a unit neither completed nor forgotten has used exactly the processor time recorded
      for it, and at most the highest memory recorded for it. */
  lemma {:induction false} SnapshotIsRecorded(c: Limits, rm: Rm, ops: seq<Op>, eu: string)
    requires eu !in rm.pending && eu != "" && forall i :: 0 <= i < |ops| ==> Keeps(ops[i], eu)
    ensures Cpu(Run(c, rm, ops), eu) == Cpu(rm, eu) + RecordedCpu(ops, eu)
    ensures Memory(Run(c, rm, ops), eu) == HighestMemory(ops, eu, Memory(rm, eu))
    decreases |ops|
  {
    if ops != [] {
      ApplyKeepsUsage(c, rm, ops[0], eu);
      ApplySnapshot(c, rm, ops[0], eu);
      SnapshotIsRecorded(c, Apply(c, rm, ops[0]), ops[1..], eu);
    }
  }

  lemma {:induction false} TenantIsFirstKnown(c: Limits, rm: Rm, ops: seq<Op>, eu: string)
    requires eu !in rm.pending && eu != "" && forall i :: 0 <= i < |ops| ==> Keeps(ops[i], eu)
    ensures var rm' := Run(c, rm, ops);
            && (eu in rm'.usage <==> eu in rm.usage || FirstKnown(ops, eu).Some?)
            && (eu in rm.usage ==> rm'.usage[eu].tenant == rm.usage[eu].tenant)
            && (eu !in rm.usage && eu in rm'.usage ==> rm'.usage[eu].tenant == FirstKnown(ops, eu).value)
    decreases |ops|
  {
    if ops != [] {
      ApplyKeepsUsage(c, rm, ops[0], eu);
      ApplySnapshot(c, rm, ops[0], eu);
      TenantIsFirstKnown(c, Apply(c, rm, ops[0]), ops[1..], eu);
    }
  }

  /** Over every run, the quota check of a unit neither completed nor forgotten passes exactly when the
      unit is unknown, or its tenant is below the limit and neither the processor time nor the syscalls
      recorded for the unit exceed theirs. */
  lemma QuotaPassesIff(c: Limits, ops: seq<Op>, eu: string)
    requires eu != "" && forall i :: 0 <= i < |ops| ==> Keeps(ops[i], eu)
    ensures CheckQuota(c, Run(c, EMPTY_RM, ops), eu).1 <==>
              FirstKnown(ops, eu).None? ||
              (&& Active(Run(c, EMPTY_RM, ops), FirstKnown(ops, eu).value) < c.concurrent
               && RecordedCpu(ops, eu) <= c.cpuMs
               && Recorded(ops, eu) <= c.syscalls)
  {
    LiveUsageKept(c, EMPTY_RM, ops, eu);
    SnapshotIsRecorded(c, EMPTY_RM, ops, eu);
    TenantIsFirstKnown(c, EMPTY_RM, ops, eu);
  }

  // ---- when a check purges -------------------------------------------------------

  lemma {:induction false} RunSnoc(c: Limits, rm: Rm, ops: seq<Op>, op: Op)
    ensures Run(c, rm, ops + [op]) == Apply(c, Run(c, rm, ops), op)
    decreases |ops|
  {
    if ops == [] {
      assert ops + [op] == [op];
      assert [op][1..] == [];
    } else {
      assert (ops + [op])[1..] == ops[1..] + [op];
      RunSnoc(c, Apply(c, rm, ops[0]), ops[1..], op);
    }
  }

  /** The steps that purge: asking whether a tenant may execute, and checking the quota of a unit that
      is known. */
  predicate PurgesNow(rm: Rm, op: Op) {
    op.AskExecute? || (op.AskQuota? && op.eu in rm.usage)
  }

  /** The unit was completed and no purging step came after. */
  ghost predicate CompletedSincePurge(c: Limits, ops: seq<Op>, eu: string) {
    exists i ::
      && 0 <= i < |ops| && ops[i].Complete? && ops[i].eu == eu
      && forall j :: i < j < |ops| ==> !PurgesNow(Run(c, EMPTY_RM, ops[..j]), ops[j])
  }

  lemma StepPendingIff(c: Limits, rm: Rm, op: Op, eu: string)
    requires eu != ""
    ensures eu in Apply(c, rm, op).pending <==>
              (op.Complete? && op.eu == eu) || (eu in rm.pending && !PurgesNow(rm, op))
  {
  }

  lemma SincePurgeSnoc(c: Limits, ops: seq<Op>, op: Op, eu: string)
    ensures CompletedSincePurge(c, ops + [op], eu) <==>
              || (op.Complete? && op.eu == eu)
              || (CompletedSincePurge(c, ops, eu) && !PurgesNow(Run(c, EMPTY_RM, ops), op))
  {
    var all := ops + [op];
    assert all[..|ops|] == ops && all[|ops|] == op;
    assert forall j :: 0 <= j < |ops| ==> all[..j] == ops[..j] && all[j] == ops[j];
    if op.Complete? && op.eu == eu {
      assert all[|ops|].Complete? && all[|ops|].eu == eu;
    } else if CompletedSincePurge(c, ops, eu) && !PurgesNow(Run(c, EMPTY_RM, ops), op) {
      var i :| 0 <= i < |ops| && ops[i].Complete? && ops[i].eu == eu
        && forall j :: i < j < |ops| ==> !PurgesNow(Run(c, EMPTY_RM, ops[..j]), ops[j]);
      assert all[i].Complete? && all[i].eu == eu;
    }
  }

  lemma {:induction false} PendingIff(c: Limits, ops: seq<Op>, eu: string)
    requires eu != ""
    ensures eu in Run(c, EMPTY_RM, ops).pending <==> CompletedSincePurge(c, ops, eu)
    decreases |ops|
  {
    if ops != [] {
      var front, op := ops[..|ops| - 1], ops[|ops| - 1];
      assert ops == front + [op];
      PendingIff(c, front, eu);
      RunSnoc(c, EMPTY_RM, front, op);
      StepPendingIff(c, Run(c, EMPTY_RM, front), op, eu);
      SincePurgeSnoc(c, front, op, eu);
    }
  }

  /** Over every run, the next purging step keeps the usage of a unit, snapshot and all, exactly when
      the unit was not completed after the last one; starting it again in between does not help. */
  lemma NextCheckKeepsUsageIff(c: Limits, ops: seq<Op>, check: Op, eu: string)
    requires eu != "" && eu in Run(c, EMPTY_RM, ops).usage && PurgesNow(Run(c, EMPTY_RM, ops), check)
    ensures var rm := Run(c, EMPTY_RM, ops); var rm' := Apply(c, rm, check);
            && (eu in rm'.usage <==> !CompletedSincePurge(c, ops, eu))
            && (eu in rm'.usage ==> rm'.usage[eu] == rm.usage[eu])
  {
    PendingIff(c, ops, eu);
  }

  /** The proviso is needed: a unit id that is started again after completing is live, yet its
      usage is purged by the next check, and its syscall budget starts over. */
  lemma RestartedUsageIsPurged(c: Limits, tenant: string, eu: string, n: nat)
    requires eu != "" && n > 0
    ensures var rm := Run(c, EMPTY_RM, [Start(tenant, eu), Complete(tenant, eu), Start(tenant, eu), Record(eu, 0, 0, n)]);
            Active(rm, tenant) == 1 && Syscalls(rm, eu) == n && Syscalls(CanExecute(c, rm, tenant).0, eu) == 0
  {
    var o1, o2, o3, o4 := Start(tenant, eu), Complete(tenant, eu), Start(tenant, eu), Record(eu, 0, 0, n);
    assert [o1, o2, o3, o4][1..] == [o2, o3, o4];
    assert [o2, o3, o4][1..] == [o3, o4];
    assert [o3, o4][1..] == [o4];
    assert [o4][1..] == [];
    var rm1 := Apply(c, EMPTY_RM, o1);
    var rm2 := Apply(c, rm1, o2);
    var rm3 := Apply(c, rm2, o3);
    assert Run(c, EMPTY_RM, [o1, o2, o3, o4]) == Run(c, rm1, [o2, o3, o4]);
    assert Run(c, rm1, [o2, o3, o4]) == Run(c, rm2, [o3, o4]);
    assert Run(c, rm2, [o3, o4]) == Run(c, rm3, [o4]);
    assert Run(c, rm3, [o4]) == Apply(c, rm3, o4);
    assert rm3.pending == {eu} && rm3.active == map[tenant := 1];
  }

  /** The manager object in local mode. */
  class ResourceManagerObject {
    const limits: Limits
    var usage: map<string, Snapshot>
    var activeCounts: map<string, nat>
    var euTenant: map<string, string>
    var pendingPurge: set<string>

    function View(): Rm
      reads this
    {
      Rm(usage, activeCounts, euTenant, pendingPurge)
    }

    constructor (limits: Limits)
      ensures this.limits == limits && View() == EMPTY_RM
    {
      this.limits := limits;
      usage, activeCounts, euTenant, pendingPurge := map[], map[], map[], {};
    }

    method MayExecute(tenant: string) returns (ok: bool)
      modifies this
      ensures (View(), ok) == CanExecute(limits, old(View()), tenant)
      ensures usage == old(usage) - old(pendingPurge) && euTenant == old(euTenant) - old(pendingPurge) && pendingPurge == {}
      ensures activeCounts == old(activeCounts)
      ensures ok <==> (if tenant in activeCounts then activeCounts[tenant] else 0) < limits.concurrent
    {
      if pendingPurge != {} {
        var left := pendingPurge;
        while left != {}
          invariant left <= pendingPurge && pendingPurge == old(pendingPurge)
          invariant usage == old(usage) - (pendingPurge - left)
          invariant euTenant == old(euTenant) - (pendingPurge - left)
          invariant activeCounts == old(activeCounts)
          decreases left
        {
          var eid :| eid in left;
          usage := usage - {eid};
          euTenant := euTenant - {eid};
          left := left - {eid};
        }
        assert pendingPurge - left == pendingPurge;
        pendingPurge := {};
      }
      assert usage == old(usage) - old(pendingPurge);
      assert euTenant == old(euTenant) - old(pendingPurge);
      var active := if tenant in activeCounts then activeCounts[tenant] else 0;
      ok := active < limits.concurrent;
    }

    method Check(eu: string) returns (ok: bool)
      modifies this
      ensures (View(), ok) == CheckQuota(limits, old(View()), eu)
    {
      if eu !in usage {
        return true;
      }
      ok := MayExecute(usage[eu].tenant);
      if !ok {
        return false;
      }
      if eu !in usage {
        return true;
      }
      if usage[eu].cpuMs > limits.cpuMs {
        return false;
      }
      if usage[eu].syscalls > limits.syscalls {
        return false;
      }
    }

    method Begin(tenant: string, eu: string)
      modifies this
      ensures View() == MarkStarted(old(View()), tenant, eu)
      ensures eu != "" ==> euTenant == old(euTenant)[eu := tenant] && eu in usage
    {
      activeCounts := activeCounts[tenant := (if tenant in activeCounts then activeCounts[tenant] else 0) + 1];
      if eu != "" {
        if eu !in usage {
          usage := usage[eu := Snapshot(tenant, 0, 0, 0)];
        }
        euTenant := euTenant[eu := tenant];
      }
    }

    method Finish(tenant: string, eu: string) returns (published: bool)
      modifies this
      ensures (View(), published) == MarkCompleted(limits, old(View()), tenant, eu)
    {
      var count := if tenant in activeCounts then activeCounts[tenant] else 0;
      if count > 0 {
        activeCounts := activeCounts[tenant := count - 1];
      }
      var now := if tenant in activeCounts then activeCounts[tenant] else 0;
      if eu != "" {
        pendingPurge := pendingPurge + {eu};
      }
      published := count >= limits.concurrent && now < limits.concurrent;
    }

    method Ensure(eu: string)
      modifies this`usage
      ensures usage == old(usage)[eu := Touch(old(View()), eu)]
    {
      if eu !in usage {
        usage := usage[eu := Snapshot("", 0, 0, 0)];
      }
    }

    method AddCpu(eu: string, ms: int)
      modifies this`usage
      ensures View() == RecordCpu(old(View()), eu, ms)
    {
      Ensure(eu);
      usage := usage[eu := usage[eu].(cpuMs := usage[eu].cpuMs + ms)];
    }

    method RaiseMemory(eu: string, bytes: int)
      modifies this`usage
      ensures View() == RecordMemory(old(View()), eu, bytes)
    {
      Ensure(eu);
      if bytes > usage[eu].memory {
        usage := usage[eu := usage[eu].(memory := bytes)];
      }
    }

    method AddSyscalls(eu: string, count: int)
      modifies this`usage
      ensures View() == RecordSyscalls(old(View()), eu, count)
    {
      if count <= 0 {
        return;
      }
      Ensure(eu);
      usage := usage[eu := usage[eu].(syscalls := usage[eu].syscalls + count)];
    }

    method RecordAll(eu: string, cpuMs: int, memory: int, syscalls: int)
      modifies this`usage
      ensures View() == RecordUsage(old(View()), eu, cpuMs, memory, syscalls)
    {
      AddCpu(eu, cpuMs);
      RaiseMemory(eu, memory);
      AddSyscalls(eu, syscalls);
    }

    method Purge(eu: string)
      modifies this
      ensures View() == PurgeEu(old(View()), eu)
      ensures usage == old(usage) - {eu} && euTenant == old(euTenant) - {eu}
      ensures activeCounts == old(activeCounts) && pendingPurge == old(pendingPurge)
    {
      usage := usage - {eu};
      euTenant := euTenant - {eu};
    }
  }
}
