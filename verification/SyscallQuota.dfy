/** The syscall budget of one execution unit under overlapping dispatches. The quota is checked
    when a dispatch begins and the syscall is recorded when its handler returns. */
module SyscallQuota {
  import opened ResourceManager

  /** `outstanding` dispatches have passed the check and not finished; `succeeded` have returned a
      success envelope. */
  datatype State = State(rm: Rm, outstanding: nat, succeeded: nat)

  datatype Action =
    | Begin
    | Refused
    | Succeed(cpuMs: int)
    | Raise
    | Env(op: Op)     // anything else done to the manager, by this or other units

  /** The environment neither completes nor purges this unit. At most `bound` dispatches of the
      unit are outstanding at once. */
  predicate Enabled(c: Limits, bound: nat, eu: string, s: State, a: Action) {
    match a
    case Begin => CheckQuota(c, s.rm, eu).1 && s.outstanding < bound
    case Refused => !CheckQuota(c, s.rm, eu).1
    case Succeed(_) => s.outstanding > 0
    case Raise => s.outstanding > 0
    case Env(op) => Keeps(op, eu)
  }

  function Next(c: Limits, bound: nat, eu: string, s: State, a: Action): State
    requires Enabled(c, bound, eu, s, a)
  {
    match a
    case Begin => s.(rm := CheckQuota(c, s.rm, eu).0, outstanding := s.outstanding + 1)
    case Refused => s.(rm := CheckQuota(c, s.rm, eu).0)
    case Succeed(cpuMs) =>
      State(RecordUsage(s.rm, eu, cpuMs, 0, 1), s.outstanding - 1, s.succeeded + 1)
    case Raise => s.(outstanding := s.outstanding - 1)
    case Env(op) => s.(rm := Apply(c, s.rm, op))
  }

  predicate IsRun(c: Limits, bound: nat, eu: string, s: State, run: seq<Action>)
    decreases |run|
  {
    run == [] ||
    (Enabled(c, bound, eu, s, run[0]) && IsRun(c, bound, eu, Next(c, bound, eu, s, run[0]), run[1..]))
  }

  function After(c: Limits, bound: nat, eu: string, s: State, run: seq<Action>): State
    requires IsRun(c, bound, eu, s, run)
    decreases |run|
  {
    if run == [] then s else After(c, bound, eu, Next(c, bound, eu, s, run[0]), run[1..])
  }

  const START := State(EMPTY_RM, 0, 0)

  function Budget(c: Limits): nat {
    if c.syscalls < 0 then 0 else c.syscalls
  }

  predicate Inv(c: Limits, bound: nat, eu: string, s: State) {
    && eu !in s.rm.pending
    && Syscalls(s.rm, eu) >= s.succeeded
    && s.succeeded + s.outstanding <= Budget(c) + bound
  }

  lemma StepKeeps(c: Limits, bound: nat, eu: string, s: State, a: Action)
    requires eu != "" && Inv(c, bound, eu, s) && Enabled(c, bound, eu, s, a)
    ensures Inv(c, bound, eu, Next(c, bound, eu, s, a))
  {
    match a {
      case Begin =>
        ApplyKeepsUsage(c, s.rm, AskQuota(eu), eu);
      case Refused =>
        ApplyKeepsUsage(c, s.rm, AskQuota(eu), eu);
      case Succeed(cpuMs) =>
        ApplyKeepsUsage(c, s.rm, Record(eu, cpuMs, 0, 1), eu);
        assert [Record(eu, cpuMs, 0, 1)][1..] == [];
      case Raise =>
      case Env(op) =>
        ApplyKeepsUsage(c, s.rm, op, eu);
    }
  }

  lemma {:induction false} RunKeeps(c: Limits, bound: nat, eu: string, s: State, run: seq<Action>)
    requires eu != "" && Inv(c, bound, eu, s) && IsRun(c, bound, eu, s, run)
    ensures Inv(c, bound, eu, After(c, bound, eu, s, run))
    decreases |run|
  {
    if run != [] {
      StepKeeps(c, bound, eu, s, run[0]);
      RunKeeps(c, bound, eu, Next(c, bound, eu, s, run[0]), run[1..]);
    }
  }

  /** A unit with at most `bound` dispatches outstanding at once has at most budget plus `bound`
      successful ones, over every interleaving with everything else the manager does: one more
      than the budget when its dispatches do not overlap. */
  lemma SuccessBound(c: Limits, bound: nat, eu: string, run: seq<Action>)
    requires eu != "" && IsRun(c, bound, eu, START, run)
    ensures After(c, bound, eu, START, run).succeeded <= Budget(c) + bound
  {
    RunKeeps(c, bound, eu, START, run);
  }

  // ---- the bound is attained ---------------------------------------------------

  lemma {:induction false} Extend(c: Limits, bound: nat, eu: string, s: State, run: seq<Action>, a: Action)
    requires IsRun(c, bound, eu, s, run) && Enabled(c, bound, eu, After(c, bound, eu, s, run), a)
    ensures IsRun(c, bound, eu, s, run + [a])
    ensures After(c, bound, eu, s, run + [a]) == Next(c, bound, eu, After(c, bound, eu, s, run), a)
    decreases |run|
  {
    if run == [] {
      assert run + [a] == [a];
      assert [a][1..] == [];
    } else {
      assert (run + [a])[1..] == run[1..] + [a];
      Extend(c, bound, eu, Next(c, bound, eu, s, run[0]), run[1..], a);
    }
  }

  /** The manager after `n` recorded syscalls of an otherwise idle system. */
  predicate Quiet(rm: Rm, eu: string, n: nat) {
    && rm.pending == {} && rm.active == map[]
    && (if n == 0 then rm.usage == map[] else rm.usage == map[eu := Snapshot("", 0, 0, n)])
  }

  predicate Generous(c: Limits) {
    c.syscalls >= 0 && c.cpuMs >= 0 && c.concurrent >= 1
  }

  lemma QuietPasses(c: Limits, rm: Rm, eu: string, n: nat)
    requires Generous(c) && Quiet(rm, eu, n) && n <= c.syscalls
    ensures CheckQuota(c, rm, eu).1 && Quiet(CheckQuota(c, rm, eu).0, eu, n)
  {
  }

  /** `n` dispatches one after another, all successful. */
  lemma {:induction false} OneByOne(c: Limits, bound: nat, eu: string, n: nat) returns (run: seq<Action>)
    requires Generous(c) && bound >= 1 && n <= c.syscalls
    ensures IsRun(c, bound, eu, START, run)
    ensures var s := After(c, bound, eu, START, run);
            Quiet(s.rm, eu, n) && s.outstanding == 0 && s.succeeded == n
  {
    if n == 0 {
      run := [];
    } else {
      run := OneByOne(c, bound, eu, n - 1);
      var s := After(c, bound, eu, START, run);
      QuietPasses(c, s.rm, eu, n - 1);
      Extend(c, bound, eu, START, run, Begin);
      run := run + [Begin];
      Extend(c, bound, eu, START, run, Succeed(0));
      run := run + [Succeed(0)];
    }
  }

  /** Then `k` dispatches begin while the count is at the budget. */
  lemma {:induction false} AllAtOnce(c: Limits, bound: nat, eu: string, k: nat) returns (run: seq<Action>)
    requires Generous(c) && 1 <= bound && k <= bound
    ensures IsRun(c, bound, eu, START, run)
    ensures var s := After(c, bound, eu, START, run);
            Quiet(s.rm, eu, c.syscalls) && s.outstanding == k && s.succeeded == c.syscalls
  {
    if k == 0 {
      run := OneByOne(c, bound, eu, c.syscalls);
    } else {
      run := AllAtOnce(c, bound, eu, k - 1);
      QuietPasses(c, After(c, bound, eu, START, run).rm, eu, c.syscalls);
      Extend(c, bound, eu, START, run, Begin);
      run := run + [Begin];
    }
  }

  lemma {:induction false} Drain(c: Limits, bound: nat, eu: string, k: nat) returns (run: seq<Action>)
    requires Generous(c) && 1 <= bound && k <= bound
    ensures IsRun(c, bound, eu, START, run)
    ensures var s := After(c, bound, eu, START, run);
            s.outstanding == bound - k && s.succeeded == c.syscalls + k
  {
    if k == 0 {
      run := AllAtOnce(c, bound, eu, bound);
    } else {
      run := Drain(c, bound, eu, k - 1);
      Extend(c, bound, eu, START, run, Succeed(0));
      run := run + [Succeed(0)];
    }
  }

  /** The bound is exact: for every budget and every number of overlapping dispatches some run
      reaches it, so the strict comparison and the late recording really let that many through. */
  lemma BoundAttained(c: Limits, bound: nat, eu: string) returns (run: seq<Action>)
    requires Generous(c) && bound >= 1
    ensures IsRun(c, bound, eu, START, run)
    ensures After(c, bound, eu, START, run).succeeded == Budget(c) + bound
  {
    run := Drain(c, bound, eu, bound);
  }
}
