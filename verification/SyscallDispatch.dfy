/** Nested dispatch: a call tree whose handlers dispatch further syscalls. One execution of the
    dispatcher is a walk over the tree of the calls that were made. */
module SyscallDispatch {
  import opened Prelude
  import opened SyscallRegistry
  import RM = ResourceManager

  datatype Context = Context(eu: string, user: string, capabilities: set<string>, trace: string)

  /** One dispatch: its name, the context the caller passes, whether the payload fits the schema,
      the dispatches its handler makes, whether the handler then raises, the time it took, and the
      fresh ids drawn when the context has none. */
  datatype Call = Call(
    name: string,
    context: Context,
    inputOk: bool,
    nested: seq<Call>,
    raises: bool,
    cpuMs: int,
    freshTrace: NonEmpty,
    freshEu: NonEmpty)

  datatype Envelope = Envelope(ok: bool, trace: string, eu: string, syscall: string)

  /** Levels of nesting. */
  function Height(call: Call): nat {
    1 + MaxHeight(call.nested)
  }

  function MaxHeight(calls: seq<Call>): nat {
    if calls == [] then 0
    else
      var rest := MaxHeight(calls[1..]);
      if Height(calls[0]) > rest then Height(calls[0]) else rest
  }

  lemma {:induction false} MaxHeightCovers(calls: seq<Call>, i: nat)
    requires i < |calls|
    ensures Height(calls[i]) <= MaxHeight(calls)
  {
    if i > 0 {
      MaxHeightCovers(calls[1..], i - 1);
    }
  }

  /** The name an envelope reports: the one the gate looked up, when it got that far. */
  function ReportedName(flat: Flat, fallback: bool, name: string): string {
    match GateLookup(flat, VersionsOf(flat), name, fallback)
    case Found(key, _) => key
    case UnknownVersion => name
    case UnknownSyscall(key) => key
  }

  function Max(a: int, b: int): int {
    if a > b then a else b
  }

  /** A unit whose usage is not awaiting purge keeps it, its syscall count never goes down, and
      ends at most `levels` over budget unless it began higher. */
  predicate Metered(limits: RM.Limits, before: RM.Rm, after: RM.Rm, eu: string, levels: nat) {
    eu !in before.pending ==>
      && eu !in after.pending
      && RM.Syscalls(before, eu) <= RM.Syscalls(after, eu)
      && RM.Syscalls(after, eu) <= Max(RM.Syscalls(before, eu), Max(limits.syscalls, 0) + levels)
  }

  lemma MeteredChain(limits: RM.Limits, before: RM.Rm, middle: RM.Rm, after: RM.Rm, eu: string, levels: nat, fewer: nat)
    requires fewer <= levels && Metered(limits, before, middle, eu, levels) && Metered(limits, middle, after, eu, fewer)
    ensures Metered(limits, before, after, eu, levels)
  {
  }

  /** The bound over one dispatch: within budget at first, the handler's calls stay one level lower, and
      the dispatch itself adds at most one. */
  lemma FinishMeters(limits: RM.Limits, before: RM.Rm, handled: RM.Rm, after: RM.Rm, eu: string, levels: nat, ok: bool)
    requires levels >= 1 && Metered(limits, before, handled, eu, levels - 1)
    requires RM.Syscalls(before, eu) <= Max(limits.syscalls, 0)
    requires eu !in handled.pending ==>
               eu !in after.pending && RM.Syscalls(after, eu) == RM.Syscalls(handled, eu) + (if ok then 1 else 0)
    ensures Metered(limits, before, after, eu, levels)
  {
  }

  /** Recording a finished dispatch counts one syscall for its unit. */
  lemma RecordMeters(limits: RM.Limits, rm: RM.Rm, eu: string, cpuMs: int)
    requires eu != ""
    ensures var after := RM.RecordUsage(rm, eu, cpuMs, 0, 1);
            eu !in rm.pending ==>
              && eu !in after.pending && RM.Syscalls(after, eu) == RM.Syscalls(rm, eu) + 1
              && RM.Cpu(after, eu) == RM.Cpu(rm, eu) + cpuMs
  {
    if eu !in rm.pending {
      RM.ApplySnapshot(limits, rm, RM.Record(eu, cpuMs, 0, 1), eu);
      RM.ApplyKeepsUsage(limits, rm, RM.Record(eu, cpuMs, 0, 1), eu);
      assert [RM.Record(eu, cpuMs, 0, 1)][1..] == [];
    }
  }

  /** `node` is `root` or one of the calls made below it. */
  ghost predicate InTree(root: Call, node: Call) {
    node == root || exists i :: 0 <= i < |root.nested| && InTree(root.nested[i], node)
  }

  function IsOk(): Envelope -> nat {
    (e: Envelope) => if e.ok then 1 else 0
  }

  /** A success answers for a registered syscall whose capability its own caller held, on behalf of an
      authenticated user. */
  ghost predicate Authorised(flat: Flat, e: Envelope, call: Call) {
    e.ok ==>
      && e.syscall in flat
      && flat[e.syscall].capability in call.context.capabilities
      && call.context.user != ""
  }

  /** What dispatching `root` adds to the envelopes and the calls they answer: one identity, only
      calls of the tree, no success without its capability. */
  ghost predicate Added(flat: Flat, root: Call, trace: string, eu: string,
                        before: seq<Envelope>, after: seq<Envelope>, answered: seq<Call>) {
    && before <= after && |answered| == |after|
    && forall i :: |before| <= i < |after| ==>
         && after[i].trace == trace && after[i].eu == eu
         && InTree(root, answered[i]) && Authorised(flat, after[i], answered[i])
  }

  /** The first `k` of the calls have been answered, at or after position `start`. */
  ghost predicate AnsweredUpTo(calls: seq<Call>, k: nat, start: nat, answered: seq<Call>) {
    forall j :: 0 <= j < k && j < |calls| ==> AnsweredSince(calls[j], start, answered)
  }

  ghost predicate AnsweredSince(call: Call, start: nat, answered: seq<Call>) {
    exists i :: start <= i < |answered| && answered[i] == call
  }

  lemma AnsweredStays(calls: seq<Call>, k: nat, start: nat, answered: seq<Call>, answered': seq<Call>)
    requires AnsweredUpTo(calls, k, start, answered) && answered <= answered'
    ensures AnsweredUpTo(calls, k, start, answered')
  {
    forall j | 0 <= j < k && j < |calls| ensures AnsweredSince(calls[j], start, answered') {
      assert AnsweredSince(calls[j], start, answered);
      var i :| start <= i < |answered| && answered[i] == calls[j];
      assert answered'[i] == calls[j];
    }
  }

  lemma AnsweredNext(calls: seq<Call>, k: nat, start: nat, answered: seq<Call>, answered': seq<Call>)
    requires AnsweredUpTo(calls, k, start, answered) && answered <= answered' && k < |calls|
    requires start <= |answered| < |answered'| && answered'[|answered'| - 1] == calls[k]
    ensures AnsweredUpTo(calls, k + 1, start, answered')
  {
    AnsweredStays(calls, k, start, answered, answered');
    assert AnsweredSince(calls[k], start, answered');
  }

  /** The time the successful calls took. */
  ghost function CpuOf(sent: seq<Envelope>, answered: seq<Call>): int
    requires |sent| == |answered|
  {
    if sent == [] then 0
    else
      var last := |sent| - 1;
      CpuOf(sent[..last], answered[..last]) + (if sent[last].ok then answered[last].cpuMs else 0)
  }

  /** The unit's count rises by one, and its time by what the call took, for every success. */
  ghost predicate Counted(before: RM.Rm, after: RM.Rm, eu: string, sent: seq<Envelope>, answered: seq<Call>,
                          sent': seq<Envelope>, answered': seq<Call>)
    requires |sent| == |answered| && |sent'| == |answered'|
  {
    eu !in before.pending ==>
      && RM.Syscalls(after, eu) + Sum(IsOk(), sent) == RM.Syscalls(before, eu) + Sum(IsOk(), sent')
      && RM.Cpu(after, eu) + CpuOf(sent, answered) == RM.Cpu(before, eu) + CpuOf(sent', answered')
  }

  lemma CountedChain(before: RM.Rm, middle: RM.Rm, after: RM.Rm, eu: string, sent: seq<Envelope>, answered: seq<Call>,
                     sent': seq<Envelope>, answered': seq<Call>, sent'': seq<Envelope>, answered'': seq<Call>)
    requires |sent| == |answered| && |sent'| == |answered'| && |sent''| == |answered''|
    requires eu !in before.pending ==> eu !in middle.pending
    requires Counted(before, middle, eu, sent, answered, sent', answered')
    requires Counted(middle, after, eu, sent', answered', sent'', answered'')
    ensures Counted(before, after, eu, sent, answered, sent'', answered'')
  {
  }

  /** The checks leave the unit's counts alone, so what holds after them holds from before them. */
  lemma CheckedFirst(limits: RM.Limits, before: RM.Rm, checked: RM.Rm, after: RM.Rm, eu: string, levels: nat,
                     sent: seq<Envelope>, answered: seq<Call>, sent': seq<Envelope>, answered': seq<Call>)
    requires |sent| == |answered| && |sent'| == |answered'|
    requires eu !in before.pending ==>
               && eu !in checked.pending
               && RM.Syscalls(checked, eu) == RM.Syscalls(before, eu) && RM.Cpu(checked, eu) == RM.Cpu(before, eu)
    requires Counted(checked, after, eu, sent, answered, sent', answered')
    requires Metered(limits, checked, after, eu, levels)
    ensures Counted(before, after, eu, sent, answered, sent', answered')
    ensures Metered(limits, before, after, eu, levels)
  {
  }

  lemma AddedByNested(flat: Flat, root: Call, k: nat, trace: string, eu: string, start: seq<Envelope>,
                      middle: seq<Envelope>, answered: seq<Call>, after: seq<Envelope>, answered': seq<Call>)
    requires k < |root.nested| && answered <= answered'
    requires Added(flat, root, trace, eu, start, middle, answered)
    requires Added(flat, root.nested[k], trace, eu, middle, after, answered')
    ensures Added(flat, root, trace, eu, start, after, answered')
  {
    forall i | |start| <= i < |after|
      ensures after[i].trace == trace && after[i].eu == eu
      ensures InTree(root, answered'[i]) && Authorised(flat, after[i], answered'[i])
    {
      if i < |middle| {
        assert after[i] == middle[i] && answered'[i] == answered[i];
      } else {
        assert InTree(root.nested[k], answered'[i]);
      }
    }
  }

  lemma AddedByAnswer(flat: Flat, root: Call, e: Envelope, start: seq<Envelope>, middle: seq<Envelope>, answered: seq<Call>)
    requires Added(flat, root, e.trace, e.eu, start, middle, answered) && Authorised(flat, e, root)
    ensures Added(flat, root, e.trace, e.eu, start, middle + [e], answered + [root])
  {
    var after, answered' := middle + [e], answered + [root];
    forall i | |start| <= i < |after|
      ensures after[i].trace == e.trace && after[i].eu == e.eu
      ensures InTree(root, answered'[i]) && Authorised(flat, after[i], answered'[i])
    {
      if i < |middle| {
        assert after[i] == middle[i] && answered'[i] == answered[i];
      }
    }
  }

  lemma AddedNothing(flat: Flat, root: Call, trace: string, eu: string, sent: seq<Envelope>, answered: seq<Call>)
    requires |answered| == |sent|
    ensures Added(flat, root, trace, eu, sent, sent, answered)
  {
  }

  /** The gate finds an entry exactly under the name it reports. */
  lemma ReportedIsFound(flat: Flat, fallback: bool, name: string)
    ensures var found := GateLookup(flat, VersionsOf(flat), name, fallback);
            var reported := ReportedName(flat, fallback, name);
            && (found.Found? <==> reported in flat)
            && (found.Found? ==> found.entry == flat[reported])
            && (name in flat || !fallback ==> reported == name)
  {
    if name in flat {
      GateFindsRegistered(flat, name, fallback);
    }
  }

  class SyscallDispatcher {
    const flat: Flat
    const fallback: bool         // whether an unavailable version falls back to the stable one
    const limits: RM.Limits
    var traceVar: string         // the context variables; empty means no dispatch is active
    var euVar: string
    var rm: RM.Rm
    var envelopes: seq<Envelope> // every envelope returned, in order
    ghost var answered: seq<Call> // the call each of them answers

    /** The dispatcher only ever sets both variables, to non-empty values. */
    ghost predicate Coherent()
      reads this
    {
      (traceVar != "" ==> euVar != "") && |answered| == |envelopes|
    }

    constructor (flat: Flat, fallback: bool, limits: RM.Limits, rm: RM.Rm)
      ensures Coherent() && traceVar == "" && euVar == "" && envelopes == []
      ensures this.flat == flat && this.fallback == fallback && this.limits == limits && this.rm == rm
    {
      this.flat, this.fallback, this.limits, this.rm := flat, fallback, limits, rm;
      traceVar, euVar, envelopes, answered := "", "", [], [];
    }

    /** Inherit the active identity, or establish one from the context's own ids, or fresh ones where it
        has none; the flag tells whether variables were set. */
    method ResolveTraceContext(call: Call) returns (context: Context, isRoot: bool)
      requires Coherent()
      modifies this`traceVar, this`euVar
      ensures isRoot == (old(traceVar) == "")
      ensures !isRoot ==> context.trace == old(traceVar) && context.eu == old(euVar)
      ensures isRoot ==> context.trace == if call.context.trace != "" then call.context.trace else call.freshTrace
      ensures isRoot ==> context.eu == if call.context.eu != "" then call.context.eu else call.freshEu
      ensures traceVar == context.trace != "" && euVar == context.eu != ""
      ensures context.user == call.context.user && context.capabilities == call.context.capabilities
    {
      context := call.context;
      if traceVar != "" {
        if context.trace != traceVar || context.eu != euVar {
          context := context.(eu := if euVar != "" then euVar else context.eu, trace := traceVar);
        }
        return context, false;
      }
      var trace := if context.trace != "" then context.trace else call.freshTrace;
      var eu := if context.eu != "" then context.eu else call.freshEu;
      if context.trace == "" || context.eu == "" {
        context := context.(eu := eu, trace := trace);
      }
      traceVar := context.trace;
      euVar := context.eu;
      isRoot := true;
    }

    /** For every call tree, whatever contexts the handlers pass and whichever of them fail: both
        context variables are restored; every envelope below carries one trace id and one unit id, those
        already active, else the context's own, else the fresh ones; the call succeeds exactly when its
        syscall is registered, its caller holds the capability for an authenticated user, it is within
        quota, well-formed and its handler returns; every success in the tree is one whose own caller
        held the capability; and the unit's syscall count rises by one for every success, ending at most
        `Height` over budget. */
    method Dispatch(call: Call) returns (envelope: Envelope)
      requires Coherent()
      modifies this
      ensures Coherent() && traceVar == old(traceVar) && euVar == old(euVar)
      ensures old(answered) <= answered && |envelopes| > |old(envelopes)|
      ensures envelope == envelopes[|envelopes| - 1] && answered[|answered| - 1] == call
      ensures old(traceVar) != "" ==> envelope.trace == old(traceVar) && envelope.eu == old(euVar)
      ensures old(traceVar) == "" ==>
                envelope.trace == if call.context.trace != "" then call.context.trace else call.freshTrace
      ensures old(traceVar) == "" ==>
                envelope.eu == if call.context.eu != "" then call.context.eu else call.freshEu
      ensures Added(flat, call, envelope.trace, envelope.eu, old(envelopes), envelopes, answered)
      ensures envelope.syscall == ReportedName(flat, fallback, call.name)
      ensures call.name in flat || !fallback ==> envelope.syscall == call.name
      ensures envelope.ok <==>
                && envelope.syscall in flat
                && flat[envelope.syscall].capability in call.context.capabilities
                && call.context.user != ""
                && call.inputOk && !call.raises
                && RM.CheckQuota(limits, old(rm), envelope.eu).1
      ensures envelope.ok ==> AnsweredUpTo(call.nested, |call.nested|, |old(answered)|, answered)
      ensures Counted(old(rm), rm, envelope.eu, old(envelopes), old(answered), envelopes, answered)
      ensures Metered(limits, old(rm), rm, envelope.eu, Height(call))
      decreases call, 5
    {
      var savedTrace, savedEu := traceVar, euVar;
      var context, isRoot := ResolveTraceContext(call);
      envelope := Execute(call, context);
      if isRoot {
        traceVar := savedTrace;
        euVar := savedEu;
      }
    }

    /** The steps of one dispatch, with the resolved context active. */
    method Execute(call: Call, context: Context) returns (envelope: Envelope)
      requires Coherent() && traceVar == context.trace != "" && euVar == context.eu != ""
      requires context.user == call.context.user && context.capabilities == call.context.capabilities
      modifies this
      ensures Coherent() && traceVar == old(traceVar) && euVar == old(euVar)
      ensures old(answered) <= answered && |envelopes| > |old(envelopes)|
      ensures envelope == envelopes[|envelopes| - 1] && answered[|answered| - 1] == call
      ensures envelope.trace == context.trace && envelope.eu == context.eu
      ensures Added(flat, call, context.trace, context.eu, old(envelopes), envelopes, answered)
      ensures envelope.syscall == ReportedName(flat, fallback, call.name)
      ensures call.name in flat || !fallback ==> envelope.syscall == call.name
      ensures envelope.ok <==>
                && envelope.syscall in flat
                && flat[envelope.syscall].capability in call.context.capabilities
                && call.context.user != ""
                && call.inputOk && !call.raises
                && RM.CheckQuota(limits, old(rm), context.eu).1
      ensures envelope.ok ==> AnsweredUpTo(call.nested, |call.nested|, |old(answered)|, answered)
      ensures Counted(old(rm), rm, context.eu, old(envelopes), old(answered), envelopes, answered)
      ensures Metered(limits, old(rm), rm, context.eu, Height(call))
      decreases call, 4
    {
      var name, admitted := PassChecks(call, context);
      ghost var checked := rm;
      envelope := Conclude(call, context, name, admitted);
      CheckedFirst(limits, old(rm), checked, rm, context.eu, Height(call), old(envelopes), old(answered), envelopes, answered);
    }

    /** The call after its checks: served when they admitted it, else refused. */
    method Conclude(call: Call, context: Context, name: string, admitted: bool) returns (envelope: Envelope)
      requires Coherent() && traceVar == context.trace != "" && euVar == context.eu != ""
      requires admitted ==> RM.Syscalls(rm, context.eu) <= Max(limits.syscalls, 0)
      requires admitted ==> Authorised(flat, Envelope(true, context.trace, context.eu, name), call)
      modifies this
      ensures Coherent() && traceVar == old(traceVar) && euVar == old(euVar)
      ensures old(answered) <= answered && |envelopes| > |old(envelopes)|
      ensures envelope == envelopes[|envelopes| - 1] && answered[|answered| - 1] == call
      ensures envelope == Envelope(admitted && !call.raises, context.trace, context.eu, name)
      ensures Added(flat, call, context.trace, context.eu, old(envelopes), envelopes, answered)
      ensures admitted ==> AnsweredUpTo(call.nested, |call.nested|, |old(answered)|, answered)
      ensures !admitted ==> rm == old(rm)
      ensures Counted(old(rm), rm, context.eu, old(envelopes), old(answered), envelopes, answered)
      ensures Metered(limits, old(rm), rm, context.eu, Height(call))
      decreases call, 3
    {
      if admitted {
        envelope := Serve(call, context, name);
      } else {
        AddedNothing(flat, call, context.trace, context.eu, envelopes, answered);
        envelope := Answer(call, false, context, name, envelopes);
      }
    }

    /** An admitted call: its handler, then its answer. */
    method Serve(call: Call, context: Context, name: string) returns (envelope: Envelope)
      requires Coherent() && traceVar == context.trace != "" && euVar == context.eu != ""
      requires RM.Syscalls(rm, context.eu) <= Max(limits.syscalls, 0)
      requires Authorised(flat, Envelope(true, context.trace, context.eu, name), call)
      modifies this
      ensures Coherent() && traceVar == old(traceVar) && euVar == old(euVar)
      ensures old(answered) <= answered && |envelopes| > |old(envelopes)|
      ensures envelope == envelopes[|envelopes| - 1] && answered[|answered| - 1] == call
      ensures envelope == Envelope(!call.raises, context.trace, context.eu, name)
      ensures Added(flat, call, context.trace, context.eu, old(envelopes), envelopes, answered)
      ensures AnsweredUpTo(call.nested, |call.nested|, |old(answered)|, answered)
      ensures Counted(old(rm), rm, context.eu, old(envelopes), old(answered), envelopes, answered)
      ensures Metered(limits, old(rm), rm, context.eu, Height(call))
      decreases call, 2
    {
      RunHandler(call, context);
      ghost var handled, sent, done := rm, envelopes, answered;
      envelope := Finish(call, context, name, old(envelopes));
      AnsweredStays(call.nested, |call.nested|, |old(answered)|, done, answered);
      CountedChain(old(rm), handled, rm, context.eu, old(envelopes), old(answered), sent, done, envelopes, answered);
      FinishMeters(limits, old(rm), handled, rm, context.eu, Height(call), envelope.ok);
    }

    /** A handler that raised is answered with an error; else the syscall is recorded, then answered. */
    method Finish(call: Call, context: Context, name: string, ghost start: seq<Envelope>) returns (envelope: Envelope)
      requires Coherent() && context.eu != ""
      requires Added(flat, call, context.trace, context.eu, start, envelopes, answered)
      requires Authorised(flat, Envelope(true, context.trace, context.eu, name), call)
      modifies this`envelopes, this`answered, this`rm
      ensures envelope == Envelope(!call.raises, context.trace, context.eu, name)
      ensures envelopes == old(envelopes) + [envelope] && answered == old(answered) + [call]
      ensures Added(flat, call, context.trace, context.eu, start, envelopes, answered)
      ensures Coherent() && Counted(old(rm), rm, context.eu, old(envelopes), old(answered), envelopes, answered)
      ensures context.eu !in old(rm).pending ==>
                context.eu !in rm.pending
                && RM.Syscalls(rm, context.eu) == RM.Syscalls(old(rm), context.eu) + (if envelope.ok then 1 else 0)
    {
      if call.raises {
        envelope := Answer(call, false, context, name, start);
        return;
      }
      RecordMeters(limits, rm, context.eu, call.cpuMs);
      rm := RM.RecordUsage(rm, context.eu, call.cpuMs, 0, 1);
      envelope := Answer(call, true, context, name, start);
    }

    /** Gate, capability, tenant, quota and input checks, in that order. Only the quota check touches
        the manager, and it leaves the unit's count alone. */
    method PassChecks(call: Call, context: Context) returns (name: string, admitted: bool)
      requires context.eu != ""
      requires context.user == call.context.user && context.capabilities == call.context.capabilities
      modifies this`rm
      ensures name == ReportedName(flat, fallback, call.name)
      ensures call.name in flat || !fallback ==> name == call.name
      ensures admitted <==>
                && name in flat && flat[name].capability in call.context.capabilities && call.context.user != ""
                && call.inputOk && RM.CheckQuota(limits, old(rm), context.eu).1
      ensures rm == if name in flat && flat[name].capability in call.context.capabilities && call.context.user != ""
                    then RM.CheckQuota(limits, old(rm), context.eu).0 else old(rm)
      ensures context.eu !in old(rm).pending ==>
                && context.eu !in rm.pending
                && RM.Syscalls(rm, context.eu) == RM.Syscalls(old(rm), context.eu)
                && RM.Cpu(rm, context.eu) == RM.Cpu(old(rm), context.eu)
      ensures admitted ==> RM.Syscalls(rm, context.eu) <= Max(limits.syscalls, 0)
    {
      name := ReportedName(flat, fallback, call.name);
      ReportedIsFound(flat, fallback, call.name);
      var found := GateLookup(flat, VersionsOf(flat), call.name, fallback);
      if !found.Found? || found.entry.capability !in context.capabilities || context.user == "" {
        return name, false;
      }
      var quota := RM.CheckQuota(limits, rm, context.eu);
      if context.eu !in rm.pending {
        RM.ApplyKeepsUsage(limits, rm, RM.AskQuota(context.eu), context.eu);
        RM.ApplySnapshot(limits, rm, RM.AskQuota(context.eu), context.eu);
      }
      rm := quota.0;
      admitted := quota.1 && call.inputOk;
    }

    /** The handler's own dispatches, one after another. Only a unit within budget gets here. */
    method RunHandler(call: Call, context: Context)
      requires Coherent() && traceVar == context.trace != "" && euVar == context.eu != ""
      requires RM.Syscalls(rm, context.eu) <= Max(limits.syscalls, 0)
      modifies this
      ensures Coherent() && traceVar == old(traceVar) && euVar == old(euVar)
      ensures old(answered) <= answered
      ensures Added(flat, call, context.trace, context.eu, old(envelopes), envelopes, answered)
      ensures Counted(old(rm), rm, context.eu, old(envelopes), old(answered), envelopes, answered)
      ensures AnsweredUpTo(call.nested, |call.nested|, |old(answered)|, answered)
      ensures Metered(limits, old(rm), rm, context.eu, Height(call) - 1)
      decreases call, 1
    {
      AddedNothing(flat, call, context.trace, context.eu, envelopes, answered);
      var k := 0;
      while k < |call.nested|
        invariant 0 <= k <= |call.nested|
        invariant Coherent() && traceVar == old(traceVar) && euVar == old(euVar)
        invariant old(answered) <= answered
        invariant Added(flat, call, context.trace, context.eu, old(envelopes), envelopes, answered)
        invariant Counted(old(rm), rm, context.eu, old(envelopes), old(answered), envelopes, answered)
        invariant AnsweredUpTo(call.nested, k, |old(answered)|, answered)
        invariant Metered(limits, old(rm), rm, context.eu, Height(call) - 1)
      {
        RunNested(call, context, k, old(rm), old(envelopes), old(answered));
        k := k + 1;
      }
    }

    /** The handler's dispatch number `k`, where the handler started from `began`, `start` and `first`. */
    method RunNested(call: Call, context: Context, k: nat, ghost began: RM.Rm, ghost start: seq<Envelope>,
                     ghost first: seq<Call>)
      requires Coherent() && traceVar == context.trace != "" && euVar == context.eu != ""
      requires k < |call.nested| && |first| == |start| && first <= answered
      requires Added(flat, call, context.trace, context.eu, start, envelopes, answered)
      requires Counted(began, rm, context.eu, start, first, envelopes, answered)
      requires AnsweredUpTo(call.nested, k, |first|, answered)
      requires Metered(limits, began, rm, context.eu, Height(call) - 1)
      modifies this
      ensures Coherent() && traceVar == old(traceVar) && euVar == old(euVar)
      ensures first <= answered
      ensures Added(flat, call, context.trace, context.eu, start, envelopes, answered)
      ensures Counted(began, rm, context.eu, start, first, envelopes, answered)
      ensures AnsweredUpTo(call.nested, k + 1, |first|, answered)
      ensures Metered(limits, began, rm, context.eu, Height(call) - 1)
      decreases call, 0
    {
      MaxHeightCovers(call.nested, k);
      var inner := Dispatch(call.nested[k]);
      AddedByNested(flat, call, k, context.trace, context.eu, start, old(envelopes), old(answered), envelopes, answered);
      AnsweredNext(call.nested, k, |first|, old(answered), answered);
      CountedChain(began, old(rm), rm, context.eu, start, first, old(envelopes), old(answered), envelopes, answered);
      MeteredChain(limits, began, old(rm), rm, context.eu, Height(call) - 1, Height(call.nested[k]));
    }

    method Answer(call: Call, ok: bool, context: Context, name: string, ghost start: seq<Envelope>)
      returns (envelope: Envelope)
      requires Coherent()
      requires Added(flat, call, context.trace, context.eu, start, envelopes, answered)
      requires Authorised(flat, Envelope(ok, context.trace, context.eu, name), call)
      modifies this`envelopes, this`answered
      ensures envelope == Envelope(ok, context.trace, context.eu, name)
      ensures envelopes == old(envelopes) + [envelope] && answered == old(answered) + [call]
      ensures Added(flat, call, context.trace, context.eu, start, envelopes, answered)
      ensures Sum(IsOk(), envelopes) == Sum(IsOk(), old(envelopes)) + (if ok then 1 else 0)
      ensures CpuOf(envelopes, answered) == CpuOf(old(envelopes), old(answered)) + (if ok then call.cpuMs else 0)
    {
      envelope := Envelope(ok, context.trace, context.eu, name);
      AddedByAnswer(flat, call, envelope, start, envelopes, answered);
      SumSnoc(IsOk(), envelopes, envelope);
      envelopes := envelopes + [envelope];
      answered := answered + [call];
      assert envelopes[..|envelopes| - 1] == old(envelopes) && answered[..|answered| - 1] == old(answered);
    }
  }
}
