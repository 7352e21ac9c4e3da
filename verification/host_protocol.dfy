// The lifecycles of resource and context ids in the order of the pushed commands, and exactly when
// they are respected.
module HostProtocol {
  import opened Wrappers
  import opened Paging
  import opened Arena
  import opened FenceRegister
  import opened DriverState
  import opened ResourceTable
  import opened BaseInvariant
  import opened Requests
  import opened HostView
  import Idr

  // CONTROL_QUEUE and COMMAND_QUEUE of kernelmode/vgpu/command.c.
  predicate OnControlQueue(cmd: Command) {
    cmd.CtxCreate? || cmd.CtxDestroy? || cmd.GetCapset?
  }

  function CommandQueue(trace: seq<Command>): seq<Command> {
    if trace == [] then []
    else
      var front, cmd := CommandQueue(trace[..|trace| - 1]), trace[|trace| - 1];
      if OnControlQueue(cmd) then front else front + [cmd]
  }

  // The order on the command queue alone decides the lifecycle of a resource.
  lemma {:induction false} CommandQueueDecides(trace: seq<Command>, id: nat)
    ensures HostOf(CommandQueue(trace), id) == HostOf(trace, id)
  {
    if trace != [] {
      var front := trace[..|trace| - 1];
      CommandQueueDecides(front, id);
      HostPush(CommandQueue(front), trace[|trace| - 1], id);
    }
  }

  // ----- exactly when the lifecycles are respected -----

  // No resource id has been used against its lifecycle.
  ghost predicate ResourcesRespected(s: Driver) {
    forall id :: !HostOf(s.trace, id).Violated?
  }

  // No context id has been used against its lifecycle.
  ghost predicate ContextsRespected(s: Driver) {
    forall c :: !HostContextOf(s.trace, c).Broken?
  }

  lemma StepRespected(s: Driver, op: Op)
    requires Protocol(s) && Base(s) && IdsFit(Next(s, op))
    ensures ResourcesRespected(Next(s, op)) <==> ResourcesRespected(s) && FindsResource(s, op)
    ensures ContextsRespected(Next(s, op)) <==> ContextsRespected(s) && FindsContext(s, op)
  {
    hide HostOf, HostContextOf;
    if op.Push? {
      PushRespected(s, op.agent);
    } else {
      StepProtocol(s, op);
    }
  }

  lemma PushRespected(s: Driver, i: nat)
    requires Protocol(s) && Base(s)
    ensures ResourcesRespected(DoPush(s, i)) <==> ResourcesRespected(s) && FindsResource(s, Push(i))
    ensures ContextsRespected(DoPush(s, i)) <==> ContextsRespected(s) && FindsContext(s, Push(i))
  {
    hide HostOf, HostContextOf, Protocol;
    var s' := DoPush(s, i);
    if Fires(s, i) {
      var cmd := s.agents[i].cmd;
      forall id: nat
        ensures HostOf(s'.trace, id).Violated? <==>
                  HostOf(s.trace, id).Violated? || (cmd.Transfer? && cmd.res == id && !FindsResource(s, Push(i)))
      {
        PushedResource(s, i, id);
      }
      assert FindsResource(s, Push(i)) || (cmd.Transfer? && HostOf(s'.trace, cmd.res).Violated?);
      forall c: nat
        ensures HostContextOf(s'.trace, c).Broken? <==>
                  HostContextOf(s.trace, c).Broken? || (ContextOf(cmd) == c && !FindsContext(s, Push(i)))
      {
        PushedContext(s, i, c);
      }
      assert FindsContext(s, Push(i)) || HostContextOf(s'.trace, ContextOf(cmd)).Broken?;
    }
  }

  lemma PushedContext(s: Driver, i: nat, c: nat)
    requires Protocol(s) && Fires(s, i)
    ensures HostContextOf(DoPush(s, i).trace, c).Broken? <==>
              HostContextOf(s.trace, c).Broken? || (ContextOf(s.agents[i].cmd) == c && !FindsContext(s, Push(i)))
  {
    hide HostOf, HostContextOf;
    assert ContextOk(s, c);
    HostContextPush(s.trace, s.agents[i].cmd, c);
  }

  ghost predicate PushesFindResources(s: Driver, ops: seq<Op>)
    decreases |ops|
  {
    ops != [] ==> FindsResource(s, ops[0]) && PushesFindResources(Next(s, ops[0]), ops[1..])
  }

  ghost predicate PushesFindContexts(s: Driver, ops: seq<Op>)
    decreases |ops|
  {
    ops != [] ==> FindsContext(s, ops[0]) && PushesFindContexts(Next(s, ops[0]), ops[1..])
  }

  lemma {:induction false} RunRespected(s: Driver, ops: seq<Op>)
    requires Protocol(s) && Base(s) && IdsFit(Run(s, ops))
    ensures ResourcesRespected(Run(s, ops)) <==> ResourcesRespected(s) && PushesFindResources(s, ops)
    ensures ContextsRespected(Run(s, ops)) <==> ContextsRespected(s) && PushesFindContexts(s, ops)
    decreases |ops|
  {
    hide HostOf, HostContextOf, Protocol, ResourcesRespected, ContextsRespected;
    if ops != [] {
      RunCountersGrow(Next(s, ops[0]), ops[1..]);
      StepProtocol(s, ops[0]);
      StepRespected(s, ops[0]);
      StepBase(s, ops[0]);
      RunRespected(Next(s, ops[0]), ops[1..]);
    }
  }

  // In every run of fewer than 2^32 ids, whatever clients and threads do: no resource id is
  // created twice, used before its creation or after its UNREF if and only if every transfer
  // still finds its resource when it is pushed; and no context id is used outside CTX_CREATE
  // and CTX_DESTROY if and only if every transfer and submit still finds its context.
  lemma LifecycleRespectedIff(pages: nat, ops: seq<Op>)
    requires IdsFit(Run(Initial(pages), ops))
    ensures ResourcesRespected(Run(Initial(pages), ops)) <==> PushesFindResources(Initial(pages), ops)
    ensures ContextsRespected(Run(Initial(pages), ops)) <==> PushesFindContexts(Initial(pages), ops)
  {
    InitialProtocol(pages);
    InitialBase(pages);
    RunRespected(Initial(pages), ops);
  }

  // ----- a discipline that suffices -----

  predicate PendingFor(a: Agent, c: nat) {
    a.phase.Marking? && (a.cmd.Transfer? || a.cmd.Submit3D?) && a.cmd.ctx == c
  }

  // The client does not close a resource while one of its own transfers on it is between its
  // lookup and its push, and its context is destroyed, when the process exits, after the last
  // of its transfers and submits has been pushed or given up.
  ghost predicate Orderly(s: Driver, op: Op) {
    match op
    case CloseResource(c, id) => forall k :: 0 <= k < |s.agents| ==> !PendingTransfer(s.agents[k], c, id)
    case DestroyContext(c) => forall k :: 0 <= k < |s.agents| ==> !PendingFor(s.agents[k], c)
    case _ => true
  }

  ghost predicate OrderlyRun(s: Driver, ops: seq<Op>)
    decreases |ops|
  {
    ops != [] ==> Orderly(s, ops[0]) && OrderlyRun(Next(s, ops[0]), ops[1..])
  }

  // What a request has looked up is still there.
  predicate TargetLive(s: Driver, cmd: Command) {
    && (cmd.Transfer? ==> Lookup(s.contexts, cmd.ctx, cmd.res).Some?)
    && (cmd.Submit3D? ==> FindContext(s.contexts, cmd.ctx).Some?)
  }

  ghost predicate TargetsLive(s: Driver) {
    forall k :: 0 <= k < |s.agents| && s.agents[k].phase.Marking? ==>
      (s.agents[k].cmd.Transfer? || s.agents[k].cmd.Submit3D?) && TargetLive(s, s.agents[k].cmd)
  }

  // What a request names that marks after the step was there before it, and the step does not
  // take it away.
  lemma TargetBefore(s: Driver, op: Op, k: nat)
    requires TargetsLive(s) && Orderly(s, op) && k < |Next(s, op).agents| && Next(s, op).agents[k].phase.Marking?
    ensures var cmd := Next(s, op).agents[k].cmd;
            && (cmd.Transfer? || cmd.Submit3D?) && TargetLive(s, cmd) && op != DestroyContext(cmd.ctx)
            && (cmd.Transfer? ==> op != CloseResource(cmd.ctx, cmd.res))
  {
    hide Next, Lookup, FindContext;
    var cmd := Next(s, op).agents[k].cmd;
    var l := RequestOrigin(s, op, k);
    if l < |s.agents| {
      assert TargetLive(s, s.agents[l].cmd);
      assert cmd.Transfer? ==> PendingTransfer(s.agents[l], cmd.ctx, cmd.res);
      assert PendingFor(s.agents[l], cmd.ctx);
    }
  }

  lemma StepTargets(s: Driver, op: Op)
    requires TargetsLive(s) && Base(s) && Orderly(s, op) && IdsFit(Next(s, op))
    ensures TargetsLive(Next(s, op))
    ensures FindsResource(s, op) && FindsContext(s, op)
  {
    hide Next, Lookup, FindContext;
    var s' := Next(s, op);
    forall k | 0 <= k < |s'.agents| && s'.agents[k].phase.Marking?
      ensures s'.agents[k].cmd.Transfer? || s'.agents[k].cmd.Submit3D?
      ensures TargetLive(s', s'.agents[k].cmd)
    {
      var cmd := s'.agents[k].cmd;
      TargetBefore(s, op, k);
      if cmd.Transfer? {
        ResourceStep(s, op, cmd.ctx, cmd.res);
      } else {
        FindContextSurvives(s, op, cmd.ctx);
      }
    }
    if op.Push? && Fires(s, op.agent) {
      FoundContext(s.contexts, s.agents[op.agent].cmd);
    }
  }

  lemma FoundContext(cs: seq<Context>, cmd: Command)
    ensures cmd.Transfer? && Lookup(cs, cmd.ctx, cmd.res).Some? ==> FindContext(cs, cmd.ctx).Some?
  {
  }

  lemma {:induction false} OrderlyFinds(s: Driver, ops: seq<Op>)
    requires TargetsLive(s) && Base(s) && OrderlyRun(s, ops) && IdsFit(Run(s, ops))
    ensures PushesFindResources(s, ops) && PushesFindContexts(s, ops)
    decreases |ops|
  {
    if ops != [] {
      RunCountersGrow(Next(s, ops[0]), ops[1..]);
      StepTargets(s, ops[0]);
      StepBase(s, ops[0]);
      OrderlyFinds(Next(s, ops[0]), ops[1..]);
    }
  }

  // In every orderly run of fewer than 2^32 ids the pushed commands never break the lifecycle
  // of any resource id or context id, so no id is created twice or used after its UNREF.
  lemma LifecycleRespected(pages: nat, ops: seq<Op>, id: nat, c: nat)
    requires OrderlyRun(Initial(pages), ops) && IdsFit(Run(Initial(pages), ops))
    ensures !HostOf(Run(Initial(pages), ops).trace, id).Violated?
    ensures !HostContextOf(Run(Initial(pages), ops).trace, c).Broken?
  {
    InitialBase(pages);
    OrderlyFinds(Initial(pages), ops);
    LifecycleRespectedIff(pages, ops);
  }

  // Without it, in any state: a transfer whose resource was closed after its lookup, however
  // long ago, makes the host see a transfer after UNREF. RunRespected says that this is never
  // made good again.
  lemma OvertakingCloseBreaksLifecycle(s: Driver, i: nat, c: nat, id: nat)
    requires Protocol(s) && Base(s) && Fires(s, i)
    requires PendingTransfer(s.agents[i], c, id) && Lookup(s.contexts, c, id).None?
    ensures HostOf(s.trace, id).Gone? || HostOf(s.trace, id).Violated?
    ensures HostOf(DoPush(s, i).trace, id).Violated? && !ResourcesRespected(DoPush(s, i))
  {
    hide HostOf;
    assert TargetOk(s, c, id);
    PushedResource(s, i, id);
  }
}
