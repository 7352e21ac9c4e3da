// No lost wakeup: a busy resource is waiting for a request that has marked it busy and will mark
// it idle, unless that request was given up by an error exit or the mapping of a blob failed, as
// long as no busy mark arrives late with nothing behind it.
module Wakeup {
  import opened Wrappers
  import opened Arena
  import opened FenceRegister
  import opened DriverState
  import opened ResourceTable
  import opened BaseInvariant
  import opened Requests
  import opened RegisterHistory

  // Holds at the finest interleaving, for any order of completions, any mix of fenced and
  // unfenced requests and handle lists with duplicates. Module Stuck says when a busy resource
  // can never become idle.

  // The resources a request has marked busy, or has decided to, and not marked idle since. A blob
  // is busy from its creation until its MAP_BLOB completes.
  function Owed(a: Agent): seq<nat> {
    match a.phase
    case Marking(k, stage) =>
      var n := if stage.Looking? then k else k + 1;
      if n <= |Marks(a.cmd)| then Marks(a.cmd)[..n] else []
    case Abandoned(k) => if k <= |Marks(a.cmd)| then Marks(a.cmd)[..k] else []
    case Queued => IdleMarks(a.cmd)
    case Completing(k, _) => if k <= |IdleMarks(a.cmd)| then IdleMarks(a.cmd)[k..] else []
    case Awaited => []
  }

  // The request has passed the test of the resource and will store its fence there or mark it
  // idle, whatever is recorded by then.
  predicate Committed(a: Agent, c: nat, id: nat) {
    InUpdate(a, c, id) && (a.phase.Completing? || a.phase.stage.Storing?)
  }

  // Its idle mark on the resource will not be outdated, if nothing else is recorded by then.
  predicate Counting(a: Agent, c: nat, id: nat, fence: nat) {
    FenceOf(a.cmd) == 0 || FenceOf(a.cmd) >= fence || Committed(a, c, id)
  }

  // Request a has marked the resource busy and not idle since, and its idle mark will count.
  predicate Holds(a: Agent, c: nat, id: nat, fence: nat) {
    ContextOf(a.cmd) == c && id in Owed(a) && Counting(a, c, id, fence)
  }

  ghost predicate HasHolder(agents: seq<Agent>, c: nat, id: nat, fence: nat) {
    exists i :: 0 <= i < |agents| && Holds(agents[i], c, id, fence)
  }

  ghost predicate BusyIsHeld(s: Driver, c: nat, id: nat) {
    var r := Lookup(s.contexts, c, id);
    r.Some? && !r.value.state.idle ==>
      HasHolder(s.agents, c, id, r.value.state.fence) || (c, id) in s.failedMaps
  }

  // ----- what a step can take away from a holder -----

  // A look at the next resource takes it off what the request owes only if it passes over it.
  lemma DecidedOwes(a: Agent, r: Option<Resource>, id: nat)
    requires Updating(a) && a.phase.stage.Looking? && id in Owed(a)
    ensures id in Owed(a.(phase := Decided(a, r)))
            || (a.phase.Completing? && id == Target(a) && Decided(a, r) == Onward(a.phase))
  {
    hide Decided;
    DecidedNext(a, r);
    if a.phase.Marking? {
      MarkedOwes(Marks(a.cmd), a.phase.done, id);
    } else {
      IdledOwes(IdleMarks(a.cmd), a.phase.done, id);
    }
  }

  lemma DecidedNext(a: Agent, r: Option<Resource>)
    requires Updating(a) && a.phase.stage.Looking?
    ensures var q := Decided(a, r);
            || q == Onward(a.phase)
            || q == a.phase.(stage := Storing)
            || q == a.phase.(stage := Signalling)
  {
    hide Targets, FenceOf;
  }

  lemma MarkedOwes(marks: seq<nat>, k: nat, id: nat)
    requires k < |marks| && id in marks[..k]
    ensures id in marks[..k + 1]
  {
    assert marks[..k + 1] == marks[..k] + [marks[k]];
  }

  lemma IdledOwes(marks: seq<nat>, k: nat, id: nat)
    requires k < |marks| && id in marks[k..]
    ensures id == marks[k] || id in marks[k + 1..]
  {
    assert marks[k..] == [marks[k]] + marks[k + 1..];
  }

  // And it passes over it only if the request's mark there does not count.
  lemma DecidedHolds(a: Agent, r: Option<Resource>, c: nat, id: nat, fence: nat)
    requires Updating(a) && a.phase.stage.Looking? && Holds(a, c, id, fence)
    requires ContextOf(a.cmd) == c && Target(a) == id ==> r.Some? && r.value.state.fence == fence
    ensures Holds(a.(phase := Decided(a, r)), c, id, fence)
  {
    hide Owed, Targets, ContextOf, FenceOf;
    DecidedOwes(a, r, id);
  }

  lemma LookerHolds(s: Driver, i: nat, c: nat, id: nat)
    requires DoLook(s, i) != s && Lookup(s.contexts, c, id).Some?
    requires Holds(s.agents[i], c, id, Lookup(s.contexts, c, id).value.state.fence)
    ensures |DoLook(s, i).agents| == |s.agents| && Holds(DoLook(s, i).agents[i], c, id, Lookup(s.contexts, c, id).value.state.fence)
  {
    hide Lookup, Holds, Decided, Targets;
    var a := s.agents[i];
    DecidedHolds(a, Lookup(s.contexts, ContextOf(a.cmd), Target(a)), c, id, Lookup(s.contexts, c, id).value.state.fence);
  }

  // A change of another resource's event takes nothing away from this one.
  lemma OnwardHolds(a: Agent, c: nat, id: nat, fence: nat)
    requires Updating(a) && a.phase.stage.Signalling? && Holds(a, c, id, fence) && !InUpdate(a, c, id)
    ensures Holds(a.(phase := Onward(a.phase)), c, id, fence)
  {
    hide Marks, FenceOf, ContextOf;
    if a.phase.Completing? {
      assert IdleMarks(a.cmd)[a.phase.done..] == [Target(a)] + IdleMarks(a.cmd)[a.phase.done + 1..];
    }
  }

  lemma SignallerHolds(s: Driver, i: nat, c: nat, id: nat, fence: nat)
    requires DoSignal(s, i) != s && WriteBy(s, SignalEvent(i), c, id).None? && Holds(s.agents[i], c, id, fence)
    ensures |DoSignal(s, i).agents| == |s.agents| && Holds(DoSignal(s, i).agents[i], c, id, fence)
  {
    hide WriteOne, Holds, Targets;
    OnwardHolds(s.agents[i], c, id, fence);
  }

  lemma StorerHolds(s: Driver, op: Op, c: nat, id: nat, fence: nat)
    requires op.MapIoSpace? || op.StoreFence?
    requires Next(s, op) != s && WriteBy(s, op, c, id).None? && Holds(s.agents[op.agent], c, id, fence)
    ensures var s' := Next(s, op);
            (|s'.agents| == |s.agents| && Holds(s'.agents[op.agent], c, id, fence)) || (c, id) in s'.failedMaps
  {
    hide WriteOne, Lookup, Store;
  }

  // The step of a request that changes no register leaves it a holder, or records a failed mapping.
  lemma MoverHolds(s: Driver, op: Op, c: nat, id: nat)
    requires op.Look? || op.SignalEvent? || op.MapIoSpace? || op.StoreFence?
    requires Next(s, op) != s && Lookup(s.contexts, c, id).Some? && WriteBy(s, op, c, id).None?
    requires op.agent < |s.agents| && Holds(s.agents[op.agent], c, id, Lookup(s.contexts, c, id).value.state.fence)
    ensures var s' := Next(s, op);
            || (|s'.agents| == |s.agents| && Holds(s'.agents[op.agent], c, id, Lookup(s.contexts, c, id).value.state.fence))
            || (c, id) in s'.failedMaps
  {
    hide Lookup, Holds, WriteBy, DoLook, DoSignal, DoStoreFence, DoMapIoSpace;
    if op.Look? {
      LookerHolds(s, op.agent, c, id);
    } else if op.SignalEvent? {
      SignallerHolds(s, op.agent, c, id, Lookup(s.contexts, c, id).value.state.fence);
    } else {
      StorerHolds(s, op, c, id, Lookup(s.contexts, c, id).value.state.fence);
    }
  }

  lemma ShifterHolds(s: Driver, op: Op, c: nat, id: nat, fence: nat)
    requires op.Push? || op.Abandon? || op.Dequeue?
    requires Next(s, op) != s && Holds(s.agents[op.agent], c, id, fence)
    ensures |Next(s, op).agents| == |s.agents| && Holds(Next(s, op).agents[op.agent], c, id, fence)
  {
  }

  // A request that leaves owes nothing.
  lemma LeaverOwesNothing(s: Driver, op: Op)
    requires (op.Finish? || op.Collect?) && Next(s, op) != s
    ensures op.agent < |s.agents| && Next(s, op).agents == Without(s.agents, op.agent) && Owed(s.agents[op.agent]) == []
  {
    hide Free;
  }

  // Whoever holds the resource before a step that does not write its register holds it after.
  lemma HolderStays(s: Driver, op: Op, c: nat, id: nat, k: nat)
    requires Lookup(s.contexts, c, id).Some? && WriteBy(s, op, c, id).None?
    requires k < |s.agents| && Holds(s.agents[k], c, id, Lookup(s.contexts, c, id).value.state.fence)
    ensures var s' := Next(s, op);
            HasHolder(s'.agents, c, id, Lookup(s.contexts, c, id).value.state.fence) || (c, id) in s'.failedMaps
  {
    hide Next, Lookup, Holds, WriteBy, Owed;
    var s' := Next(s, op);
    var fence := Lookup(s.contexts, c, id).value.state.fence;
    if s' == s {
    } else if Appending(op) {
      StepAppends(s, op);
      assert s'.agents[..|s.agents|][k] == s'.agents[k];
    } else if op.Finish? || op.Collect? {
      LeaverOwesNothing(s, op);
      OwesNothing(s.agents[op.agent], c, id, fence);
      assert s'.agents[if k < op.agent then k else k - 1] == s.agents[k];
    } else {
      OthersStay(s, op, k);
      if k == op.agent {
        if op.Push? || op.Abandon? || op.Dequeue? {
          ShifterHolds(s, op, c, id, fence);
        } else {
          MoverHolds(s, op, c, id);
        }
      }
    }
  }

  lemma OwesNothing(a: Agent, c: nat, id: nat, fence: nat)
    requires Owed(a) == []
    ensures !Holds(a, c, id, fence)
  {
  }

  lemma FailuresGrow(s: Driver, op: Op)
    ensures s.failedMaps <= Next(s, op).failedMaps
  {
    if Appending(op) {
      AppendingFailures(s, op);
    } else {
      hide Free, Lookup, Store, WriteOne;
    }
  }

  lemma AppendingFailures(s: Driver, op: Op)
    requires Appending(op)
    ensures Next(s, op).failedMaps == s.failedMaps
  {
    if op.DestroyContext? {
      hide Drain, FindContext;
      if FindContext(s.contexts, op.ctx).Some? {
        var i := FindContext(s.contexts, op.ctx).value;
        DrainFailures(s.(contexts := Without(s.contexts, i)), op.ctx, s.contexts[i].resources);
      }
    } else if op.CloseResource? {
      CloseShape(s, op.ctx, op.res);
    } else {
      hide Allocate, Insert, FindContext, BufferBytes, Lookup, Store;
    }
  }

  lemma {:induction false} DrainFailures(s: Driver, c: nat, rs: seq<Resource>)
    ensures Drain(s, c, rs).failedMaps == s.failedMaps
    decreases |rs|
  {
    hide Free;
    if rs != [] {
      DrainFailures(DeleteResource(s, c, rs[|rs| - 1]), c, rs[..|rs| - 1]);
    }
  }

  // A new blob brings its MAP_BLOB along.
  lemma BlobIsHeld(s: Driver, op: Op, id: nat)
    requires op.CreateBlobResource? && IdsFit(Next(s, op)) && FindContext(s.contexts, op.ctx).Some?
             && id == s.resourceIds.next
    ensures HasHolder(Next(s, op).agents, op.ctx, id, 0)
  {
    hide Insert, FindContext;
    var agents := Next(s, op).agents;
    assert agents[|agents| - 1].cmd == MapBlob(op.ctx, id);
    assert Holds(agents[|agents| - 1], op.ctx, id, 0);
  }

  lemma CreatedSomewhere(s: Driver, op: Op, c: nat, id: nat)
    requires op.CreateBlobResource? && Lookup(s.contexts, c, id) != Lookup(Next(s, op).contexts, c, id)
    ensures FindContext(s.contexts, op.ctx).Some?
  {
    hide Lookup, Insert;
  }

  // ----- late busy marks -----

  // The step clears the event of the resource for a request whose fence is not the highest any
  // more: another thread has stored a larger one since the test. The idle mark of the request
  // itself will be outdated.
  ghost predicate LateClear(s: Driver, op: Op, c: nat, id: nat) {
    var u := SignalBy(s, op, c, id);
    && u.Some? && u.value.busy && Lookup(s.contexts, c, id).Some?
    && Outdated(Lookup(s.contexts, c, id).value.state, u.value)
  }

  // A late clear finds another request that holds the resource.
  ghost predicate ClearIsBacked(s: Driver, op: Op, c: nat, id: nat) {
    LateClear(s, op, c, id) ==>
      HasHolder(s.agents, c, id, Lookup(s.contexts, c, id).value.state.fence) || (c, id) in s.failedMaps
  }

  // The request that writes a register, after its step.
  lemma WriterHolds(s: Driver, op: Op, c: nat, id: nat)
    requires WriteBy(s, op, c, id).Some? && Lookup(s.contexts, c, id).Some?
    ensures var (s', fence) := (Next(s, op), Lookup(s.contexts, c, id).value.state.fence);
            && |s'.agents| == |s.agents| && s'.failedMaps == s.failedMaps
            && (forall k :: 0 <= k < |s.agents| && k != op.agent ==> s'.agents[k] == s.agents[k])
            && op.agent < |s.agents|
            && (WriteBy(s, op, c, id) == Some(Record(FenceOf(s.agents[op.agent].cmd))) ==>
                  Holds(s'.agents[op.agent], c, id, FenceOf(s.agents[op.agent].cmd)))
            && (WriteBy(s, op, c, id) == Some(Signal(true)) ==>
                  && (Holds(s'.agents[op.agent], c, id, fence) <==> !LateClear(s, op, c, id))
                  && (LateClear(s, op, c, id) ==> !Holds(s.agents[op.agent], c, id, fence)))
  {
    hide Lookup, WriteOne;
    var a := s.agents[op.agent];
    if a.phase.Completing? {
      assert IdleMarks(a.cmd)[a.phase.done..][0] == Target(a);
    } else {
      assert Marks(a.cmd)[..a.phase.done + 1][a.phase.done] == Target(a);
    }
  }

  // A busy resource stays held unless a late clear has nothing behind it.
  lemma StepHeld(s: Driver, op: Op, c: nat, id: nat)
    requires Base(s) && IdsFit(Next(s, op)) && BusyIsHeld(s, c, id)
    requires Lookup(Next(s, op).contexts, c, id).Some?
    ensures BusyIsHeld(Next(s, op), c, id) <==> ClearIsBacked(s, op, c, id)
  {
    hide Next, Lookup, WriteBy, Holds, LateClear;
    var s' := Next(s, op);
    ResourceStep(s, op, c, id);
    FailuresGrow(s, op);
    if Lookup(s.contexts, c, id).None? {
      assert !LateClear(s, op, c, id) by {
        NoLateClear(s, op, c, id);
      }
      if op.CreateBlobResource? {
        CreatedSomewhere(s, op, c, id);
        BlobIsHeld(s, op, id);
      }
    } else {
      StepRegister(s, op, c, id);
      var fence := Lookup(s.contexts, c, id).value.state.fence;
      if WriteBy(s, op, c, id).None? {
        NoLateClear(s, op, c, id);
        if HasHolder(s.agents, c, id, fence) {
          var k :| 0 <= k < |s.agents| && Holds(s.agents[k], c, id, fence);
          HolderStays(s, op, c, id, k);
        }
      } else {
        WriteStepHeld(s, op, c, id);
      }
    }
  }

  lemma NoLateClear(s: Driver, op: Op, c: nat, id: nat)
    requires Lookup(s.contexts, c, id).None? || WriteBy(s, op, c, id) != Some(Signal(true))
    ensures !LateClear(s, op, c, id)
  {
    hide Lookup;
  }

  lemma WriteStepHeld(s: Driver, op: Op, c: nat, id: nat)
    requires BusyIsHeld(s, c, id) && WriteBy(s, op, c, id).Some?
    requires Lookup(s.contexts, c, id).Some? && Lookup(Next(s, op).contexts, c, id).Some?
    requires Lookup(Next(s, op).contexts, c, id).value.state
             == Written(Lookup(s.contexts, c, id).value.state, WriteBy(s, op, c, id).value)
    ensures BusyIsHeld(Next(s, op), c, id) <==> ClearIsBacked(s, op, c, id)
  {
    hide Next, Lookup, Holds, LateClear;
    var s' := Next(s, op);
    var fence := Lookup(s.contexts, c, id).value.state.fence;
    WriterHolds(s, op, c, id);
    if WriteBy(s, op, c, id) != Some(Signal(true)) {
      NoLateClear(s, op, c, id);
    } else if LateClear(s, op, c, id) {
      assert forall k :: 0 <= k < |s.agents| ==> (Holds(s'.agents[k], c, id, fence) <==> Holds(s.agents[k], c, id, fence));
    }
  }

  // ----- over runs -----

  // Every late clear of the resource finds another request that holds it.
  ghost predicate ClearsBacked(s: Driver, ops: seq<Op>, c: nat, id: nat)
    decreases |ops|
  {
    ops != [] ==> ClearIsBacked(s, ops[0], c, id) && ClearsBacked(Next(s, ops[0]), ops[1..], c, id)
  }

  // In every state of the run the resource is held while it is busy.
  ghost predicate AlwaysHeld(s: Driver, ops: seq<Op>, c: nat, id: nat)
    decreases |ops|
  {
    BusyIsHeld(s, c, id) && (ops != [] ==> AlwaysHeld(Next(s, ops[0]), ops[1..], c, id))
  }

  lemma {:induction false} HeldFrom(s: Driver, ops: seq<Op>, c: nat, id: nat)
    requires Base(s) && IdsFit(Run(s, ops)) && BusyIsHeld(s, c, id)
    ensures AlwaysHeld(s, ops, c, id) <==> ClearsBacked(s, ops, c, id)
    ensures AlwaysHeld(s, ops, c, id) ==> BusyIsHeld(Run(s, ops), c, id)
    decreases |ops|
  {
    hide Next, Lookup, BusyIsHeld, ClearIsBacked;
    if ops != [] {
      var t := Next(s, ops[0]);
      RunCountersGrow(t, ops[1..]);
      StepBase(s, ops[0]);
      HeldStep(s, ops[0], c, id);
      if BusyIsHeld(t, c, id) {
        HeldFrom(t, ops[1..], c, id);
      } else {
        assert !AlwaysHeld(t, ops[1..], c, id);
      }
    }
  }

  lemma HeldStep(s: Driver, op: Op, c: nat, id: nat)
    requires Base(s) && IdsFit(Next(s, op)) && BusyIsHeld(s, c, id)
    ensures BusyIsHeld(Next(s, op), c, id) <==> ClearIsBacked(s, op, c, id)
  {
    hide Next, Lookup, LateClear;
    if Lookup(Next(s, op).contexts, c, id).Some? {
      StepHeld(s, op, c, id);
    } else {
      if Lookup(s.contexts, c, id).Some? {
        ResourceStep(s, op, c, id);
      }
      NoLateClear(s, op, c, id);
    }
  }

  // For every run of fewer than 2^32 resource ids and every resource: the resource is held in
  // every state in which it is busy if and only if every late clear of it finds another request
  // that holds it, or its mapping has failed.
  lemma HeldIffClearsBacked(pages: nat, ops: seq<Op>, c: nat, id: nat)
    requires IdsFit(Run(Initial(pages), ops))
    ensures AlwaysHeld(Initial(pages), ops, c, id) <==> ClearsBacked(Initial(pages), ops, c, id)
  {
    InitialBase(pages);
    HeldFrom(Initial(pages), ops, c, id);
  }

  // A live request that will mark the resource idle with a fence that counts.
  ghost predicate HasWaker(agents: seq<Agent>, c: nat, id: nat, fence: nat) {
    exists i :: 0 <= i < |agents| && Holds(agents[i], c, id, fence) && !agents[i].phase.Abandoned?
  }

  // A request that marked the resource busy with a fence that is not outdated and was given up.
  ghost predicate HeldByAbandoned(agents: seq<Agent>, c: nat, id: nat, fence: nat) {
    exists i :: 0 <= i < |agents| && Holds(agents[i], c, id, fence) && agents[i].phase.Abandoned?
  }

  // So, in such a run: a busy resource is waiting for a live request that has marked it and will
  // mark it idle, or for one that was given up after marking it, or its mapping failed.
  lemma NoWakeupIsLost(pages: nat, ops: seq<Op>, c: nat, id: nat)
    requires IdsFit(Run(Initial(pages), ops)) && ClearsBacked(Initial(pages), ops, c, id)
    requires var s := Run(Initial(pages), ops);
             Lookup(s.contexts, c, id).Some? && !Lookup(s.contexts, c, id).value.state.idle
    ensures var s := Run(Initial(pages), ops);
            var fence := Lookup(s.contexts, c, id).value.state.fence;
            HasWaker(s.agents, c, id, fence) || HeldByAbandoned(s.agents, c, id, fence) || (c, id) in s.failedMaps
  {
    hide Run, Next, Holds, ClearsBacked;
    InitialBase(pages);
    HeldFrom(Initial(pages), ops, c, id);
    var s := Run(Initial(pages), ops);
    assert BusyIsHeld(s, c, id);
    var fence := Lookup(s.contexts, c, id).value.state.fence;
    if HasHolder(s.agents, c, id, fence) {
      var i :| 0 <= i < |s.agents| && Holds(s.agents[i], c, id, fence);
      assert HasWaker(s.agents, c, id, fence) || HeldByAbandoned(s.agents, c, id, fence);
    }
  }

  // No request has marked the resource busy, or decided to, without having marked it idle since.
  ghost predicate NoneOwes(agents: seq<Agent>, c: nat, id: nat) {
    forall i :: 0 <= i < |agents| && ContextOf(agents[i].cmd) == c ==> id !in Owed(agents[i])
  }

  // And: once every request that marked the resource has completed, it is idle, unless its blob
  // mapping failed. A request given up before it marked the resource does not matter.
  lemma IdleOnceComplete(pages: nat, ops: seq<Op>, c: nat, id: nat)
    requires IdsFit(Run(Initial(pages), ops)) && ClearsBacked(Initial(pages), ops, c, id)
    requires var s := Run(Initial(pages), ops);
             && NoneOwes(s.agents, c, id) && (c, id) !in s.failedMaps
             && Lookup(s.contexts, c, id).Some?
    ensures Lookup(Run(Initial(pages), ops).contexts, c, id).value.state.idle
  {
    if !Lookup(Run(Initial(pages), ops).contexts, c, id).value.state.idle {
      NoWakeupIsLost(pages, ops, c, id);
    }
  }
}
