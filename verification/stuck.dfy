// When a busy resource can never become idle again, so that a blocking CtlWait on it never
// returns: exactly when no live request is left whose idle mark would take effect.
module Stuck {
  import opened Wrappers
  import opened Arena
  import opened FenceRegister
  import opened DriverState
  import opened ResourceTable
  import opened BaseInvariant
  import opened Requests
  import opened AtomicSteps
  import opened RegisterHistory
  import opened Wakeup
  import opened WakeRuns
  import Idr

  // In a reachable state this happens only after a request was given up, a blob mapping failed, or
  // a busy mark arrived late with nothing behind it.

  ghost predicate NoneCanWake(s: Driver, c: nat, id: nat, fence: nat) {
    forall k :: 0 <= k < |s.agents| ==> !CanWake(s.agents[k], c, id, fence)
  }

  // A new submit or transfer that names the resource.
  predicate NamesAnew(op: Op, c: nat, id: nat) {
    || (op.BeginTransfer? && op.ctx == c && op.res == id)
    || (op.BeginSubmit? && op.ctx == c && id in op.handles)
  }

  ghost predicate Undisturbed(ops: seq<Op>, c: nat, id: nat) {
    forall op :: op in ops ==> !NamesAnew(op, c, id)
  }

  // Whatever happens, other than a new request naming it, the resource stays busy.
  ghost predicate Stuck(s: Driver, c: nat, id: nat) {
    forall ops :: Undisturbed(ops, c, id) && IdsFit(Run(s, ops)) && Lookup(Run(s, ops).contexts, c, id).Some? ==>
      !Lookup(Run(s, ops).contexts, c, id).value.state.idle
  }

  // ----- no one left to wake it -----

  ghost predicate Blocked(s: Driver, c: nat, id: nat) {
    var r := Lookup(s.contexts, c, id);
    r.Some? ==> !r.value.state.idle && NoneCanWake(s, c, id, r.value.state.fence)
  }

  // A request that cannot wake the resource stores no fence there and does not mark it idle.
  lemma BlockedWrite(s: Driver, op: Op, c: nat, id: nat)
    requires Lookup(s.contexts, c, id).Some? && Blocked(s, c, id) && WriteBy(s, op, c, id).Some?
    ensures WriteBy(s, op, c, id) == Some(Signal(true))
  {
    hide Lookup;
    var a := s.agents[op.agent];
    assert !CanWake(a, c, id, Lookup(s.contexts, c, id).value.state.fence);
    if Committed(a, c, id) {
      CommittedIdles(a, c, id);
    }
  }

  lemma CommittedIdles(a: Agent, c: nat, id: nat)
    requires Committed(a, c, id)
    ensures id in ToIdle(a)
  {
    if a.phase.Completing? {
      assert IdleMarks(a.cmd)[a.phase.done..][0] == id;
    }
  }

  // A request makes its own way through its phases, so it never comes to idle more.
  lemma IdlesNoMore(a: Agent, b: Agent, id: nat)
    requires b.cmd == a.cmd && PhaseSteps(a.cmd, a.phase, b.phase) && id in ToIdle(b)
    ensures id in ToIdle(a)
  {
    if a.phase.Completing? && b.phase != a.phase {
      var k := a.phase.done;
      assert IdleMarks(a.cmd)[k..] == [IdleMarks(a.cmd)[k]] + IdleMarks(a.cmd)[k + 1..];
    }
  }

  // It gets past the test of the resource only with a fence that counts.
  lemma CountsNoMore(s: Driver, op: Op, c: nat, id: nat, fence: nat)
    requires Moves(op) && op.agent < |s.agents| && |Next(s, op).agents| == |s.agents|
    requires Lookup(s.contexts, c, id).Some? && fence == Lookup(s.contexts, c, id).value.state.fence
    requires Counting(Next(s, op).agents[op.agent], c, id, fence)
    ensures Counting(s.agents[op.agent], c, id, fence)
  {
    hide Lookup, Store, WriteOne, Marks;
  }

  lemma StepBlocked(s: Driver, op: Op, c: nat, id: nat)
    requires Base(s) && IdsFit(Next(s, op)) && id < s.resourceIds.next
    requires Blocked(s, c, id) && !NamesAnew(op, c, id)
    ensures Blocked(Next(s, op), c, id)
  {
    hide Next, Lookup, FindContext, WriteBy;
    var s' := Next(s, op);
    if Lookup(s'.contexts, c, id).Some? {
      StepState(s, op, c, id);
      if WriteBy(s, op, c, id).Some? {
        BlockedWrite(s, op, c, id);
      }
      var fence := Lookup(s.contexts, c, id).value.state.fence;
      forall k | 0 <= k < |s'.agents|
        ensures !CanWake(s'.agents[k], c, id, fence)
      {
        if CanWake(s'.agents[k], c, id, fence) {
          CouldWake(s, op, c, id, fence, k);
        }
      }
    }
  }

  // Who can wake the resource after the step could wake it before.
  lemma CouldWake(s: Driver, op: Op, c: nat, id: nat, fence: nat, k: nat)
    requires Base(s) && IdsFit(Next(s, op)) && id < s.resourceIds.next && !NamesAnew(op, c, id)
    requires Lookup(s.contexts, c, id).Some? && fence == Lookup(s.contexts, c, id).value.state.fence
    requires k < |Next(s, op).agents| && CanWake(Next(s, op).agents[k], c, id, fence)
    ensures exists l :: 0 <= l < |s.agents| && CanWake(s.agents[l], c, id, fence)
  {
    hide Next, Lookup, FindContext, ToIdle, Counting;
    var b := Next(s, op).agents[k];
    var l := RequestOrigin(s, op, k);
    if l < |s.agents| {
      MovesAlone(s, op, k, l);
      SameRequest(s.agents[l], b);
      IdlesNoMore(s.agents[l], b, id);
      if b != s.agents[l] {
        OthersStay(s, op, l);
        CountsNoMore(s, op, c, id, fence);
      }
    } else {
      if op.CreateBlobResource? {
        BlobIdIsNew(s, op, k);
      }
      NewIdlesOthers(s, op, b, c, id);
    }
  }

  lemma SameRequest(a: Agent, b: Agent)
    ensures b == Agent(a.tag, a.cmd, a.phase) ==> b == a
  {
  }

  lemma BlobIdIsNew(s: Driver, op: Op, k: nat)
    requires IdsFit(Next(s, op)) && op.CreateBlobResource? && |s.agents| <= k < |Next(s, op).agents|
    ensures Idr.GetWithoutCache(s.resourceIds, 4).1 == s.resourceIds.next
  {
    hide Insert;
  }

  lemma NewIdlesOthers(s: Driver, op: Op, a: Agent, c: nat, id: nat)
    requires Pushed(s, op, a) || Begun(s, op, a)
    requires id < s.resourceIds.next && !NamesAnew(op, c, id)
    requires op.CreateBlobResource? ==> Idr.GetWithoutCache(s.resourceIds, 4).1 >= s.resourceIds.next
    ensures !(ContextOf(a.cmd) == c && id in ToIdle(a))
  {
    hide Lookup, FindContext;
  }

  lemma {:induction false} RunBlocked(s: Driver, ops: seq<Op>, c: nat, id: nat)
    requires Base(s) && IdsFit(Run(s, ops)) && id < s.resourceIds.next
    requires Blocked(s, c, id) && Undisturbed(ops, c, id)
    ensures Blocked(Run(s, ops), c, id)
    decreases |ops|
  {
    hide Next, Blocked;
    if ops != [] {
      RunCountersGrow(Next(s, ops[0]), ops[1..]);
      CountersGrow(s, ops[0]);
      StepBlocked(s, ops[0], c, id);
      StepBase(s, ops[0]);
      RunBlocked(Next(s, ops[0]), ops[1..], c, id);
    }
  }

  // ----- exactly when -----

  // In every state that a run can reach, and in every other that keeps the base invariant: a
  // resource is stuck if and only if it is busy and no live request will mark it idle with a
  // fence that is at least the recorded one, or has already passed its test of the fence.
  lemma StuckIffNoneCanWake(s: Driver, c: nat, id: nat)
    requires Base(s) && IdsFit(s) && Lookup(s.contexts, c, id).Some?
    ensures var r := Lookup(s.contexts, c, id).value.state;
            Stuck(s, c, id) <==> !r.idle && NoneCanWake(s, c, id, r.fence)
  {
    hide Lookup;
    var r := Lookup(s.contexts, c, id).value.state;
    LookupBelow(s.contexts, s.resourceIds.next, c, id);
    RunNone(s);
    if !r.idle && NoneCanWake(s, c, id, r.fence) {
      forall ops | Undisturbed(ops, c, id) && IdsFit(Run(s, ops)) && Lookup(Run(s, ops).contexts, c, id).Some?
        ensures !Lookup(Run(s, ops).contexts, c, id).value.state.idle
      {
        RunBlocked(s, ops, c, id);
      }
    } else if !r.idle {
      var i :| 0 <= i < |s.agents| && CanWake(s.agents[i], c, id, r.fence);
      var ops: seq<Op>;
      if s.agents[i].phase.Marking? {
        ops := WakeMarking(s, i, c, id);
      } else if s.agents[i].phase.Queued? {
        ops := WakeQueued(s, i, c, id);
      } else {
        ops := WakeCompleting(s, i, c, id);
      }
      assert Undisturbed(ops, c, id);
    } else {
      assert Undisturbed([], c, id);
    }
  }

  // What owes an idle mark and is live can wake.
  lemma WakerCanWake(s: Driver, c: nat, id: nat, fence: nat)
    requires HasWaker(s.agents, c, id, fence)
    ensures !NoneCanWake(s, c, id, fence)
  {
    var i :| 0 <= i < |s.agents| && Holds(s.agents[i], c, id, fence) && !s.agents[i].phase.Abandoned?;
    assert CanWake(s.agents[i], c, id, fence);
  }

  // In every run: a resource gets stuck only by a request that was given up after it had marked
  // the resource with a fence that is still not outdated, by a blob mapping that failed, or by
  // a late clear that no other request backs.
  lemma StuckOnlyByAbandoning(pages: nat, ops: seq<Op>, c: nat, id: nat)
    requires var s := Run(Initial(pages), ops);
             IdsFit(s) && Lookup(s.contexts, c, id).Some? && Stuck(s, c, id)
    ensures var s := Run(Initial(pages), ops);
            || HeldByAbandoned(s.agents, c, id, Lookup(s.contexts, c, id).value.state.fence)
            || (c, id) in s.failedMaps
            || !ClearsBacked(Initial(pages), ops, c, id)
  {
    hide Lookup;
    var s := Run(Initial(pages), ops);
    InitialBase(pages);
    RunBase(Initial(pages), ops);
    StuckIffNoneCanWake(s, c, id);
    if ClearsBacked(Initial(pages), ops, c, id) {
      NoWakeupIsLost(pages, ops, c, id);
      var fence := Lookup(s.contexts, c, id).value.state.fence;
      if HasWaker(s.agents, c, id, fence) {
        WakerCanWake(s, c, id, fence);
      }
    }
  }
}
