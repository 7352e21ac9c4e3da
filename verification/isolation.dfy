// Late completions: a request that completes after its resource was closed or its context
// destroyed does not touch anything created since, even under a reused process id, because
// resource ids are never issued again.
module Isolation {
  import opened Wrappers
  import opened Arena
  import opened Paging
  import opened FenceRegister
  import opened DriverState
  import opened ResourceTable
  import opened BaseInvariant
  import opened Requests
  import opened AtomicSteps
  import Idr

  // A resource that is live after a step was live before it, or has an id issued by the step.
  ghost predicate NoReissue(s: Driver, s': Driver) {
    forall c: nat, id: nat :: Lookup(s'.contexts, c, id).Some? && id < s.resourceIds.next ==>
      Lookup(s.contexts, c, id).Some?
  }

  lemma StepNoReissue(s: Driver, op: Op)
    requires Base(s) && IdsFit(Next(s, op))
    ensures NoReissue(s, Next(s, op))
  {
    hide Next, Lookup;
    forall c: nat, id: nat | Lookup(Next(s, op).contexts, c, id).Some?
      ensures Lookup(s.contexts, c, id).Some? || id == s.resourceIds.next
    {
      ResourceStep(s, op, c, id);
    }
  }

  // Over a whole run no id is issued again.
  lemma {:induction false} RunNoReissue(s: Driver, ops: seq<Op>)
    requires Base(s) && IdsFit(Run(s, ops))
    ensures NoReissue(s, Run(s, ops))
    decreases |ops|
  {
    if ops != [] {
      var t := Next(s, ops[0]);
      RunCountersGrow(t, ops[1..]);
      CountersGrow(s, ops[0]);
      StepNoReissue(s, ops[0]);
      StepBase(s, ops[0]);
      RunNoReissue(t, ops[1..]);
      forall c: nat, id: nat | Lookup(Run(t, ops[1..]).contexts, c, id).Some? && id < s.resourceIds.next
        ensures Lookup(s.contexts, c, id).Some?
      {
        assert Lookup(t.contexts, c, id).Some?;
      }
    }
  }

  // All handles of the request had been issued in state s.
  ghost predicate NamesOnlyIssued(s: Driver, cmd: Command) {
    && (forall h :: h in Marks(cmd) ==> h < s.resourceIds.next)
    && (cmd.MapBlob? ==> cmd.res < s.resourceIds.next)
  }

  // The steps of a completion.
  predicate Completes(op: Op) {
    op.Look? || op.StoreFence? || op.SignalEvent? || op.MapIoSpace? || op.Finish?
  }

  // Let a request name only ids issued by state s, run on to s', and let a resource be live in
  // s' that was not live in s. Whatever a step of the completion of the request does in s', that
  // resource is not touched.
  lemma LateCompletionIsolated(s: Driver, ops: seq<Op>, op: Op, c: nat, id: nat)
    requires Base(s) && IdsFit(Run(s, ops)) && Completes(op)
    requires op.agent < |Run(s, ops).agents| && NamesOnlyIssued(s, Run(s, ops).agents[op.agent].cmd)
    requires Lookup(s.contexts, c, id).None? && Lookup(Run(s, ops).contexts, c, id).Some?
    ensures id >= s.resourceIds.next
    ensures Lookup(Next(Run(s, ops), op).contexts, c, id) == Lookup(Run(s, ops).contexts, c, id)
  {
    hide Next, Lookup;
    RunNoReissue(s, ops);
    WritesElsewhere(Run(s, ops), op, c, id);
  }

  // The same for a completion in one go.
  lemma LateAtOnceIsolated(s: Driver, ops: seq<Op>, i: nat, address: nat, c: nat, id: nat)
    requires Base(s) && IdsFit(Run(s, ops))
    requires i < |Run(s, ops).agents| && NamesOnlyIssued(s, Run(s, ops).agents[i].cmd)
    requires Lookup(s.contexts, c, id).None? && Lookup(Run(s, ops).contexts, c, id).Some?
    ensures Lookup(DoComplete(Run(s, ops), i, address).contexts, c, id) == Lookup(Run(s, ops).contexts, c, id)
  {
    hide Lookup, DoComplete;
    RunNoReissue(s, ops);
    assert id >= s.resourceIds.next;
    CompletesElsewhere(Run(s, ops), i, address, c, id);
  }

  predicate NamesOther(cmd: Command, id: nat) {
    id !in IdleMarks(cmd) && id !in Marks(cmd)
  }

  lemma WritesElsewhere(s: Driver, op: Op, c: nat, id: nat)
    requires Completes(op) && op.agent < |s.agents| && NamesOther(s.agents[op.agent].cmd, id)
    ensures Lookup(Next(s, op).contexts, c, id) == Lookup(s.contexts, c, id)
  {
    hide Lookup, WriteOne, Store, Free;
    var a := s.agents[op.agent];
    if op.MapIoSpace? {
      LookupMapIoSpace(s, op.agent, op.address, c, id);
    } else if Updating(a) {
      assert Target(a) in Targets(a);
      LookupWriteOne(s.contexts, ContextOf(a.cmd), Target(a), Record(FenceOf(a.cmd)), c, id);
      LookupWriteOne(s.contexts, ContextOf(a.cmd), Target(a), Signal(a.phase.Marking?), c, id);
    }
  }

  lemma CompletesElsewhere(s: Driver, i: nat, address: nat, c: nat, id: nat)
    requires i < |s.agents| && NamesOther(s.agents[i].cmd, id)
    ensures Lookup(DoComplete(s, i, address).contexts, c, id) == Lookup(s.contexts, c, id)
  {
    hide Lookup, UpdateMany, Store, Free;
    var cmd := s.agents[i].cmd;
    LookupUpdateMany(s.contexts, ContextOf(cmd), Marks(cmd), Update(false, FenceOf(cmd)), c, id);
    if cmd.MapBlob? {
      CallbackElsewhere(s, cmd.ctx, cmd.res, address, c, id);
    }
  }

  lemma CallbackElsewhere(s: Driver, c: nat, id: nat, address: nat, c': nat, id': nat)
    requires id' != id
    ensures Lookup(MapCallback(s, c, id, address).contexts, c', id') == Lookup(s.contexts, c', id')
  {
    hide Lookup, Store;
    var r := Lookup(s.contexts, c, id);
    if r.Some? {
      LookupFinds(s.contexts, c, id);
      LookupStore(s.contexts, c, id, ExposedIdle(r.value, address), c', id');
    }
  }
}
