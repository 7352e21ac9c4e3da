// What every run keeps about ids and lists. Resource ids are unique across contexts, each list is
// ordered by age, and a MAP_BLOB can only reach its own blob, which has no address until the
// completion has stored one. Also the two forms of context teardown: draining the unlinked list
// from its tail, as the code does, and closing the resources one by one, oldest first, and then
// dropping the empty context. So what every close keeps is kept by the teardown.
module BaseInvariant {
  import opened Wrappers
  import opened Paging
  import opened Arena
  import opened FenceRegister
  import opened DriverState
  import opened ResourceTable
  import Idr

  // Fewer than 2^32 resource ids and 2^64 fence ids have been issued.
  ghost predicate IdsFit(s: Driver) {
    s.resourceIds.next <= Idr.Range(4) && s.fenceIds.next <= Idr.Range(8)
  }

  ghost predicate Base(s: Driver) {
    && s.resourceIds.next >= 1 && s.fenceIds.next >= 1
    && WellFormed(s.contexts, s.resourceIds.next)
    && MapsOk(s, s.agents)
  }

  // The MAP_BLOB has not stored the address of its blob yet.
  predicate MapPending(a: Agent) {
    a.cmd.MapBlob? && (a.phase.Queued? || (a.phase.Completing? && a.phase.done == 0 && !a.phase.stage.Signalling?))
  }

  // A MAP_BLOB names an issued id, and the resource, as long as it lives, is a blob: without
  // address until the completion stores one, and then with an address when the event is set.
  ghost predicate MapTargetOk(s: Driver, a: Agent) {
    a.cmd.MapBlob? ==>
      && a.cmd.res < s.resourceIds.next
      && (a.phase.Queued? || a.phase.Completing?)
      && var r := Lookup(s.contexts, a.cmd.ctx, a.cmd.res);
         r.Some? ==>
           && r.value.backing.Blob?
           && (MapPending(a) ==> r.value.backing.address.None?)
           && (a.phase == Completing(0, Signalling) ==> r.value.backing.address.Some?)
  }

  // No blob has two pending MAP_BLOBs.
  ghost predicate MapsOnce(agents: seq<Agent>) {
    forall j, k :: 0 <= j < k < |agents| && agents[j].cmd.MapBlob? && agents[k].cmd.MapBlob? ==>
      agents[j].cmd.res != agents[k].cmd.res
  }

  // The MAP_BLOBs among these requests are in order, as far as the resources of s go.
  ghost predicate MapsOk(s: Driver, agents: seq<Agent>) {
    MapsOnce(agents) && forall k :: 0 <= k < |agents| ==> MapTargetOk(s, agents[k])
  }

  lemma InitialBase(pages: nat)
    ensures Base(Initial(pages))
  {
  }

  // ----- teardown as a sequence of closes -----

  ghost function CloseEach(s: Driver, c: nat, rs: seq<Resource>): Driver
    decreases |rs|
  {
    if rs == [] then s
    else CloseEach(DoClose(s, c, rs[|rs| - 1].id), c, rs[..|rs| - 1])
  }

  ghost function DropContext(s: Driver, i: nat): Driver
    requires i < |s.contexts|
  {
    s.(contexts := Without(s.contexts, i))
  }

  lemma DeleteIgnoresContexts(s: Driver, cs: seq<Context>, c: nat, r: Resource)
    ensures DeleteResource(s.(contexts := cs), c, r) == DeleteResource(s, c, r).(contexts := cs)
  {
  }

  // Closing the oldest resource of a context shortens its list at the tail.
  lemma CloseOldest(s: Driver, next: nat, i: nat)
    requires WellFormed(s.contexts, next) && i < |s.contexts| && s.contexts[i].resources != []
    ensures var c, rs := s.contexts[i].id, s.contexts[i].resources;
            var shorter := s.contexts[i := Context(c, rs[..|rs| - 1])];
            && DoClose(s, c, rs[|rs| - 1].id) == DeleteResource(s, c, rs[|rs| - 1]).(contexts := shorter)
            && WellFormed(shorter, next)
  {
    hide DeleteResource, FindContext, FindResource;
    var c, rs := s.contexts[i].id, s.contexts[i].resources;
    var last := rs[|rs| - 1];
    LookupAt(s.contexts, next, i, |rs| - 1);
    var removed := Remove(s.contexts, c, last.id);
    assert Without(rs, |rs| - 1) == rs[..|rs| - 1];
    assert removed == s.contexts[i := Context(c, rs[..|rs| - 1])];
    DeleteIgnoresContexts(s, removed, c, last);
    WellFormedRemove(s.contexts, next, c, last.id);
  }

  // Taking the context off its list first and then draining it is closing its resources
  // oldest first and then dropping the empty context.
  lemma {:induction false} DrainIsCloseEach(s: Driver, next: nat, i: nat)
    requires WellFormed(s.contexts, next) && i < |s.contexts|
    ensures var c, rs := s.contexts[i].id, s.contexts[i].resources;
            var t := CloseEach(s, c, rs);
            && t.contexts == s.contexts[i := Context(c, [])]
            && Drain(s.(contexts := Without(s.contexts, i)), c, rs) == DropContext(t, i)
    decreases |s.contexts[i].resources|
  {
    hide DeleteResource, DoClose, WellFormed;
    var c, rs := s.contexts[i].id, s.contexts[i].resources;
    var rest := Without(s.contexts, i);
    if rs != [] {
      var last := rs[|rs| - 1];
      CloseOldest(s, next, i);
      var s' := DoClose(s, c, last.id);
      DeleteIgnoresContexts(s, rest, c, last);
      DrainIsCloseEach(s', next, i);
      assert Without(s'.contexts, i) == rest;
      assert s'.contexts[i := Context(c, [])] == s.contexts[i := Context(c, [])];
    } else {
      assert s.contexts[i := Context(c, [])] == s.contexts;
    }
  }

  lemma DestroyIsCloses(s: Driver, next: nat, c: nat)
    requires WellFormed(s.contexts, next) && FindContext(s.contexts, c).Some?
    ensures var i := FindContext(s.contexts, c).value;
            var t := CloseEach(s, c, s.contexts[i].resources);
            && t.contexts == s.contexts[i := Context(c, [])]
            && DoDestroyContext(s, c) == Emit(DropContext(t, i), CtxDestroy(c))
  {
    DrainIsCloseEach(s, next, FindContext(s.contexts, c).value);
  }

  // ----- the invariant -----

  lemma CloseShape(s: Driver, c: nat, id: nat)
    ensures var s' := DoClose(s, c, id);
            && |s'.agents| >= |s.agents| && s'.agents[..|s.agents|] == s.agents
            && (forall k :: |s.agents| <= k < |s'.agents| ==>
                  var a := s'.agents[k];
                  a.phase.Queued? && (a.cmd.DetachBacking? || a.cmd.UnmapBlob? || a.cmd.Unref?))
            && s'.resourceIds == s.resourceIds && s'.fenceIds == s.fenceIds && s'.failedMaps == s.failedMaps
            && (Lookup(s.contexts, c, id).None? ==> s' == s)
            && (Lookup(s.contexts, c, id).Some? ==>
                  var t := s.(contexts := Remove(s.contexts, c, id));
                  && s' == DeleteResource(t, c, Lookup(s.contexts, c, id).value)
                  && s'.contexts == t.contexts)
  {
    hide Free, Lookup, Remove;
  }

  lemma CloseBase(s: Driver, c: nat, id: nat)
    requires Base(s)
    ensures Base(DoClose(s, c, id))
    ensures DoClose(s, c, id).resourceIds == s.resourceIds && DoClose(s, c, id).fenceIds == s.fenceIds
  {
    hide DoClose, DeleteResource, Lookup, Remove;
    var s' := DoClose(s, c, id);
    CloseShape(s, c, id);
    if Lookup(s.contexts, c, id).Some? {
      WellFormedRemove(s.contexts, s.resourceIds.next, c, id);
      forall i | 0 <= i < |s'.agents|
        ensures if i < |s.agents| then s'.agents[i] == s.agents[i] else !s'.agents[i].cmd.MapBlob?
      {
        assert i < |s.agents| ==> s'.agents[..|s.agents|][i] == s'.agents[i];
      }
      forall i | 0 <= i < |s'.agents|
        ensures MapTargetOk(s', s'.agents[i])
      {
        if i < |s.agents| {
          var cmd := s.agents[i].cmd;
          assert MapTargetOk(s, s.agents[i]);
          if cmd.MapBlob? {
            LookupRemove(s.contexts, s.resourceIds.next, c, id, cmd.ctx, cmd.res);
          }
        }
      }
    }
  }

  lemma {:induction false} CloseEachBase(s: Driver, c: nat, rs: seq<Resource>)
    requires Base(s)
    ensures Base(CloseEach(s, c, rs))
    ensures CloseEach(s, c, rs).resourceIds == s.resourceIds && CloseEach(s, c, rs).fenceIds == s.fenceIds
    decreases |rs|
  {
    if rs != [] {
      CloseBase(s, c, rs[|rs| - 1].id);
      CloseEachBase(DoClose(s, c, rs[|rs| - 1].id), c, rs[..|rs| - 1]);
    }
  }

  lemma DropBase(s: Driver, i: nat)
    requires Base(s) && i < |s.contexts|
    ensures Base(DropContext(s, i))
  {
    WellFormedDropContext(s.contexts, s.resourceIds.next, i);
    forall k | 0 <= k < |s.agents|
      ensures MapTargetOk(DropContext(s, i), s.agents[k])
    {
      var cmd := s.agents[k].cmd;
      assert MapTargetOk(s, s.agents[k]);
      if cmd.MapBlob? {
        LookupDropContext(s.contexts, i, cmd.ctx, cmd.res);
      }
    }
  }

  lemma DestroyBase(s: Driver, c: nat)
    requires Base(s)
    ensures Base(DoDestroyContext(s, c))
  {
    var i := FindContext(s.contexts, c);
    if i.Some? {
      var rs := s.contexts[i.value].resources;
      DestroyIsCloses(s, s.resourceIds.next, c);
      CloseEachBase(s, c, rs);
      DropBase(CloseEach(s, c, rs), i.value);
    }
  }

  lemma InsertBase(s: Driver, c: nat, r: Resource, s': Driver)
    requires Base(s) && FindContext(s.contexts, c).Some? && r.id == s.resourceIds.next
    requires s'.contexts == Insert(s.contexts, c, r) && s'.resourceIds.next == s.resourceIds.next + 1
    requires s'.fenceIds == s.fenceIds && |s'.agents| >= |s.agents|
    requires forall k :: 0 <= k < |s.agents| ==> s'.agents[k] == s.agents[k]
    requires forall k :: |s.agents| <= k < |s'.agents| && s'.agents[k].cmd.MapBlob? ==>
               k == |s'.agents| - 1 && s'.agents[k] == Agent(s'.agents[k].tag, MapBlob(c, r.id), Queued)
                   && r.backing == Blob(None)
    ensures Base(s')
  {
    WellFormedInsert(s.contexts, s.resourceIds.next, c, r);
    forall k | 0 <= k < |s'.agents|
      ensures MapTargetOk(s', s'.agents[k])
    {
      var cmd := s'.agents[k].cmd;
      assert k < |s.agents| ==> MapTargetOk(s, s.agents[k]);
      if cmd.MapBlob? {
        LookupInsert(s.contexts, c, r, cmd.ctx, cmd.res);
      }
    }
  }

  // Storing into one resource something that keeps what is behind it.
  lemma StoreBase(s: Driver, c: nat, id: nat, r: Resource, s': Driver)
    requires Base(s) && Lookup(s.contexts, c, id).Some? && r.id == id
    requires s'.contexts == Store(s.contexts, c, id, r) && r.backing == Lookup(s.contexts, c, id).value.backing
    requires s'.resourceIds == s.resourceIds && s'.fenceIds == s.fenceIds
    requires MapsOk(s, s'.agents)
    ensures Base(s')
  {
    WellFormedStore(s.contexts, s.resourceIds.next, c, id, r);
    forall k | 0 <= k < |s'.agents|
      ensures MapTargetOk(s', s'.agents[k])
    {
      var cmd := s'.agents[k].cmd;
      assert MapTargetOk(s, s'.agents[k]);
      if cmd.MapBlob? {
        LookupStore(s.contexts, c, id, r, cmd.ctx, cmd.res);
      }
    }
  }

  // A request moves on, and may store into a resource.
  lemma WriteBase(s: Driver, i: nat, phase: Phase, c: nat, id: nat, w: Write)
    requires Base(s) && i < |s.agents| && MapTargetOk(s, s.agents[i].(phase := phase))
    ensures Base(SetPhase(s, i, phase).(contexts := WriteOne(s.contexts, c, id, w)))
  {
    var s' := SetPhase(s, i, phase).(contexts := WriteOne(s.contexts, c, id, w));
    var r := Lookup(s.contexts, c, id);
    assert MapsOk(s, s'.agents);
    if r.Some? {
      LookupFinds(s.contexts, c, id);
      StoreBase(s, c, id, r.value.(state := Written(r.value.state, w)), s');
    }
  }

  lemma CreateBase(s: Driver, op: Op)
    requires Base(s) && IdsFit(Next(s, op))
    requires op.CreateResource? || op.CreateBlobResource?
    ensures Base(Next(s, op))
  {
    hide Allocate, Idr.LowBytes, BufferBytes;
    var s' := Next(s, op);
    if FindContext(s.contexts, op.ctx).Some? && (op.CreateBlobResource? || op.size < WORD) {
      assert Idr.GetWithoutCache(s.resourceIds, 4).1 == s.resourceIds.next;
      if op.CreateBlobResource? || op.size == 1 || Allocate(s.arena, BufferBytes(op.size)).1.Some? {
        var i := FindContext(s.contexts, op.ctx).value;
        InsertBase(s, op.ctx, s'.contexts[i].resources[0], s');
      } else {
        assert s'.contexts == s.contexts;
      }
    }
  }

  // Removing a request removes at most a MAP_BLOB.
  lemma WithoutMaps(s: Driver, i: nat)
    requires MapsOk(s, s.agents) && i < |s.agents|
    ensures MapsOk(s, Without(s.agents, i))
  {
    var agents := Without(s.agents, i);
    assert forall k :: 0 <= k < |agents| ==> agents[k] == s.agents[if k < i then k else k + 1];
  }

  lemma StoreFenceBase(s: Driver, i: nat)
    requires Base(s)
    ensures Base(DoStoreFence(s, i))
  {
    if DoStoreFence(s, i) != s {
      var a := s.agents[i];
      WriteBase(s, i, a.phase.(stage := Signalling), ContextOf(a.cmd), Target(a), Record(FenceOf(a.cmd)));
    }
  }

  lemma SignalBase(s: Driver, i: nat)
    requires Base(s)
    ensures Base(DoSignal(s, i))
  {
    if DoSignal(s, i) != s {
      var a := s.agents[i];
      assert MapTargetOk(s, a);
      WriteBase(s, i, Onward(a.phase), ContextOf(a.cmd), Target(a), Signal(a.phase.Marking?));
    }
  }

  lemma MapIoSpaceBase(s: Driver, i: nat, address: nat)
    requires Base(s)
    ensures Base(DoMapIoSpace(s, i, address))
  {
    hide Lookup, Store;
    var s' := DoMapIoSpace(s, i, address);
    if s' != s {
      var cmd := s.agents[i].cmd;
      assert MapTargetOk(s, s.agents[i]);
      if address != 0 && Lookup(s.contexts, cmd.ctx, cmd.res).Some? {
        LookupFinds(s.contexts, cmd.ctx, cmd.res);
        var blob := Exposed(Lookup(s.contexts, cmd.ctx, cmd.res).value, address);
        WellFormedStore(s.contexts, s.resourceIds.next, cmd.ctx, cmd.res, blob);
      }
      forall k | 0 <= k < |s'.agents|
        ensures MapTargetOk(s', s'.agents[k])
      {
        assert MapTargetOk(s, s.agents[k]);
        if s.agents[k].cmd.MapBlob? {
          LookupMapIoSpace(s, i, address, s.agents[k].cmd.ctx, s.agents[k].cmd.res);
        }
      }
    }
  }

  // The steps that touch neither list.
  predicate Quiet(op: Op) {
    op.QueryCapset? || op.BeginMap? || op.BeginTransfer? || op.BeginSubmit? || op.Look? || op.Push?
    || op.Abandon? || op.Dequeue? || op.Finish? || op.Collect?
  }

  lemma QuietStep(s: Driver, op: Op)
    requires Quiet(op)
    ensures var s' := Next(s, op);
            && s'.contexts == s.contexts && s'.resourceIds == s.resourceIds
            && s'.fenceIds.next >= s.fenceIds.next
            && (MapsOk(s, s.agents) ==> MapsOk(s, s'.agents))
  {
    hide Next, MapsOk;
    if op.Finish? || op.Collect? {
      LeaveStep(s, op);
    } else if op.Look? {
      LookStep(s, op.agent);
    } else if op.Push? || op.Abandon? || op.Dequeue? {
      ShiftStep(s, op);
    } else {
      BeginStep(s, op);
    }
  }

  lemma LeaveStep(s: Driver, op: Op)
    requires op.Finish? || op.Collect?
    ensures var s' := Next(s, op);
            && s'.contexts == s.contexts && s'.resourceIds == s.resourceIds && s'.fenceIds == s.fenceIds
            && (MapsOk(s, s.agents) ==> MapsOk(s, s'.agents))
  {
    hide Free, MapsOk;
    if Next(s, op) != s && MapsOk(s, s.agents) {
      WithoutMaps(s, op.agent);
    }
  }

  lemma ShiftStep(s: Driver, op: Op)
    requires op.Push? || op.Abandon? || op.Dequeue?
    ensures var s' := Next(s, op);
            && s'.contexts == s.contexts && s'.resourceIds == s.resourceIds && s'.fenceIds == s.fenceIds
            && (MapsOk(s, s.agents) ==> MapsOk(s, s'.agents))
  {
    hide Lookup;
    assert forall k :: 0 <= k < |s.agents| ==> Next(s, op).agents[k].cmd == s.agents[k].cmd;
  }

  lemma BeginStep(s: Driver, op: Op)
    requires op.QueryCapset? || op.BeginMap? || op.BeginTransfer? || op.BeginSubmit?
    ensures var s' := Next(s, op);
            && s'.contexts == s.contexts && s'.resourceIds == s.resourceIds
            && s'.fenceIds.next >= s.fenceIds.next
            && (MapsOk(s, s.agents) ==> MapsOk(s, s'.agents))
  {
    hide Allocate, Lookup, FindContext, RoundUp;
    var s' := Next(s, op);
    assert forall k :: 0 <= k < |s.agents| ==> s'.agents[k].cmd == s.agents[k].cmd;
    assert forall k :: |s.agents| <= k < |s'.agents| ==> !s'.agents[k].cmd.MapBlob?;
  }

  lemma LookStep(s: Driver, i: nat)
    ensures var s' := Next(s, Look(i));
            s'.contexts == s.contexts && s'.resourceIds == s.resourceIds && s'.fenceIds == s.fenceIds
    ensures MapsOk(s, s.agents) ==> MapsOk(s, Next(s, Look(i)).agents)
  {
    hide Lookup;
    var s' := DoLook(s, i);
    if s' != s && MapsOk(s, s.agents) {
      assert MapTargetOk(s, s.agents[i]);
      assert forall k :: 0 <= k < |s.agents| ==> s'.agents[k].cmd == s.agents[k].cmd;
    }
  }

  lemma InitContextBase(s: Driver, c: nat)
    requires Base(s)
    ensures Base(DoInitContext(s, c))
  {
    var s' := DoInitContext(s, c);
    if FindContext(s.contexts, c).None? {
      WellFormedNewContext(s.contexts, s.resourceIds.next, c);
      forall k | 0 <= k < |s'.agents|
        ensures MapTargetOk(s', s'.agents[k])
      {
        var cmd := s'.agents[k].cmd;
        assert k < |s.agents| ==> MapTargetOk(s, s.agents[k]);
        if cmd.MapBlob? {
          LookupNewContext(s.contexts, c, cmd.ctx, cmd.res);
        }
      }
    }
  }

  lemma EndMapBase(s: Driver, k: nat, outcome: MapOutcome)
    requires Base(s)
    ensures Base(DoEndMap(s, k, outcome))
  {
    var s' := DoEndMap(s, k, outcome);
    if s'.contexts != s.contexts {
      var (c, id) := (s.mappers[k].ctx, s.mappers[k].res);
      LookupFinds(s.contexts, c, id);
      StoreBase(s, c, id, Shared(Lookup(s.contexts, c, id).value, outcome, s.nextMdl), s');
    }
  }

  lemma QuietBase(s: Driver, op: Op)
    requires Base(s) && Quiet(op)
    ensures Base(Next(s, op))
  {
    QuietStep(s, op);
  }

  lemma StepBase(s: Driver, op: Op)
    requires Base(s) && IdsFit(Next(s, op))
    ensures Base(Next(s, op))
  {
    match op
    case InitContext(c) => InitContextBase(s, c);
    case DestroyContext(c) => DestroyBase(s, c);
    case CreateResource(_, _) => CreateBase(s, op);
    case CreateBlobResource(_) => CreateBase(s, op);
    case CloseResource(c, id) => CloseBase(s, c, id);
    case EndMap(k, outcome) => EndMapBase(s, k, outcome);
    case StoreFence(i) => StoreFenceBase(s, i);
    case SignalEvent(i) => SignalBase(s, i);
    case MapIoSpace(i, address) => MapIoSpaceBase(s, i, address);
    case _ => QuietBase(s, op);
  }

  // ----- over runs -----

  lemma {:induction false} DrainCounters(s: Driver, c: nat, rs: seq<Resource>)
    ensures Drain(s, c, rs).resourceIds == s.resourceIds && Drain(s, c, rs).fenceIds == s.fenceIds
    decreases |rs|
  {
    if rs != [] {
      DrainCounters(DeleteResource(s, c, rs[|rs| - 1]), c, rs[..|rs| - 1]);
    }
  }

  lemma CountersGrow(s: Driver, op: Op)
    ensures s.resourceIds.next <= Next(s, op).resourceIds.next
    ensures s.fenceIds.next <= Next(s, op).fenceIds.next
    ensures !op.CreateResource? && !op.CreateBlobResource? ==> Next(s, op).resourceIds == s.resourceIds
    ensures !op.BeginSubmit? ==> Next(s, op).fenceIds == s.fenceIds
  {
    if op.DestroyContext? {
      hide Drain, FindContext;
      var i := FindContext(s.contexts, op.ctx);
      if i.Some? {
        DrainCounters(s.(contexts := Without(s.contexts, i.value)), op.ctx, s.contexts[i.value].resources);
      }
    } else if op.CloseResource? {
      hide DoClose;
      CloseShape(s, op.ctx, op.res);
    } else {
      OtherCounters(s, op);
    }
  }

  lemma OtherCounters(s: Driver, op: Op)
    requires !op.DestroyContext? && !op.CloseResource?
    ensures s.resourceIds.next <= Next(s, op).resourceIds.next
    ensures s.fenceIds.next <= Next(s, op).fenceIds.next
    ensures !op.CreateResource? && !op.CreateBlobResource? ==> Next(s, op).resourceIds == s.resourceIds
    ensures !op.BeginSubmit? ==> Next(s, op).fenceIds == s.fenceIds
  {
    hide Allocate, Free, Lookup, FindContext, Insert, Store, WriteOne, BufferBytes, RoundUp;
  }

  lemma {:induction false} RunCountersGrow(s: Driver, ops: seq<Op>)
    ensures s.resourceIds.next <= Run(s, ops).resourceIds.next
    ensures s.fenceIds.next <= Run(s, ops).fenceIds.next
    decreases |ops|
  {
    if ops != [] {
      CountersGrow(s, ops[0]);
      RunCountersGrow(Next(s, ops[0]), ops[1..]);
    }
  }

  // In every run of fewer than 2^32 resource ids, ids are unique, lists are ordered by age and
  // a pending MAP_BLOB can only reach its blob.
  lemma {:induction false} RunBase(s: Driver, ops: seq<Op>)
    requires Base(s) && IdsFit(Run(s, ops))
    ensures Base(Run(s, ops))
    decreases |ops|
  {
    if ops != [] {
      RunCountersGrow(Next(s, ops[0]), ops[1..]);
      StepBase(s, ops[0]);
      RunBase(Next(s, ops[0]), ops[1..]);
    }
  }

  // The states of all runs in which the ids have not run out.
  ghost predicate Reachable(s: Driver) {
    exists pages, ops :: s == Run(Initial(pages), ops) && IdsFit(s)
  }
}
