// Who owns the pages of VGPU memory: a live resource with a buffer, or a submit that has not
// completed. Every marked page has exactly one owner and every clear page has none.
module MemoryOwnership {
  import opened Wrappers
  import opened Paging
  import opened Arena
  import opened FenceRegister
  import opened Sums
  import opened DriverState
  import opened ResourceTable
  import opened Weights
  import opened BaseInvariant

  // Holds after every step of every run. A submit given up by an error exit keeps its pages for
  // ever.

  // What is counted: the owners of one page, or the pages of all owners.
  datatype Measure = OwnersOf(page: nat) | AllPages

  function Weigh(g: Region, m: Measure): nat {
    match m
    case OwnersOf(p) => if g.Has(p) then 1 else 0
    case AllPages => g.pages
  }

  function ResourceWeight(m: Measure): Resource -> nat {
    (r: Resource) => if r.backing.Dma? then Weigh(r.backing.region, m) else 0
  }

  function ContextWeight(m: Measure): Context -> nat {
    ContextSum(ResourceWeight(m))
  }

  function AgentWeight(m: Measure): Agent -> nat {
    (a: Agent) => if a.cmd.Submit3D? then Weigh(a.cmd.region, m) else 0
  }

  function Owned(s: Driver, m: Measure): nat {
    Sum(s.contexts, ContextWeight(m)) + Sum(s.agents, AgentWeight(m))
  }

  function Marked(bits: seq<bool>, p: nat): bool {
    p < |bits| && bits[p]
  }

  // Every marked page has one owner, every other page none. The counter is exact.
  ghost predicate Ownership(s: Driver) {
    && Valid(s.arena)
    && (forall p :: Owned(s, OwnersOf(p)) == if Marked(s.arena.used, p) then 1 else 0)
    && Owned(s, AllPages) + CountFree(s.arena.used) == |s.arena.used|
  }

  // ----- list operations move weight -----

  lemma AddAgentWeight(s: Driver, cmd: Command, phase: Phase, m: Measure)
    ensures Sum(AddAgent(s, cmd, phase).agents, AgentWeight(m))
            == Sum(s.agents, AgentWeight(m)) + if cmd.Submit3D? then Weigh(cmd.region, m) else 0
  {
    SumPush(s.agents, Agent(|s.issued|, cmd, phase), AgentWeight(m));
  }

  // ----- taking and giving back a region -----

  // Owners gain exactly the pages the allocator marked.
  lemma Gain(s: Driver, s': Driver, size: nat)
    requires Ownership(s) && size % PAGE_SIZE == 0 && Allocate(s.arena, size).1.Some?
    requires s'.arena == Allocate(s.arena, size).0
    requires forall m :: Owned(s', m) == Owned(s, m) + Weigh(Allocate(s.arena, size).1.value, m)
    ensures Ownership(s')
  {
    AllocateLockedKeeps(s.arena, size);
    var g := Allocate(s.arena, size).1.value;
    CountFreeFill(s.arena.used, g.start, g.pages, true);
    forall p: nat
      ensures Owned(s', OwnersOf(p)) == if Marked(s'.arena.used, p) then 1 else 0
    {
      assert Owned(s', OwnersOf(p)) == Owned(s, OwnersOf(p)) + Weigh(g, OwnersOf(p));
    }
    assert Owned(s', AllPages) == Owned(s, AllPages) + g.pages;
  }

  // Owners lose exactly the pages the allocator clears.
  lemma Lose(s: Driver, s': Driver, g: Region)
    requires Ownership(s) && s'.arena == Free(s.arena, g.start, g.pages * PAGE_SIZE)
    requires forall m :: Owned(s', m) + Weigh(g, m) == Owned(s, m)
    ensures Ownership(s')
  {
    forall p: nat | g.Has(p)
      ensures Marked(s.arena.used, p)
    {
      assert Owned(s', OwnersOf(p)) + Weigh(g, OwnersOf(p)) == Owned(s, OwnersOf(p));
    }
    FreeMarked(s.arena, g);
    forall p: nat
      ensures Owned(s', OwnersOf(p)) == if Marked(s'.arena.used, p) then 1 else 0
    {
      assert Owned(s', OwnersOf(p)) + Weigh(g, OwnersOf(p)) == Owned(s, OwnersOf(p));
    }
    assert Owned(s', AllPages) + g.pages == Owned(s, AllPages);
  }

  lemma FreeMarked(a: Arena, g: Region)
    requires Valid(a) && forall p: nat :: g.Has(p) ==> Marked(a.used, p)
    ensures var b := Free(a, g.start, g.pages * PAGE_SIZE);
            && Valid(b) && |b.used| == |a.used|
            && CountFree(b.used) == CountFree(a.used) + g.pages
            && forall p :: Marked(b.used, p) == (Marked(a.used, p) && !g.Has(p))
  {
    hide Scan;
    if g.pages > 0 {
      hide FindRun, Free, Fill;
      assert g.Has(g.start) && g.Has(g.start + g.pages - 1);
      forall k: nat | g.start <= k < g.start + g.pages
        ensures k < |a.used| && a.used[k]
      {
        assert g.Has(k);
      }
      FreeClearsRegion(a, g);
      CountFreeFill(a.used, g.start, g.pages, false);
    } else {
      var r := FindRun(a.used, true, 0, g.start);
      assert r.Some? ==> Fill(a.used, r.value, 0, false) == a.used;
    }
  }

  // A step that moves no page.
  lemma Same(s: Driver, s': Driver)
    requires Ownership(s) && s'.arena == s.arena
    requires forall m :: Owned(s', m) == Owned(s, m)
    ensures Ownership(s')
  {
    assert Owned(s', AllPages) == Owned(s, AllPages);
    forall p: nat
      ensures Owned(s', OwnersOf(p)) == if Marked(s'.arena.used, p) then 1 else 0
    {
      assert Owned(s', OwnersOf(p)) == Owned(s, OwnersOf(p));
    }
  }

  // ----- every step -----

  lemma CloseOwnership(s: Driver, c: nat, id: nat)
    requires Ownership(s)
    ensures Ownership(DoClose(s, c, id))
  {
    var s' := DoClose(s, c, id);
    if Lookup(s.contexts, c, id).Some? {
      var r := Lookup(s.contexts, c, id).value;
      var t := UnmapUser(s.(contexts := Remove(s.contexts, c, id)), r);
      var u := ReleaseBacking(t, c, r);
      forall m
        ensures Owned(s', m) + ResourceWeight(m)(r) == Owned(s, m)
      {
        RemoveWeight(s.contexts, c, id, ResourceWeight(m));
        AddAgentWeight(t, DetachBacking(r.id), Queued, m);
        AddAgentWeight(t, UnmapBlob(c, r.id), Queued, m);
        AddAgentWeight(u, Unref(c, r.id), Queued, m);
      }
      if r.backing.Dma? {
        assert forall m :: ResourceWeight(m)(r) == Weigh(r.backing.region, m);
        Lose(s, s', r.backing.region);
      } else {
        Same(s, s');
      }
    }
  }

  lemma {:induction false} CloseEachOwnership(s: Driver, c: nat, rs: seq<Resource>)
    requires Ownership(s)
    ensures Ownership(CloseEach(s, c, rs))
    decreases |rs|
  {
    if rs != [] {
      CloseOwnership(s, c, rs[|rs| - 1].id);
      CloseEachOwnership(DoClose(s, c, rs[|rs| - 1].id), c, rs[..|rs| - 1]);
    }
  }

  lemma DestroyOwnership(s: Driver, c: nat)
    requires Ownership(s) && Base(s)
    ensures Ownership(DoDestroyContext(s, c))
  {
    var i := FindContext(s.contexts, c);
    if i.Some? {
      var rs := s.contexts[i.value].resources;
      DestroyIsCloses(s, s.resourceIds.next, c);
      CloseEachOwnership(s, c, rs);
      var t := CloseEach(s, c, rs);
      forall m
        ensures Owned(DoDestroyContext(s, c), m) == Owned(t, m)
      {
        SumRemove(t.contexts, i.value, ContextWeight(m));
        AddAgentWeight(DropContext(t, i.value), CtxDestroy(c), Queued, m);
      }
      Same(t, DoDestroyContext(s, c));
    }
  }

  lemma InitContextOwnership(s: Driver, c: nat)
    requires Ownership(s)
    ensures Ownership(DoInitContext(s, c))
  {
    if FindContext(s.contexts, c).None? {
      var t := s.(contexts := [Context(c, [])] + s.contexts);
      forall m
        ensures Owned(DoInitContext(s, c), m) == Owned(s, m)
      {
        assert t.contexts[1..] == s.contexts;
        AddAgentWeight(t, CtxCreate(c), Queued, m);
      }
      Same(s, DoInitContext(s, c));
    }
  }

  lemma BufferBytesWhole(size: nat)
    requires size < WORD
    ensures BufferBytes(size) % PAGE_SIZE == 0
  {
    RoundUpExact(size);
  }

  lemma CreateOwnership(s: Driver, c: nat, size: nat)
    requires Ownership(s)
    ensures Ownership(DoCreateResource(s, c, size))
  {
    var s' := DoCreateResource(s, c, size);
    if FindContext(s.contexts, c).Some? && size < WORD {
      var (ids, id) := Idr.GetWithoutCache(s.resourceIds, 4);
      var t := s.(resourceIds := ids);
      var created := Emit(t, Create3D(c, id));
      var plain := Resource(id, Register(true, 0), NoBuffer, None, 0);
      forall m
        ensures Owned(created, m) == Owned(s, m)
      {
        AddAgentWeight(t, Create3D(c, id), Queued, m);
      }
      if size == 1 {
        forall m
          ensures Owned(s', m) == Owned(s, m)
        {
          InsertWeight(s.contexts, c, plain, ResourceWeight(m));
        }
        Same(s, s');
      } else {
        BufferBytesWhole(size);
        var (arena, g) := Allocate(s.arena, BufferBytes(size));
        if g.Some? {
          forall m
            ensures Owned(s', m) == Owned(s, m) + Weigh(g.value, m)
          {
            InsertWeight(s.contexts, c, plain.(backing := Dma(g.value)), ResourceWeight(m));
            AddAgentWeight(created.(arena := arena), AttachBacking(c, id, g.value), Queued, m);
          }
          Gain(s, s', BufferBytes(size));
        } else {
          Same(s, s');
        }
      }
    }
  }

  lemma CreateBlobOwnership(s: Driver, c: nat)
    requires Ownership(s)
    ensures Ownership(DoCreateBlob(s, c))
  {
    if FindContext(s.contexts, c).Some? {
      var (ids, id) := Idr.GetWithoutCache(s.resourceIds, 4);
      var t := s.(resourceIds := ids);
      var created := Emit(t, CreateBlob(c, id));
      var blob := Resource(id, Register(false, 0), Blob(None), None, 0);
      forall m
        ensures Owned(DoCreateBlob(s, c), m) == Owned(s, m)
      {
        AddAgentWeight(t, CreateBlob(c, id), Queued, m);
        InsertWeight(s.contexts, c, blob, ResourceWeight(m));
        AddAgentWeight(created.(contexts := Insert(s.contexts, c, blob)), MapBlob(c, id), Queued, m);
      }
      Same(s, DoCreateBlob(s, c));
    }
  }

  // A change of one resource that keeps its backing, next to phase changes of requests.
  lemma StoreOwnership(s: Driver, s': Driver, c: nat, id: nat, r: Resource)
    requires Ownership(s) && Lookup(s.contexts, c, id).Some? && s'.arena == s.arena
    requires s'.contexts == Store(s.contexts, c, id, r)
    requires forall m :: ResourceWeight(m)(r) == ResourceWeight(m)(Lookup(s.contexts, c, id).value)
    requires forall m :: Sum(s'.agents, AgentWeight(m)) == Sum(s.agents, AgentWeight(m))
    ensures Ownership(s')
  {
    forall m
      ensures Owned(s', m) == Owned(s, m)
    {
      StoreWeight(s.contexts, c, id, r, ResourceWeight(m));
      assert Sum(s'.agents, AgentWeight(m)) == Sum(s.agents, AgentWeight(m));
    }
    Same(s, s');
  }

  lemma PhaseWeight(s: Driver, i: nat, phase: Phase, m: Measure)
    requires i < |s.agents|
    ensures Sum(SetPhase(s, i, phase).agents, AgentWeight(m)) == Sum(s.agents, AgentWeight(m))
  {
    SumUpdate(s.agents, i, s.agents[i].(phase := phase), AgentWeight(m));
  }

  lemma WriteOwnership(s: Driver, i: nat, phase: Phase, c: nat, id: nat, w: Write)
    requires Ownership(s) && i < |s.agents|
    ensures Ownership(SetPhase(s, i, phase).(contexts := WriteOne(s.contexts, c, id, w)))
  {
    var s' := SetPhase(s, i, phase).(contexts := WriteOne(s.contexts, c, id, w));
    forall m
      ensures Sum(s'.agents, AgentWeight(m)) == Sum(s.agents, AgentWeight(m))
    {
      PhaseWeight(s, i, phase, m);
    }
    var r := Lookup(s.contexts, c, id);
    if r.Some? {
      StoreOwnership(s, s', c, id, r.value.(state := Written(r.value.state, w)));
    } else {
      Same(s, s');
    }
  }

  lemma SubmitOwnership(s: Driver, c: nat, size: nat, outFence: bool, handles: seq<nat>)
    requires Ownership(s)
    ensures Ownership(DoBeginSubmit(s, c, size, outFence, handles))
  {
    var s' := DoBeginSubmit(s, c, size, outFence, handles);
    if s' != s {
      RoundUpExact(size);
      var (arena, g) := Allocate(s.arena, RoundUp(size));
      var (fences, fence) := if outFence then Idr.GetWithoutCache(s.fenceIds, 8) else (s.fenceIds, 0);
      forall m
        ensures Owned(s', m) == Owned(s, m) + Weigh(g.value, m)
      {
        AddAgentWeight(s.(arena := arena, fenceIds := fences),
                       Submit3D(c, handles, fence, g.value, outFence), Marking(0, Looking), m);
      }
      Gain(s, s', RoundUp(size));
    }
  }

  lemma FinishOwnership(s: Driver, i: nat)
    requires Ownership(s)
    ensures Ownership(DoFinish(s, i))
  {
    var s' := DoFinish(s, i);
    if s' != s {
      forall m
        ensures Owned(s', m) + AgentWeight(m)(s.agents[i]) == Owned(s, m)
      {
        SumRemove(s.agents, i, AgentWeight(m));
      }
      var cmd := s.agents[i].cmd;
      if cmd.Submit3D? {
        assert forall m :: AgentWeight(m)(s.agents[i]) == Weigh(cmd.region, m);
        Lose(s, s', cmd.region);
      } else {
        Same(s, s');
      }
    }
  }

  lemma MapIoSpaceOwnership(s: Driver, i: nat, address: nat)
    requires Ownership(s) && Base(s)
    ensures Ownership(DoMapIoSpace(s, i, address))
  {
    var s' := DoMapIoSpace(s, i, address);
    if s' != s {
      forall m
        ensures Sum(s'.agents, AgentWeight(m)) == Sum(s.agents, AgentWeight(m))
      {
        PhaseWeight(s, i, s'.agents[i].phase, m);
      }
      var cmd := s.agents[i].cmd;
      var r := Lookup(s.contexts, cmd.ctx, cmd.res);
      if r.Some? && address != 0 {
        assert MapTargetOk(s, s.agents[i]);
        StoreOwnership(s, s', cmd.ctx, cmd.res, Exposed(r.value, address));
      } else {
        Same(s, s');
      }
    }
  }

  lemma EndMapOwnership(s: Driver, k: nat, outcome: MapOutcome)
    requires Ownership(s)
    ensures Ownership(DoEndMap(s, k, outcome))
  {
    var s' := DoEndMap(s, k, outcome);
    if s'.contexts != s.contexts {
      var (c, id) := (s.mappers[k].ctx, s.mappers[k].res);
      StoreOwnership(s, s', c, id, Shared(Lookup(s.contexts, c, id).value, outcome, s.nextMdl));
    } else {
      Same(s, s');
    }
  }

  lemma OtherOwnership(s: Driver, op: Op)
    requires Ownership(s)
    requires op.QueryCapset? || op.BeginMap? || op.BeginTransfer? || op.Look? || op.Push? || op.Abandon?
             || op.Dequeue? || op.Collect?
    ensures Ownership(Next(s, op))
  {
    hide Ownership;
    if op.Look? || op.Push? || op.Abandon? || op.Dequeue? {
      MoveOwnership(s, op);
    } else if Next(s, op) != s {
      forall m
        ensures Owned(Next(s, op), m) == Owned(s, m)
      {
        if op.QueryCapset? {
          AddAgentWeight(s, GetCapset, Queued, m);
        } else if op.BeginTransfer? {
          AddAgentWeight(s, Transfer(op.ctx, op.res, op.toHost), Marking(0, Looking), m);
        } else if op.Collect? {
          SumRemove(s.agents, op.agent, AgentWeight(m));
        }
      }
      Same(s, Next(s, op));
    }
  }

  lemma MoveOwnership(s: Driver, op: Op)
    requires Ownership(s) && (op.Look? || op.Push? || op.Abandon? || op.Dequeue?)
    ensures Ownership(Next(s, op))
  {
    hide Ownership, Decided;
    var s' := Next(s, op);
    if s' != s {
      forall m
        ensures Owned(s', m) == Owned(s, m)
      {
        PhaseWeight(s, op.agent, s'.agents[op.agent].phase, m);
      }
      Same(s, s');
    }
  }

  lemma StoreFenceOwnership(s: Driver, i: nat)
    requires Ownership(s)
    ensures Ownership(DoStoreFence(s, i))
  {
    if DoStoreFence(s, i) != s {
      var a := s.agents[i];
      WriteOwnership(s, i, a.phase.(stage := Signalling), ContextOf(a.cmd), Target(a), Record(FenceOf(a.cmd)));
    }
  }

  lemma SignalOwnership(s: Driver, i: nat)
    requires Ownership(s)
    ensures Ownership(DoSignal(s, i))
  {
    if DoSignal(s, i) != s {
      var a := s.agents[i];
      WriteOwnership(s, i, Onward(a.phase), ContextOf(a.cmd), Target(a), Signal(a.phase.Marking?));
    }
  }

  lemma StepOwnership(s: Driver, op: Op)
    requires Ownership(s) && Base(s)
    ensures Ownership(Next(s, op))
  {
    match op
    case InitContext(c) => InitContextOwnership(s, c);
    case DestroyContext(c) => DestroyOwnership(s, c);
    case CreateResource(c, size) => CreateOwnership(s, c, size);
    case CreateBlobResource(c) => CreateBlobOwnership(s, c);
    case CloseResource(c, id) => CloseOwnership(s, c, id);
    case EndMap(k, outcome) => EndMapOwnership(s, k, outcome);
    case BeginSubmit(c, size, outFence, handles) => SubmitOwnership(s, c, size, outFence, handles);
    case StoreFence(i) => StoreFenceOwnership(s, i);
    case SignalEvent(i) => SignalOwnership(s, i);
    case MapIoSpace(i, address) => MapIoSpaceOwnership(s, i, address);
    case Finish(i) => FinishOwnership(s, i);
    case _ => OtherOwnership(s, op);
  }

  lemma {:induction false} RunOwnership(s: Driver, ops: seq<Op>)
    requires Ownership(s) && Base(s) && IdsFit(Run(s, ops))
    ensures Ownership(Run(s, ops))
    decreases |ops|
  {
    if ops != [] {
      RunCountersGrow(Next(s, ops[0]), ops[1..]);
      StepOwnership(s, ops[0]);
      StepBase(s, ops[0]);
      RunOwnership(Next(s, ops[0]), ops[1..]);
    }
  }

  lemma InitialOwnership(pages: nat)
    ensures Ownership(Initial(pages))
  {
    CountFreeUniform(Initial(pages).arena.used, false);
  }

  // After every ioctl and completion of every run: each page is marked exactly when one owner
  // has it, and free pages and owned pages add up to the arena.
  lemma EveryPageHasOneOwner(pages: nat, ops: seq<Op>)
    requires IdsFit(Run(Initial(pages), ops))
    ensures Ownership(Run(Initial(pages), ops))
  {
    InitialOwnership(pages);
    InitialBase(pages);
    RunOwnership(Initial(pages), ops);
  }

  // ----- what it means for the owners -----

  datatype Owner = ResourceAt(context: nat, position: nat) | RequestAt(agent: nat)

  function RegionOf(s: Driver, o: Owner): Option<Region> {
    match o
    case ResourceAt(i, j) =>
      if i < |s.contexts| && j < |s.contexts[i].resources| && s.contexts[i].resources[j].backing.Dma?
      then Some(s.contexts[i].resources[j].backing.region) else None
    case RequestAt(k) =>
      if k < |s.agents| && s.agents[k].cmd.Submit3D? then Some(s.agents[k].cmd.region) else None
  }

  // Every owned page is marked, so it is inside the arena.
  lemma OwnedIsMarked(s: Driver, o: Owner, p: nat)
    requires Ownership(s) && RegionOf(s, o).Some? && RegionOf(s, o).value.Has(p)
    ensures Marked(s.arena.used, p)
  {
    var m := OwnersOf(p);
    match o
    case ResourceAt(i, j) =>
      SumSplit(s.contexts[i].resources, j, ResourceWeight(m));
      SumSplit(s.contexts, i, ContextWeight(m));
    case RequestAt(k) => SumSplit(s.agents, k, AgentWeight(m));
  }

  // Two owners never share a page, be they resources of any contexts or requests.
  lemma OwnersAreDisjoint(s: Driver, o: Owner, o': Owner)
    requires Ownership(s) && o != o' && RegionOf(s, o).Some? && RegionOf(s, o').Some?
    ensures !Overlap(RegionOf(s, o).value, RegionOf(s, o').value)
  {
    forall p: nat | RegionOf(s, o).value.Has(p)
      ensures !RegionOf(s, o').value.Has(p)
    {
      if RegionOf(s, o').value.Has(p) {
        TwoOwners(s, o, o', p);
      }
    }
  }

  lemma TwoOwners(s: Driver, o: Owner, o': Owner, p: nat)
    requires o != o' && RegionOf(s, o).Some? && RegionOf(s, o').Some?
    requires RegionOf(s, o).value.Has(p) && RegionOf(s, o').value.Has(p)
    ensures Owned(s, OwnersOf(p)) >= 2
  {
    var m := OwnersOf(p);
    if o.RequestAt? && o'.RequestAt? {
      SumOfTwo(s.agents, if o.agent < o'.agent then o.agent else o'.agent,
               if o.agent < o'.agent then o'.agent else o.agent, AgentWeight(m));
    } else if o.RequestAt? {
      ResourceCounts(s, o', p);
      SumSplit(s.agents, o.agent, AgentWeight(m));
    } else if o'.RequestAt? {
      ResourceCounts(s, o, p);
      SumSplit(s.agents, o'.agent, AgentWeight(m));
    } else if o.context == o'.context {
      var rs := s.contexts[o.context].resources;
      SumOfTwo(rs, if o.position < o'.position then o.position else o'.position,
               if o.position < o'.position then o'.position else o.position, ResourceWeight(m));
      SumSplit(s.contexts, o.context, ContextWeight(m));
    } else {
      SumSplit(s.contexts[o.context].resources, o.position, ResourceWeight(m));
      SumSplit(s.contexts[o'.context].resources, o'.position, ResourceWeight(m));
      SumOfTwo(s.contexts, if o.context < o'.context then o.context else o'.context,
               if o.context < o'.context then o'.context else o.context, ContextWeight(m));
    }
  }

  lemma ResourceCounts(s: Driver, o: Owner, p: nat)
    requires o.ResourceAt? && RegionOf(s, o).Some? && RegionOf(s, o).value.Has(p)
    ensures Sum(s.contexts, ContextWeight(OwnersOf(p))) >= 1
  {
    var m := OwnersOf(p);
    SumSplit(s.contexts[o.context].resources, o.position, ResourceWeight(m));
    SumSplit(s.contexts, o.context, ContextWeight(m));
  }

  // Once no context is left and no submit is outstanding, the whole arena is free again.
  lemma AllMemoryReturned(pages: nat, ops: seq<Op>)
    requires var s := Run(Initial(pages), ops);
             && IdsFit(s) && s.contexts == []
             && forall k :: 0 <= k < |s.agents| ==> !s.agents[k].cmd.Submit3D?
    ensures var s := Run(Initial(pages), ops);
            CountFree(s.arena.used) == |s.arena.used| && s.arena.available == PAGE_SIZE * |s.arena.used|
  {
    EveryPageHasOneOwner(pages, ops);
    var s := Run(Initial(pages), ops);
    if Sum(s.agents, AgentWeight(AllPages)) > 0 {
      var k := SumPositive(s.agents, AgentWeight(AllPages));
    }
  }
}
