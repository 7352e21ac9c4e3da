// The driver as an object: the ioctl handlers of kernelmode/vgpu/control.c and the completion
// loop of kernelmode/vgpu/vgpu.c on real lists, the real bitmap and the real id counters. Each
// method is proved equal to the function of the same step on the abstract state, so every
// theorem about runs holds of what these methods do.
module VgpuDriver {
  import opened Wrappers
  import opened Paging
  import opened FenceRegister
  import opened DriverState
  import opened ResourceTable
  import opened AtomicSteps
  import opened BaseInvariant
  import opened HandlerEffects
  import opened CompletionLoop
  import opened VirglContext
  import A = Arena
  import Idr
  import M = VgpuMemory
  import IntrusiveList

  ghost predicate AllIn(cs: seq<VirglContext>, frame: set<object>)
    reads frame
  {
    forall c :: c in cs ==> c in frame && c.Repr <= frame && c.Valid()
  }

  // The context list as values.
  ghost function Contexts(cs: seq<VirglContext>, frame: set<object>): (vs: seq<Context>)
    requires AllIn(cs, frame)
    reads frame
    ensures |vs| == |cs|
    ensures forall k :: 0 <= k < |cs| ==> vs[k] == cs[k].Value()
  {
    if cs == [] then []
    else
      assert cs[0] in cs;
      [cs[0].Value()] + Contexts(cs[1..], frame)
  }

  lemma {:induction false} UpdateManyBack(cs: seq<Context>, c: nat, a: seq<nat>, x: nat, u: Update)
    ensures UpdateMany(cs, c, a + [x], u) == UpdateOne(UpdateMany(cs, c, a, u), c, x, u)
    decreases |a|
  {
    if a == [] {
      assert [] + [x] == [x];
      assert [x][1..] == [];
    } else {
      assert (a + [x])[1..] == a[1..] + [x];
      UpdateManyBack(UpdateOne(cs, c, a[0], u), c, a[1..], x, u);
    }
  }

  // UpdateMany finds the context once and works on its list.
  lemma {:induction false} UpdateManyIsUpdateList(cs: seq<Context>, c: nat, ids: seq<nat>, u: Update)
    ensures var i := FindContext(cs, c);
            UpdateMany(cs, c, ids, u)
            == if i.None? then cs else WithResources(cs, i.value, UpdateList(cs[i.value].resources, ids, u))
  {
    var i := FindContext(cs, c);
    if ids == [] {
      assert i.Some? ==> cs[i.value].(resources := cs[i.value].resources) == cs[i.value];
    } else {
      var front := ids[..|ids| - 1];
      assert ids == front + [ids[|ids| - 1]];
      UpdateManyBack(cs, c, front, ids[|ids| - 1], u);
      UpdateManyIsUpdateList(cs, c, front, u);
      var ds := UpdateMany(cs, c, front, u);
      if i.Some? {
        FindContextSame(cs, ds, c);
        assert ds[i.value].(resources := ds[i.value].resources) == ds[i.value];
      }
    }
  }

  // ioctl.h, and one element of the parameter list of CtlInitVirglContext.
  const MAX_CAPSET_ID := 63

  datatype ContextParam = CapsetId(value: nat) | OtherParam

  // No two contexts share an object.
  ghost predicate Apart(cs: seq<VirglContext>)
    reads cs
  {
    forall i, j :: 0 <= i < j < |cs| ==> cs[i].Repr !! cs[j].Repr
  }

  lemma ContextsCons(ctx: VirglContext, cs: seq<VirglContext>, frame: set<object>)
    requires AllIn(cs, frame) && Apart(cs) && ctx.Valid() && ctx.Repr !! frame
    ensures var ds := [ctx] + cs;
            && AllIn(ds, frame + ctx.Repr) && Apart(ds)
            && Contexts(ds, frame + ctx.Repr) == [ctx.Value()] + Contexts(cs, frame)
  {
    hide VirglContext.Valid;
    var ds := [ctx] + cs;
    forall c: VirglContext | c in ds
      ensures c in frame + ctx.Repr && c.Repr <= frame + ctx.Repr && c.Valid()
    {
      assert c != ctx ==> c in cs;
    }
    assert forall k :: 1 <= k < |ds| ==> ds[k] == cs[k - 1] && ds[k] in cs;
  }

  lemma ContextsWithout(cs: seq<VirglContext>, frame: set<object>, i: nat)
    requires AllIn(cs, frame) && Apart(cs) && i < |cs|
    ensures var ds := Without(cs, i);
            && AllIn(ds, frame - cs[i].Repr) && Apart(ds)
            && Contexts(ds, frame - cs[i].Repr) == Without(Contexts(cs, frame), i)
    ensures cs[i].Valid() && cs[i].Repr <= frame
  {
    hide VirglContext.Valid, Contexts;
    var ds := Without(cs, i);
    forall k | 0 <= k < |ds|
      ensures ds[k] == cs[if k < i then k else k + 1] && ds[k].Repr !! cs[i].Repr && ds[k] in frame
      ensures ds[k].Repr <= frame - cs[i].Repr && ds[k].Valid()
    {
      var l := if k < i then k else k + 1;
      assert ds[k] == cs[l] && cs[l] in cs;
    }
    forall c: VirglContext | c in ds
      ensures c in frame - cs[i].Repr && c.Repr <= frame - cs[i].Repr && c.Valid()
    {
      c.Inside();
    }
    var a, b := Contexts(ds, frame - cs[i].Repr), Without(Contexts(cs, frame), i);
    forall k | 0 <= k < |a|
      ensures a[k] == b[k]
    {
      assert ds[k] == cs[if k < i then k else k + 1];
    }
  }

  class VgpuDriver {
    const memory: M.VgpuMemory
    const resourceIds: Idr.IdGenerator
    const fenceIds: Idr.IdGenerator
    const capsets: set<nat>
    var contexts: seq<VirglContext>
    var agents: seq<Agent>
    var mappers: seq<Mapper>
    var nextMdl: nat
    var issued: seq<Command>
    ghost var trace: seq<Command>
    ghost var log: seq<LogEntry>
    ghost var failedMaps: set<(nat, nat)>
    ghost var lostMdls: set<nat>

    // The objects that make up the contexts.
    ghost var contextRepr: set<object>

    ghost function OwnObjects(): set<object> {
      {this, memory, memory.bitmap, resourceIds, fenceIds}
    }

    ghost function Repr(): set<object>
      reads this
    {
      OwnObjects() + contextRepr
    }

    ghost predicate Valid()
      reads this, contextRepr
    {
      && resourceIds != fenceIds && contextRepr !! OwnObjects()
      && AllIn(contexts, contextRepr)
      && Apart(contexts)
    }

    ghost function State(): Driver
      requires Valid()
      reads this, memory, memory.bitmap, resourceIds, fenceIds, contextRepr
    {
      Driver(Contexts(contexts, contextRepr), agents, mappers, memory.State(), resourceIds.State(), fenceIds.State(),
             nextMdl, issued, trace, log, failedMaps, lostMdls)
    }

    // `capsets` are the bits set in Capsets.CapsetIdMask.
    constructor (virtualAddress: nat, physicalAddress: nat, size: nat, capsets: set<nat>)
      requires size % (PAGE_SIZE * 8) == 0
      ensures Valid() && fresh(Repr())
      ensures State() == Initial(size / PAGE_SIZE) && this.capsets == capsets
    {
      this.capsets := capsets;
      memory := new M.VgpuMemory(virtualAddress, physicalAddress, size);
      resourceIds := new Idr.IdGenerator();
      fenceIds := new Idr.IdGenerator();
      contexts, agents, mappers, nextMdl, issued := [], [], [], 0, [];
      trace, log, failedMaps, lostMdls := [], [], {}, {};
      contextRepr := {};
    }

    // GetVirglContextFromListUnsafe.
    method Find(c: nat) returns (i: Option<nat>)
      requires Valid()
      ensures i == FindContext(State().contexts, c)
    {
      var k := 0;
      while k < |contexts|
        invariant k <= |contexts|
        invariant forall j :: 0 <= j < k ==> contexts[j].id != c
      {
        if contexts[k].id == c {
          return Some(k);
        }
        k := k + 1;
      }
      return None;
    }

    // Find, with what the caller needs to use the context it found.
    method FindOwned(c: nat) returns (i: Option<nat>)
      requires Valid()
      ensures i == FindContext(State().contexts, c)
      ensures |contexts| == |State().contexts|
      ensures forall k :: 0 <= k < |contexts| ==>
                contexts[k].Valid() && contexts[k].Value() == State().contexts[k]
    {
      hide VirglContext.Valid, Contexts;
      i := Find(c);
    }

    // AllocateCommandBuffer and the filling of the buffer.
    method Record(cmd: Command, phase: Phase)
      requires Valid()
      modifies this`agents, this`issued
      ensures Valid() && State() == AddAgent(old(State()), cmd, phase)
    {
      hide VirglContext.Valid, Contexts;
      agents := agents + [Agent(|issued|, cmd, phase)];
      issued := issued + [cmd];
    }

    // The two lookups of a handler: the resource, and where it is.
    method FindOf(c: nat, id: nat) returns (r: VirglResource?, i: nat, ghost j: nat)
      requires Valid()
      ensures r == null <==> Lookup(State().contexts, c, id).None?
      ensures r != null ==>
                && i < |contexts| && j < |contexts[i].resources| && contexts[i].resources[j] == r
                && |State().contexts| == |contexts| && FindContext(State().contexts, c) == Some(i)
                && FindResource(State().contexts[i].resources, id) == Some(j)
                && State().contexts[i].resources[j] == r.Value()
    {
      hide VirglContext.Valid, Contexts, AllIn, Apart;
      r, i, j := null, 0, 0;
      var found := FindOwned(c);
      if found.Some? {
        i := found.value;
        ghost var position;
        r, position := contexts[i].Find(id);
        j := if position.Some? then position.value else 0;
      }
    }

    // A command buffer that is pushed, as every emitter of command.c does.
    method Push(cmd: Command)
      requires Valid()
      modifies this`agents, this`issued, this`trace
      ensures Valid() && State() == Emit(old(State()), cmd)
    {
      hide VirglContext.Valid, Contexts;
      Record(cmd, Queued);
      trace := trace + [cmd];
    }

    // ExInterlockedInsertHeadList into VirglContextList.
    method AddContext(ctx: VirglContext)
      requires Valid() && ctx.Valid() && ctx.Repr !! Repr()
      modifies this`contexts, this`contextRepr
      ensures Valid() && contextRepr == old(contextRepr) + ctx.Repr
      ensures State() == old(State()).(contexts := [ctx.Value()] + old(State()).contexts)
    {
      hide VirglContext.Valid, Contexts;
      ContextsCons(ctx, contexts, contextRepr);
      ghost var before := State();
      ghost var value := ctx.Value();
      contexts := [ctx] + contexts;
      contextRepr := contextRepr + ctx.Repr;
      assert Contexts(contexts, contextRepr) == [value] + before.contexts;
      assert State() == before.(contexts := [value] + before.contexts);
    }

    predicate Acceptable(p: ContextParam) {
      p.CapsetId? && p.value <= MAX_CAPSET_ID && p.value in capsets
    }

    // The loop of CtlInitVirglContext over its parameters: one bad parameter is enough.
    method CheckParams(params: seq<ContextParam>) returns (ok: bool)
      ensures ok <==> forall p :: p in params ==> Acceptable(p)
    {
      ok := true;
      for i := 0 to |params|
        invariant ok <==> forall p :: p in params[..i] ==> Acceptable(p)
      {
        match params[i] {
          case CapsetId(value) =>
            if value > MAX_CAPSET_ID {
              ok := false;
            } else if value !in capsets {
              ok := false;
            }
          case OtherParam => ok := false;
        }
        assert params[..i + 1] == params[..i] + [params[i]];
        assert params[..i + 1][i] == params[i];
        assert forall p :: p in params[..i + 1] <==> p in params[..i] || p == params[i];
        assert ok <==> (forall p :: p in params[..i] ==> Acceptable(p)) && Acceptable(params[i]);
      }
      assert params[..|params|] == params;
    }

    // CtlInitVirglContext.
    method InitVirglContext(c: nat, params: seq<ContextParam>) returns (ok: bool)
      requires Valid()
      modifies this
      ensures Valid() && fresh(Repr() - old(Repr()))
      ensures State() == if ok then DoInitContext(old(State()), c) else old(State())
      ensures ok <==> FindContext(old(State()).contexts, c).None? && forall p :: p in params ==> Acceptable(p)
    {
      hide VirglContext.Valid, Contexts, AllIn, Apart;
      var i := Find(c);
      if i.Some? {
        return false;
      }
      ok := CheckParams(params);
      if ok {
        var ctx := new VirglContext(c);
        AddContext(ctx);
        Push(CtxCreate(c));
      }
    }

    // Context i has changed and, with it, at most objects of its own.
    twostate lemma ContextChanged(i: nat)
      requires old(Valid()) && contexts == old(contexts) && i < |contexts|
      requires contexts[i].Valid() && contexts[i].id == old(contexts[i].id)
      requires contexts[i].Repr - old(contexts[i].Repr) !! old(Repr())
      requires contextRepr == old(contextRepr) + contexts[i].Repr
      requires forall o :: o in old(contextRepr) && o !in old(contexts[i].Repr) ==> unchanged(o)
      ensures Valid()
      ensures State().contexts == old(State()).contexts[i := contexts[i].Value()]
    {
      hide VirglContext.Valid;
      forall c: VirglContext | c in contexts && c != contexts[i]
        ensures c in contextRepr && c.Repr <= contextRepr && c.Valid() && c.Repr == old(c.Repr)
        ensures c.Value() == old(c.Value())
      {
        var k :| 0 <= k < |contexts| && contexts[k] == c;
        assert old(contexts[k].Repr !! contexts[i].Repr);
      }
    }

    lemma OwnsContext(i: nat)
      requires Valid() && i < |contexts|
      ensures contexts[i].Valid() && contexts[i] in contextRepr && contexts[i].Repr <= contextRepr
      ensures |State().contexts| == |contexts| && contexts[i].Value() == State().contexts[i]
    {
      hide VirglContext.Valid;
    }

    // UpdateResourceState on the list of context i.
    method UpdateHandles(i: nat, ids: seq<nat>, busy: bool, fenceId: nat)
      requires Valid() && i < |contexts|
      modifies contextRepr
      ensures Valid() && contexts == old(contexts) && contextRepr == old(contextRepr)
      ensures State() == old(State()).(contexts := WithResources(old(State()).contexts, i,
                UpdateList(old(State()).contexts[i].resources, ids, Update(busy, fenceId))))
    {
      hide VirglContext.Valid, Contexts, UpdateList;
      contexts[i].Inside();
      contexts[i].UpdateResourceState(ids, busy, fenceId);
      ContextChanged(i);
    }

    // ----- requests -----

    // Mark what the command names busy.
    method MarkBusy(i: nat, cmd: Command)
      requires Valid() && FindContext(State().contexts, ContextOf(cmd)) == Some(i)
      modifies contextRepr
      ensures Valid() && contextRepr == old(contextRepr) && agents == old(agents)
      ensures State() == old(State()).(contexts :=
                UpdateMany(old(State()).contexts, ContextOf(cmd), Marks(cmd), Update(true, FenceOf(cmd))))
    {
      hide VirglContext.Valid, Contexts, UpdateMany, UpdateList;
      UpdateManyIsUpdateList(State().contexts, ContextOf(cmd), Marks(cmd), Update(true, FenceOf(cmd)));
      UpdateHandles(i, Marks(cmd), true, FenceOf(cmd));
    }

    // Mark what the command names busy and push it, unless one of the exits is taken. What an
    // exit does not give back stays with the request that it gives up.
    method Request(i: nat, cmd: Command, fault: Fault) returns (ok: bool)
      requires Valid() && FindContext(State().contexts, ContextOf(cmd)) == Some(i)
      modifies this`agents, this`issued, this`trace, contextRepr
      ensures Valid() && contextRepr == old(contextRepr)
      ensures State() == Issue(AddAgent(old(State()), cmd, Marking(0, Looking)), |old(agents)|, fault)
      ensures |agents| == |old(agents)| + 1 && (ok <==> agents[|old(agents)|].phase.Queued?)
    {
      hide VirglContext.Valid, Valid, Contexts, UpdateMany, UpdateList;
      IssueEffect(State(), cmd, fault);
      var named := Marks(cmd) != [];
      if named && fault.HandlesUnreadable? {
        Record(cmd, Abandoned(0));
        return false;
      }
      MarkBusy(i, cmd);
      if fault.NotPushed? || (named && fault.NoHandleCopy?) {
        Record(cmd, Abandoned(|Marks(cmd)|));
        return false;
      }
      Push(cmd);
      return true;
    }

    // The command memory and the fence id of a submit.
    method Reserve(size: nat, outFence: bool) returns (region: Option<A.Region>, fence: nat)
      requires Valid()
      modifies memory, memory.bitmap, fenceIds
      ensures Valid()
      ensures region == A.Allocate(old(State()).arena, size).1
      ensures region.None? ==> State() == old(State())
      ensures region.Some? ==>
                var (fences, f) := if outFence then Idr.GetWithoutCache(old(State()).fenceIds, 8) else (old(State()).fenceIds, 0);
                fence == f && State() == old(State()).(arena := A.Allocate(old(State()).arena, size).0, fenceIds := fences)
    {
      hide VirglContext.Valid, Contexts, A.Allocate;
      RefusedAllocation(memory.State(), size);
      var descriptor, got := memory.Allocate(size);
      region, fence := got, 0;
      if region.Some? && outFence {
        fence := fenceIds.GetIdWithoutCache(8);
      }
    }

    // CtlSubmitCommand. The user buffer has been probed, which refuses an empty one.
    method SubmitCommand(c: nat, size: nat, outFence: bool, handles: seq<nat>, fault: Fault) returns (ok: bool)
      requires Valid() && size < WORD
      modifies this, memory, memory.bitmap, fenceIds, contextRepr
      ensures Valid() && contextRepr == old(contextRepr)
      ensures State() == DoSubmit(old(State()), c, size, outFence, handles, fault)
      ensures ok <==> |agents| == |old(agents)| + 1 && agents[|old(agents)|].phase.Queued?
    {
      hide VirglContext.Valid, Contexts, A.Allocate, UpdateMany, RoundUp, Issue, AllIn, Apart;
      var i := Find(c);
      if i.None? {
        return false;
      }
      var region, fence := Reserve(RoundUp(size), outFence);
      if region.None? {
        return false;
      }
      ok := Request(i.value, Submit3D(c, handles, fence, region.value, outFence), fault);
    }

    // CtlTransferHost. It succeeds once the resource is found, whether or not the push does.
    method TransferHost(c: nat, id: nat, toHost: bool, pushed: bool) returns (ok: bool)
      requires Valid()
      modifies this, contextRepr
      ensures Valid() && contextRepr == old(contextRepr)
      ensures State() == DoTransfer(old(State()), c, id, toHost, pushed)
      ensures ok <==> Lookup(old(State()).contexts, c, id).Some?
    {
      hide VirglContext.Valid, Valid, Contexts, Issue;
      var resource, i, j := FindOf(c, id);
      if resource == null {
        return false;
      }
      var sent := Request(i, Transfer(c, id, toHost), if pushed then NoFault else NotPushed);
      return true;
    }

    // ----- creating resources -----

    // ExInterlockedInsertHeadList of a new resource into the list of context i.
    method InsertResource(i: nat, r: VirglResource)
      requires Valid() && i < |contexts| && r !in Repr() && r.entry !in Repr() && r.entry.record == Some(r)
      modifies this`contextRepr, contextRepr, r.entry
      ensures Valid() && contextRepr == old(contextRepr) + {r, r.entry}
      ensures State() == old(State()).(contexts := WithResources(old(State()).contexts, i,
                [old(r.Value())] + old(State()).contexts[i].resources))
    {
      hide VirglContext.Valid, Contexts, AllIn, Apart;
      var ctx := contexts[i];
      OwnsContext(i);
      ctx.Inside();
      ctx.Insert(r);
      contextRepr := contextRepr + ctx.Repr;
      ContextChanged(i);
    }

    method NewResource(c: nat, i: nat, id: nat, idle: bool, backing: Backing)
      requires Valid() && FindContext(State().contexts, c) == Some(i) && i < |contexts|
      modifies this`contextRepr, contextRepr
      ensures Valid() && fresh(contextRepr - old(contextRepr))
      ensures State() == old(State()).(contexts :=
                Insert(old(State()).contexts, c, Resource(id, Register(idle, 0), backing, None, 0)))
    {
      hide VirglContext.Valid, Valid, State, Insert, WithResources;
      InsertIs(State().contexts, c, i, Resource(id, Register(idle, 0), backing, None, 0));
      var r := new VirglResource(id, idle, backing);
      InsertResource(i, r);
    }

    // The buffer of a new resource and its ATTACH_BACKING.
    method Back(c: nat, id: nat, size: nat) returns (region: Option<A.Region>)
      requires Valid()
      modifies this`agents, this`issued, this`trace, memory, memory.bitmap
      ensures Valid() && region == A.Allocate(old(State()).arena, size).1
      ensures State() == if region.None? then old(State())
                         else Emit(old(State()).(arena := A.Allocate(old(State()).arena, size).0),
                                   AttachBacking(c, id, region.value))
    {
      hide VirglContext.Valid, Contexts, A.Allocate;
      RefusedAllocation(memory.State(), size);
      var descriptor, got := memory.Allocate(size);
      region := got;
      if region.Some? {
        Push(AttachBacking(c, id, region.value));
      }
    }

    // The id of a new resource and the command that announces it.
    method Announce(c: nat, blob: bool) returns (id: nat)
      requires Valid()
      modifies this`agents, this`issued, this`trace, resourceIds
      ensures Valid() && id == Idr.GetWithoutCache(old(State()).resourceIds, 4).1
      ensures State() == Emit(old(State()).(resourceIds := Idr.GetWithoutCache(old(State()).resourceIds, 4).0),
                              if blob then CreateBlob(c, id) else Create3D(c, id))
    {
      hide VirglContext.Valid, Contexts;
      id := resourceIds.GetIdWithoutCache(4);
      Push(if blob then CreateBlob(c, id) else Create3D(c, id));
    }

    // CtlCreateResource, given the size field of the request.
    method CreateResource(c: nat, size: nat) returns (id: Option<nat>)
      requires Valid() && size < WORD
      modifies this, memory, memory.bitmap, resourceIds, contextRepr
      ensures Valid() && fresh(contextRepr - old(contextRepr))
      ensures State() == DoCreateResource(old(State()), c, size)
      ensures A.Valid(old(State()).arena) ==>
                (id.Some? <==> FindContext(old(State()).contexts, c).Some? && HasRoom(old(State()).arena, size))
      ensures A.Valid(old(State()).arena) && Base(old(State())) && IdsFit(State()) && id.Some? ==>
                id.value == old(State()).resourceIds.next && Creates(old(State()), State(), c, size)
    {
      hide VirglContext.Valid, Contexts, A.Allocate, BufferBytes, Insert, AllIn, Apart, A.Valid, Base, IdsFit, Creates, HasRoom;
      ghost var before := State();
      if A.Valid(before.arena) && FindContext(before.contexts, c).Some? {
        CreateAnswer(before, c, size);
      }
      var i := Find(c);
      if i.None? {
        return None;
      }
      var newId := Announce(c, false);
      if size == 1 {
        NewResource(c, i.value, newId, true, NoBuffer);
      } else {
        var region := Back(c, newId, BufferBytes(size));
        if region.None? {
          return None;
        }
        NewResource(c, i.value, newId, true, Dma(region.value));
      }
      return Some(newId);
    }

    // CtlCreateBlobResource.
    method CreateBlobResource(c: nat) returns (id: Option<nat>)
      requires Valid()
      modifies this, resourceIds, contextRepr
      ensures Valid() && fresh(contextRepr - old(contextRepr))
      ensures State() == DoCreateBlob(old(State()), c)
      ensures id.None? <==> FindContext(old(State()).contexts, c).None?
      ensures Base(old(State())) && IdsFit(State()) && id.Some? ==> CreatesBlob(old(State()), State(), c, id.value)
    {
      hide VirglContext.Valid, Contexts, Insert, Base, IdsFit, CreatesBlob, AllIn, Apart, FindContext;
      ghost var before := State();
      if Base(before) && IdsFit(DoCreateBlob(before, c)) {
        CreateBlobEffect(before, c);
      }
      var i := Find(c);
      if i.None? {
        return None;
      }
      var newId := Announce(c, true);
      NewResource(c, i.value, newId, false, Blob(None));
      Push(MapBlob(c, newId));
      return Some(newId);
    }

    // ----- deleting resources -----

    // Detach or unmap what is behind a resource and give its pages back.
    method Release(c: nat, r: VirglResource)
      requires Valid()
      modifies this`agents, this`issued, this`trace, this`log, memory, memory.bitmap
      ensures Valid() && State() == ReleaseBacking(old(State()), c, old(r.Value()))
    {
      hide VirglContext.Valid, Contexts, A.Free, AllIn, Apart;
      match r.backing {
        case NoBuffer =>
        case Blob(address) =>
          Push(UnmapBlob(c, r.id));
          log := log + [UnmapIo(r.id, address)];
        case Dma(g) =>
          Push(DetachBacking(r.id));
          FreeRegion(g);
      }
    }

    // DeleteResource, for a resource that is off its list.
    method Delete(c: nat, r: VirglResource)
      requires Valid()
      modifies this`agents, this`issued, this`trace, this`log, memory, memory.bitmap
      ensures Valid() && State() == DeleteResource(old(State()), c, old(r.Value()))
    {
      hide VirglContext.Valid, Contexts, ReleaseBacking;
      if !r.backing.NoBuffer? && r.mdl.Some? && r.user != 0 {
        log := log + [FreeMdl(r.mdl.value)];
      }
      Release(c, r);
      Push(Unref(c, r.id));
    }

    // CtlCloseResource.
    method CloseResource(c: nat, id: nat) returns (ok: bool)
      requires Valid()
      modifies this, memory, memory.bitmap, contextRepr
      ensures Valid() && contextRepr == old(contextRepr)
      ensures State() == DoClose(old(State()), c, id)
      ensures ok <==> Lookup(old(State()).contexts, c, id).Some?
    {
      hide VirglContext.Valid, Valid, Contexts, DeleteResource;
      var r, i, j := FindOf(c, id);
      if r == null {
        return false;
      }
      RemoveResource(i, r, j);
      Delete(c, r);
      return true;
    }

    method RemoveResource(i: nat, r: VirglResource, ghost j: nat)
      requires Valid() && i < |contexts| && j < |contexts[i].resources| && contexts[i].resources[j] == r
      modifies contextRepr
      ensures Valid() && contexts == old(contexts) && contextRepr == old(contextRepr)
      ensures r.Value() == old(r.Value()) == old(State()).contexts[i].resources[j]
      ensures State() == old(State()).(contexts := WithResources(old(State()).contexts, i,
                Without(old(State()).contexts[i].resources, j)))
    {
      hide VirglContext.Valid, Contexts;
      var ctx := contexts[i];
      ctx.Inside();
      ctx.Remove(r, j);
      ContextChanged(i);
    }

    // RemoveEntryListUnsafe on VirglContextList.
    method RemoveContext(i: nat)
      requires Valid() && i < |contexts|
      modifies this`contexts, this`contextRepr
      ensures var ctx := old(contexts[i]);
              Valid() && ctx.Valid() && ctx.Repr !! Repr() && ctx.Repr <= old(contextRepr)
      ensures contextRepr == old(contextRepr) - old(contexts[i].Repr)
      ensures State() == old(State()).(contexts := Without(old(State()).contexts, i))
    {
      hide VirglContext.Valid, Contexts;
      var ctx := contexts[i];
      ContextsWithout(contexts, contextRepr, i);
      contexts := contexts[..i] + contexts[i + 1..];
      contextRepr := contextRepr - ctx.Repr;
    }

    // RemoveTailList on the list of a context that has left VirglContextList.
    method TakeOldest(ctx: VirglContext) returns (r: VirglResource)
      requires Valid() && ctx.Valid() && ctx.Repr !! Repr() && ctx.resources != []
      modifies ctx.Repr
      ensures Valid() && State() == old(State())
      ensures ctx.Valid() && ctx.Repr == old(ctx.Repr) && |ctx.resources| == |old(ctx.resources)| - 1
      ensures var rs := old(ctx.Values());
              r.Value() == rs[|rs| - 1] && ctx.Values() == rs[..|rs| - 1]
    {
      hide VirglContext.Valid, Valid, State;
      ctx.Inside();
      r := ctx.RemoveTail();
    }

    // One turn of the drain loop.
    method DrainNext(ctx: VirglContext, c: nat)
      requires Valid() && ctx.Valid() && ctx.Repr !! Repr() && ctx.resources != []
      modifies this`agents, this`issued, this`trace, this`log, memory, memory.bitmap, ctx.Repr
      ensures Valid() && ctx.Valid() && ctx.Repr == old(ctx.Repr)
      ensures |ctx.resources| == |old(ctx.resources)| - 1
      ensures Drain(State(), c, ctx.Values()) == Drain(old(State()), c, old(ctx.Values()))
    {
      hide VirglContext.Valid, Valid, State, DeleteResource, Drain;
      DrainStep(State(), c, ctx.Values());
      var r := TakeOldest(ctx);
      Delete(c, r);
    }

    // The drain loop of CtlDestroyVirglContext.
    method DrainAll(ctx: VirglContext, c: nat)
      requires Valid() && ctx.Valid() && ctx.Repr !! Repr()
      modifies this`agents, this`issued, this`trace, this`log, memory, memory.bitmap, ctx.Repr
      ensures Valid() && State() == Drain(old(State()), c, old(ctx.Values()))
    {
      hide VirglContext.Valid, Valid, State, Drain;
      ghost var repr := ctx.Repr;
      var empty := ctx.IsEmpty();
      while !empty
        invariant Valid() && ctx.Valid() && ctx.Repr == repr
        invariant Drain(State(), c, ctx.Values()) == Drain(old(State()), c, old(ctx.Values()))
        invariant empty <==> ctx.resources == []
        decreases |ctx.resources|
      {
        DrainNext(ctx, c);
        empty := ctx.IsEmpty();
      }
      DrainStep(State(), c, ctx.Values());
    }

    // CtlDestroyVirglContext.
    method DestroyVirglContext(c: nat)
      requires Valid()
      modifies this, memory, memory.bitmap, contextRepr
      ensures Valid() && contextRepr <= old(contextRepr)
      ensures State() == DoDestroyContext(old(State()), c)
    {
      hide VirglContext.Valid, Valid, State, Drain, FindContext;
      DestroyIs(State(), c);
      var i := FindOwned(c);
      if i.None? {
        return;
      }
      var ctx := contexts[i.value];
      RemoveContext(i.value);
      DrainAll(ctx, c);
      Push(CtxDestroy(c));
    }

    // ----- waiting and mapping -----

    // CtlWait with VIRTGPU_WAIT_NOWAIT: 1 for busy, 0 for idle.
    method WaitNoWait(c: nat, id: nat) returns (result: Option<nat>)
      requires Valid()
      ensures var r := Lookup(State().contexts, c, id);
              result == if r.None? then None else Some(if r.value.state.idle then 0 else 1)
    {
      hide VirglContext.Valid, Valid, Contexts;
      var r, i, j := FindOf(c, id);
      if r == null {
        return None;
      }
      return Some(if r.idle then 0 else 1);
    }

    // CtlMap up to its wait: the address of the mapping there is, or a call that waits.
    method BeginMap(c: nat, id: nat) returns (address: Option<nat>, waits: bool)
      requires Valid()
      modifies this`mappers
      ensures Valid() && State() == DoBeginMap(old(State()), c, id)
      ensures var r := Lookup(State().contexts, c, id);
              waits <==> r.Some? && !r.value.backing.NoBuffer? && r.value.mdl.None?
      ensures mappers == if waits then old(mappers) + [Mapper(c, id)] else old(mappers)
      ensures var r := Lookup(State().contexts, c, id);
              address == if r.Some? && r.value.mdl.Some? && !r.value.backing.NoBuffer? then Some(r.value.user) else None
    {
      hide VirglContext.Valid, Valid, State;
      var r, i, j := FindOf(c, id);
      if r == null || r.backing.NoBuffer? {
        return None, false;
      }
      if r.mdl.Some? {
        return Some(r.user), false;
      }
      AddMapper(Mapper(c, id));
      return None, true;
    }

    method AddMapper(m: Mapper)
      requires Valid()
      modifies this`mappers
      ensures Valid() && State() == old(State()).(mappers := old(State()).mappers + [m])
      ensures mappers == old(mappers) + [m]
    {
      hide VirglContext.Valid, Contexts, AllIn, Apart;
      mappers := mappers + [m];
    }

    // CtlMap from its wait on, for call k of those that wait. A busy resource keeps it waiting.
    method EndMap(k: nat, outcome: MapOutcome) returns (address: Option<nat>)
      requires Valid() && k < |mappers|
      modifies this`mappers, this`nextMdl, this`log, this`lostMdls, contextRepr
      ensures Valid() && contextRepr == old(contextRepr)
      ensures State() == DoEndMap(old(State()), k, outcome)
      ensures var r := Lookup(old(State()).contexts, old(mappers[k]).ctx, old(mappers[k]).res);
              address == if r.Some? && r.value.state.idle && GetsMapped(r.value, outcome) then Some(outcome.user) else None
      ensures address.Some? ==>
                var r := Lookup(State().contexts, old(mappers[k]).ctx, old(mappers[k]).res);
                r.Some? && r.value.mdl == Some(old(nextMdl)) && r.value.user == address.value != 0
    {
      hide VirglContext.Valid, Valid, Contexts, DoEndMap, Lookup, WithResources;
      EndMapOther(State(), k, outcome);
      address := None;
      var r, i, j := FindOf(mappers[k].ctx, mappers[k].res);
      if r == null {
        RemoveMapper(k);
      } else if r.idle {
        address := GoOn(k, i, r, j, outcome);
      }
    }

    method GoOn(k: nat, i: nat, r: VirglResource, ghost j: nat, outcome: MapOutcome) returns (address: Option<nat>)
      requires Valid() && k < |mappers| && FindContext(State().contexts, mappers[k].ctx) == Some(i)
      requires FindResource(State().contexts[i].resources, mappers[k].res) == Some(j)
      requires i < |contexts| && j < |contexts[i].resources| && contexts[i].resources[j] == r
      requires State().contexts[i].resources[j] == r.Value() && r.idle
      modifies this`mappers, this`nextMdl, this`log, this`lostMdls, contextRepr
      ensures Valid() && contextRepr == old(contextRepr)
      ensures State() == DoEndMap(old(State()), k, outcome)
      ensures address == if GetsMapped(old(r.Value()), outcome) then Some(outcome.user) else None
      ensures address.Some? ==>
                var r := Lookup(State().contexts, old(mappers[k]).ctx, old(mappers[k]).res);
                r.Some? && r.value.mdl == Some(old(nextMdl)) && r.value.user == address.value != 0
    {
      hide VirglContext.Valid, Valid, Contexts, DoEndMap, Lookup, WithResources, FindContext, FindResource, Effective, Shared;
      MappedIsEffective(r.Value(), outcome);
      EndMapEffect(State(), k, i, j, outcome);
      RemoveMapper(k);
      var ok := CreateUserShareMemory(i, r, j, outcome);
      address := if ok then Some(outcome.user) else None;
    }

    method RemoveMapper(k: nat)
      requires Valid() && k < |mappers|
      modifies this`mappers
      ensures Valid() && State() == old(State()).(mappers := Without(old(mappers), k))
    {
      hide VirglContext.Valid, Contexts, AllIn, Apart;
      mappers := mappers[..k] + mappers[k + 1..];
    }

    // CreateUserShareMemory, and the reset of pMdl that follows its failure.
    method CreateUserShareMemory(i: nat, r: VirglResource, ghost j: nat, outcome: MapOutcome) returns (ok: bool)
      requires Valid() && i < |contexts| && j < |contexts[i].resources| && contexts[i].resources[j] == r
      modifies this`nextMdl, this`log, this`lostMdls, contextRepr
      ensures Valid() && contexts == old(contexts) && contextRepr == old(contextRepr)
      ensures State() == CountMdls(old(State()), old(r.Value()), outcome).(contexts := WithResources(old(State()).contexts, i,
                old(State()).contexts[i].resources[j := Shared(old(r.Value()), outcome, old(nextMdl))]))
      ensures var o := Effective(old(r.Value()), outcome); (ok <==> o.Mapped? && o.user != 0) && (ok ==> outcome == o)
    {
      hide VirglContext.Valid, Contexts, AllIn, Apart, Shared, Effective;
      OwnsContext(i);
      ghost var ctx := contexts[i];
      ctx.Inside();
      ok := Share(r, outcome);
      ctx.Stored(j);
      ContextChanged(i);
    }

    method Share(r: VirglResource, outcome: MapOutcome) returns (ok: bool)
      modifies this`nextMdl, this`log, this`lostMdls, r
      ensures lostMdls == old(lostMdls) + if old(r.mdl).Some? then {old(r.mdl).value} else {}
      ensures r.Value() == Shared(old(r.Value()), outcome, old(nextMdl))
      ensures var o := Effective(old(r.Value()), outcome);
              && nextMdl == (if o.NoMdl? then old(nextMdl) else old(nextMdl) + 1)
              && log == (if o.NoMapping? || o == Mapped(0) then old(log) + [FreeMdl(old(nextMdl))] else old(log))
              && (ok <==> o.Mapped? && o.user != 0) && (ok ==> outcome == o)
    {
      ok := false;
      if r.mdl.Some? {
        lostMdls := lostMdls + {r.mdl.value};
      }
      if outcome.NoMdl? || (r.backing.Dma? && r.backing.region.pages == 0) {
        r.mdl := None;
        return;
      }
      if outcome.Mapped? {
        r.user := outcome.user;
        ok := outcome.user != 0;
      }
      if ok {
        r.mdl := Some(nextMdl);
      } else {
        log := log + [FreeMdl(nextMdl)];
        r.mdl := None;
      }
      nextMdl := nextMdl + 1;
    }

    // CtlMap without interference. A call on a busy resource is left waiting.
    method MapResource(c: nat, id: nat, outcome: MapOutcome) returns (address: Option<nat>)
      requires Valid()
      modifies this`mappers, this`nextMdl, this`log, this`lostMdls, contextRepr
      ensures Valid() && contextRepr == old(contextRepr)
      ensures State() == DoMap(old(State()), c, id, outcome)
      ensures var r := Lookup(old(State()).contexts, c, id);
              address
              == if r.None? || r.value.backing.NoBuffer? then None
                 else if r.value.mdl.Some? then Some(r.value.user)
                 else if r.value.state.idle && GetsMapped(r.value, outcome) then Some(outcome.user) else None
      ensures var r := Lookup(State().contexts, c, id);
              address.Some? ==> r.Some? && r.value.mdl.Some? && address == Some(r.value.user)
    {
      hide VirglContext.Valid, Valid, Contexts, AllIn, Apart, Lookup, DoEndMap;
      ghost var before := State();
      var found, waits := BeginMap(c, id);
      address := found;
      if waits {
        assert mappers == before.mappers + [Mapper(c, id)];
        address := EndMap(|mappers| - 1, outcome);
      }
    }

    // ----- completions -----

    // The idle marks of a completed request, if its context is still there.
    method MarkIdle(cmd: Command)
      requires Valid()
      modifies contextRepr
      ensures Valid() && contexts == old(contexts) && contextRepr == old(contextRepr)
      ensures agents == old(agents)
      ensures State() == old(State()).(contexts :=
                UpdateMany(old(State()).contexts, ContextOf(cmd), Marks(cmd), Update(false, FenceOf(cmd))))
    {
      hide VirglContext.Valid, Contexts, UpdateMany, UpdateList;
      UpdateManyIsUpdateList(State().contexts, ContextOf(cmd), Marks(cmd), Update(false, FenceOf(cmd)));
      if Marks(cmd) != [] {
        var i := Find(ContextOf(cmd));
        if i.Some? {
          UpdateHandles(i.value, Marks(cmd), false, FenceOf(cmd));
        }
      } else {
        UpdateManyNone(State().contexts, ContextOf(cmd), Update(false, FenceOf(cmd)));
      }
    }

    // FreeVgpuMemory, for a region by page index.
    method FreeRegion(g: A.Region)
      requires Valid()
      modifies memory, memory.bitmap
      ensures Valid()
      ensures State() == old(State()).(arena := A.Free(old(State()).arena, g.start, g.pages * PAGE_SIZE))
    {
      hide VirglContext.Valid, Contexts, A.Free;
      var address := memory.DescriptorOf(g.start).virtualAddress;
      assert memory.IndexOf(address) == g.start;
      memory.Free(address, g.pages * PAGE_SIZE);
    }

    // The handle copy, the out-fence and the command buffer of a completed request.
    method LogReleases(a: Agent)
      modifies this`log
      ensures log == old(log) + Releases(a)
    {
      if a.cmd.Submit3D? {
        if a.cmd.handles != [] {
          log := log + [FreeHandles(a.tag)];
        }
        if a.cmd.outFence {
          log := log + [SignalFence(a.tag)];
        }
      }
      log := log + [FreeBuffer(a.tag)];
      LogOrder(old(log), a);
    }

    // The releases at the end of a completion. FreeVgpuMemory is for submits only.
    method Retire(i: nat)
      requires Valid() && i < |agents|
      modifies this`agents, this`log, memory, memory.bitmap
      ensures Valid()
      ensures State() == Retired(old(State()), i)
    {
      hide VirglContext.Valid, Contexts, A.Free, AllIn, Apart, Releases;
      var a := agents[i];
      if a.cmd.Submit3D? {
        FreeRegion(a.cmd.region);
      }
      LogReleases(a);
      agents := agents[..i] + agents[i + 1..];
    }

    // MapBlobResourceCallback. Address 0 is a failure of MmMapIoSpaceEx.
    method MapBlobCallback(c: nat, id: nat, address: nat)
      requires Valid()
      modifies this`failedMaps, this`log, contextRepr
      ensures Valid() && contexts == old(contexts) && contextRepr == old(contextRepr)
      ensures agents == old(agents)
      ensures State() == MapCallback(old(State()), c, id, address)
    {
      hide VirglContext.Valid, Valid, Contexts, WithResources, MapCallback, Lookup;
      MapCallbackEffect(State(), c, id, address);
      var r, i, j := FindOf(c, id);
      if r != null {
        if address == 0 {
          NoteFailedMap(c, id);
        } else {
          Note(MapIo(id, address, true));
          Expose(i, r, j, address);
        }
      }
    }

    method NoteFailedMap(c: nat, id: nat)
      requires Valid()
      modifies this`failedMaps
      ensures Valid() && State() == old(State()).(failedMaps := old(failedMaps) + {(c, id)})
    {
      hide VirglContext.Valid, Contexts, AllIn, Apart;
      failedMaps := failedMaps + {(c, id)};
    }

    ghost method Note(entry: LogEntry)
      requires Valid()
      modifies this`log
      ensures Valid() && State() == old(State()).(log := old(log) + [entry])
    {
      hide VirglContext.Valid, Contexts, AllIn, Apart;
      log := log + [entry];
    }

    method Expose(i: nat, r: VirglResource, ghost j: nat, address: nat)
      requires Valid() && i < |contexts| && j < |contexts[i].resources| && contexts[i].resources[j] == r
      modifies contextRepr
      ensures Valid() && contexts == old(contexts) && contextRepr == old(contextRepr)
      ensures State() == old(State()).(contexts := WithResources(old(State()).contexts, i,
                old(State()).contexts[i].resources[j := ExposedIdle(old(r.Value()), address)]))
    {
      hide VirglContext.Valid, Contexts;
      ghost var ctx := contexts[i];
      ctx.Inside();
      r.backing := Blob(Some(address));
      r.idle := true;
      ctx.Stored(j);
      ContextChanged(i);
    }

    // One turn of the loop of VirtioVgpuReadFromQueue: the device hands back request i.
    method Complete(i: nat, address: nat)
      requires Valid() && i < |agents| && agents[i].phase.Queued?
      modifies this`agents, this`log, this`failedMaps, memory, memory.bitmap, contextRepr
      ensures Valid() && contexts == old(contexts) && contextRepr == old(contextRepr)
      ensures State() == DoComplete(old(State()), i, address)
    {
      hide VirglContext.Valid, Valid, Contexts, DoComplete, Retired, MapCallback, UpdateMany;
      CompleteEffect(State(), i, address);
      var cmd := agents[i].cmd;
      if cmd.GetCapset? {
        Await(i);
      } else {
        if cmd.MapBlob? {
          MapBlobCallback(cmd.ctx, cmd.res, address);
        } else {
          MarkIdle(cmd);
        }
        Retire(i);
      }
    }

    // KeSetEvent for the waiter of a capset query.
    method Await(i: nat)
      requires Valid() && i < |agents|
      modifies this`agents
      ensures Valid() && State() == SetPhase(old(State()), i, Awaited)
    {
      hide VirglContext.Valid, Contexts;
      agents := agents[i := agents[i].(phase := Awaited)];
    }

    // Where the request of a buffer is.
    method Locate(tag: nat) returns (i: nat)
      ensures i == PositionOf(agents, tag)
    {
      i := 0;
      while i < |agents| && agents[i].tag != tag
        invariant i <= |agents| && forall k :: 0 <= k < i ==> agents[k].tag != tag
      {
        i := i + 1;
      }
    }

    // VirtioVgpuReadFromQueue: whatever the device hands back, in its order, until the queue
    // is empty.
    method ReadFromQueue(ready: seq<HandBack>)
      requires Valid()
      modifies this`agents, this`log, this`failedMaps, memory, memory.bitmap, contextRepr
      ensures Valid() && State() == CompleteAll(old(State()), ready)
    {
      hide VirglContext.Valid, Valid, DoComplete;
      for k := 0 to |ready|
        invariant Valid() && contextRepr == old(contextRepr)
        invariant State() == CompleteAll(old(State()), ready[..k])
      {
        assert ready[..k + 1][..k] == ready[..k];
        var i := Locate(ready[k].tag);
        NotQueued(State(), i, ready[k].address);
        if i < |agents| && agents[i].phase.Queued? {
          Complete(i, ready[k].address);
        }
      }
      assert ready[..|ready|] == ready;
    }
  }

  // What CtlMap does if its resource is gone or still busy.
  lemma EndMapOther(s: Driver, k: nat, outcome: MapOutcome)
    requires k < |s.mappers|
    ensures var r := Lookup(s.contexts, s.mappers[k].ctx, s.mappers[k].res);
            && (r.None? ==> DoEndMap(s, k, outcome) == s.(mappers := Without(s.mappers, k)))
            && (r.Some? && !r.value.state.idle ==> DoEndMap(s, k, outcome) == s)
    ensures forall i, j :: FindContext(s.contexts, s.mappers[k].ctx) == Some(i)
                           && FindResource(s.contexts[i].resources, s.mappers[k].res) == Some(j) ==>
              Lookup(s.contexts, s.mappers[k].ctx, s.mappers[k].res) == Some(s.contexts[i].resources[j])
  {
  }

  lemma MappedIsEffective(r: Resource, outcome: MapOutcome)
    ensures GetsMapped(r, outcome) <==> Effective(r, outcome).Mapped? && Effective(r, outcome).user != 0
    ensures GetsMapped(r, outcome) ==> Effective(r, outcome) == outcome
  {
  }

  // What the map callback does, at the positions of the context and the resource.
  lemma MapCallbackEffect(s: Driver, c: nat, id: nat, address: nat)
    ensures Lookup(s.contexts, c, id).None? ==> MapCallback(s, c, id, address) == s
    ensures forall i, j :: FindContext(s.contexts, c) == Some(i) && FindResource(s.contexts[i].resources, id) == Some(j) ==>
              MapCallback(s, c, id, address)
              == if address == 0 then s.(failedMaps := s.failedMaps + {(c, id)})
                 else s.(log := s.log + [MapIo(id, address, true)],
                         contexts := WithResources(s.contexts, i, s.contexts[i].resources[j := ExposedIdle(s.contexts[i].resources[j], address)]))
  {
  }

  // What CtlMap does once its resource is idle, at the positions of the context and the resource.
  lemma EndMapEffect(s: Driver, k: nat, i: nat, j: nat, outcome: MapOutcome)
    requires k < |s.mappers| && FindContext(s.contexts, s.mappers[k].ctx) == Some(i)
    requires FindResource(s.contexts[i].resources, s.mappers[k].res) == Some(j)
    requires s.contexts[i].resources[j].state.idle
    ensures var r := s.contexts[i].resources[j];
            var r' := Shared(r, outcome, s.nextMdl);
            var s' := DoEndMap(s, k, outcome);
            && s' == CountMdls(s, r, outcome).(mappers := Without(s.mappers, k),
                       contexts := WithResources(s.contexts, i, s.contexts[i].resources[j := r']))
            && Lookup(s'.contexts, s.mappers[k].ctx, s.mappers[k].res) == Some(r')
            && (Effective(r, outcome) == outcome && outcome.Mapped? && outcome.user != 0 ==>
                  r'.mdl == Some(s.nextMdl) && r'.user == outcome.user)
  {
    var (c, id) := (s.mappers[k].ctx, s.mappers[k].res);
    LookupFinds(s.contexts, c, id);
    LookupStore(s.contexts, c, id, Shared(s.contexts[i].resources[j], outcome, s.nextMdl), c, id);
  }

  lemma LogOrder(log: seq<LogEntry>, a: Agent)
    ensures log + Releases(a)
            == (var l := if a.cmd.Submit3D? && a.cmd.handles != [] then log + [FreeHandles(a.tag)] else log;
                var m := if a.cmd.Submit3D? && a.cmd.outFence then l + [SignalFence(a.tag)] else l;
                m + [FreeBuffer(a.tag)])
  {
  }

  lemma DrainStep(s: Driver, c: nat, rs: seq<Resource>)
    ensures Drain(s, c, rs)
            == if rs == [] then s else Drain(DeleteResource(s, c, rs[|rs| - 1]), c, rs[..|rs| - 1])
  {
  }

  lemma DestroyIs(s: Driver, c: nat)
    ensures var i := FindContext(s.contexts, c);
            DoDestroyContext(s, c)
            == if i.None? then s
               else Emit(Drain(s.(contexts := Without(s.contexts, i.value)), c, s.contexts[i.value].resources), CtxDestroy(c))
  {
  }

  lemma RefusedAllocation(a: A.Arena, size: nat)
    ensures A.Allocate(a, size).1.None? ==> A.Allocate(a, size).0 == a
  {
  }

  lemma InsertIs(cs: seq<Context>, c: nat, i: nat, r: Resource)
    requires FindContext(cs, c) == Some(i)
    ensures Insert(cs, c, r) == WithResources(cs, i, [r] + cs[i].resources)
  {
  }
}
