// The driver as one state and one step function. The steps are the ioctl handlers of
// kernelmode/vgpu/control.c and the completion loop of kernelmode/vgpu/vgpu.c.
module DriverState {
  import opened Wrappers
  import opened Paging
  import opened Arena
  import opened FenceRegister
  import Idr

  // UpdateResourceState and MapBlobResourceCallback take no lock and the ioctl queue is
  // dispatched in parallel, so submits, transfers and completions are split at every access to
  // a resource: looking it up and comparing fences, storing the fence, changing the event are
  // steps of their own. CtlMap is split at its wait. A step whose guard fails leaves the state
  // alone, as the error exits of the handlers do.

  // ----- records of kernelmode/vgpu/global.h -----

  // bForBuffer and bForBlob: no buffer, pages of VGPU memory, or host memory that MAP_BLOB
  // makes visible at `address`.
  datatype Backing = NoBuffer | Dma(region: Region) | Blob(address: Option<nat>)

  // VIRGL_RESOURCE. mdl and user are pMdl and UserAdderss of its SHARE_DESCRIPTOR.
  datatype Resource = Resource(id: nat, state: Register, backing: Backing, mdl: Option<nat>, user: nat)

  // VIRGL_CONTEXT, its resources newest first.
  datatype Context = Context(id: nat, resources: seq<Resource>)

  datatype Command =
    | CtxCreate(ctx: nat)
    | CtxDestroy(ctx: nat)
    | GetCapset
    | Create3D(ctx: nat, res: nat)
    | CreateBlob(ctx: nat, res: nat)
    | AttachBacking(ctx: nat, res: nat, region: Region)
    | DetachBacking(res: nat)
    | MapBlob(ctx: nat, res: nat)
    | UnmapBlob(ctx: nat, res: nat)
    | Unref(ctx: nat, res: nat)
    | Transfer(ctx: nat, res: nat, toHost: bool)
    | Submit3D(ctx: nat, handles: seq<nat>, fence: nat, region: Region, outFence: bool)

  // What the update of the next handle does next: look the resource up and compare fences,
  // store what the resource is to hold, change the event.
  datatype Stage = Looking | Storing | Signalling

  // Where a request stands: `done` handles marked busy; in the virtqueue; taken out of it with
  // `done` handles marked idle; its waiter signalled; given up by an error exit after `done`
  // handles were marked busy.
  datatype Phase =
    | Marking(done: nat, stage: Stage)
    | Queued
    | Completing(done: nat, stage: Stage)
    | Awaited
    | Abandoned(done: nat)

  // VGPU_BUFFER. The tag identifies the request for its whole life.
  datatype Agent = Agent(tag: nat, cmd: Command, phase: Phase)

  // A call of CtlMap that has found pMdl null and waits for the resource to be idle.
  datatype Mapper = Mapper(ctx: nat, res: nat)

  // Releases, and the kernel mappings of blobs. `held`: the blob was still there to hold its
  // new address. UnmapIo without an address is a call of MmUnmapIoSpace for a blob that holds none.
  datatype LogEntry =
    | FreeBuffer(tag: nat)
    | FreeHandles(tag: nat)
    | SignalFence(tag: nat)
    | FreeMdl(mdl: nat)
    | MapIo(res: nat, mapped: nat, held: bool)
    | UnmapIo(res: nat, unmapped: Option<nat>)

  // `issued` (commands by tag), `trace` (commands in push order), `log`, `failedMaps` (blobs
  // whose mapping failed) and `lostMdls` (MDLs whose pointer was overwritten) are history.
  datatype Driver = Driver(
    contexts: seq<Context>,
    agents: seq<Agent>,
    mappers: seq<Mapper>,
    arena: Arena,
    resourceIds: Idr.Idr,
    fenceIds: Idr.Idr,
    nextMdl: nat,
    issued: seq<Command>,
    trace: seq<Command>,
    log: seq<LogEntry>,
    failedMaps: set<(nat, nat)>,
    lostMdls: set<nat>)

  ghost function Initial(pages: nat): Driver {
    Driver([], [], [], Arena(seq(pages, _ => false), pages * PAGE_SIZE, 0),
           Idr.Idr(1, []), Idr.Idr(1, []), 0, [], [], [], {}, {})
  }

  // ----- the two intrusive lists, as sequences -----

  // GetVirglContextFromListUnsafe: the position of the first context with this id.
  function FindContext(cs: seq<Context>, c: nat): (r: Option<nat>)
    ensures r.Some? ==> r.value < |cs| && cs[r.value].id == c && forall k :: 0 <= k < r.value ==> cs[k].id != c
    ensures r.None? ==> forall k :: 0 <= k < |cs| ==> cs[k].id != c
  {
    if cs == [] then None
    else if cs[0].id == c then Some(0)
    else var r := FindContext(cs[1..], c); if r.None? then None else Some(r.value + 1)
  }

  // GetResourceFromListUnsafe.
  function FindResource(rs: seq<Resource>, id: nat): (r: Option<nat>)
    ensures r.Some? ==> r.value < |rs| && rs[r.value].id == id && forall k :: 0 <= k < r.value ==> rs[k].id != id
    ensures r.None? ==> forall k :: 0 <= k < |rs| ==> rs[k].id != id
  {
    if rs == [] then None
    else if rs[0].id == id then Some(0)
    else var r := FindResource(rs[1..], id); if r.None? then None else Some(r.value + 1)
  }

  // What a lookup by context and resource id finds.
  function Lookup(cs: seq<Context>, c: nat, id: nat): Option<Resource> {
    var i := FindContext(cs, c);
    if i.None? then None
    else
      var j := FindResource(cs[i.value].resources, id);
      if j.None? then None else Some(cs[i.value].resources[j.value])
  }

  function WithResources(cs: seq<Context>, i: nat, rs: seq<Resource>): seq<Context>
    requires i < |cs|
  {
    cs[i := cs[i].(resources := rs)]
  }

  // Replaces the resource that Lookup(cs, c, id) finds.
  function Store(cs: seq<Context>, c: nat, id: nat, r: Resource): seq<Context>
    requires Lookup(cs, c, id).Some?
  {
    var i := FindContext(cs, c).value;
    WithResources(cs, i, cs[i].resources[FindResource(cs[i].resources, id).value := r])
  }

  // InsertHeadList into the context's resource list.
  function Insert(cs: seq<Context>, c: nat, r: Resource): seq<Context>
    requires FindContext(cs, c).Some?
  {
    var i := FindContext(cs, c).value;
    WithResources(cs, i, [r] + cs[i].resources)
  }

  // RemoveEntryList of the resource that Lookup(cs, c, id) finds.
  function Remove(cs: seq<Context>, c: nat, id: nat): seq<Context>
    requires Lookup(cs, c, id).Some?
  {
    var i := FindContext(cs, c).value;
    var j := FindResource(cs[i].resources, id).value;
    WithResources(cs, i, cs[i].resources[..j] + cs[i].resources[j + 1..])
  }

  // ----- UpdateResourceState -----

  // The whole update of one resource, without interference.
  function Mark(r: Resource, u: Update): Resource {
    r.(state := Apply(r.state, u))
  }

  // A single store of it, if the resource is still there.
  function WriteOne(cs: seq<Context>, c: nat, id: nat, w: Write): seq<Context> {
    var r := Lookup(cs, c, id);
    if r.None? then cs else Store(cs, c, id, r.value.(state := Written(r.value.state, w)))
  }

  // The resources a command marks busy before it is pushed.
  function Marks(cmd: Command): seq<nat> {
    match cmd
    case Transfer(_, res, _) => [res]
    case Submit3D(_, handles, _, _, _) => handles
    case _ => []
  }

  // The resources that the completion of a command marks idle.
  function IdleMarks(cmd: Command): seq<nat> {
    if cmd.MapBlob? then [cmd.res] else Marks(cmd)
  }

  // The handles of the loop that a request is in.
  function Targets(a: Agent): seq<nat> {
    if a.phase.Marking? then Marks(a.cmd) else if a.phase.Completing? then IdleMarks(a.cmd) else []
  }

  predicate Updating(a: Agent) {
    (a.phase.Marking? || a.phase.Completing?) && a.phase.done < |Targets(a)|
  }

  // The next handle of the loop.
  function Target(a: Agent): nat
    requires Updating(a)
  {
    Targets(a)[a.phase.done]
  }

  // The request is between its look at resource (c, id) and the change of the event.
  predicate InUpdate(a: Agent, c: nat, id: nat) {
    Updating(a) && !a.phase.stage.Looking? && ContextOf(a.cmd) == c && Target(a) == id
  }

  function FenceOf(cmd: Command): nat {
    if cmd.Submit3D? then cmd.fence else 0
  }

  // The context id a completion looks up. DETACH_BACKING leaves the field at zero.
  function ContextOf(cmd: Command): nat {
    match cmd
    case GetCapset => 0
    case DetachBacking(_) => 0
    case _ => cmd.ctx
  }

  // ----- emitting commands and deleting resources -----

  function AddAgent(s: Driver, cmd: Command, phase: Phase): Driver {
    s.(agents := s.agents + [Agent(|s.issued|, cmd, phase)], issued := s.issued + [cmd])
  }

  // The emitters of command.c: allocate a buffer, fill it and push it.
  function Emit(s: Driver, cmd: Command): Driver {
    AddAgent(s, cmd, Queued).(trace := s.trace + [cmd])
  }

  // DeleteUserShareMemory, called for a resource with a buffer and a non-null pMdl.
  function UnmapUser(s: Driver, r: Resource): Driver {
    if r.backing.NoBuffer? || r.mdl.None? || r.user == 0 then s
    else s.(log := s.log + [FreeMdl(r.mdl.value)])
  }

  // The branch of DeleteResource on the kind of buffer.
  ghost function ReleaseBacking(s: Driver, c: nat, r: Resource): Driver {
    match r.backing
    case NoBuffer => s
    case Dma(g) => Emit(s, DetachBacking(r.id)).(arena := Free(s.arena, g.start, g.pages * PAGE_SIZE))
    case Blob(address) =>
      var t := Emit(s, UnmapBlob(c, r.id));
      t.(log := t.log + [UnmapIo(r.id, address)])
  }

  ghost function DeleteResource(s: Driver, c: nat, r: Resource): Driver {
    Emit(ReleaseBacking(UnmapUser(s, r), c, r), Unref(c, r.id))
  }

  // The loop of CtlDestroyVirglContext: RemoveTailList until the list is empty.
  ghost function Drain(s: Driver, c: nat, rs: seq<Resource>): Driver
    decreases |rs|
  {
    if rs == [] then s
    else Drain(DeleteResource(s, c, rs[|rs| - 1]), c, rs[..|rs| - 1])
  }

  // ----- steps -----

  datatype Op =
    | InitContext(ctx: nat)
    | DestroyContext(ctx: nat)
    | QueryCapset
    | CreateResource(ctx: nat, size: nat)
    | CreateBlobResource(ctx: nat)
    | CloseResource(ctx: nat, res: nat)
    | BeginMap(ctx: nat, res: nat)
    | EndMap(mapper: nat, outcome: MapOutcome)
    | BeginTransfer(ctx: nat, res: nat, toHost: bool)
    | BeginSubmit(ctx: nat, size: nat, outFence: bool, handles: seq<nat>)
    | Look(agent: nat)
    | StoreFence(agent: nat)
    | SignalEvent(agent: nat)
    | MapIoSpace(agent: nat, address: nat)
    | Push(agent: nat)
    | Abandon(agent: nat)
    | Dequeue(agent: nat)
    | Finish(agent: nat)
    | Collect(agent: nat)

  // CreateUserShareMemory: no MDL; an MDL but an exception; the result of the mapping call, 0
  // if that failed.
  datatype MapOutcome = NoMdl | NoMapping | Mapped(user: nat)

  ghost function DoInitContext(s: Driver, c: nat): Driver {
    if FindContext(s.contexts, c).Some? then s
    else Emit(s.(contexts := [Context(c, [])] + s.contexts), CtxCreate(c))
  }

  ghost function DoDestroyContext(s: Driver, c: nat): Driver {
    var i := FindContext(s.contexts, c);
    if i.None? then s
    else
      var rs := s.contexts[i.value].resources;
      Emit(Drain(s.(contexts := Without(s.contexts, i.value)), c, rs), CtxDestroy(c))
  }

  // The number of bytes CtlCreateResource asks the allocator for.
  function BufferBytes(size: nat): nat
    requires size < WORD
  {
    if size == 0 then PAGE_SIZE else RoundUp(size)
  }

  // A size of 1 asks for a resource without buffer. When the allocator fails, the id is spent
  // and RESOURCE_CREATE_3D has been pushed.
  ghost function DoCreateResource(s: Driver, c: nat, size: nat): Driver {
    if FindContext(s.contexts, c).None? || size >= WORD then s
    else
      var (ids, id) := Idr.GetWithoutCache(s.resourceIds, 4);
      var created := Emit(s.(resourceIds := ids), Create3D(c, id));
      var plain := Resource(id, Register(true, 0), NoBuffer, None, 0);
      if size == 1 then created.(contexts := Insert(s.contexts, c, plain))
      else
        var (arena, g) := Allocate(s.arena, BufferBytes(size));
        if g.None? then created
        else
          var backed := Emit(created.(arena := arena), AttachBacking(c, id, g.value));
          backed.(contexts := Insert(s.contexts, c, plain.(backing := Dma(g.value))))
  }

  // A blob is busy until its MAP_BLOB completes.
  ghost function DoCreateBlob(s: Driver, c: nat): Driver {
    if FindContext(s.contexts, c).None? then s
    else
      var (ids, id) := Idr.GetWithoutCache(s.resourceIds, 4);
      var created := Emit(s.(resourceIds := ids), CreateBlob(c, id));
      var blob := Resource(id, Register(false, 0), Blob(None), None, 0);
      Emit(created.(contexts := Insert(s.contexts, c, blob)), MapBlob(c, id))
  }

  ghost function DoClose(s: Driver, c: nat, id: nat): Driver {
    var r := Lookup(s.contexts, c, id);
    if r.None? then s
    else DeleteResource(s.(contexts := Remove(s.contexts, c, id)), c, r.value)
  }

  // CtlMap up to its wait. A resource without buffer is refused, a mapped one has its address
  // returned.
  function DoBeginMap(s: Driver, c: nat, id: nat): Driver {
    var r := Lookup(s.contexts, c, id);
    if r.None? || r.value.backing.NoBuffer? || r.value.mdl.Some? then s
    else s.(mappers := s.mappers + [Mapper(c, id)])
  }

  // A resource with an empty buffer gets no MDL.
  function Effective(r: Resource, outcome: MapOutcome): MapOutcome {
    if r.backing.Dma? && r.backing.region.pages == 0 then NoMdl else outcome
  }

  // SHARE_DESCRIPTOR after CtlMap has gone on. pMdl is written in every case.
  function Shared(r: Resource, outcome: MapOutcome, mdl: nat): Resource {
    match Effective(r, outcome)
    case NoMdl => r.(mdl := None)
    case NoMapping => r.(mdl := None)
    case Mapped(user) => r.(mdl := if user == 0 then None else Some(mdl), user := user)
  }

  // What becomes of the MDLs: a failed mapping frees the new one at once, and the one that
  // another call of CtlMap has stored in the meantime is lost.
  function CountMdls(s: Driver, r: Resource, outcome: MapOutcome): Driver {
    var o := Effective(r, outcome);
    s.(nextMdl := if o.NoMdl? then s.nextMdl else s.nextMdl + 1,
       log := if o.NoMapping? || o == Mapped(0) then s.log + [FreeMdl(s.nextMdl)] else s.log,
       lostMdls := if r.mdl.Some? then s.lostMdls + {r.mdl.value} else s.lostMdls)
  }

  // CtlMap from its wait on: blocked while the resource is busy. pMdl is not tested again.
  function DoEndMap(s: Driver, k: nat, outcome: MapOutcome): Driver {
    if k >= |s.mappers| then s
    else
      var (c, id) := (s.mappers[k].ctx, s.mappers[k].res);
      var r := Lookup(s.contexts, c, id);
      var t := s.(mappers := Without(s.mappers, k));
      if r.None? then t
      else if !r.value.state.idle then s
      else CountMdls(t, r.value, outcome).(contexts := Store(s.contexts, c, id, Shared(r.value, outcome, s.nextMdl)))
  }

  ghost function DoBeginTransfer(s: Driver, c: nat, id: nat, toHost: bool): Driver {
    if Lookup(s.contexts, c, id).None? then s
    else AddAgent(s, Transfer(c, id, toHost), Marking(0, Looking))
  }

  // Command memory first, then the fence id, which only a submit with an out-fence takes.
  ghost function DoBeginSubmit(s: Driver, c: nat, size: nat, outFence: bool, handles: seq<nat>): Driver {
    if FindContext(s.contexts, c).None? || size >= WORD then s
    else
      var (arena, g) := Allocate(s.arena, RoundUp(size));
      if g.None? then s
      else
        var (fences, fence) := if outFence then Idr.GetWithoutCache(s.fenceIds, 8) else (s.fenceIds, 0);
        AddAgent(s.(arena := arena, fenceIds := fences),
                 Submit3D(c, handles, fence, g.value, outFence), Marking(0, Looking))
  }

  function SetPhase(s: Driver, i: nat, phase: Phase): Driver
    requires i < |s.agents|
  {
    s.(agents := s.agents[i := s.agents[i].(phase := phase)])
  }

  // On to the next handle.
  function Onward(p: Phase): Phase
    requires p.Marking? || p.Completing?
  {
    p.(done := p.done + 1, stage := Looking)
  }

  // What UpdateResourceState decides when it looks at the next resource, and
  // MapBlobResourceCallback when it looks for its blob.
  function Decided(a: Agent, r: Option<Resource>): Phase
    requires Updating(a)
  {
    if r.None? then Onward(a.phase)
    else if a.cmd.MapBlob? then a.phase.(stage := Storing)
    else if FenceOf(a.cmd) == 0 then a.phase.(stage := Signalling)
    else if FenceOf(a.cmd) >= r.value.state.fence then a.phase.(stage := Storing)
    else Onward(a.phase)
  }

  function DoLook(s: Driver, i: nat): Driver {
    if i >= |s.agents| || !Updating(s.agents[i]) || !s.agents[i].phase.stage.Looking? then s
    else
      var a := s.agents[i];
      SetPhase(s, i, Decided(a, Lookup(s.contexts, ContextOf(a.cmd), Target(a))))
  }

  function DoStoreFence(s: Driver, i: nat): Driver {
    if i >= |s.agents| || !Updating(s.agents[i]) || !s.agents[i].phase.stage.Storing? || s.agents[i].cmd.MapBlob? then s
    else
      var a := s.agents[i];
      SetPhase(s, i, a.phase.(stage := Signalling))
      .(contexts := WriteOne(s.contexts, ContextOf(a.cmd), Target(a), Record(FenceOf(a.cmd))))
  }

  function DoSignal(s: Driver, i: nat): Driver {
    if i >= |s.agents| || !Updating(s.agents[i]) || !s.agents[i].phase.stage.Signalling? then s
    else
      var a := s.agents[i];
      SetPhase(s, i, Onward(a.phase))
      .(contexts := WriteOne(s.contexts, ContextOf(a.cmd), Target(a), Signal(a.phase.Marking?)))
  }

  // A blob that MmMapIoSpaceEx has mapped.
  function Exposed(r: Resource, address: nat): Resource {
    r.(backing := Blob(Some(address)))
  }

  // MmMapIoSpaceEx and the store of its result, if the blob is still there. Address 0 stands
  // for a failure.
  function DoMapIoSpace(s: Driver, i: nat, address: nat): Driver {
    if i >= |s.agents| || !Updating(s.agents[i]) || !s.agents[i].phase.stage.Storing? || !s.agents[i].cmd.MapBlob? then s
    else
      var a := s.agents[i];
      var (c, id) := (a.cmd.ctx, a.cmd.res);
      var r := Lookup(s.contexts, c, id);
      if address == 0 then SetPhase(s, i, Completing(1, Looking)).(failedMaps := s.failedMaps + {(c, id)})
      else
        SetPhase(s, i, Completing(0, Signalling))
        .(contexts := if r.None? then s.contexts else Store(s.contexts, c, id, Exposed(r.value, address)),
          log := s.log + [MapIo(id, address, r.Some?)])
  }

  function DoPush(s: Driver, i: nat): Driver {
    if i >= |s.agents| || s.agents[i].phase != Marking(|Marks(s.agents[i].cmd)|, Looking) then s
    else SetPhase(s, i, Queued).(trace := s.trace + [s.agents[i].cmd])
  }

  // The exits of CtlSubmitCommand between the allocation and the push, and a failed push.
  function DoAbandon(s: Driver, i: nat): Driver {
    if i >= |s.agents| || !s.agents[i].phase.Marking? || !s.agents[i].phase.stage.Looking? then s
    else if s.agents[i].phase.done != 0 && s.agents[i].phase.done != |Marks(s.agents[i].cmd)| then s
    else SetPhase(s, i, Abandoned(s.agents[i].phase.done))
  }

  // virtqueue_get_buf hands out any command the device has finished.
  function DoDequeue(s: Driver, i: nat): Driver {
    if i >= |s.agents| || !s.agents[i].phase.Queued? then s
    else SetPhase(s, i, if s.agents[i].cmd.GetCapset? then Awaited else Completing(0, Looking))
  }

  function RemoveAgent(s: Driver, i: nat): Driver
    requires i < |s.agents|
  {
    s.(agents := Without(s.agents, i))
  }

  // What the completion loop releases besides VGPU memory.
  function Releases(a: Agent): seq<LogEntry> {
    (if a.cmd.Submit3D? && a.cmd.handles != [] then [FreeHandles(a.tag)] else [])
    + (if a.cmd.Submit3D? && a.cmd.outFence then [SignalFence(a.tag)] else [])
    + [FreeBuffer(a.tag)]
  }

  ghost function DoFinish(s: Driver, i: nat): Driver {
    if i >= |s.agents| then s
    else
      var a := s.agents[i];
      if a.phase != Completing(|IdleMarks(a.cmd)|, Looking) then s
      else
        var done := RemoveAgent(s, i).(log := s.log + Releases(a));
        if !a.cmd.Submit3D? then done
        else done.(arena := Free(s.arena, a.cmd.region.start, a.cmd.region.pages * PAGE_SIZE))
  }

  // The waiter of a capset query frees the buffer after its event was set.
  function DoCollect(s: Driver, i: nat): Driver {
    if i >= |s.agents| || !s.agents[i].phase.Awaited? || !s.agents[i].cmd.GetCapset? then s
    else RemoveAgent(s, i).(log := s.log + [FreeBuffer(s.agents[i].tag)])
  }

  ghost function Next(s: Driver, op: Op): Driver {
    match op
    case InitContext(c) => DoInitContext(s, c)
    case DestroyContext(c) => DoDestroyContext(s, c)
    case QueryCapset => Emit(s, GetCapset)
    case CreateResource(c, size) => DoCreateResource(s, c, size)
    case CreateBlobResource(c) => DoCreateBlob(s, c)
    case CloseResource(c, id) => DoClose(s, c, id)
    case BeginMap(c, id) => DoBeginMap(s, c, id)
    case EndMap(k, outcome) => DoEndMap(s, k, outcome)
    case BeginTransfer(c, id, toHost) => DoBeginTransfer(s, c, id, toHost)
    case BeginSubmit(c, size, outFence, handles) => DoBeginSubmit(s, c, size, outFence, handles)
    case Look(i) => DoLook(s, i)
    case StoreFence(i) => DoStoreFence(s, i)
    case SignalEvent(i) => DoSignal(s, i)
    case MapIoSpace(i, address) => DoMapIoSpace(s, i, address)
    case Push(i) => DoPush(s, i)
    case Abandon(i) => DoAbandon(s, i)
    case Dequeue(i) => DoDequeue(s, i)
    case Finish(i) => DoFinish(s, i)
    case Collect(i) => DoCollect(s, i)
  }

  ghost function Run(s: Driver, ops: seq<Op>): Driver
    decreases |ops|
  {
    if ops == [] then s else Run(Next(s, ops[0]), ops[1..])
  }
}
