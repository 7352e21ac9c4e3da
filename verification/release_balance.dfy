// The balance behind the results of module Release: for each single release, how often it is in
// the log and who still holds the duty to perform it add up to how often it became due. Every
// step of the machine keeps the balance, as each duty is handed on or performed: a request takes
// its duties with it until it completes, a resource holds the duty to free its MDL and to undo
// its kernel mapping until it is deleted, and the MDL that a second call of CtlMap overwrites
// is no one's to free any more.
module ReleaseBalance {
  import opened Wrappers
  import opened Paging
  import opened Arena
  import opened FenceRegister
  import opened Sums
  import opened Weights
  import opened DriverState
  import opened ResourceTable
  import opened BaseInvariant
  import opened Requests
  import Idr

  // The releases that the completion of a request has to perform.
  predicate Owes(cmd: Command, tag: nat, rel: LogEntry) {
    match rel
    case FreeBuffer(t) => t == tag
    case FreeHandles(t) => t == tag && cmd.Submit3D? && cmd.handles != []
    case SignalFence(t) => t == tag && cmd.Submit3D? && cmd.outFence
    case _ => false
  }

  function RequestDuty(rel: LogEntry): Agent -> nat {
    (a: Agent) => if Owes(a.cmd, a.tag, rel) then 1 else 0
  }

  function ResourceDuty(rel: LogEntry): Resource -> nat {
    match rel
    case FreeMdl(m) => (r: Resource) => if r.mdl == Some(m) then 1 else 0
    case UnmapIo(id, address) =>
      (r: Resource) => if address.Some? && r.id == id && r.backing == Blob(address) then 1 else 0
    case _ => (r: Resource) => 0
  }

  function Held(s: Driver, rel: LogEntry): nat {
    Sum(s.contexts, ContextSum(ResourceDuty(rel))) + Sum(s.agents, RequestDuty(rel))
  }

  // How often the release became due in the course of the run. A mapping whose blob is gone by
  // then is no one's to undo.
  function Due(s: Driver, rel: LogEntry): nat {
    match rel
    case FreeMdl(m) => if m < s.nextMdl && m !in s.lostMdls then 1 else 0
    case UnmapIo(id, address) => if address.Some? then multiset(s.log)[MapIo(id, address.value, true)] else 0
    case MapIo(_, _, _) => 0
    case _ => if rel.tag < |s.issued| && Owes(s.issued[rel.tag], rel.tag, rel) then 1 else 0
  }

  function Done(s: Driver, rel: LogEntry): nat {
    multiset(s.log)[rel]
  }

  // Mappings are no releases, and an unmapping without address releases nothing.
  predicate Audited(rel: LogEntry) {
    !rel.MapIo? && (rel.UnmapIo? ==> rel.unmapped.Some?)
  }

  ghost predicate Balance(s: Driver, rel: LogEntry) {
    Audited(rel) ==> Done(s, rel) + Held(s, rel) == Due(s, rel)
  }

  // Mapped resources have a buffer and a user address, so DeleteUserShareMemory frees them.
  function Unfreeable(): Resource -> nat {
    (r: Resource) => if r.mdl.Some? && (r.user == 0 || r.backing.NoBuffer?) then 1 else 0
  }

  ghost predicate Tagged(s: Driver) {
    forall k :: 0 <= k < |s.agents| ==>
      s.agents[k].tag < |s.issued| && s.issued[s.agents[k].tag] == s.agents[k].cmd
  }

  ghost predicate LostIssued(s: Driver) {
    forall m :: m in s.lostMdls ==> m < s.nextMdl
  }

  // A call of CtlMap that waits has found a buffer.
  ghost predicate MappersHaveBuffer(s: Driver) {
    forall k :: 0 <= k < |s.mappers| ==>
      var r := Lookup(s.contexts, s.mappers[k].ctx, s.mappers[k].res);
      s.mappers[k].res < s.resourceIds.next && (r.Some? ==> !r.value.backing.NoBuffer?)
  }

  ghost predicate Balanced(s: Driver) {
    && Tagged(s) && LostIssued(s)
    && Sum(s.contexts, ContextSum(Unfreeable())) == 0
    && forall rel :: Balance(s, rel)
  }

  // ----- requests -----

  lemma AddAgentBalanced(s: Driver, cmd: Command, phase: Phase)
    requires Balanced(s)
    ensures Balanced(AddAgent(s, cmd, phase))
  {
    var s' := AddAgent(s, cmd, phase);
    forall rel
      ensures Balance(s', rel)
    {
      SumPush(s.agents, Agent(|s.issued|, cmd, phase), RequestDuty(rel));
      assert Balance(s, rel);
    }
  }

  lemma EmitBalanced(s: Driver, cmd: Command)
    requires Balanced(s)
    ensures Balanced(Emit(s, cmd))
  {
    AddAgentBalanced(s, cmd, Queued);
    var t := AddAgent(s, cmd, Queued);
    SameDuties(t, Emit(s, cmd));
  }

  // Nothing that the balance counts has changed.
  lemma SameDuties(s: Driver, s': Driver)
    requires Balanced(s) && Tagged(s')
    requires s'.log == s.log && s'.issued == s.issued && s'.nextMdl == s.nextMdl && s'.lostMdls == s.lostMdls
    requires forall rel :: Held(s', rel) == Held(s, rel)
    requires Sum(s'.contexts, ContextSum(Unfreeable())) == Sum(s.contexts, ContextSum(Unfreeable()))
    ensures Balanced(s')
  {
    forall rel
      ensures Balance(s', rel)
    {
      assert Held(s', rel) == Held(s, rel);
      assert Balance(s, rel);
    }
  }

  lemma PhaseBalanced(s: Driver, i: nat, phase: Phase)
    requires Balanced(s) && i < |s.agents|
    ensures Balanced(SetPhase(s, i, phase))
  {
    forall rel
      ensures Held(SetPhase(s, i, phase), rel) == Held(s, rel)
    {
      SumUpdate(s.agents, i, s.agents[i].(phase := phase), RequestDuty(rel));
    }
    SameDuties(s, SetPhase(s, i, phase));
  }

  // A request leaves and performs exactly what it owed.
  lemma PerformedBalanced(s: Driver, s': Driver, i: nat, done: seq<LogEntry>)
    requires Balanced(s) && i < |s.agents|
    requires forall rel :: multiset(done)[rel] == RequestDuty(rel)(s.agents[i])
    requires s'.agents == Without(s.agents, i) && s'.log == s.log + done
    requires s'.contexts == s.contexts && s'.issued == s.issued && s'.nextMdl == s.nextMdl && s'.lostMdls == s.lostMdls
    ensures Balanced(s')
  {
    assert forall k :: 0 <= k < |s'.agents| ==> s'.agents[k] == s.agents[if k < i then k else k + 1];
    assert multiset(s'.log) == multiset(s.log) + multiset(done);
    forall rel
      ensures Balance(s', rel)
    {
      SumRemove(s.agents, i, RequestDuty(rel));
      assert Balance(s, rel);
      if rel.UnmapIo? && rel.unmapped.Some? {
        assert multiset(done)[MapIo(rel.res, rel.unmapped.value, true)] == 0;
      }
    }
  }

  // ----- resources -----

  lemma StoreBalanced(s: Driver, c: nat, id: nat, r: Resource)
    requires Balanced(s) && Lookup(s.contexts, c, id).Some?
    requires var q := Lookup(s.contexts, c, id).value;
             r.id == q.id && r.mdl == q.mdl && r.user == q.user && r.backing == q.backing
    ensures Balanced(s.(contexts := Store(s.contexts, c, id, r)))
  {
    var s' := s.(contexts := Store(s.contexts, c, id, r));
    StoreWeight(s.contexts, c, id, r, Unfreeable());
    forall rel
      ensures Held(s', rel) == Held(s, rel)
    {
      StoreWeight(s.contexts, c, id, r, ResourceDuty(rel));
    }
    SameDuties(s, s');
  }

  lemma WriteBalanced(s: Driver, i: nat, phase: Phase, c: nat, id: nat, w: Write)
    requires Balanced(s) && i < |s.agents|
    ensures Balanced(SetPhase(s, i, phase).(contexts := WriteOne(s.contexts, c, id, w)))
  {
    PhaseBalanced(s, i, phase);
    var t := SetPhase(s, i, phase);
    var r := Lookup(s.contexts, c, id);
    if r.Some? {
      StoreBalanced(t, c, id, r.value.(state := Written(r.value.state, w)));
    }
  }

  lemma InsertBalanced(s: Driver, c: nat, r: Resource)
    requires Balanced(s) && FindContext(s.contexts, c).Some? && r.mdl.None?
    requires r.backing.Blob? ==> r.backing.address.None?
    ensures Balanced(s.(contexts := Insert(s.contexts, c, r)))
  {
    var s' := s.(contexts := Insert(s.contexts, c, r));
    InsertWeight(s.contexts, c, r, Unfreeable());
    forall rel
      ensures Held(s', rel) == Held(s, rel)
    {
      InsertWeight(s.contexts, c, r, ResourceDuty(rel));
    }
    SameDuties(s, s');
  }

  // A call of CtlMap that goes on.
  predicate GoesOn(s: Driver, k: nat) {
    k < |s.mappers| && var r := Lookup(s.contexts, s.mappers[k].ctx, s.mappers[k].res); r.Some? && r.value.state.idle
  }

  // A new MDL is either held by the resource or freed at once. The one that was there is lost.
  lemma EndMapBalance(s: Driver, k: nat, outcome: MapOutcome, rel: LogEntry)
    requires Balanced(s) && GoesOn(s, k)
    ensures Balance(DoEndMap(s, k, outcome), rel)
  {
    hide Sum, Lookup, ResourceDuty, Held, DoEndMap, Owes;
    var (c, id) := (s.mappers[k].ctx, s.mappers[k].res);
    var r := Lookup(s.contexts, c, id).value;
    assert Balance(s, rel);
    EndMapCounts(s, k, outcome);
    EndMapHeld(s, k, outcome, rel);
    SharedDuty(s, c, id, outcome, rel);
    MdlLog(s, r, outcome, rel);
    if rel.UnmapIo? && rel.unmapped.Some? {
      MdlLog(s, r, outcome, MapIo(rel.res, rel.unmapped.value, true));
    }
  }

  lemma EndMapCounts(s: Driver, k: nat, outcome: MapOutcome)
    requires GoesOn(s, k)
    ensures var r := Lookup(s.contexts, s.mappers[k].ctx, s.mappers[k].res).value;
            var (s', t) := (DoEndMap(s, k, outcome), CountMdls(s, r, outcome));
            s'.log == t.log && s'.nextMdl == t.nextMdl && s'.lostMdls == t.lostMdls && s'.issued == t.issued
  {
    hide Lookup, Store, Shared, Effective;
  }

  lemma EndMapHeld(s: Driver, k: nat, outcome: MapOutcome, rel: LogEntry)
    requires GoesOn(s, k)
    ensures var (c, id) := (s.mappers[k].ctx, s.mappers[k].res);
            var r := Lookup(s.contexts, c, id).value;
            Held(DoEndMap(s, k, outcome), rel) + ResourceDuty(rel)(r)
            == Held(s, rel) + ResourceDuty(rel)(Shared(r, outcome, s.nextMdl))
  {
    hide Sum, Store, Lookup, ResourceDuty, RequestDuty, Shared, Effective;
    var (c, id) := (s.mappers[k].ctx, s.mappers[k].res);
    StoreWeight(s.contexts, c, id, Shared(Lookup(s.contexts, c, id).value, outcome, s.nextMdl), ResourceDuty(rel));
  }

  lemma MdlLog(s: Driver, r: Resource, outcome: MapOutcome, rel: LogEntry)
    ensures var s' := CountMdls(s, r, outcome);
            Done(s', rel) == Done(s, rel) + if s'.log != s.log && rel == FreeMdl(s.nextMdl) then 1 else 0
  {
    assert multiset(s.log + [FreeMdl(s.nextMdl)]) == multiset(s.log) + multiset([FreeMdl(s.nextMdl)]);
  }

  // Only the old and the new MDL change hands.
  lemma SharedDuty(s: Driver, c: nat, id: nat, outcome: MapOutcome, rel: LogEntry)
    requires Balanced(s) && Lookup(s.contexts, c, id).Some?
    ensures var r := Lookup(s.contexts, c, id).value;
            var r' := Shared(r, outcome, s.nextMdl);
            && (!rel.FreeMdl? ==> ResourceDuty(rel)(r') == ResourceDuty(rel)(r))
            && (rel.FreeMdl? ==> ResourceDuty(rel)(r) == (if r.mdl == Some(rel.mdl) then 1 else 0)
                                 && ResourceDuty(rel)(r') == (if r'.mdl == Some(rel.mdl) then 1 else 0))
            && (r.mdl.Some? ==> r.mdl.value < s.nextMdl && r.mdl.value !in s.lostMdls)
  {
    hide Lookup;
    MdlIssued(s, c, id);
  }

  lemma EndMapBalanced(s: Driver, k: nat, outcome: MapOutcome)
    requires Balanced(s) && MappersHaveBuffer(s)
    ensures Balanced(DoEndMap(s, k, outcome))
  {
    hide Sum, Store, Lookup, Balance;
    var s' := DoEndMap(s, k, outcome);
    if GoesOn(s, k) {
      var (c, id) := (s.mappers[k].ctx, s.mappers[k].res);
      var r := Lookup(s.contexts, c, id).value;
      var r' := Shared(r, outcome, s.nextMdl);
      StoreWeight(s.contexts, c, id, r', Unfreeable());
      assert Unfreeable()(r') == 0;
      MdlIssued(s, c, id);
      forall rel
        ensures Balance(s', rel)
      {
        EndMapBalance(s, k, outcome, rel);
      }
    } else {
      SameDuties(s, s');
    }
  }

  lemma MdlIssued(s: Driver, c: nat, id: nat)
    requires Balanced(s) && Lookup(s.contexts, c, id).Some?
    ensures var r := Lookup(s.contexts, c, id).value;
            r.mdl.Some? ==> r.mdl.value < s.nextMdl && Due(s, FreeMdl(r.mdl.value)) == 1
  {
    var r := Lookup(s.contexts, c, id).value;
    if r.mdl.Some? {
      assert Balance(s, FreeMdl(r.mdl.value));
      RemoveWeight(s.contexts, c, id, ResourceDuty(FreeMdl(r.mdl.value)));
    }
  }

  // What DeleteResource releases.
  function DeleteLog(r: Resource): seq<LogEntry> {
    (if r.backing.NoBuffer? || r.mdl.None? || r.user == 0 then [] else [FreeMdl(r.mdl.value)])
    + (if r.backing.Blob? then [UnmapIo(r.id, r.backing.address)] else [])
  }

  function Taken(s: Driver, c: nat, id: nat): Driver
    requires Lookup(s.contexts, c, id).Some?
  {
    s.(contexts := Remove(s.contexts, c, id), log := s.log + DeleteLog(Lookup(s.contexts, c, id).value))
  }

  lemma DeleteLogDone(r: Resource, rel: LogEntry)
    requires Unfreeable()(r) == 0
    ensures Audited(rel) ==> multiset(DeleteLog(r))[rel] == ResourceDuty(rel)(r)
    ensures rel.MapIo? ==> multiset(DeleteLog(r))[rel] == 0
  {
  }

  lemma TakenBalance(s: Driver, c: nat, id: nat, rel: LogEntry)
    requires Lookup(s.contexts, c, id).Some? && Unfreeable()(Lookup(s.contexts, c, id).value) == 0 && Balance(s, rel)
    ensures Balance(Taken(s, c, id), rel)
  {
    hide Sum, Remove, Lookup, DeleteLog, ResourceDuty, Unfreeable;
    var r := Lookup(s.contexts, c, id).value;
    RemoveWeight(s.contexts, c, id, ResourceDuty(rel));
    assert multiset(Taken(s, c, id).log) == multiset(s.log) + multiset(DeleteLog(r));
    DeleteLogDone(r, rel);
    if rel.UnmapIo? && rel.unmapped.Some? {
      DeleteLogDone(r, MapIo(rel.res, rel.unmapped.value, true));
    }
  }

  // Taking a resource off its list hands its MDL and its kernel mapping to the log.
  lemma TakenBalanced(s: Driver, c: nat, id: nat)
    requires Balanced(s) && Lookup(s.contexts, c, id).Some?
    ensures Balanced(Taken(s, c, id))
  {
    hide Sum, Remove, Lookup, Balance, DeleteLog;
    RemoveWeight(s.contexts, c, id, Unfreeable());
    forall rel
      ensures Balance(Taken(s, c, id), rel)
    {
      TakenBalance(s, c, id, rel);
    }
  }

  lemma ArenaBalanced(s: Driver, arena: Arena)
    requires Balanced(s)
    ensures Balanced(s.(arena := arena))
  {
    var s' := s.(arena := arena);
    assert forall rel :: Held(s', rel) == Held(s, rel);
    SameDuties(s, s');
  }

  // DeleteResource: the releases and then the commands.
  lemma DeleteIs(s: Driver, c: nat, r: Resource)
    ensures var t := s.(log := s.log + DeleteLog(r));
            DeleteResource(s, c, r) ==
            match r.backing
            case NoBuffer => Emit(t, Unref(c, r.id))
            case Dma(g) => Emit(Emit(t, DetachBacking(r.id)).(arena := Free(s.arena, g.start, g.pages * PAGE_SIZE)),
                                Unref(c, r.id))
            case Blob(_) => Emit(Emit(t, UnmapBlob(c, r.id)), Unref(c, r.id))
  {
    hide Free;
    var freed := UnmapUser(s, r).log;
    assert s.log + DeleteLog(r) == if r.backing.Blob? then freed + [UnmapIo(r.id, r.backing.address)] else freed;
  }

  lemma CloseBalanced(s: Driver, c: nat, id: nat)
    requires Balanced(s)
    ensures Balanced(DoClose(s, c, id))
  {
    hide Free, Balanced, DeleteResource;
    if Lookup(s.contexts, c, id).Some? {
      var r := Lookup(s.contexts, c, id).value;
      TakenBalanced(s, c, id);
      assert Taken(s, c, id) == s.(contexts := Remove(s.contexts, c, id), log := s.log + DeleteLog(r));
      var removed := s.(contexts := Remove(s.contexts, c, id));
      DeleteIs(removed, c, r);
      var t := removed.(log := s.log + DeleteLog(r));
      EmitBalanced(t, Unref(c, r.id));
      match r.backing {
        case NoBuffer =>
        case Dma(g) =>
          var u := Emit(t, DetachBacking(r.id));
          EmitBalanced(t, DetachBacking(r.id));
          ArenaBalanced(u, Free(s.arena, g.start, g.pages * PAGE_SIZE));
          EmitBalanced(u.(arena := Free(s.arena, g.start, g.pages * PAGE_SIZE)), Unref(c, r.id));
        case Blob(_) =>
          EmitBalanced(t, UnmapBlob(c, r.id));
          EmitBalanced(Emit(t, UnmapBlob(c, r.id)), Unref(c, r.id));
      }
    }
  }

  lemma {:induction false} CloseEachBalanced(s: Driver, c: nat, rs: seq<Resource>)
    requires Balanced(s)
    ensures Balanced(CloseEach(s, c, rs))
    decreases |rs|
  {
    if rs != [] {
      CloseBalanced(s, c, rs[|rs| - 1].id);
      CloseEachBalanced(DoClose(s, c, rs[|rs| - 1].id), c, rs[..|rs| - 1]);
    }
  }

  lemma DestroyBalanced(s: Driver, c: nat)
    requires Balanced(s) && Base(s)
    ensures Balanced(DoDestroyContext(s, c))
  {
    var i := FindContext(s.contexts, c);
    if i.Some? {
      var rs := s.contexts[i.value].resources;
      DestroyIsCloses(s, s.resourceIds.next, c);
      CloseEachBalanced(s, c, rs);
      var t := CloseEach(s, c, rs);
      var u := DropContext(t, i.value);
      SumRemove(t.contexts, i.value, ContextSum(Unfreeable()));
      forall rel
        ensures Held(u, rel) == Held(t, rel)
      {
        SumRemove(t.contexts, i.value, ContextSum(ResourceDuty(rel)));
      }
      SameDuties(t, u);
      EmitBalanced(u, CtxDestroy(c));
    }
  }

  lemma InitContextBalanced(s: Driver, c: nat)
    requires Balanced(s)
    ensures Balanced(DoInitContext(s, c))
  {
    if FindContext(s.contexts, c).None? {
      var t := s.(contexts := [Context(c, [])] + s.contexts);
      NewContextWeight(s.contexts, c, Unfreeable());
      forall rel
        ensures Held(t, rel) == Held(s, rel)
      {
        NewContextWeight(s.contexts, c, ResourceDuty(rel));
      }
      SameDuties(s, t);
      EmitBalanced(t, CtxCreate(c));
    }
  }

  lemma CountersBalanced(s: Driver, arena: Arena, ids: Idr.Idr, fences: Idr.Idr)
    requires Balanced(s)
    ensures Balanced(s.(arena := arena, resourceIds := ids, fenceIds := fences))
  {
    var s' := s.(arena := arena, resourceIds := ids, fenceIds := fences);
    assert forall rel :: Held(s', rel) == Held(s, rel);
    SameDuties(s, s');
  }

  lemma CreateBalanced(s: Driver, c: nat, size: nat)
    requires Balanced(s)
    ensures Balanced(DoCreateResource(s, c, size))
  {
    if FindContext(s.contexts, c).Some? && size < WORD {
      var (ids, id) := Idr.GetWithoutCache(s.resourceIds, 4);
      CountersBalanced(s, s.arena, ids, s.fenceIds);
      var t := s.(resourceIds := ids);
      EmitBalanced(t, Create3D(c, id));
      var created := Emit(t, Create3D(c, id));
      var plain := Resource(id, Register(true, 0), NoBuffer, None, 0);
      if size == 1 {
        InsertBalanced(created, c, plain);
      } else {
        var (arena, g) := Allocate(s.arena, BufferBytes(size));
        if g.Some? {
          ArenaBalanced(created, arena);
          EmitBalanced(created.(arena := arena), AttachBacking(c, id, g.value));
          var backed := Emit(created.(arena := arena), AttachBacking(c, id, g.value));
          InsertBalanced(backed, c, plain.(backing := Dma(g.value)));
        }
      }
    }
  }

  lemma CreateBlobBalanced(s: Driver, c: nat)
    requires Balanced(s)
    ensures Balanced(DoCreateBlob(s, c))
  {
    if FindContext(s.contexts, c).Some? {
      var (ids, id) := Idr.GetWithoutCache(s.resourceIds, 4);
      CountersBalanced(s, s.arena, ids, s.fenceIds);
      var t := s.(resourceIds := ids);
      EmitBalanced(t, CreateBlob(c, id));
      var created := Emit(t, CreateBlob(c, id));
      var blob := Resource(id, Register(false, 0), Blob(None), None, 0);
      InsertBalanced(created, c, blob);
      EmitBalanced(created.(contexts := Insert(s.contexts, c, blob)), MapBlob(c, id));
    }
  }

  lemma SubmitBalanced(s: Driver, c: nat, size: nat, outFence: bool, handles: seq<nat>)
    requires Balanced(s)
    ensures Balanced(DoBeginSubmit(s, c, size, outFence, handles))
  {
    if FindContext(s.contexts, c).Some? && size < WORD {
      var (arena, g) := Allocate(s.arena, RoundUp(size));
      if g.Some? {
        var (fences, fence) := if outFence then Idr.GetWithoutCache(s.fenceIds, 8) else (s.fenceIds, 0);
        CountersBalanced(s, arena, s.resourceIds, fences);
        AddAgentBalanced(s.(arena := arena, fenceIds := fences),
                         Submit3D(c, handles, fence, g.value, outFence), Marking(0, Looking));
      }
    }
  }

  lemma OneRelease(a: Agent)
    ensures forall rel :: multiset(Releases(a))[rel] == RequestDuty(rel)(a)
    ensures !a.cmd.Submit3D? ==> Releases(a) == [FreeBuffer(a.tag)]
  {
  }

  lemma FinishBalanced(s: Driver, i: nat)
    requires Balanced(s)
    ensures Balanced(DoFinish(s, i))
  {
    var s' := DoFinish(s, i);
    if s' != s {
      OneRelease(s.agents[i]);
      PerformedBalanced(s, s', i, Releases(s.agents[i]));
    }
  }

  // A new mapping is due to be undone, and the blob holds that duty, if it is still there.
  lemma MapIoSpaceBalanced(s: Driver, i: nat, address: nat)
    requires Balanced(s) && Base(s)
    ensures Balanced(DoMapIoSpace(s, i, address))
  {
    hide Balanced;
    if DoMapIoSpace(s, i, address) != s {
      var a := s.agents[i];
      assert MapTargetOk(s, a);
      var t := SetPhase(s, i, if address == 0 then Completing(1, Looking) else Completing(0, Signalling));
      PhaseBalanced(s, i, t.agents[i].phase);
      if address == 0 {
        FailureBalanced(t, a.cmd.ctx, a.cmd.res);
      } else if Lookup(s.contexts, a.cmd.ctx, a.cmd.res).Some? {
        ExposedBalanced(t, a.cmd.ctx, a.cmd.res, address);
      } else {
        LeakBalanced(t, a.cmd.res, address);
      }
    }
  }

  lemma FailureBalanced(s: Driver, c: nat, id: nat)
    requires Balanced(s)
    ensures Balanced(s.(failedMaps := s.failedMaps + {(c, id)}))
  {
    var s' := s.(failedMaps := s.failedMaps + {(c, id)});
    assert forall rel :: Held(s', rel) == Held(s, rel);
    SameDuties(s, s');
  }

  lemma ExposedBalanced(s: Driver, c: nat, id: nat, address: nat)
    requires Balanced(s) && Lookup(s.contexts, c, id).Some? && Lookup(s.contexts, c, id).value.backing == Blob(None)
    ensures Balanced(s.(contexts := Store(s.contexts, c, id, Exposed(Lookup(s.contexts, c, id).value, address)),
                        log := s.log + [MapIo(id, address, true)]))
  {
    hide Sum, Store;
    LookupFinds(s.contexts, c, id);
    var r := Lookup(s.contexts, c, id).value;
    var s' := s.(contexts := Store(s.contexts, c, id, Exposed(r, address)), log := s.log + [MapIo(id, address, true)]);
    StoreWeight(s.contexts, c, id, Exposed(r, address), Unfreeable());
    assert multiset(s'.log) == multiset(s.log) + multiset([MapIo(id, address, true)]);
    forall rel
      ensures Balance(s', rel)
    {
      assert Balance(s, rel);
      StoreWeight(s.contexts, c, id, Exposed(r, address), ResourceDuty(rel));
    }
  }

  lemma LeakBalanced(s: Driver, id: nat, address: nat)
    requires Balanced(s)
    ensures Balanced(s.(log := s.log + [MapIo(id, address, false)]))
  {
    hide Sum;
    var s' := s.(log := s.log + [MapIo(id, address, false)]);
    assert multiset(s'.log) == multiset(s.log) + multiset([MapIo(id, address, false)]);
    forall rel
      ensures Balance(s', rel)
    {
      assert Balance(s, rel);
      assert Held(s', rel) == Held(s, rel);
    }
  }

  lemma CollectBalanced(s: Driver, i: nat)
    requires Balanced(s)
    ensures Balanced(DoCollect(s, i))
  {
    if DoCollect(s, i) != s {
      OneRelease(s.agents[i]);
      PerformedBalanced(s, DoCollect(s, i), i, [FreeBuffer(s.agents[i].tag)]);
    }
  }

  lemma PushBalanced(s: Driver, i: nat)
    requires Balanced(s)
    ensures Balanced(DoPush(s, i))
  {
    if DoPush(s, i) != s {
      PhaseBalanced(s, i, Queued);
      var t := SetPhase(s, i, Queued);
      assert forall rel :: Held(DoPush(s, i), rel) == Held(t, rel);
      SameDuties(t, DoPush(s, i));
    }
  }

  lemma StoreFenceBalanced(s: Driver, i: nat)
    requires Balanced(s)
    ensures Balanced(DoStoreFence(s, i))
  {
    if DoStoreFence(s, i) != s {
      var a := s.agents[i];
      WriteBalanced(s, i, a.phase.(stage := Signalling), ContextOf(a.cmd), Target(a), Record(FenceOf(a.cmd)));
    }
  }

  lemma SignalBalanced(s: Driver, i: nat)
    requires Balanced(s)
    ensures Balanced(DoSignal(s, i))
  {
    if DoSignal(s, i) != s {
      var a := s.agents[i];
      WriteBalanced(s, i, Onward(a.phase), ContextOf(a.cmd), Target(a), Signal(a.phase.Marking?));
    }
  }

  lemma StepBalanced(s: Driver, op: Op)
    requires Balanced(s) && Base(s) && MappersHaveBuffer(s)
    ensures Balanced(Next(s, op))
  {
    hide Balanced, Allocate, Free;
    match op
    case InitContext(c) => InitContextBalanced(s, c);
    case DestroyContext(c) => DestroyBalanced(s, c);
    case QueryCapset => EmitBalanced(s, GetCapset);
    case CreateResource(c, size) => CreateBalanced(s, c, size);
    case CreateBlobResource(c) => CreateBlobBalanced(s, c);
    case CloseResource(c, id) => CloseBalanced(s, c, id);
    case BeginMap(c, id) => BeginMapBalanced(s, c, id);
    case EndMap(k, outcome) => EndMapBalanced(s, k, outcome);
    case BeginTransfer(c, id, toHost) => AddAgentBalanced(s, Transfer(c, id, toHost), Marking(0, Looking));
    case BeginSubmit(c, size, outFence, handles) => SubmitBalanced(s, c, size, outFence, handles);
    case Look(i) => if DoLook(s, i) != s { PhaseBalanced(s, i, DoLook(s, i).agents[i].phase); }
    case StoreFence(i) => StoreFenceBalanced(s, i);
    case SignalEvent(i) => SignalBalanced(s, i);
    case MapIoSpace(i, address) => MapIoSpaceBalanced(s, i, address);
    case Push(i) => PushBalanced(s, i);
    case Abandon(i) => if DoAbandon(s, i) != s { PhaseBalanced(s, i, Abandoned(s.agents[i].phase.done)); }
    case Dequeue(i) => if DoDequeue(s, i) != s { PhaseBalanced(s, i, DoDequeue(s, i).agents[i].phase); }
    case Finish(i) => FinishBalanced(s, i);
    case Collect(i) => CollectBalanced(s, i);
  }

  lemma BeginMapBalanced(s: Driver, c: nat, id: nat)
    requires Balanced(s)
    ensures Balanced(DoBeginMap(s, c, id))
  {
    assert forall rel :: Held(DoBeginMap(s, c, id), rel) == Held(s, rel);
    SameDuties(s, DoBeginMap(s, c, id));
  }

  lemma StepMappersHaveBuffer(s: Driver, op: Op)
    requires MappersHaveBuffer(s) && Base(s) && IdsFit(Next(s, op))
    ensures MappersHaveBuffer(Next(s, op))
  {
    hide Next, Lookup;
    var s' := Next(s, op);
    CountersGrow(s, op);
    forall k | 0 <= k < |s'.mappers|
      ensures s'.mappers[k].res < s'.resourceIds.next
      ensures var r := Lookup(s'.contexts, s'.mappers[k].ctx, s'.mappers[k].res);
              r.Some? ==> !r.value.backing.NoBuffer?
    {
      MapperOrigin(s, op, k);
      if Lookup(s'.contexts, s'.mappers[k].ctx, s'.mappers[k].res).Some? {
        ResourceStep(s, op, s'.mappers[k].ctx, s'.mappers[k].res);
      }
    }
  }

  lemma {:induction false} RunBalanced(s: Driver, ops: seq<Op>)
    requires Balanced(s) && Base(s) && MappersHaveBuffer(s) && IdsFit(Run(s, ops))
    ensures Balanced(Run(s, ops))
    decreases |ops|
  {
    hide Balanced, MappersHaveBuffer;
    if ops != [] {
      RunCountersGrow(Next(s, ops[0]), ops[1..]);
      StepBalanced(s, ops[0]);
      StepMappersHaveBuffer(s, ops[0]);
      StepBase(s, ops[0]);
      RunBalanced(Next(s, ops[0]), ops[1..]);
    }
  }

  lemma BalancedFromStart(pages: nat, ops: seq<Op>)
    requires IdsFit(Run(Initial(pages), ops))
    ensures Balanced(Run(Initial(pages), ops))
  {
    InitialBase(pages);
    RunBalanced(Initial(pages), ops);
  }

  lemma {:induction false} NoDuty(agents: seq<Agent>, rel: LogEntry)
    requires forall k :: 0 <= k < |agents| ==> !Owes(agents[k].cmd, agents[k].tag, rel)
    ensures Sum(agents, RequestDuty(rel)) == 0
  {
    if agents != [] {
      NoDuty(agents[1..], rel);
    }
  }

  lemma {:induction false} NoResourceDuty(cs: seq<Context>, rel: LogEntry)
    requires rel.FreeBuffer? || rel.FreeHandles? || rel.SignalFence?
    ensures Sum(cs, ContextSum(ResourceDuty(rel))) == 0
  {
    if cs != [] {
      if Sum(cs[0].resources, ResourceDuty(rel)) > 0 {
        var j := SumPositive(cs[0].resources, ResourceDuty(rel));
      }
      NoResourceDuty(cs[1..], rel);
    }
  }
}
