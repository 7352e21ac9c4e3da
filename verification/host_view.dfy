// The order in which commands are pushed, read by two automata, and the invariant that ties them
// to the driver's state. The automaton of a resource id has the resource lifecycle of section
// 5.7 of VIRTIO 1.2, that of a context id wants every command for the context between CTX_CREATE
// and CTX_DESTROY. Resource commands all go on one queue, so the first is also what the host
// sees; context commands go on another queue, and about the order between the two queues the
// push order says nothing.
module HostView {
  import opened Wrappers
  import opened Paging
  import opened Arena
  import opened FenceRegister
  import opened DriverState
  import opened ResourceTable
  import opened BaseInvariant
  import opened Requests
  import Idr

  // ----- the host's view of one resource id -----

  // Plain: a resource that was used before any backing was attached.
  datatype Host =
    | Absent
    | Created
    | Plain
    | Backed(region: Region)
    | Detached
    | BlobCreated
    | BlobMapped
    | BlobUnmapped
    | Gone
    | Violated

  function ResourceOf(cmd: Command): Option<nat> {
    if cmd.CtxCreate? || cmd.CtxDestroy? || cmd.GetCapset? || cmd.Submit3D? then None else Some(cmd.res)
  }

  function HostMove(h: Host, cmd: Command): Host {
    if cmd.Create3D? && h.Absent? then Created
    else if cmd.AttachBacking? && h.Created? then Backed(cmd.region)
    else if cmd.Transfer? && (h.Created? || h.Plain?) then Plain
    else if cmd.Transfer? && (h.Backed? || h.BlobMapped?) then h
    else if cmd.DetachBacking? && h.Backed? then Detached
    else if cmd.CreateBlob? && h.Absent? then BlobCreated
    else if cmd.MapBlob? && h.BlobCreated? then BlobMapped
    else if cmd.UnmapBlob? && h.BlobMapped? then BlobUnmapped
    else if cmd.Unref? && (h.Created? || h.Plain? || h.Detached? || h.BlobUnmapped?) then Gone
    else Violated
  }

  function HostOf(trace: seq<Command>, id: nat): Host {
    if trace == [] then Absent
    else
      var h, cmd := HostOf(trace[..|trace| - 1], id), trace[|trace| - 1];
      if ResourceOf(cmd) == Some(id) then HostMove(h, cmd) else h
  }

  lemma HostPush(trace: seq<Command>, cmd: Command, id: nat)
    ensures HostOf(trace + [cmd], id)
            == if ResourceOf(cmd) == Some(id) then HostMove(HostOf(trace, id), cmd) else HostOf(trace, id)
  {
    assert (trace + [cmd])[..|trace|] == trace;
  }

  // ----- the commands of one context id -----

  datatype HostContext = Closed | Open | Broken

  function ContextMove(h: HostContext, cmd: Command, c: nat): HostContext {
    if cmd.CtxCreate? then (if cmd.ctx != c then h else if h.Closed? then Open else Broken)
    else if cmd.CtxDestroy? then (if cmd.ctx != c then h else if h.Open? then Closed else Broken)
    else if cmd.GetCapset? || cmd.DetachBacking? || cmd.ctx != c then h
    else if h.Open? then Open
    else Broken
  }

  function HostContextOf(trace: seq<Command>, c: nat): HostContext {
    if trace == [] then Closed
    else ContextMove(HostContextOf(trace[..|trace| - 1], c), trace[|trace| - 1], c)
  }

  lemma HostContextPush(trace: seq<Command>, cmd: Command, c: nat)
    ensures HostContextOf(trace + [cmd], c) == ContextMove(HostContextOf(trace, c), cmd, c)
  {
    assert (trace + [cmd])[..|trace|] == trace;
  }

  // ----- the invariant -----

  // A live resource and the host agree on its kind and on the memory behind it.
  predicate Agrees(h: Host, r: Resource) {
    match r.backing
    case NoBuffer => h.Created? || h.Plain?
    case Dma(g) => h == Backed(g)
    case Blob(_) => h.BlobMapped?
  }

  ghost predicate Live(cs: seq<Context>, id: nat) {
    exists c :: Lookup(cs, c, id).Some?
  }

  // Agreement on what is live, nothing attached or mapped that is not live, and nothing about
  // ids not issued yet. An id that is not live may be violated.
  ghost predicate ResourceOk(s: Driver, id: nat) {
    var h := HostOf(s.trace, id);
    && (h.Backed? || h.BlobMapped? ==> Live(s.contexts, id))
    && (id >= s.resourceIds.next ==> h.Absent?)
    && forall c :: Lookup(s.contexts, c, id).Some? ==> Agrees(h, Lookup(s.contexts, c, id).value)
  }

  predicate ContextOk(s: Driver, c: nat) {
    var h := HostContextOf(s.trace, c);
    h.Broken? || h == if FindContext(s.contexts, c).Some? then Open else Closed
  }

  // A transfer that has looked its resource up but not been pushed.
  predicate PendingTransfer(a: Agent, c: nat, id: nat) {
    a.phase.Marking? && a.cmd.Transfer? && a.cmd.ctx == c && a.cmd.res == id
  }

  // The resource of a pending transfer is live, or has come to its end since the lookup.
  ghost predicate TargetOk(s: Driver, c: nat, id: nat) {
    && id < s.resourceIds.next
    && (Lookup(s.contexts, c, id).Some? || HostOf(s.trace, id).Gone? || HostOf(s.trace, id).Violated?)
  }

  ghost predicate TargetsOk(s: Driver) {
    forall k, c, id :: 0 <= k < |s.agents| && PendingTransfer(s.agents[k], c, id) ==> TargetOk(s, c, id)
  }

  ghost predicate Protocol(s: Driver) {
    && (forall id :: ResourceOk(s, id))
    && (forall c :: ContextOk(s, c))
    && TargetsOk(s)
    && MarkingKinds(s)
  }

  // Only transfers and submits mark resources before they are pushed.
  ghost predicate MarkingKinds(s: Driver) {
    forall k :: 0 <= k < |s.agents| && s.agents[k].phase.Marking? ==>
      s.agents[k].cmd.Transfer? || s.agents[k].cmd.Submit3D?
  }

  // No id is violated in s' that was not in s, and the other way round.
  ghost predicate SameFaults(s: Driver, s': Driver) {
    && (forall id :: HostOf(s'.trace, id).Violated? <==> HostOf(s.trace, id).Violated?)
    && (forall c :: HostContextOf(s'.trace, c).Broken? <==> HostContextOf(s.trace, c).Broken?)
  }

  // ----- emitting -----

  // Pushing commands about one resource concerns no other resource.
  lemma EmitOthers(s: Driver, cmd: Command, id: nat)
    ensures ResourceOf(cmd) != Some(id) ==> HostOf(Emit(s, cmd).trace, id) == HostOf(s.trace, id)
    ensures ResourceOf(cmd) == Some(id) ==> HostOf(Emit(s, cmd).trace, id) == HostMove(HostOf(s.trace, id), cmd)
  {
    HostPush(s.trace, cmd, id);
  }

  lemma EmitContext(s: Driver, cmd: Command, c: nat)
    ensures HostContextOf(Emit(s, cmd).trace, c) == ContextMove(HostContextOf(s.trace, c), cmd, c)
  {
    HostContextPush(s.trace, cmd, c);
  }

  // What DeleteResource pushes takes the resource to its end.
  lemma DeleteHost(s: Driver, c: nat, r: Resource, id: nat)
    requires Agrees(HostOf(s.trace, r.id), r)
    ensures HostOf(DeleteResource(s, c, r).trace, id) == if id == r.id then Gone else HostOf(s.trace, id)
  {
    hide Free, HostOf;
    var t := UnmapUser(s, r);
    match r.backing {
      case NoBuffer =>
      case Dma(_) => EmitOthers(t, DetachBacking(r.id), id);
      case Blob(_) => EmitOthers(t, UnmapBlob(c, r.id), id);
    }
    EmitOthers(ReleaseBacking(t, c, r), Unref(c, r.id), id);
  }

  lemma DeleteHostContext(s: Driver, c: nat, r: Resource, c': nat)
    requires !HostContextOf(s.trace, c).Closed?
    ensures HostContextOf(DeleteResource(s, c, r).trace, c') == HostContextOf(s.trace, c')
  {
    hide Free, HostContextOf;
    var t := UnmapUser(s, r);
    var u := ReleaseBacking(t, c, r);
    EmitContext(t, DetachBacking(r.id), c');
    EmitContext(t, UnmapBlob(c, r.id), c');
    EmitContext(u, Unref(c, r.id), c');
    EmitContext(t, DetachBacking(r.id), c);
    EmitContext(t, UnmapBlob(c, r.id), c);
  }

  lemma CloseProtocol(s: Driver, c: nat, id: nat)
    requires Protocol(s) && Base(s)
    ensures Protocol(DoClose(s, c, id)) && SameFaults(s, DoClose(s, c, id))
  {
    hide DoClose, DeleteResource, HostOf, HostContextOf;
    var s' := DoClose(s, c, id);
    var r := Lookup(s.contexts, c, id);
    CloseShape(s, c, id);
    if r.Some? {
      LookupFinds(s.contexts, c, id);
      var t := s.(contexts := Remove(s.contexts, c, id));
      CloseResources(s, c, id);
      forall c': nat
        ensures ContextOk(s', c') && HostContextOf(s'.trace, c') == HostContextOf(s.trace, c')
      {
        assert ContextOk(s, c) && ContextOk(s, c');
        DeleteHostContext(t, c, r.value, c');
        FindContextSame(s.contexts, s'.contexts, c');
      }
      ClosePending(s, c, id);
    } else {
      NothingToClose(s, c, id);
    }
  }

  lemma ClosePending(s: Driver, c: nat, id: nat)
    requires Protocol(s) && Base(s) && Lookup(s.contexts, c, id).Some?
    ensures TargetsOk(DoClose(s, c, id)) && MarkingKinds(DoClose(s, c, id))
  {
    hide DoClose, DeleteResource, HostOf, HostContextOf;
    var s' := DoClose(s, c, id);
    CloseShape(s, c, id);
    CloseResources(s, c, id);
    forall k | 0 <= k < |s'.agents| && s'.agents[k].phase.Marking?
      ensures k < |s.agents| && s'.agents[k] == s.agents[k]
    {
      assert s'.agents[..|s.agents|][k] == s'.agents[k] == s.agents[k];
    }
    forall k, c', id' | 0 <= k < |s'.agents| && PendingTransfer(s'.agents[k], c', id')
      ensures TargetOk(s', c', id')
    {
      assert PendingTransfer(s.agents[k], c', id') && TargetOk(s, c', id');
      LookupRemove(s.contexts, s.resourceIds.next, c, id, c', id');
    }
  }

  lemma NothingToClose(s: Driver, c: nat, id: nat)
    requires Lookup(s.contexts, c, id).None?
    ensures DoClose(s, c, id) == s
  {
  }

  lemma CloseResources(s: Driver, c: nat, id: nat)
    requires Protocol(s) && Base(s) && Lookup(s.contexts, c, id).Some?
    ensures forall id' :: ResourceOk(DoClose(s, c, id), id')
    ensures forall id' :: HostOf(DoClose(s, c, id).trace, id') == if id' == id then Gone else HostOf(s.trace, id')
    ensures !HostOf(s.trace, id).Violated?
  {
    hide DoClose, DeleteResource, HostOf, HostContextOf;
    var s' := DoClose(s, c, id);
    var r := Lookup(s.contexts, c, id).value;
    CloseShape(s, c, id);
    LookupFinds(s.contexts, c, id);
    LookupBelow(s.contexts, s.resourceIds.next, c, id);
    assert ResourceOk(s, id);
    forall id': nat
      ensures ResourceOk(s', id')
      ensures HostOf(s'.trace, id') == if id' == id then Gone else HostOf(s.trace, id')
    {
      assert ResourceOk(s, id');
      DeleteHost(s.(contexts := Remove(s.contexts, c, id)), c, r, id');
      forall c': nat
        ensures Lookup(s'.contexts, c', id').Some? ==> id' != id
        ensures id' != id ==> Lookup(s'.contexts, c', id') == Lookup(s.contexts, c', id')
      {
        LookupRemove(s.contexts, s.resourceIds.next, c, id, c', id');
      }
    }
  }

  lemma {:induction false} CloseEachProtocol(s: Driver, c: nat, rs: seq<Resource>)
    requires Protocol(s) && Base(s)
    ensures Protocol(CloseEach(s, c, rs)) && SameFaults(s, CloseEach(s, c, rs))
    decreases |rs|
  {
    hide Protocol, HostOf, HostContextOf;
    if rs != [] {
      var id := rs[|rs| - 1].id;
      CloseProtocol(s, c, id);
      CloseBase(s, c, id);
      CloseEachProtocol(DoClose(s, c, id), c, rs[..|rs| - 1]);
    }
  }

  lemma DestroyProtocol(s: Driver, op: Op)
    requires Protocol(s) && Base(s) && op.DestroyContext?
    ensures Protocol(Next(s, op)) && SameFaults(s, Next(s, op))
  {
    hide HostOf, HostContextOf;
    var c := op.ctx;
    var i := FindContext(s.contexts, c);
    if i.Some? {
      var rs := s.contexts[i.value].resources;
      DestroyIsCloses(s, s.resourceIds.next, c);
      CloseEachProtocol(s, c, rs);
      CloseEachBase(s, c, rs);
      var t := CloseEach(s, c, rs);
      FindContextSame(s.contexts, t.contexts, c);
      DropProtocol(t, i.value);
    }
  }

  // CTX_DESTROY for a context whose list is empty.
  lemma DropProtocol(t: Driver, i: nat)
    requires Protocol(t) && Base(t) && i < |t.contexts| && t.contexts[i].resources == []
    requires FindContext(t.contexts, t.contexts[i].id) == Some(i)
    ensures var s' := Emit(DropContext(t, i), CtxDestroy(t.contexts[i].id));
            Protocol(s') && SameFaults(t, s')
  {
    hide HostOf, HostContextOf;
    var c := t.contexts[i].id;
    var u := DropContext(t, i);
    var s' := Emit(u, CtxDestroy(c));
    assert ContextOk(t, c);
    forall id: nat, c': nat
      ensures Lookup(s'.contexts, c', id) == Lookup(t.contexts, c', id)
    {
      LookupDropContext(t.contexts, i, c', id);
    }
    forall id: nat
      ensures ResourceOk(s', id) && HostOf(s'.trace, id) == HostOf(t.trace, id)
    {
      assert ResourceOk(t, id);
      EmitOthers(u, CtxDestroy(c), id);
    }
    forall c': nat
      ensures ContextOk(s', c')
      ensures HostContextOf(s'.trace, c').Broken? <==> HostContextOf(t.trace, c').Broken?
    {
      assert ContextOk(t, c');
      EmitContext(u, CtxDestroy(c), c');
      DropFind(t.contexts, i, c');
    }
    forall k, c', id' | 0 <= k < |s'.agents| && PendingTransfer(s'.agents[k], c', id')
      ensures TargetOk(s', c', id')
    {
      assert s'.agents[k] == t.agents[k] && TargetOk(t, c', id');
    }
  }

  lemma DropFind(cs: seq<Context>, i: nat, c: nat)
    requires DistinctContexts(cs) && i < |cs|
    ensures FindContext(Without(cs, i), c).Some? <==> c != cs[i].id && FindContext(cs, c).Some?
  {
    var ds := Without(cs, i);
    var (a, b) := (FindContext(cs, c), FindContext(ds, c));
    if a.Some? && a.value != i {
      assert ds[if a.value < i then a.value else a.value - 1] == cs[a.value];
    }
    if b.Some? {
      assert cs[if b.value < i then b.value else b.value + 1] == ds[b.value];
    }
  }

  lemma InitContextProtocol(s: Driver, c: nat)
    requires Protocol(s)
    ensures Protocol(DoInitContext(s, c)) && SameFaults(s, DoInitContext(s, c))
  {
    hide HostOf, HostContextOf;
    var s' := DoInitContext(s, c);
    if FindContext(s.contexts, c).None? {
      var t := s.(contexts := [Context(c, [])] + s.contexts);
      forall id: nat, c': nat
        ensures Lookup(s'.contexts, c', id) == Lookup(s.contexts, c', id)
      {
        LookupNewContext(s.contexts, c, c', id);
      }
      forall id: nat
        ensures ResourceOk(s', id) && HostOf(s'.trace, id) == HostOf(s.trace, id)
      {
        assert ResourceOk(s, id);
        EmitOthers(t, CtxCreate(c), id);
      }
      assert ContextOk(s, c);
      forall c': nat
        ensures ContextOk(s', c')
        ensures HostContextOf(s'.trace, c').Broken? <==> HostContextOf(s.trace, c').Broken?
      {
        assert ContextOk(s, c');
        EmitContext(t, CtxCreate(c), c');
        assert t.contexts[1..] == s.contexts;
      }
      forall k, c', id' | 0 <= k < |s'.agents| && PendingTransfer(s'.agents[k], c', id')
        ensures TargetOk(s', c', id')
      {
        assert s'.agents[k] == s.agents[k] && TargetOk(s, c', id');
      }
    }
  }

  // A new id with the commands that announce it.
  lemma InsertProtocol(s: Driver, s': Driver, c: nat, r: Resource)
    requires Protocol(s) && Base(s) && FindContext(s.contexts, c).Some?
    requires r.id == s.resourceIds.next && s'.resourceIds.next == s.resourceIds.next + 1
    requires s'.contexts == Insert(s.contexts, c, r)
    requires Agrees(HostOf(s'.trace, r.id), r)
    requires forall id: nat :: id != r.id ==> HostOf(s'.trace, id) == HostOf(s.trace, id)
    requires forall c': nat :: HostContextOf(s'.trace, c') == HostContextOf(s.trace, c')
    requires |s'.agents| >= |s.agents| && s'.agents[..|s.agents|] == s.agents
    requires forall k :: |s.agents| <= k < |s'.agents| ==> s'.agents[k].phase.Queued?
    ensures Protocol(s') && SameFaults(s, s')
  {
    hide HostOf, HostContextOf;
    assert ResourceOk(s, r.id);
    forall id: nat
      ensures ResourceOk(s', id)
    {
      assert ResourceOk(s, id);
      forall c': nat
        ensures Lookup(s'.contexts, c', id)
                == if c' == c && id == r.id then Some(r) else Lookup(s.contexts, c', id)
        ensures Lookup(s.contexts, c', id).Some? ==> id < r.id
      {
        LookupInsert(s.contexts, c, r, c', id);
        LookupBelow(s.contexts, s.resourceIds.next, c', id);
      }
      assert id == r.id ==> Lookup(s'.contexts, c, id).Some?;
    }
    forall c': nat
      ensures ContextOk(s', c')
    {
      assert ContextOk(s, c');
      FindContextSame(s.contexts, s'.contexts, c');
    }
    forall k, c', id' | 0 <= k < |s'.agents| && PendingTransfer(s'.agents[k], c', id')
      ensures TargetOk(s', c', id')
    {
      assert s'.agents[..|s.agents|][k] == s'.agents[k] == s.agents[k] && TargetOk(s, c', id');
      LookupInsert(s.contexts, c, r, c', id');
    }
  }

  // CREATE_3D for the next id, in a context that the host has open.
  lemma Announce(s: Driver, c: nat, id: nat)
    requires Protocol(s) && FindContext(s.contexts, c).Some? && id == s.resourceIds.next
    ensures var t := Emit(s, Create3D(c, id));
            && (forall id' :: HostOf(t.trace, id') == if id' == id then Created else HostOf(s.trace, id'))
            && forall c' :: HostContextOf(t.trace, c') == HostContextOf(s.trace, c')
  {
    hide HostOf, HostContextOf;
    assert ResourceOk(s, id) && ContextOk(s, c);
    var t := Emit(s, Create3D(c, id));
    forall id': nat
      ensures HostOf(t.trace, id') == if id' == id then Created else HostOf(s.trace, id')
    {
      EmitOthers(s, Create3D(c, id), id');
    }
    forall c': nat
      ensures HostContextOf(t.trace, c') == HostContextOf(s.trace, c')
    {
      EmitContext(s, Create3D(c, id), c');
    }
  }

  lemma AnnounceBacking(s: Driver, t: Driver, c: nat, id: nat, g: Region)
    requires FindContext(s.contexts, c).Some? && ContextOk(s, c)
    requires forall id' :: HostOf(t.trace, id') == if id' == id then Created else HostOf(s.trace, id')
    requires forall c' :: HostContextOf(t.trace, c') == HostContextOf(s.trace, c')
    ensures var u := Emit(t, AttachBacking(c, id, g));
            && (forall id' :: HostOf(u.trace, id') == if id' == id then Backed(g) else HostOf(s.trace, id'))
            && forall c' :: HostContextOf(u.trace, c') == HostContextOf(s.trace, c')
  {
    hide HostOf, HostContextOf;
    var u := Emit(t, AttachBacking(c, id, g));
    forall id': nat
      ensures HostOf(u.trace, id') == if id' == id then Backed(g) else HostOf(s.trace, id')
    {
      EmitOthers(t, AttachBacking(c, id, g), id');
    }
    forall c': nat
      ensures HostContextOf(u.trace, c') == HostContextOf(s.trace, c')
    {
      EmitContext(t, AttachBacking(c, id, g), c');
    }
  }

  lemma CreateProtocol(s: Driver, c: nat, size: nat)
    requires Protocol(s) && Base(s) && IdsFit(DoCreateResource(s, c, size))
    ensures Protocol(DoCreateResource(s, c, size)) && SameFaults(s, DoCreateResource(s, c, size))
  {
    hide Allocate, HostOf, HostContextOf, Insert;
    var s' := DoCreateResource(s, c, size);
    if FindContext(s.contexts, c).Some? && size < WORD {
      var (ids, id) := Idr.GetWithoutCache(s.resourceIds, 4);
      assert id == s.resourceIds.next;
      var created := Emit(s.(resourceIds := ids), Create3D(c, id));
      Announce(s, c, id);
      var plain := Resource(id, Register(true, 0), NoBuffer, None, 0);
      if size == 1 {
        InsertProtocol(s, s', c, plain);
      } else {
        var (arena, g) := Allocate(s.arena, BufferBytes(size));
        if g.Some? {
          assert ContextOk(s, c);
          AnnounceBacking(s, created.(arena := arena), c, id, g.value);
          InsertProtocol(s, s', c, plain.(backing := Dma(g.value)));
        } else {
          assert s'.trace == Emit(s, Create3D(c, id)).trace;
          SpentIdProtocol(s, s', id);
        }
      }
    }
  }

  // CREATE_3D without a resource behind it: the exit after a failed allocation.
  lemma SpentIdProtocol(s: Driver, s': Driver, id: nat)
    requires Protocol(s) && Base(s) && id == s.resourceIds.next
    requires s'.contexts == s.contexts && s'.resourceIds.next == id + 1
    requires forall id': nat :: HostOf(s'.trace, id') == if id' == id then Created else HostOf(s.trace, id')
    requires forall c': nat :: HostContextOf(s'.trace, c') == HostContextOf(s.trace, c')
    requires |s'.agents| == |s.agents| + 1 && s'.agents[..|s.agents|] == s.agents
    requires s'.agents[|s.agents|].phase.Queued?
    ensures Protocol(s') && SameFaults(s, s')
  {
    hide HostOf, HostContextOf;
    assert ResourceOk(s, id);
    forall id': nat
      ensures ResourceOk(s', id')
    {
      assert ResourceOk(s, id');
      forall c: nat
        ensures Lookup(s.contexts, c, id).None?
      {
        LookupBelow(s.contexts, s.resourceIds.next, c, id);
      }
    }
    assert forall c' :: ContextOk(s, c') ==> ContextOk(s', c');
    forall k, c', id' | 0 <= k < |s'.agents| && PendingTransfer(s'.agents[k], c', id')
      ensures TargetOk(s', c', id')
    {
      assert s'.agents[..|s.agents|][k] == s'.agents[k] == s.agents[k] && TargetOk(s, c', id');
    }
  }

  lemma CreateBlobProtocol(s: Driver, c: nat)
    requires Protocol(s) && Base(s) && IdsFit(DoCreateBlob(s, c))
    ensures Protocol(DoCreateBlob(s, c)) && SameFaults(s, DoCreateBlob(s, c))
  {
    hide HostOf, HostContextOf, Insert, Idr.LowBytes;
    var s' := DoCreateBlob(s, c);
    if FindContext(s.contexts, c).Some? {
      var (ids, id) := Idr.GetWithoutCache(s.resourceIds, 4);
      assert id == s.resourceIds.next;
      var t := s.(resourceIds := ids);
      var created := Emit(t, CreateBlob(c, id));
      var blob := Resource(id, Register(false, 0), Blob(None), None, 0);
      var inserted := created.(contexts := Insert(s.contexts, c, blob));
      assert ResourceOk(s, id) && ContextOk(s, c);
      forall id': nat
        ensures HostOf(s'.trace, id') == if id' == id then BlobMapped else HostOf(s.trace, id')
      {
        EmitOthers(t, CreateBlob(c, id), id');
        EmitOthers(inserted, MapBlob(c, id), id');
      }
      forall c': nat
        ensures HostContextOf(s'.trace, c') == HostContextOf(s.trace, c')
      {
        EmitContext(t, CreateBlob(c, id), c');
        EmitContext(inserted, MapBlob(c, id), c');
      }
      InsertProtocol(s, s', c, blob);
    }
  }

  // A step that pushes nothing and keeps every resource, its backing kind and its memory.
  lemma KeepsProtocol(s: Driver, s': Driver)
    requires Protocol(s) && s'.trace == s.trace && s'.resourceIds == s.resourceIds
    requires |s'.contexts| == |s.contexts|
    requires forall i :: 0 <= i < |s.contexts| ==> s'.contexts[i].id == s.contexts[i].id
    requires forall c, id ::
               var r, r' := Lookup(s.contexts, c, id), Lookup(s'.contexts, c, id);
               r'.Some? == r.Some?
               && (r.Some? ==> r'.value.backing == r.value.backing || (r.value.backing.Blob? && r'.value.backing.Blob?))
    requires forall k, c, id :: 0 <= k < |s'.agents| && PendingTransfer(s'.agents[k], c, id) ==> TargetOk(s, c, id)
    requires MarkingKinds(s')
    ensures Protocol(s') && SameFaults(s, s')
  {
    hide HostOf, HostContextOf;
    forall id: nat
      ensures ResourceOk(s', id)
    {
      assert ResourceOk(s, id);
      forall c: nat | Lookup(s'.contexts, c, id).Some?
        ensures Agrees(HostOf(s'.trace, id), Lookup(s'.contexts, c, id).value)
      {
        assert Agrees(HostOf(s.trace, id), Lookup(s.contexts, c, id).value);
      }
      if Live(s.contexts, id) {
        var c :| Lookup(s.contexts, c, id).Some?;
        assert Lookup(s'.contexts, c, id).Some?;
      }
    }
    forall c: nat
      ensures ContextOk(s', c)
    {
      assert ContextOk(s, c);
      FindContextSame(s.contexts, s'.contexts, c);
    }
    forall k, c, id | 0 <= k < |s'.agents| && PendingTransfer(s'.agents[k], c, id)
      ensures TargetOk(s', c, id)
    {
      assert TargetOk(s, c, id);
    }
  }

  // The steps that push nothing, create no resource and delete none.
  predicate Silent(op: Op) {
    op.BeginMap? || op.EndMap? || op.BeginTransfer? || op.BeginSubmit? || op.Look? || op.StoreFence?
    || op.SignalEvent? || op.MapIoSpace? || op.Abandon? || op.Dequeue? || op.Finish? || op.Collect?
  }

  lemma SilentTrace(s: Driver, op: Op)
    requires Silent(op)
    ensures Next(s, op).trace == s.trace
  {
    hide Allocate, Free, Lookup, FindContext, Store, WriteOne;
  }

  lemma SilentProtocol(s: Driver, op: Op)
    requires Protocol(s) && Base(s) && Silent(op) && IdsFit(Next(s, op))
    ensures Protocol(Next(s, op)) && SameFaults(s, Next(s, op))
  {
    hide HostOf, HostContextOf, Lookup, FindContext, Next;
    var s' := Next(s, op);
    SilentTrace(s, op);
    SameContextIds(s, op);
    CountersGrow(s, op);
    forall c: nat, id: nat
      ensures Evolves(s, op, c, id, Lookup(s.contexts, c, id), Lookup(s'.contexts, c, id))
    {
      ResourceStep(s, op, c, id);
    }
    forall k | 0 <= k < |s'.agents| && s'.agents[k].phase.Marking?
      ensures s'.agents[k].cmd.Transfer? || s'.agents[k].cmd.Submit3D?
      ensures s'.agents[k].cmd.Transfer? ==> TargetOk(s, s'.agents[k].cmd.ctx, s'.agents[k].cmd.res)
    {
      var cmd := s'.agents[k].cmd;
      var l := RequestOrigin(s, op, k);
      if cmd.Transfer? {
        if l < |s.agents| {
          assert PendingTransfer(s.agents[l], cmd.ctx, cmd.res);
        } else {
          LookupBelow(s.contexts, s.resourceIds.next, cmd.ctx, cmd.res);
        }
      }
    }
    KeepsProtocol(s, s');
  }

  // ----- pushing what has been marked -----

  // Request i is ready to be pushed.
  predicate Fires(s: Driver, i: nat) {
    i < |s.agents| && s.agents[i].phase == Marking(|Marks(s.agents[i].cmd)|, Looking)
  }

  // The resource that a transfer has looked up is still there when it is pushed.
  predicate FindsResource(s: Driver, op: Op) {
    op.Push? && Fires(s, op.agent) && s.agents[op.agent].cmd.Transfer? ==>
      Lookup(s.contexts, s.agents[op.agent].cmd.ctx, s.agents[op.agent].cmd.res).Some?
  }

  // The context that a transfer or a submit has looked up is still there when it is pushed.
  predicate FindsContext(s: Driver, op: Op) {
    op.Push? && Fires(s, op.agent) ==> FindContext(s.contexts, ContextOf(s.agents[op.agent].cmd)).Some?
  }

  // Pushing a transfer is a violation exactly if its resource is not live any more.
  lemma PushedResource(s: Driver, i: nat, id: nat)
    requires Protocol(s) && Base(s) && Fires(s, i)
    ensures ResourceOk(DoPush(s, i), id)
    ensures HostOf(s.trace, id).Violated? ==> HostOf(DoPush(s, i).trace, id).Violated?
    ensures HostOf(DoPush(s, i).trace, id).Violated? <==>
              HostOf(s.trace, id).Violated?
              || (s.agents[i].cmd.Transfer? && s.agents[i].cmd.res == id && !FindsResource(s, Push(i)))
    ensures HostOf(s.trace, id).Gone? ==> HostOf(DoPush(s, i).trace, id).Gone? || HostOf(DoPush(s, i).trace, id).Violated?
  {
    hide HostOf, HostContextOf;
    var cmd := s.agents[i].cmd;
    assert cmd.Transfer? || cmd.Submit3D?;
    assert ResourceOk(s, id);
    HostPush(s.trace, cmd, id);
    if cmd.Transfer? && cmd.res == id {
      assert PendingTransfer(s.agents[i], cmd.ctx, id);
      assert TargetOk(s, cmd.ctx, id);
      if Lookup(s.contexts, cmd.ctx, id).Some? {
        assert Agrees(HostOf(s.trace, id), Lookup(s.contexts, cmd.ctx, id).value);
      }
    }
  }

  lemma PushProtocol(s: Driver, i: nat)
    requires Protocol(s) && Base(s)
    ensures Protocol(DoPush(s, i))
  {
    hide HostOf, HostContextOf;
    var s' := DoPush(s, i);
    if s' != s {
      var cmd := s.agents[i].cmd;
      forall id: nat
        ensures ResourceOk(s', id)
      {
        PushedResource(s, i, id);
      }
      forall c: nat
        ensures ContextOk(s', c)
      {
        assert ContextOk(s, c);
        HostContextPush(s.trace, cmd, c);
      }
      forall k, c, id | 0 <= k < |s'.agents| && PendingTransfer(s'.agents[k], c, id)
        ensures TargetOk(s', c, id)
      {
        assert s'.agents[k] == s.agents[k] && TargetOk(s, c, id);
        PushedResource(s, i, id);
      }
    }
  }

  lemma QueryProtocol(s: Driver)
    requires Protocol(s)
    ensures Protocol(Emit(s, GetCapset)) && SameFaults(s, Emit(s, GetCapset))
  {
    hide HostOf, HostContextOf, Lookup;
    var s' := Emit(s, GetCapset);
    forall id: nat
      ensures ResourceOk(s', id) && HostOf(s'.trace, id) == HostOf(s.trace, id)
    {
      assert ResourceOk(s, id);
      EmitOthers(s, GetCapset, id);
    }
    forall c: nat
      ensures ContextOk(s', c) && HostContextOf(s'.trace, c) == HostContextOf(s.trace, c)
    {
      assert ContextOk(s, c);
      EmitContext(s, GetCapset, c);
    }
    forall k, c, id | 0 <= k < |s'.agents| && PendingTransfer(s'.agents[k], c, id)
      ensures TargetOk(s', c, id)
    {
      assert s'.agents[k] == s.agents[k] && TargetOk(s, c, id);
    }
  }

  lemma StepProtocol(s: Driver, op: Op)
    requires Protocol(s) && Base(s) && IdsFit(Next(s, op))
    ensures Protocol(Next(s, op))
    ensures !op.Push? ==> SameFaults(s, Next(s, op))
  {
    hide HostOf, HostContextOf, SameFaults, Protocol;
    match op
    case InitContext(c) => InitContextProtocol(s, c);
    case DestroyContext(_) => DestroyProtocol(s, op);
    case QueryCapset => QueryProtocol(s);
    case CreateResource(c, size) => CreateProtocol(s, c, size);
    case CreateBlobResource(c) => CreateBlobProtocol(s, c);
    case CloseResource(c, id) => CloseProtocol(s, c, id);
    case Push(i) => PushProtocol(s, i);
    case _ => SilentProtocol(s, op);
  }

  lemma {:induction false} RunProtocol(s: Driver, ops: seq<Op>)
    requires Protocol(s) && Base(s) && IdsFit(Run(s, ops))
    ensures Protocol(Run(s, ops))
    decreases |ops|
  {
    if ops != [] {
      RunCountersGrow(Next(s, ops[0]), ops[1..]);
      StepProtocol(s, ops[0]);
      StepBase(s, ops[0]);
      RunProtocol(Next(s, ops[0]), ops[1..]);
    }
  }

  lemma InitialProtocol(pages: nat)
    ensures Protocol(Initial(pages))
  {
  }
}
