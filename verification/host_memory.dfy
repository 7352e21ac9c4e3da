// The memory that the host works on. In the order of the pushed commands: the attached backings
// are regions of live resources, disjoint from each other and from all command memory in flight.
// For transfers that are outstanding: exactly when their pages still belong to their resource.
module HostMemory {
  import opened Wrappers
  import opened Arena
  import opened DriverState
  import opened ResourceTable
  import opened BaseInvariant
  import opened MemoryOwnership
  import opened HostView
  import opened FenceRegister
  import opened Requests
  import Idr

  // The position of the resource that a lookup finds.
  lemma OwnerOf(s: Driver, c: nat, id: nat) returns (o: Owner)
    requires Lookup(s.contexts, c, id).Some? && Lookup(s.contexts, c, id).value.backing.Dma?
    ensures o.ResourceAt? && RegionOf(s, o) == Some(Lookup(s.contexts, c, id).value.backing.region)
    ensures s.contexts[o.context].resources[o.position].id == id
  {
    var i := FindContext(s.contexts, c).value;
    o := ResourceAt(i, FindResource(s.contexts[i].resources, id).value);
  }

  lemma AttachedOwner(s: Driver, id: nat, g: Region) returns (o: Owner)
    requires ResourceOk(s, id) && HostOf(s.trace, id) == Backed(g)
    ensures o.ResourceAt? && RegionOf(s, o) == Some(g)
    ensures s.contexts[o.context].resources[o.position].id == id
  {
    var c :| Lookup(s.contexts, c, id).Some?;
    assert Agrees(HostOf(s.trace, id), Lookup(s.contexts, c, id).value);
    o := OwnerOf(s, c, id);
  }

  // In every run: two attached backings share no page, and no attached backing shares
  // a page with the command memory of a submit that has not completed.
  lemma AttachedBackingsApart(pages: nat, ops: seq<Op>, id: nat, g: Region, id': nat, g': Region, k: nat)
    requires IdsFit(Run(Initial(pages), ops))
    requires HostOf(Run(Initial(pages), ops).trace, id) == Backed(g)
    ensures var s := Run(Initial(pages), ops);
            && (forall p: nat :: g.Has(p) ==> Marked(s.arena.used, p))
            && (id' != id && HostOf(s.trace, id') == Backed(g') ==> !Overlap(g, g'))
            && (k < |s.agents| && s.agents[k].cmd.Submit3D? ==> !Overlap(g, s.agents[k].cmd.region))
  {
    hide Run, Lookup, HostOf;
    var s := Run(Initial(pages), ops);
    InitialProtocol(pages);
    InitialBase(pages);
    RunProtocol(Initial(pages), ops);
    EveryPageHasOneOwner(pages, ops);
    assert ResourceOk(s, id) && ResourceOk(s, id');
    var o := AttachedOwner(s, id, g);
    forall p: nat | g.Has(p)
      ensures Marked(s.arena.used, p)
    {
      OwnedIsMarked(s, o, p);
    }
    if id' != id && HostOf(s.trace, id') == Backed(g') {
      var o' := AttachedOwner(s, id', g');
      OwnersAreDisjoint(s, o, o');
    }
    if k < |s.agents| && s.agents[k].cmd.Submit3D? {
      OwnersAreDisjoint(s, o, RequestAt(k));
    }
  }

  // ----- transfers that are outstanding -----

  // The memory attached to a resource id by the pushed commands, detached since or not.
  function AttachedTo(trace: seq<Command>, id: nat): Option<Region> {
    if trace == [] then None
    else
      var cmd := trace[|trace| - 1];
      if cmd.AttachBacking? && cmd.res == id then Some(cmd.region) else AttachedTo(trace[..|trace| - 1], id)
  }

  // Pushed and not handed back: the host may access the pages of the resource on its behalf.
  predicate TransferOn(a: Agent, id: nat) {
    a.phase.Queued? && a.cmd.Transfer? && a.cmd.res == id
  }

  ghost predicate HasTransfer(s: Driver, id: nat) {
    exists k :: 0 <= k < |s.agents| && TransferOn(s.agents[k], id)
  }

  // The page belongs to the resource.
  ghost predicate OwnedBy(s: Driver, id: nat, p: nat) {
    exists o: Owner :: o.ResourceAt? && RegionOf(s, o).Some? && RegionOf(s, o).value.Has(p)
                       && s.contexts[o.context].resources[o.position].id == id
  }

  // Every page that an outstanding transfer may access still belongs to its resource. By
  // OwnersAreDisjoint it then belongs to no one else.
  ghost predicate TransfersKeepPages(s: Driver) {
    forall id: nat, p: nat ::
      HasTransfer(s, id) && AttachedTo(s.trace, id).Some? && AttachedTo(s.trace, id).value.Has(p) ==>
        OwnedBy(s, id, p)
  }

  // There is memory behind the id by the pushed commands, and the resource is gone.
  ghost predicate GivenBack(s: Driver, id: nat) {
    !Live(s.contexts, id) && AttachedTo(s.trace, id).Some? && AttachedTo(s.trace, id).value.pages > 0
  }

  // What the automaton of the id says about its memory.
  lemma {:induction false} HostAttached(trace: seq<Command>, id: nat)
    ensures var (h, g) := (HostOf(trace, id), AttachedTo(trace, id));
            && (h.Backed? ==> g == Some(h.region))
            && (h.Absent? || h.Created? || h.Plain? || h.BlobCreated? || h.BlobMapped? || h.BlobUnmapped? ==> g.None?)
  {
    if trace != [] {
      HostAttached(trace[..|trace| - 1], id);
    }
  }

  lemma LiveAttached(s: Driver, c: nat, id: nat)
    requires ResourceOk(s, id) && Lookup(s.contexts, c, id).Some?
    ensures var r := Lookup(s.contexts, c, id).value;
            AttachedTo(s.trace, id) == if r.backing.Dma? then Some(r.backing.region) else None
  {
    hide Lookup, HostOf, AttachedTo;
    HostAttached(s.trace, id);
    assert Agrees(HostOf(s.trace, id), Lookup(s.contexts, c, id).value);
  }

  // A resource that is gone owns nothing, and a live one all its pages.
  lemma KeptUnlessGivenBack(s: Driver)
    requires Protocol(s) && Base(s)
    ensures TransfersKeepPages(s) <==> forall id: nat :: HasTransfer(s, id) ==> !GivenBack(s, id)
  {
    hide HasTransfer, HostOf, HostContextOf, Protocol, Base;
    forall id: nat, p: nat | AttachedTo(s.trace, id).Some? && AttachedTo(s.trace, id).value.Has(p)
      ensures OwnedBy(s, id, p) <==> Live(s.contexts, id)
    {
      PageOwned(s, id, p);
    }
    forall id: nat | HasTransfer(s, id) && GivenBack(s, id)
      ensures !TransfersKeepPages(s)
    {
      assert AttachedTo(s.trace, id).value.Has(AttachedTo(s.trace, id).value.start);
    }
  }

  lemma PageOwned(s: Driver, id: nat, p: nat)
    requires Protocol(s) && Base(s)
    requires AttachedTo(s.trace, id).Some? && AttachedTo(s.trace, id).value.Has(p)
    ensures OwnedBy(s, id, p) <==> Live(s.contexts, id)
  {
    hide HostOf, HostContextOf, AttachedTo;
    assert ResourceOk(s, id);
    if Live(s.contexts, id) {
      var c :| Lookup(s.contexts, c, id).Some?;
      LiveAttached(s, c, id);
      var o := OwnerOf(s, c, id);
    }
    forall o: Owner | o.ResourceAt? && RegionOf(s, o).Some? && s.contexts[o.context].resources[o.position].id == id
      ensures Live(s.contexts, id)
    {
      LookupAt(s.contexts, s.resourceIds.next, o.context, o.position);
    }
  }

  // ----- what a step does -----

  ghost predicate AttachesOnly(s: Driver, s': Driver, next: nat) {
    |s.trace| <= |s'.trace| && s'.trace[..|s.trace|] == s.trace
    && forall k :: |s.trace| <= k < |s'.trace| && s'.trace[k].AttachBacking? ==> s'.trace[k].res == next
  }

  lemma {:induction false} AttachedBefore(trace: seq<Command>, trace': seq<Command>, id: nat)
    requires |trace| <= |trace'| && trace'[..|trace|] == trace
    requires forall k :: |trace| <= k < |trace'| && trace'[k].AttachBacking? ==> trace'[k].res != id
    ensures AttachedTo(trace', id) == AttachedTo(trace, id)
    decreases |trace'|
  {
    if |trace'| == |trace| {
      assert trace' == trace;
    } else {
      var front := trace'[..|trace'| - 1];
      assert front[..|trace|] == trace;
      AttachedBefore(trace, front, id);
    }
  }

  lemma DeleteAttaches(s: Driver, t: Driver, c: nat, r: Resource, next: nat)
    requires AttachesOnly(s, t, next)
    ensures AttachesOnly(s, DeleteResource(t, c, r), next)
  {
    hide Free;
    var u := DeleteResource(t, c, r);
    assert u.trace[..|s.trace|] == t.trace[..|s.trace|];
  }

  lemma {:induction false} DrainAttaches(s: Driver, t: Driver, c: nat, rs: seq<Resource>, next: nat)
    requires AttachesOnly(s, t, next)
    ensures AttachesOnly(s, Drain(t, c, rs), next)
    decreases |rs|
  {
    hide DeleteResource, AttachesOnly;
    if rs != [] {
      DeleteAttaches(s, t, c, rs[|rs| - 1], next);
      DrainAttaches(s, DeleteResource(t, c, rs[|rs| - 1]), c, rs[..|rs| - 1], next);
    }
  }

  // Memory is attached to the id that the step has issued, and to no other.
  lemma StepAttaches(s: Driver, op: Op)
    requires IdsFit(Next(s, op)) && MarkingKinds(s)
    ensures AttachesOnly(s, Next(s, op), s.resourceIds.next)
  {
    if op.DestroyContext? {
      DestroyAttaches(s, op.ctx);
    } else if op.CloseResource? {
      hide DeleteResource, Lookup, Remove;
      if Lookup(s.contexts, op.ctx, op.res).Some? {
        var r := Lookup(s.contexts, op.ctx, op.res).value;
        DeleteAttaches(s, s.(contexts := Remove(s.contexts, op.ctx, op.res)), op.ctx, r, s.resourceIds.next);
      }
    } else if op.CreateResource? || op.CreateBlobResource? {
      CreateAttaches(s, op);
    } else {
      hide AttachesOnly;
      OthersAttach(s, op);
    }
  }

  lemma DestroyAttaches(s: Driver, c: nat)
    ensures AttachesOnly(s, DoDestroyContext(s, c), s.resourceIds.next)
  {
    hide Drain, FindContext;
    if FindContext(s.contexts, c).Some? {
      var i := FindContext(s.contexts, c).value;
      var t := s.(contexts := Without(s.contexts, i));
      DrainAttaches(s, t, c, s.contexts[i].resources, s.resourceIds.next);
      var u := Drain(t, c, s.contexts[i].resources);
      assert Emit(u, CtxDestroy(c)).trace[..|s.trace|] == u.trace[..|s.trace|];
    }
  }

  lemma CreateAttaches(s: Driver, op: Op)
    requires IdsFit(Next(s, op)) && (op.CreateResource? || op.CreateBlobResource?)
    ensures AttachesOnly(s, Next(s, op), s.resourceIds.next)
  {
    hide Allocate, FindContext, Insert, BufferBytes;
  }

  lemma OthersAttach(s: Driver, op: Op)
    requires !op.DestroyContext? && !op.CloseResource? && !op.CreateResource? && !op.CreateBlobResource?
    ensures var (was, now) := (s.trace, Next(s, op).trace);
            || now == was || now == was + [GetCapset]
            || (op.InitContext? && now == was + [CtxCreate(op.ctx)])
            || (op.Push? && Fires(s, op.agent) && now == was + [s.agents[op.agent].cmd])
    ensures MarkingKinds(s) ==> AttachesOnly(s, Next(s, op), s.resourceIds.next)
  {
    if Silent(op) {
      SilentTrace(s, op);
    } else {
      hide Lookup, FindContext;
    }
  }

  lemma StepAttachedTo(s: Driver, op: Op, id: nat)
    requires IdsFit(Next(s, op)) && MarkingKinds(s) && id < s.resourceIds.next
    ensures AttachedTo(Next(s, op).trace, id) == AttachedTo(s.trace, id)
  {
    hide Next, AttachedTo;
    StepAttaches(s, op);
    AttachedBefore(s.trace, Next(s, op).trace, id);
  }

  // Transfers name issued ids.
  ghost predicate TransfersIssued(s: Driver) {
    forall k :: 0 <= k < |s.agents| && s.agents[k].cmd.Transfer? ==> s.agents[k].cmd.res < s.resourceIds.next
  }

  lemma StepIssued(s: Driver, op: Op)
    requires TransfersIssued(s) && Base(s) && IdsFit(Next(s, op))
    ensures TransfersIssued(Next(s, op))
  {
    hide Next, Lookup, FindContext, WellFormed;
    CountersGrow(s, op);
    forall k | 0 <= k < |Next(s, op).agents| && Next(s, op).agents[k].cmd.Transfer?
      ensures Next(s, op).agents[k].cmd.res < s.resourceIds.next
    {
      var cmd := Next(s, op).agents[k].cmd;
      var l := RequestOrigin(s, op, k);
      if l >= |s.agents| {
        LookupBelow(s.contexts, s.resourceIds.next, cmd.ctx, cmd.res);
      }
    }
  }

  predicate HasPages(r: Resource) {
    r.backing.Dma? && r.backing.region.pages > 0
  }

  // The call deletes no resource with memory on which a transfer is outstanding.
  ghost predicate DeletesQuietly(s: Driver, op: Op) {
    match op
    case CloseResource(c, id) =>
      Lookup(s.contexts, c, id).Some? && HasPages(Lookup(s.contexts, c, id).value) ==> !HasTransfer(s, id)
    case DestroyContext(c) =>
      var i := FindContext(s.contexts, c);
      i.Some? ==> forall r :: r in s.contexts[i.value].resources && HasPages(r) ==> !HasTransfer(s, r.id)
    case _ => true
  }

  // The step pushes no transfer on a resource whose memory has been given back.
  ghost predicate PushesInTime(s: Driver, op: Op) {
    op.Push? && Fires(s, op.agent) && s.agents[op.agent].cmd.Transfer? ==> !GivenBack(s, s.agents[op.agent].cmd.res)
  }

  ghost predicate NoneGivenBack(s: Driver) {
    forall id: nat :: HasTransfer(s, id) ==> !GivenBack(s, id)
  }

  // A transfer is outstanding after a step if it was before, or the step has pushed it.
  lemma TransferBefore(s: Driver, op: Op, id: nat)
    requires HasTransfer(Next(s, op), id)
    ensures || HasTransfer(s, id)
            || (op.Push? && Fires(s, op.agent) && s.agents[op.agent].cmd.Transfer? && s.agents[op.agent].cmd.res == id)
  {
    hide Next, Lookup, FindContext;
    var s' := Next(s, op);
    var k :| 0 <= k < |s'.agents| && TransferOn(s'.agents[k], id);
    var l := RequestOrigin(s, op, k);
    assert l < |s.agents| && s'.agents[k].cmd == s.agents[l].cmd;
    if TransferOn(s.agents[l], id) {
      assert HasTransfer(s, id);
    } else {
      MovesAlone(s, op, k, l);
      OnlyPushQueues(s, op);
    }
  }

  lemma OnlyPushQueues(s: Driver, op: Op)
    requires Moves(op) && op.agent < |s.agents| && op.agent < |Next(s, op).agents|
    requires !s.agents[op.agent].phase.Queued? && Next(s, op).agents[op.agent].phase.Queued?
    ensures op.Push? && Fires(s, op.agent)
  {
    hide Lookup, Store, WriteOne;
  }

  lemma GoneBy(s: Driver, op: Op, id: nat)
    requires Protocol(s) && Base(s) && IdsFit(Next(s, op)) && id < s.resourceIds.next
    requires GivenBack(Next(s, op), id) && !GivenBack(s, id)
    ensures !op.Push? && (HasTransfer(s, id) ==> !DeletesQuietly(s, op))
  {
    hide Next, HasTransfer, Lookup, FindContext, HostOf, HostContextOf, HasPages, DeletesQuietly;
    StepAttachedTo(s, op, id);
    var c :| Lookup(s.contexts, c, id).Some?;
    assert Lookup(Next(s, op).contexts, c, id).None?;
    ResourceStep(s, op, c, id);
    assert ResourceOk(s, id);
    LiveAttached(s, c, id);
    HasPagesIs(Lookup(s.contexts, c, id).value);
    DeletedWithTransfer(s, op, c, id);
  }

  lemma DeletedWithTransfer(s: Driver, op: Op, c: nat, id: nat)
    requires op == CloseResource(c, id) || op == DestroyContext(c)
    requires Lookup(s.contexts, c, id).Some? && HasPages(Lookup(s.contexts, c, id).value)
    ensures HasTransfer(s, id) ==> !DeletesQuietly(s, op)
  {
    hide HasTransfer, HasPages;
    LookupFinds(s.contexts, c, id);
  }

  // What deletes a resource with memory and an outstanding transfer gives pages of it back.
  lemma LoudDelete(s: Driver, op: Op)
    requires Protocol(s) && Base(s) && IdsFit(Next(s, op)) && !DeletesQuietly(s, op)
    ensures !NoneGivenBack(Next(s, op))
  {
    hide Next, HasTransfer, Lookup, HostOf, HostContextOf, HasPages, WellFormed;
    var s' := Next(s, op);
    var c, id := LoudTarget(s, op);
    LookupBelow(s.contexts, s.resourceIds.next, c, id);
    StepAttachedTo(s, op, id);
    assert ResourceOk(s, id);
    LiveAttached(s, c, id);
    HasPagesIs(Lookup(s.contexts, c, id).value);
    forall c': nat
      ensures Lookup(s'.contexts, c', id).None?
    {
      ListStep(s, op, c', id);
      if Lookup(s.contexts, c', id).Some? {
        assert OneOwner(s.contexts) by { OneOwnerOf(s); }
      }
    }
    TransferStays(s, op, id);
    assert GivenBack(s', id);
  }

  lemma OneOwnerOf(s: Driver)
    requires Base(s)
    ensures OneOwner(s.contexts)
  {
  }

  lemma HasPagesIs(r: Resource)
    ensures HasPages(r) <==> r.backing.Dma? && r.backing.region.pages > 0
  {
  }

  lemma LoudTarget(s: Driver, op: Op) returns (c: nat, id: nat)
    requires Base(s) && !DeletesQuietly(s, op)
    ensures op == CloseResource(c, id) || op == DestroyContext(c)
    ensures Lookup(s.contexts, c, id).Some? && HasPages(Lookup(s.contexts, c, id).value) && HasTransfer(s, id)
  {
    hide HasTransfer, HasPages;
    if op.CloseResource? {
      c, id := op.ctx, op.res;
    } else {
      c := op.ctx;
      var i := FindContext(s.contexts, c).value;
      var r :| r in s.contexts[i].resources && HasPages(r) && HasTransfer(s, r.id);
      id := r.id;
      var j :| 0 <= j < |s.contexts[i].resources| && s.contexts[i].resources[j] == r;
      LookupAt(s.contexts, s.resourceIds.next, i, j);
    }
  }

  lemma TransferStays(s: Driver, op: Op, id: nat)
    requires HasTransfer(s, id) && (op.CloseResource? || op.DestroyContext?)
    ensures HasTransfer(Next(s, op), id)
  {
    hide Next;
    StepAppends(s, op);
    var k :| 0 <= k < |s.agents| && TransferOn(s.agents[k], id);
    assert Next(s, op).agents[..|s.agents|][k] == Next(s, op).agents[k];
  }

  lemma LatePush(s: Driver, op: Op)
    requires Protocol(s) && Base(s) && IdsFit(Next(s, op)) && TransfersIssued(s) && !PushesInTime(s, op)
    ensures !NoneGivenBack(Next(s, op))
  {
    hide Next, Lookup, HostOf, HostContextOf, WellFormed, AttachedTo;
    var id := s.agents[op.agent].cmd.res;
    QuietStep(s, op);
    StepAttachedTo(s, op, id);
    PushQueues(s, op.agent);
    assert TransferOn(Next(s, op).agents[op.agent], id);
    assert HasTransfer(Next(s, op), id) && GivenBack(Next(s, op), id);
  }

  lemma PushQueues(s: Driver, i: nat)
    requires Fires(s, i)
    ensures i < |Next(s, Push(i)).agents| && Next(s, Push(i)).agents[i] == s.agents[i].(phase := Queued)
  {
  }

  lemma StepKeepsPages(s: Driver, op: Op)
    requires Protocol(s) && Base(s) && IdsFit(Next(s, op)) && TransfersIssued(s) && NoneGivenBack(s)
    ensures NoneGivenBack(Next(s, op)) <==> DeletesQuietly(s, op) && PushesInTime(s, op)
  {
    hide Next, HasTransfer, GivenBack, DeletesQuietly, HostOf, HostContextOf, Protocol, Base;
    var s' := Next(s, op);
    if !DeletesQuietly(s, op) {
      LoudDelete(s, op);
    } else if !PushesInTime(s, op) {
      LatePush(s, op);
    } else {
      forall id: nat | HasTransfer(s', id)
        ensures !GivenBack(s', id)
      {
        TransferBefore(s, op, id);
        TransferIssued(s, op, id);
        if GivenBack(s', id) && !GivenBack(s, id) {
          GoneBy(s, op, id);
        }
      }
    }
  }

  lemma TransferIssued(s: Driver, op: Op, id: nat)
    requires TransfersIssued(s)
    ensures HasTransfer(s, id) ==> id < s.resourceIds.next
    ensures op.Push? && Fires(s, op.agent) && s.agents[op.agent].cmd.Transfer? ==>
            s.agents[op.agent].cmd.res < s.resourceIds.next
  {
  }

  // ----- over runs -----

  // In every state of the run.
  ghost predicate AlwaysKeepPages(s: Driver, ops: seq<Op>)
    decreases |ops|
  {
    TransfersKeepPages(s) && (ops != [] ==> AlwaysKeepPages(Next(s, ops[0]), ops[1..]))
  }

  // No call deletes a resource with memory while a transfer on it is outstanding, and no transfer
  // is pushed after the memory of its resource was given back.
  ghost predicate TransfersInTime(s: Driver, ops: seq<Op>)
    decreases |ops|
  {
    ops != [] ==>
      DeletesQuietly(s, ops[0]) && PushesInTime(s, ops[0]) && TransfersInTime(Next(s, ops[0]), ops[1..])
  }

  lemma {:induction false} RunKeepsPages(s: Driver, ops: seq<Op>)
    requires Protocol(s) && Base(s) && IdsFit(Run(s, ops)) && TransfersIssued(s) && NoneGivenBack(s)
    ensures AlwaysKeepPages(s, ops) <==> TransfersInTime(s, ops)
    decreases |ops|
  {
    hide Next, Protocol, Base, NoneGivenBack, TransfersKeepPages, DeletesQuietly, PushesInTime, TransfersIssued;
    KeptIs(s);
    if ops != [] {
      var t := Next(s, ops[0]);
      RunCountersGrow(t, ops[1..]);
      StepKeepsPages(s, ops[0]);
      StepIssued(s, ops[0]);
      StepProtocol(s, ops[0]);
      StepBase(s, ops[0]);
      KeptIs(t);
      if NoneGivenBack(t) {
        RunKeepsPages(t, ops[1..]);
      } else {
        assert !AlwaysKeepPages(t, ops[1..]);
      }
    }
  }

  lemma KeptIs(s: Driver)
    requires Protocol(s) && Base(s)
    ensures TransfersKeepPages(s) <==> NoneGivenBack(s)
  {
    hide Protocol, Base, TransfersKeepPages, HasTransfer, GivenBack;
    KeptUnlessGivenBack(s);
  }

  // For every run: in every state of it each page that an outstanding transfer may access still
  // belongs to the resource of the transfer if and only if no close and no end of a context
  // deletes a resource with memory while a transfer on it is outstanding, and no transfer is
  // pushed after the memory of its resource was given back.
  lemma TransfersKeepPagesIff(pages: nat, ops: seq<Op>)
    requires IdsFit(Run(Initial(pages), ops))
    ensures AlwaysKeepPages(Initial(pages), ops) <==> TransfersInTime(Initial(pages), ops)
  {
    InitialProtocol(pages);
    InitialBase(pages);
    RunKeepsPages(Initial(pages), ops);
  }
}
