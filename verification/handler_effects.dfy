// What each handler does to lists, registers, requests and pages, said without its code.
module HandlerEffects {
  import opened Wrappers
  import opened Paging
  import opened Arena
  import opened FenceRegister
  import opened DriverState
  import opened ResourceTable
  import opened BaseInvariant
  import opened AtomicSteps
  import opened MemoryOwnership
  import opened Teardown
  import Idr

  // ----- the vocabulary -----

  ghost predicate SameContexts(cs: seq<Context>, ds: seq<Context>) {
    forall c: nat :: FindContext(ds, c).Some? == FindContext(cs, c).Some?
  }

  // In the table of resources at most entry (c, id) has changed, which is r now.
  ghost predicate OnlyEntry(cs: seq<Context>, ds: seq<Context>, c: nat, id: nat, r: Option<Resource>) {
    && SameContexts(cs, ds)
    && forall c': nat, id': nat ::
         Lookup(ds, c', id') == if c' == c && id' == id then r else Lookup(cs, c', id')
  }

  // Each live resource of context c that `handles` names, once or more often, shows the update,
  // and every other resource is as it was.
  ghost predicate Shows(cs: seq<Context>, ds: seq<Context>, c: nat, handles: seq<nat>, u: Update) {
    && SameContexts(cs, ds)
    && forall c': nat, id: nat ::
         var r := Lookup(cs, c', id);
         Lookup(ds, c', id)
         == if c' == c && id in handles && r.Some? then Some(r.value.(state := Apply(r.value.state, u))) else r
  }

  // One new request, the youngest. Its command is on the queue if and only if it was pushed.
  ghost predicate Issues(s: Driver, s': Driver, cmd: Command, phase: Phase) {
    && s'.agents == s.agents + [Agent(|s.issued|, cmd, phase)]
    && s'.issued == s.issued + [cmd]
    && s'.trace == if phase.Queued? then s.trace + [cmd] else s.trace
  }

  // The requests of commands that were pushed in this order, the first with this tag.
  function QueuedFrom(tag: nat, cmds: seq<Command>): (agents: seq<Agent>)
    ensures |agents| == |cmds|
    ensures forall k :: 0 <= k < |cmds| ==> agents[k] == Agent(tag + k, cmds[k], Queued)
  {
    seq(|cmds|, k requires 0 <= k < |cmds| => Agent(tag + k, cmds[k], Queued))
  }

  // These commands and no others were pushed.
  ghost predicate Pushes(s: Driver, s': Driver, cmds: seq<Command>) {
    && s'.agents == s.agents + QueuedFrom(|s.issued|, cmds)
    && s'.issued == s.issued + cmds
    && s'.trace == s.trace + cmds
  }

  predicate Hold(pages: nat, size: nat) {
    size <= pages * PAGE_SIZE
  }

  // The least number of pages that hold `size` bytes. For the sizes of the last page of the
  // 32-bit range ROUND_UP wraps, and there are none.
  function PagesFor(size: nat): (n: nat)
    ensures size <= WORD - PAGE_SIZE ==> Hold(n, size) && n * PAGE_SIZE < WORD
    ensures size <= WORD - PAGE_SIZE ==> forall m: nat :: Hold(m, size) ==> n <= m
    ensures size > WORD - PAGE_SIZE ==> n == 0
  {
    if size > WORD - PAGE_SIZE then 0 else (size + PAGE_SIZE - 1) / PAGE_SIZE
  }

  // The pages of g were clear and are marked now, and no other page has changed.
  ghost predicate Takes(a: Arena, b: Arena, g: Region) {
    && RunAt(a.used, false, g.pages, g.start)
    && |b.used| == |a.used| && b.available == a.available - g.pages * PAGE_SIZE
    && forall p: nat :: p < |a.used| ==> b.used[p] == (a.used[p] || g.Has(p))
  }

  // The pages of g were marked and are clear now, and no other page has changed.
  ghost predicate GivesBack(a: Arena, b: Arena, g: Region) {
    && |b.used| == |a.used| && b.available == a.available + g.pages * PAGE_SIZE
    && forall p: nat :: p < |a.used| ==> b.used[p] == (a.used[p] && !g.Has(p))
  }

  // ----- steps of the proofs -----

  lemma PushesNone(s: Driver, s': Driver)
    requires s'.agents == s.agents && s'.issued == s.issued && s'.trace == s.trace
    ensures Pushes(s, s', [])
  {
  }

  lemma EmitPushes(s: Driver, t: Driver, cmds: seq<Command>, cmd: Command)
    requires Pushes(s, t, cmds)
    ensures Pushes(s, Emit(t, cmd), cmds + [cmd])
  {
    assert QueuedFrom(|s.issued|, cmds + [cmd]) == QueuedFrom(|s.issued|, cmds) + [Agent(|t.issued|, cmd, Queued)];
  }

  lemma PushesOne(s: Driver, t: Driver, cmd: Command)
    requires t.agents == s.agents && t.issued == s.issued && t.trace == s.trace
    ensures Pushes(s, Emit(t, cmd), [cmd])
  {
    PushesNone(s, t);
    EmitPushes(s, t, [], cmd);
    assert [] + [cmd] == [cmd];
  }

  lemma PushesTwo(s: Driver, t: Driver, first: Command, second: Command)
    requires Pushes(s, t, [first])
    ensures Pushes(s, Emit(t, second), [first, second])
  {
    EmitPushes(s, t, [first], second);
    assert [first] + [second] == [first, second];
  }

  lemma RoundedPages(size: nat)
    requires size < WORD
    ensures RoundUp(size) == PagesFor(size) * PAGE_SIZE
  {
    hide RoundUp;
    var q := RoundUpIs(size);
  }

  // An allocation of whole pages.
  lemma AllocateTakes(a: Arena, n: nat)
    requires Valid(a)
    ensures var (b, r) := Allocate(a, n * PAGE_SIZE);
            && (r.None? <==> !ClearRunExists(a, n))
            && (r.None? ==> b == a)
            && (r.Some? ==> r.value.pages == n && Takes(a, b, r.value) && Valid(b))
  {
    hide FindRun;
    WholePages(n);
    AllocateComplete(a, n * PAGE_SIZE);
    AllocateLockedKeeps(a, n * PAGE_SIZE);
  }

  lemma FreeGivesBack(a: Arena, g: Region)
    requires Valid(a) && RunAt(a.used, true, g.pages, g.start)
    ensures GivesBack(a, Free(a, g.start, g.pages * PAGE_SIZE), g) && Valid(Free(a, g.start, g.pages * PAGE_SIZE))
  {
    hide Free;
    FreeClearsRegion(a, g);
  }

  lemma KeptContexts(cs: seq<Context>, ds: seq<Context>)
    requires |cs| == |ds| && forall k :: 0 <= k < |cs| ==> cs[k].id == ds[k].id
    ensures SameContexts(cs, ds)
  {
    forall c: nat
      ensures FindContext(ds, c).Some? == FindContext(cs, c).Some?
    {
      FindContextSame(cs, ds, c);
    }
  }

  lemma StoredEntry(cs: seq<Context>, c: nat, id: nat, r: Resource)
    requires Lookup(cs, c, id).Some? && r.id == id
    ensures OnlyEntry(cs, Store(cs, c, id, r), c, id, Some(r))
  {
    KeptContexts(cs, Store(cs, c, id, r));
    forall c': nat, id': nat
      ensures Lookup(Store(cs, c, id, r), c', id') == if c' == c && id' == id then Some(r) else Lookup(cs, c', id')
    {
      LookupStore(cs, c, id, r, c', id');
    }
  }

  lemma InsertedEntry(cs: seq<Context>, c: nat, r: Resource)
    requires FindContext(cs, c).Some?
    ensures OnlyEntry(cs, Insert(cs, c, r), c, r.id, Some(r))
  {
    KeptContexts(cs, Insert(cs, c, r));
    forall c': nat, id': nat
      ensures Lookup(Insert(cs, c, r), c', id') == if c' == c && id' == r.id then Some(r) else Lookup(cs, c', id')
    {
      LookupInsert(cs, c, r, c', id');
    }
  }

  lemma RemovedEntry(cs: seq<Context>, next: nat, c: nat, id: nat)
    requires WellFormed(cs, next) && Lookup(cs, c, id).Some?
    ensures OnlyEntry(cs, Remove(cs, c, id), c, id, None)
  {
    KeptContexts(cs, Remove(cs, c, id));
    forall c': nat, id': nat
      ensures Lookup(Remove(cs, c, id), c', id') == if c' == c && id' == id then None else Lookup(cs, c', id')
    {
      LookupRemove(cs, next, c, id, c', id');
    }
  }

  lemma {:induction false} UpdateKeepsContexts(cs: seq<Context>, c: nat, ids: seq<nat>, u: Update)
    ensures SameContexts(cs, UpdateMany(cs, c, ids, u))
    decreases |ids|
  {
    if ids != [] {
      var ds := UpdateOne(cs, c, ids[0], u);
      KeptContexts(cs, ds);
      UpdateKeepsContexts(ds, c, ids[1..], u);
    }
  }

  lemma UpdateShows(cs: seq<Context>, c: nat, ids: seq<nat>, u: Update)
    ensures Shows(cs, UpdateMany(cs, c, ids, u), c, ids, u)
  {
    hide Lookup, UpdateMany;
    UpdateKeepsContexts(cs, c, ids, u);
    forall c': nat, id: nat
      ensures var r := Lookup(cs, c', id);
              Lookup(UpdateMany(cs, c, ids, u), c', id)
              == if c' == c && id in ids && r.Some? then Some(r.value.(state := Apply(r.value.state, u))) else r
    {
      LookupUpdateMany(cs, c, ids, u, c', id);
    }
  }

  // What becomes of a request, in terms of what is recorded and pushed.
  lemma IssueEffect(s: Driver, cmd: Command, fault: Fault)
    ensures var marked := s.(contexts := UpdateMany(s.contexts, ContextOf(cmd), Marks(cmd), Update(true, FenceOf(cmd))));
            Issue(AddAgent(s, cmd, Marking(0, Looking)), |s.agents|, fault)
            == if fault.HandlesUnreadable? && Marks(cmd) != [] then AddAgent(s, cmd, Abandoned(0))
               else if fault.NotPushed? || (fault.NoHandleCopy? && Marks(cmd) != []) then
                 AddAgent(marked, cmd, Abandoned(|Marks(cmd)|))
               else Emit(marked, cmd)
  {
    hide UpdateMany;
    var t := AddAgent(s, cmd, Marking(0, Looking));
    forall phase
      ensures SetPhase(t, |s.agents|, phase).agents == s.agents + [Agent(|s.issued|, cmd, phase)]
    {
      assert t.agents[|s.agents| := Agent(|s.issued|, cmd, phase)] == s.agents + [Agent(|s.issued|, cmd, phase)];
    }
  }

  // ----- submits and transfers -----

  // The exits of a request on `handles` between its begin and its push.
  predicate ExitsUnmarked(handles: seq<nat>, fault: Fault) {
    fault == HandlesUnreadable && handles != []
  }

  predicate ExitsMarked(handles: seq<nat>, fault: Fault) {
    fault == NotPushed || (fault == NoHandleCopy && handles != [])
  }

  // A request on `handles`, with the exits it may take.
  ghost predicate MakesRequest(s: Driver, s': Driver, cmd: Command, c: nat, handles: seq<nat>, fence: nat, fault: Fault) {
    if ExitsUnmarked(handles, fault) then s'.contexts == s.contexts && Issues(s, s', cmd, Abandoned(0))
    else
      && Shows(s.contexts, s'.contexts, c, handles, Update(true, fence))
      && Issues(s, s', cmd, if ExitsMarked(handles, fault) then Abandoned(|handles|) else Queued)
  }

  lemma IssueRequests(s: Driver, cmd: Command, fault: Fault)
    ensures var s' := Issue(AddAgent(s, cmd, Marking(0, Looking)), |s.agents|, fault);
            && MakesRequest(s, s', cmd, ContextOf(cmd), Marks(cmd), FenceOf(cmd), fault)
            && s' == s.(contexts := s'.contexts, agents := s'.agents, issued := s'.issued, trace := s'.trace)
  {
    hide Issue, UpdateMany, Shows;
    IssueEffect(s, cmd, fault);
    UpdateShows(s.contexts, ContextOf(cmd), Marks(cmd), Update(true, FenceOf(cmd)));
  }

  // A submit that gets its memory, whatever becomes of it afterwards: the command has exactly
  // these handles, a fence id if and only if there is an out-fence, and a region of its own that
  // holds the command and has no page too many.
  ghost predicate Submits(s: Driver, s': Driver, c: nat, size: nat, outFence: bool, handles: seq<nat>, fault: Fault) {
    && |s'.agents| == |s.agents| + 1
    && var cmd := s'.agents[|s.agents|].cmd;
    && cmd.Submit3D? && cmd.ctx == c && cmd.handles == handles && cmd.outFence == outFence
    && (if outFence then 1 <= s.fenceIds.next < Idr.Range(8) ==> cmd.fence == s.fenceIds.next else cmd.fence == 0)
    && s'.fenceIds == (if outFence then s.fenceIds.(next := s.fenceIds.next + 1) else s.fenceIds)
    && cmd.region.pages == PagesFor(size) && Takes(s.arena, s'.arena, cmd.region)
    && MakesRequest(s, s', cmd, c, handles, cmd.fence, fault)
    && s' == s.(contexts := s'.contexts, agents := s'.agents, issued := s'.issued, trace := s'.trace,
                arena := s'.arena, fenceIds := s'.fenceIds)
  }

  // CtlSubmitCommand, with and without out-fence and over all of its exits. It changes nothing if
  // the process has no context or no run of free pages is long enough.
  lemma SubmitEffect(s: Driver, c: nat, size: nat, outFence: bool, handles: seq<nat>, fault: Fault)
    requires Valid(s.arena) && size < WORD
    ensures var s' := DoSubmit(s, c, size, outFence, handles, fault);
            if FindContext(s.contexts, c).None? || !ClearRunExists(s.arena, PagesFor(size)) then s' == s
            else Submits(s, s', c, size, outFence, handles, fault)
  {
    hide Allocate, RoundUp, FindContext, Issue, MakesRequest, Takes, Idr.LowBytes, Idr.Range, ClearRunExists, Valid;
    RoundedPages(size);
    AllocateTakes(s.arena, PagesFor(size));
    var (arena, g) := Allocate(s.arena, RoundUp(size));
    if FindContext(s.contexts, c).Some? && g.Some? {
      var (fences, fence) := if outFence then Idr.GetWithoutCache(s.fenceIds, 8) else (s.fenceIds, 0);
      var t := s.(arena := arena, fenceIds := fences);
      IssueRequests(t, Submit3D(c, handles, fence, g.value, outFence), fault);
      SameRequests(t, s, DoSubmit(s, c, size, outFence, handles, fault), c, handles, fault);
    }
  }

  lemma SameRequests(t: Driver, s: Driver, s': Driver, c: nat, handles: seq<nat>, fault: Fault)
    requires t.contexts == s.contexts && t.agents == s.agents && t.issued == s.issued && t.trace == s.trace
    ensures forall cmd, fence ::
              MakesRequest(t, s', cmd, c, handles, fence, fault) ==> MakesRequest(s, s', cmd, c, handles, fence, fault)
    ensures forall cmd, fence :: MakesRequest(t, s', cmd, c, handles, fence, fault) ==>
              |s'.agents| == |s.agents| + 1 && s'.agents[|s.agents|].cmd == cmd
  {
    hide Shows;
  }

  // CtlTransferHost, in either direction. The mark is made whether or not the push succeeds.
  lemma TransferEffect(s: Driver, c: nat, id: nat, toHost: bool, pushed: bool)
    ensures var s' := DoTransfer(s, c, id, toHost, pushed);
            if Lookup(s.contexts, c, id).None? then s' == s
            else
              && Shows(s.contexts, s'.contexts, c, [id], Update(true, 0))
              && Issues(s, s', Transfer(c, id, toHost), if pushed then Queued else Abandoned(1))
              && s' == s.(contexts := s'.contexts, agents := s'.agents, issued := s'.issued, trace := s'.trace)
  {
    hide Lookup, Issue, Shows;
    if Lookup(s.contexts, c, id).Some? {
      IssueRequests(s, Transfer(c, id, toHost), if pushed then NoFault else NotPushed);
    }
  }

  // ----- creating resources -----

  // No context had a resource `id`, and now context c has this one. Nothing else in the lists
  // has changed.
  ghost predicate Adds(s: Driver, s': Driver, c: nat, id: nat, r: Resource) {
    && id == r.id && (forall c': nat :: Lookup(s.contexts, c', id).None?)
    && OnlyEntry(s.contexts, s'.contexts, c, id, Some(r))
  }

  lemma InsertAdds(s: Driver, s': Driver, c: nat, r: Resource)
    requires Base(s) && FindContext(s.contexts, c).Some? && r.id == s.resourceIds.next
    requires s'.contexts == Insert(s.contexts, c, r)
    ensures Adds(s, s', c, r.id, r)
  {
    hide Insert, Lookup, FindContext, OnlyEntry;
    InsertedEntry(s.contexts, c, r);
    forall c': nat
      ensures Lookup(s.contexts, c', r.id).None?
    {
      LookupBelow(s.contexts, s.resourceIds.next, c', r.id);
    }
  }

  // The pages behind a new resource: one for size 0, else the least number that holds the size.
  function BufferPages(size: nat): nat {
    if size == 0 then 1 else PagesFor(size)
  }

  // A new resource with a buffer of its own, attached at the host, and the id of its own.
  ghost predicate CreatesBuffer(s: Driver, s': Driver, c: nat, id: nat, size: nat) {
    var r := Lookup(s'.contexts, c, id);
    && r.Some? && r.value.backing.Dma?
    && var g := r.value.backing.region;
    && g.pages == BufferPages(size) && Takes(s.arena, s'.arena, g)
    && Adds(s, s', c, id, Resource(id, Register(true, 0), Dma(g), None, 0))
    && Pushes(s, s', [Create3D(c, id), AttachBacking(c, id, g)])
  }

  // A size of 1 gives a resource without buffer.
  ghost predicate CreatesPlain(s: Driver, s': Driver, c: nat, id: nat) {
    && Adds(s, s', c, id, Resource(id, Register(true, 0), NoBuffer, None, 0))
    && Pushes(s, s', [Create3D(c, id)]) && s'.arena == s.arena
  }

  ghost predicate HasRoom(a: Arena, size: nat) {
    size == 1 || ClearRunExists(a, BufferPages(size))
  }

  // CtlCreateResource with a new id. The id is idle and unmapped, and the client can name it if
  // and only if there was room. Otherwise it is spent, and the host knows it.
  ghost predicate Creates(s: Driver, s': Driver, c: nat, size: nat) {
    var id := s.resourceIds.next;
    && s' == s.(contexts := s'.contexts, agents := s'.agents, issued := s'.issued, trace := s'.trace,
                arena := s'.arena, resourceIds := s.resourceIds.(next := id + 1))
    && if size == 1 then CreatesPlain(s, s', c, id)
       else if HasRoom(s.arena, size) then CreatesBuffer(s, s', c, id, size)
       else s'.contexts == s.contexts && s'.arena == s.arena && Pushes(s, s', [Create3D(c, id)])
  }

  lemma BufferHolds(size: nat)
    requires size < WORD
    ensures BufferBytes(size) == BufferPages(size) * PAGE_SIZE
  {
    hide RoundUp;
    RoundedPages(size);
  }

  lemma CreateEffect(s: Driver, c: nat, size: nat)
    requires Base(s) && Valid(s.arena) && IdsFit(DoCreateResource(s, c, size)) && size < WORD
    ensures var s' := DoCreateResource(s, c, size);
            if FindContext(s.contexts, c).None? then s' == s else Creates(s, s', c, size)
  {
    hide Allocate, BufferBytes, BufferPages, FindContext, Insert, Takes, Idr.LowBytes, Idr.Range, Valid, Base, Pushes, Adds;
    var s' := DoCreateResource(s, c, size);
    if FindContext(s.contexts, c).Some? {
      var id := s.resourceIds.next;
      CounterFits(s, c, size);
      var t := s.(resourceIds := s.resourceIds.(next := id + 1));
      PushesOne(s, t, Create3D(c, id));
      var plain := Resource(id, Register(true, 0), NoBuffer, None, 0);
      if size == 1 {
        InsertAdds(s, s', c, plain);
        SamePushes(s, Emit(t, Create3D(c, id)), s', [Create3D(c, id)]);
      } else {
        BufferHolds(size);
        AllocateTakes(s.arena, BufferPages(size));
        var (arena, g) := Allocate(s.arena, BufferBytes(size));
        if g.Some? {
          InsertAdds(s, s', c, plain.(backing := Dma(g.value)));
          AddsFinds(s, s', c, plain.(backing := Dma(g.value)));
          var created := Emit(t, Create3D(c, id)).(arena := arena);
          SamePushes(s, Emit(t, Create3D(c, id)), created, [Create3D(c, id)]);
          PushesTwo(s, created, Create3D(c, id), AttachBacking(c, id, g.value));
          SamePushes(s, Emit(created, AttachBacking(c, id, g.value)), s', [Create3D(c, id), AttachBacking(c, id, g.value)]);
        }
      }
    }
  }

  lemma AddsFinds(s: Driver, s': Driver, c: nat, r: Resource)
    requires Adds(s, s', c, r.id, r)
    ensures Lookup(s'.contexts, c, r.id) == Some(r)
  {
  }

  lemma SamePushes(s: Driver, t: Driver, t': Driver, cmds: seq<Command>)
    requires Pushes(s, t, cmds) && t'.agents == t.agents && t'.issued == t.issued && t'.trace == t.trace
    ensures Pushes(s, t', cmds)
  {
  }

  lemma CounterFits(s: Driver, c: nat, size: nat)
    requires Base(s) && FindContext(s.contexts, c).Some? && size < WORD
    requires IdsFit(DoCreateResource(s, c, size))
    ensures Idr.GetWithoutCache(s.resourceIds, 4) == (s.resourceIds.(next := s.resourceIds.next + 1), s.resourceIds.next)
  {
    hide Allocate, BufferBytes, FindContext, Insert, Idr.LowBytes, Idr.Range;
  }

  // When there is an id to return, and which.
  lemma CreateAnswer(s: Driver, c: nat, size: nat)
    requires Valid(s.arena) && size < WORD && FindContext(s.contexts, c).Some?
    ensures HasRoom(s.arena, size) <==> size == 1 || Allocate(s.arena, BufferBytes(size)).1.Some?
    ensures Base(s) && IdsFit(DoCreateResource(s, c, size)) ==>
              && Idr.GetWithoutCache(s.resourceIds, 4).1 == s.resourceIds.next
              && Creates(s, DoCreateResource(s, c, size), c, size)
  {
    hide Allocate, BufferBytes, BufferPages, DoCreateResource, Creates, Base, IdsFit, Valid, FindContext;
    BufferHolds(size);
    AllocateTakes(s.arena, BufferPages(size));
    if Base(s) && IdsFit(DoCreateResource(s, c, size)) {
      CounterFits(s, c, size);
      CreateEffect(s, c, size);
    }
  }

  // CtlCreateBlobResource: a busy blob without address, under an id that no context has had,
  // which is the id that the host is told to create and to map.
  ghost predicate CreatesBlob(s: Driver, s': Driver, c: nat, id: nat) {
    && Adds(s, s', c, id, Resource(id, Register(false, 0), Blob(None), None, 0))
    && Pushes(s, s', [CreateBlob(c, id), MapBlob(c, id)])
    && s' == s.(contexts := s'.contexts, agents := s'.agents, issued := s'.issued, trace := s'.trace,
                resourceIds := s.resourceIds.(next := s.resourceIds.next + 1))
  }

  lemma CreateBlobEffect(s: Driver, c: nat)
    requires Base(s) && IdsFit(DoCreateBlob(s, c))
    ensures var s' := DoCreateBlob(s, c);
            if FindContext(s.contexts, c).None? then s' == s else CreatesBlob(s, s', c, s.resourceIds.next)
    ensures FindContext(s.contexts, c).Some? ==> Idr.GetWithoutCache(s.resourceIds, 4).1 == s.resourceIds.next
  {
    hide FindContext, Insert, Idr.LowBytes, Idr.Range, Base, Pushes, Adds;
    var s' := DoCreateBlob(s, c);
    if FindContext(s.contexts, c).Some? {
      var id := s.resourceIds.next;
      assert Idr.GetWithoutCache(s.resourceIds, 4).1 == id;
      var t := s.(resourceIds := s.resourceIds.(next := id + 1));
      var blob := Resource(id, Register(false, 0), Blob(None), None, 0);
      PushesOne(s, t, CreateBlob(c, id));
      var created := Emit(t, CreateBlob(c, id)).(contexts := Insert(s.contexts, c, blob));
      SamePushes(s, Emit(t, CreateBlob(c, id)), created, [CreateBlob(c, id)]);
      PushesTwo(s, created, CreateBlob(c, id), MapBlob(c, id));
      InsertAdds(s, s', c, blob);
    }
  }

  // ----- contexts and deletions -----

  lemma FindNewContext(cs: seq<Context>, c: nat, c': nat)
    requires FindContext(cs, c).None?
    ensures FindContext([Context(c, [])] + cs, c').Some? <==> c' == c || FindContext(cs, c').Some?
  {
    assert ([Context(c, [])] + cs)[1..] == cs;
  }

  // CtlInitVirglContext for a process that has no context yet: the context is there and has no
  // resource, and the host is told.
  lemma InitEffect(s: Driver, c: nat)
    ensures var s' := DoInitContext(s, c);
            if FindContext(s.contexts, c).Some? then s' == s
            else
              && (forall c': nat :: FindContext(s'.contexts, c').Some? <==> c' == c || FindContext(s.contexts, c').Some?)
              && (forall c': nat, id: nat ::
                    Lookup(s'.contexts, c', id) == if c' == c then None else Lookup(s.contexts, c', id))
              && Pushes(s, s', [CtxCreate(c)])
              && s' == s.(contexts := s'.contexts, agents := s'.agents, issued := s'.issued, trace := s'.trace)
  {
    hide Pushes;
    var s' := DoInitContext(s, c);
    if FindContext(s.contexts, c).None? {
      PushesOne(s, s.(contexts := s'.contexts), CtxCreate(c));
      forall c': nat, id: nat
        ensures FindContext(s'.contexts, c').Some? <==> c' == c || FindContext(s.contexts, c').Some?
        ensures Lookup(s'.contexts, c', id) == if c' == c then None else Lookup(s.contexts, c', id)
      {
        FindNewContext(s.contexts, c, c');
        LookupNewContext(s.contexts, c, c', id);
      }
    }
  }

  lemma PushesAppend(s: Driver, t: Driver, u: Driver, a: seq<Command>, b: seq<Command>)
    requires Pushes(s, t, a) && Pushes(t, u, b)
    ensures Pushes(s, u, a + b)
  {
    assert QueuedFrom(|s.issued|, a + b) == QueuedFrom(|s.issued|, a) + QueuedFrom(|t.issued|, b);
  }

  // The MDL of a mapping that is there, and the mapping of a blob.
  function DeleteLog(r: Resource): seq<LogEntry> {
    (if !r.backing.NoBuffer? && r.mdl.Some? && r.user != 0 then [FreeMdl(r.mdl.value)] else [])
    + if r.backing.Blob? then [UnmapIo(r.id, r.backing.address)] else []
  }

  // The list is drained from its tail.
  function DrainLog(rs: seq<Resource>): seq<LogEntry> {
    if rs == [] then [] else DeleteLog(rs[|rs| - 1]) + DrainLog(rs[..|rs| - 1])
  }

  lemma DeleteEffect(s: Driver, c: nat, r: Resource)
    ensures var s' := DeleteResource(s, c, r);
            && Pushes(s, s', DeleteTrace(c, r)) && s'.log == s.log + DeleteLog(r)
            && s'.arena == (if r.backing.Dma? then Free(s.arena, r.backing.region.start, r.backing.region.pages * PAGE_SIZE)
                            else s.arena)
            && s' == s.(agents := s'.agents, issued := s'.issued, trace := s'.trace, log := s'.log, arena := s'.arena)
  {
    hide Free, Pushes;
    var t := UnmapUser(s, r);
    var u := ReleaseBacking(t, c, r);
    if r.backing.NoBuffer? {
      PushesOne(s, u, Unref(c, r.id));
      assert DeleteTrace(c, r) == [Unref(c, r.id)];
    } else {
      var first := if r.backing.Dma? then DetachBacking(r.id) else UnmapBlob(c, r.id);
      PushesOne(s, t, first);
      SamePushes(s, Emit(t, first), u, [first]);
      PushesTwo(s, u, first, Unref(c, r.id));
      assert DeleteTrace(c, r) == [first, Unref(c, r.id)];
    }
  }

  lemma {:induction false} DrainEffect(s: Driver, c: nat, rs: seq<Resource>)
    ensures var s' := Drain(s, c, rs);
            && Pushes(s, s', DrainTrace(c, rs)) && s'.log == s.log + DrainLog(rs)
            && s' == s.(agents := s'.agents, issued := s'.issued, trace := s'.trace, log := s'.log, arena := s'.arena)
    decreases |rs|
  {
    hide DeleteResource, Pushes, DeleteTrace, DeleteLog;
    if rs == [] {
      PushesNone(s, s);
    } else {
      var last, front := rs[|rs| - 1], rs[..|rs| - 1];
      var t := DeleteResource(s, c, last);
      DeleteEffect(s, c, last);
      DrainEffect(t, c, front);
      PushesAppend(s, t, Drain(t, c, front), DeleteTrace(c, last), DrainTrace(c, front));
      assert s.log + DeleteLog(last) + DrainLog(front) == s.log + (DeleteLog(last) + DrainLog(front));
    }
  }

  // CtlDestroyVirglContext: the context and all its resources are gone and no other resource has
  // changed. The host is told of each resource and then of the context, mappings are undone.
  lemma DestroyEffect(s: Driver, c: nat)
    requires Base(s)
    ensures var i := FindContext(s.contexts, c);
            var s' := DoDestroyContext(s, c);
            if i.None? then s' == s
            else
              var rs := s.contexts[i.value].resources;
              && (forall c': nat :: FindContext(s'.contexts, c').Some? <==> c' != c && FindContext(s.contexts, c').Some?)
              && (forall c': nat, id: nat ::
                    Lookup(s'.contexts, c', id) == if c' == c then None else Lookup(s.contexts, c', id))
              && Pushes(s, s', DrainTrace(c, rs) + [CtxDestroy(c)])
              && s'.log == s.log + DrainLog(rs)
              && s' == s.(contexts := s'.contexts, agents := s'.agents, issued := s'.issued, trace := s'.trace,
                          log := s'.log, arena := s'.arena)
  {
    hide Drain, Pushes, FindContext, Lookup;
    if FindContext(s.contexts, c).Some? {
      var i := FindContext(s.contexts, c).value;
      var rs := s.contexts[i].resources;
      var t := s.(contexts := Without(s.contexts, i));
      DrainEffect(t, c, rs);
      PushesElsewhere(t, s, Drain(t, c, rs), DrainTrace(c, rs));
      EmitPushes(s, Drain(t, c, rs), DrainTrace(c, rs), CtxDestroy(c));
      forall c': nat
        ensures FindContext(t.contexts, c').Some? <==> c' != c && FindContext(s.contexts, c').Some?
      {
        FindAfterDrop(s.contexts, i, c');
      }
      forall c': nat, id: nat
        ensures Lookup(t.contexts, c', id) == if c' == c then None else Lookup(s.contexts, c', id)
      {
        LookupDropContext(s.contexts, i, c', id);
      }
    }
  }

  lemma PushesElsewhere(t: Driver, s: Driver, u: Driver, cmds: seq<Command>)
    requires Pushes(t, u, cmds) && t.agents == s.agents && t.issued == s.issued && t.trace == s.trace
    ensures Pushes(s, u, cmds)
  {
  }

  lemma FindAfterDrop(cs: seq<Context>, i: nat, c: nat)
    requires DistinctContexts(cs) && i < |cs|
    ensures FindContext(Without(cs, i), c).Some? <==> c != cs[i].id && FindContext(cs, c).Some?
  {
    var ds := Without(cs, i);
    assert forall k :: 0 <= k < |ds| ==> ds[k] == cs[if k < i then k else k + 1];
    var j := FindContext(cs, c);
    if j.Some? && j.value != i {
      assert ds[if j.value < i then j.value else j.value - 1].id == c;
    }
  }

  // CtlCloseResource: the one resource is gone, the host is told, its pages are free.
  lemma CloseEffect(s: Driver, c: nat, id: nat)
    requires Base(s) && Ownership(s)
    ensures var r := Lookup(s.contexts, c, id);
            var s' := DoClose(s, c, id);
            if r.None? then s' == s
            else
              && OnlyEntry(s.contexts, s'.contexts, c, id, None)
              && Pushes(s, s', DeleteTrace(c, r.value)) && s'.log == s.log + DeleteLog(r.value)
              && (if r.value.backing.Dma? then GivesBack(s.arena, s'.arena, r.value.backing.region) else s'.arena == s.arena)
              && s' == s.(contexts := s'.contexts, agents := s'.agents, issued := s'.issued, trace := s'.trace,
                          log := s'.log, arena := s'.arena)
  {
    hide DeleteResource, Pushes, Lookup, FindContext, Remove, OnlyEntry, Ownership, Free, GivesBack;
    var r := Lookup(s.contexts, c, id);
    if r.Some? {
      var t := s.(contexts := Remove(s.contexts, c, id));
      DeleteEffect(t, c, r.value);
      PushesElsewhere(t, s, DeleteResource(t, c, r.value), DeleteTrace(c, r.value));
      RemovedEntry(s.contexts, s.resourceIds.next, c, id);
      if r.value.backing.Dma? {
        var o := OwnerOf(s, c, id);
        OwnerGivesBack(s, o);
      }
    }
  }

  lemma OwnerOf(s: Driver, c: nat, id: nat) returns (o: Owner)
    requires Lookup(s.contexts, c, id).Some? && Lookup(s.contexts, c, id).value.backing.Dma?
    ensures RegionOf(s, o) == Some(Lookup(s.contexts, c, id).value.backing.region)
  {
    var i := FindContext(s.contexts, c).value;
    o := ResourceAt(i, FindResource(s.contexts[i].resources, id).value);
  }

  lemma OwnerGivesBack(s: Driver, o: Owner)
    requires Ownership(s) && RegionOf(s, o).Some?
    ensures var g := RegionOf(s, o).value;
            GivesBack(s.arena, Free(s.arena, g.start, g.pages * PAGE_SIZE), g)
  {
    hide RegionOf, Free, Owned;
    var g := RegionOf(s, o).value;
    forall p: nat | g.Has(p)
      ensures Marked(s.arena.used, p)
    {
      OwnedIsMarked(s, o, p);
    }
    FreeMarked(s.arena, g);
    var b := Free(s.arena, g.start, g.pages * PAGE_SIZE);
    assert forall p: nat :: p < |b.used| ==> b.used[p] == Marked(b.used, p) && s.arena.used[p] == Marked(s.arena.used, p);
  }

  // Creating a resource and closing it leaves the lists and the memory as they were. The host has
  // been told of the resource, of its memory, and of the end of both.
  lemma CreateRound(s: Driver, c: nat, size: nat)
    requires Base(s) && Ownership(s) && IdsFit(DoCreateResource(s, c, size)) && 1 != size < WORD
    requires FindContext(s.contexts, c).Some? && HasRoom(s.arena, size)
    ensures var t := DoCreateResource(s, c, size);
            var id := s.resourceIds.next;
            var u := DoClose(t, c, id);
            && (forall c': nat, id': nat :: Lookup(u.contexts, c', id') == Lookup(s.contexts, c', id'))
            && u.arena.used == s.arena.used && u.arena.available == s.arena.available && u.log == s.log
            && |t.agents| == |s.agents| + 2 && t.agents[|s.agents| + 1].cmd.AttachBacking?
            && Pushes(s, u, [Create3D(c, id), t.agents[|s.agents| + 1].cmd, DetachBacking(id), Unref(c, id)])
  {
    hide DoCreateResource, DoClose, Base, Ownership, FindContext, Lookup, Pushes, Takes, GivesBack, HasRoom, IdsFit,
      BufferPages, OnlyEntry, Adds;
    var t := DoCreateResource(s, c, size);
    var id := s.resourceIds.next;
    CountsPages(s);
    CreateEffect(s, c, size);
    StepBase(s, CreateResource(c, size));
    CreateOwnership(s, c, size);
    CloseEffect(t, c, id);
    var u := DoClose(t, c, id);
    var g := Lookup(t.contexts, c, id).value.backing.region;
    var r := Resource(id, Register(true, 0), Dma(g), None, 0);
    AddsFinds(s, t, c, r);
    AddedAndRemoved(s, t, u, c, r);
    TakenAndGivenBack(s.arena, t.arena, u.arena, g);
    PushesAppend(s, t, u, [Create3D(c, id), AttachBacking(c, id, g)], DeleteTrace(c, r));
    assert [Create3D(c, id), AttachBacking(c, id, g)] + DeleteTrace(c, r)
           == [Create3D(c, id), AttachBacking(c, id, g), DetachBacking(id), Unref(c, id)];
    LastPushed(s, t, Create3D(c, id), AttachBacking(c, id, g));
    assert DeleteLog(r) == [];
  }

  lemma CountsPages(s: Driver)
    requires Ownership(s)
    ensures Valid(s.arena)
  {
  }

  lemma LastPushed(s: Driver, t: Driver, first: Command, second: Command)
    requires Pushes(s, t, [first, second])
    ensures |t.agents| == |s.agents| + 2 && t.agents[|s.agents| + 1].cmd == second
  {
  }

  lemma AddedAndRemoved(s: Driver, t: Driver, u: Driver, c: nat, r: Resource)
    requires Adds(s, t, c, r.id, r) && OnlyEntry(t.contexts, u.contexts, c, r.id, None)
    ensures forall c': nat, id: nat :: Lookup(u.contexts, c', id) == Lookup(s.contexts, c', id)
  {
    hide Lookup, FindContext;
  }

  lemma TakenAndGivenBack(a: Arena, b: Arena, d: Arena, g: Region)
    requires Takes(a, b, g) && GivesBack(b, d, g)
    ensures d.used == a.used && d.available == a.available
  {
    assert forall p: nat :: g.Has(p) ==> !a.used[p];
  }

  // ----- mappings -----

  // CreateUserShareMemory gets as far as an MDL. A buffer without pages gets none.
  predicate GetsMdl(r: Resource, outcome: MapOutcome) {
    !outcome.NoMdl? && !(r.backing.Dma? && r.backing.region.pages == 0)
  }

  // And its mapping succeeds.
  predicate GetsMapped(r: Resource, outcome: MapOutcome) {
    GetsMdl(r, outcome) && outcome.Mapped? && outcome.user != 0
  }

  // CtlMap from its wait on. A busy resource keeps it waiting. If the resource is gone, so is the
  // call. Otherwise the resource holds the new MDL if and only if it was mapped, an MDL whose
  // mapping failed is freed, and one that the resource held already is lost.
  lemma EndMapChanges(s: Driver, k: nat, outcome: MapOutcome)
    requires k < |s.mappers|
    ensures var (c, id) := (s.mappers[k].ctx, s.mappers[k].res);
            var r := Lookup(s.contexts, c, id);
            var s' := DoEndMap(s, k, outcome);
            if r.None? then s' == s.(mappers := Without(s.mappers, k))
            else if !r.value.state.idle then s' == s
            else
              var (gets, mapped) := (GetsMdl(r.value, outcome), GetsMapped(r.value, outcome));
              && OnlyEntry(s.contexts, s'.contexts, c, id,
                           Some(r.value.(mdl := if mapped then Some(s.nextMdl) else None,
                                         user := if gets && outcome.Mapped? then outcome.user else r.value.user)))
              && s'.mappers == Without(s.mappers, k)
              && s'.nextMdl == s.nextMdl + (if gets then 1 else 0)
              && s'.log == s.log + (if gets && !mapped then [FreeMdl(s.nextMdl)] else [])
              && s'.lostMdls == s.lostMdls + (if r.value.mdl.Some? then {r.value.mdl.value} else {})
              && s' == s.(contexts := s'.contexts, mappers := s'.mappers, nextMdl := s'.nextMdl, log := s'.log,
                          lostMdls := s'.lostMdls)
  {
    hide Lookup, Store, OnlyEntry;
    var (c, id) := (s.mappers[k].ctx, s.mappers[k].res);
    var r := Lookup(s.contexts, c, id);
    if r.Some? && r.value.state.idle {
      LookupFinds(s.contexts, c, id);
      StoredEntry(s.contexts, c, id, Shared(r.value, outcome, s.nextMdl));
    }
  }
}
