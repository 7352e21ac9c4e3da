// Pieces of short runs from the initial state, with the state that each leads to: a context with
// one resource, without buffer, as a blob or with the only page of the arena; a transfer on it
// that has been begun and marked, pushed and completed; a MAP_BLOB whose completion has found its
// blob, mapped it or failed to; two calls of CtlMap that wait for it; two fenced submits that name
// the same resource and update it at the same time. Module FailingRuns puts them together.
// The process id is 7 throughout, and the first resource id is 1.
module RunFragments {
  import opened Wrappers
  import opened Paging
  import opened Arena
  import opened FenceRegister
  import opened DriverState
  import opened ResourceTable
  import opened BaseInvariant
  import opened AtomicSteps
  import Idr
  import HostMemory
  import MemoryOwnership

  // ----- lists with one element -----

  lemma Single(r: Resource, r': Resource)
    requires r.id == 1
    ensures var cs := [Context(7, [r])];
            && FindContext(cs, 7) == Some(0) && Lookup(cs, 7, 1) == Some(r)
            && Store(cs, 7, 1, r') == [Context(7, [r'])]
            && Remove(cs, 7, 1) == [Context(7, [])]
  {
    assert FindContext([Context(7, [r])], 7) == Some(0) && FindResource([r], 1) == Some(0);
    assert [r][0 := r'] == [r'];
    assert [r][..0] + [r][1..] == [];
  }

  lemma Empty(r: Resource)
    ensures var cs := [Context(7, [])];
            && FindContext(cs, 7) == Some(0) && Without(cs, 0) == []
            && Insert(cs, 7, r) == [Context(7, [r])]
  {
    assert [r] + [] == [r];
  }

  // ----- two starting points: a resource without buffer, and a blob that waits for MAP_BLOB -----

  function PlainStart(): seq<Op> {
    [InitContext(7), CreateResource(7, 1)]
  }

  ghost function WithPlain(pages: nat): Driver {
    Initial(pages).(
      contexts := [Context(7, [Resource(1, Register(true, 0), NoBuffer, None, 0)])],
      agents := [Agent(0, CtxCreate(7), Queued), Agent(1, Create3D(7, 1), Queued)],
      resourceIds := Idr.Idr(2, []),
      issued := [CtxCreate(7), Create3D(7, 1)],
      trace := [CtxCreate(7), Create3D(7, 1)])
  }

  lemma FirstContext(pages: nat)
    ensures Run(Initial(pages), [InitContext(7)])
            == Initial(pages).(contexts := [Context(7, [])], agents := [Agent(0, CtxCreate(7), Queued)],
                               issued := [CtxCreate(7)], trace := [CtxCreate(7)])
  {
    RunCons(Initial(pages), InitContext(7), []);
    assert [InitContext(7)] + [] == [InitContext(7)];
    RunNone(Next(Initial(pages), InitContext(7)));
  }

  lemma PlainReached(pages: nat)
    ensures Run(Initial(pages), PlainStart()) == WithPlain(pages)
  {
    hide Run;
    FirstContext(pages);
    RunSnoc(Initial(pages), [InitContext(7)], CreateResource(7, 1));
    assert PlainStart() == [InitContext(7)] + [CreateResource(7, 1)];
    var s := Run(Initial(pages), [InitContext(7)]);
    RangeOf(4);
    Empty(Resource(1, Register(true, 0), NoBuffer, None, 0));
    var t := Next(s, CreateResource(7, 1));
    assert t.agents == WithPlain(pages).agents && t.issued == WithPlain(pages).issued;
    assert t.trace == WithPlain(pages).trace && t.contexts == WithPlain(pages).contexts;
  }

  lemma RangeOf(size: nat)
    requires size >= 1
    ensures Idr.Range(size) >= 256
  {
  }

  function BlobStart(): seq<Op> {
    [InitContext(7), CreateBlobResource(7)]
  }

  ghost function WithBlob(pages: nat): Driver {
    Initial(pages).(
      contexts := [Context(7, [Resource(1, Register(false, 0), Blob(None), None, 0)])],
      agents := [Agent(0, CtxCreate(7), Queued), Agent(1, CreateBlob(7, 1), Queued), Agent(2, MapBlob(7, 1), Queued)],
      resourceIds := Idr.Idr(2, []),
      issued := [CtxCreate(7), CreateBlob(7, 1), MapBlob(7, 1)],
      trace := [CtxCreate(7), CreateBlob(7, 1), MapBlob(7, 1)])
  }

  lemma BlobReached(pages: nat)
    ensures Run(Initial(pages), BlobStart()) == WithBlob(pages)
  {
    hide Run;
    FirstContext(pages);
    RunSnoc(Initial(pages), [InitContext(7)], CreateBlobResource(7));
    assert BlobStart() == [InitContext(7)] + [CreateBlobResource(7)];
    var s := Run(Initial(pages), [InitContext(7)]);
    RangeOf(4);
    Empty(Resource(1, Register(false, 0), Blob(None), None, 0));
    var t := Next(s, CreateBlobResource(7));
    assert t.agents == WithBlob(pages).agents && t.issued == WithBlob(pages).issued;
    assert t.trace == WithBlob(pages).trace && t.contexts == WithBlob(pages).contexts;
  }

  // ----- a transfer on resource 1, begun and marked -----

  ghost function Marked(s: Driver): Driver
    requires Lookup(s.contexts, 7, 1).Some?
  {
    var r := Lookup(s.contexts, 7, 1).value;
    AddAgent(s, Transfer(7, 1, true), Marking(1, Looking)).(contexts := [Context(7, [Mark(r, Update(true, 0))])])
  }

  function MarkedTransfer(i: nat): seq<Op> {
    [BeginTransfer(7, 1, true), Look(i), SignalEvent(i)]
  }

  lemma MarkedReached(s: Driver, ops: seq<Op>, r: Resource)
    requires Run(s, ops).contexts == [Context(7, [r])] && r.id == 1
    ensures var t := Run(s, ops);
            Lookup(t.contexts, 7, 1) == Some(r)
            && Run(s, ops + MarkedTransfer(|t.agents|)) == Marked(t)
  {
    hide Run, DoBeginTransfer, DoLook, DoSignal, Marked, Lookup;
    var t := Run(s, ops);
    var i := |t.agents|;
    RunAppend(s, ops, MarkedTransfer(i));
    RunThree(t, BeginTransfer(7, 1, true), Look(i), SignalEvent(i));
    Single(r, r);
    TransferMarks(t, r);
  }

  lemma TransferMarks(t: Driver, r: Resource)
    requires t.contexts == [Context(7, [r])] && r.id == 1 && Lookup(t.contexts, 7, 1) == Some(r)
    ensures DoSignal(DoLook(DoBeginTransfer(t, 7, 1, true), |t.agents|), |t.agents|) == Marked(t)
  {
    hide Lookup, Store;
    var i := |t.agents|;
    Single(r, Mark(r, Update(true, 0)));
    var u := DoBeginTransfer(t, 7, 1, true);
    assert u == AddAgent(t, Transfer(7, 1, true), Marking(0, Looking));
    var v := DoLook(u, i);
    assert v.agents == t.agents + [Agent(|t.issued|, Transfer(7, 1, true), Marking(0, Signalling))];
    assert DoSignal(v, i).agents == Marked(t).agents;
  }

  // The completion of the MAP_BLOB has found the blob.
  function FoundBlobStart(): seq<Op> {
    BlobStart() + [Dequeue(2), Look(2)]
  }

  lemma FoundBlobReached(pages: nat)
    ensures Run(Initial(pages), FoundBlobStart())
            == WithBlob(pages).(agents := WithBlob(pages).agents[2 := Agent(2, MapBlob(7, 1), Completing(0, Storing))])
  {
    hide Run;
    BlobReached(pages);
    RunSnoc(Initial(pages), BlobStart(), Dequeue(2));
    RunSnoc(Initial(pages), BlobStart() + [Dequeue(2)], Look(2));
    assert BlobStart() + [Dequeue(2)] + [Look(2)] == FoundBlobStart();
    var blob := Resource(1, Register(false, 0), Blob(None), None, 0);
    Single(blob, blob);
    var t := DoDequeue(WithBlob(pages), 2);
    assert t.agents[2] == Agent(2, MapBlob(7, 1), Completing(0, Looking));
    assert DoLook(t, 2).agents == WithBlob(pages).agents[2 := Agent(2, MapBlob(7, 1), Completing(0, Storing))];
  }

  lemma FailedMapReached(pages: nat)
    ensures Run(Initial(pages), FoundBlobStart() + [MapIoSpace(2, 0)])
            == WithBlob(pages).(agents := WithBlob(pages).agents[2 := Agent(2, MapBlob(7, 1), Completing(1, Looking))],
                                failedMaps := {(7, 1)})
  {
    hide Run;
    FoundBlobReached(pages);
    RunSnoc(Initial(pages), FoundBlobStart(), MapIoSpace(2, 0));
    var t := Run(Initial(pages), FoundBlobStart());
    assert t.agents[2] == Agent(2, MapBlob(7, 1), Completing(0, Storing));
    assert DoMapIoSpace(t, 2, 0).agents == WithBlob(pages).agents[2 := Agent(2, MapBlob(7, 1), Completing(1, Looking))];
    assert DoMapIoSpace(t, 2, 0).failedMaps == {(7, 1)};
  }

  // A transfer that has marked resource 1 is pushed and completes.
  lemma TransferCompletes(s: Driver, i: nat, r: Resource)
    requires s.contexts == [Context(7, [r])] && r.id == 1 && i < |s.agents|
    requires s.agents[i] == Agent(s.agents[i].tag, Transfer(7, 1, true), Marking(1, Looking))
    ensures var t := DoSignal(DoLook(DoDequeue(DoPush(s, i), i), i), i);
            && t.contexts == [Context(7, [r.(state := Register(true, r.state.fence))])]
            && Lookup(t.contexts, 7, 1) == Some(r.(state := Register(true, r.state.fence)))
            && |t.agents| == |s.agents| && (forall k :: 0 <= k < |s.agents| && k != i ==> t.agents[k] == s.agents[k])
            && t.resourceIds == s.resourceIds && t.fenceIds == s.fenceIds
  {
    hide Lookup, Store;
    Single(r, r.(state := Register(true, r.state.fence)));
    Single(r.(state := Register(true, r.state.fence)), r);
    var t := DoLook(DoDequeue(DoPush(s, i), i), i);
    assert t.agents[i].phase == Completing(0, Signalling);
  }

  function OneTransfer(): seq<Op> {
    PlainStart() + MarkedTransfer(2) + [Push(2)]
  }

  lemma OneTransferReached(pages: nat)
    ensures var s := Run(Initial(pages), OneTransfer());
            && s.contexts == [Context(7, [Resource(1, Register(false, 0), NoBuffer, None, 0)])]
            && |s.agents| == |s.issued| == 3 && s.agents[2] == Agent(2, Transfer(7, 1, true), Queued)
  {
    hide Run;
    PlainReached(pages);
    MarkedReached(Initial(pages), PlainStart(), Resource(1, Register(true, 0), NoBuffer, None, 0));
    RunSnoc(Initial(pages), PlainStart() + MarkedTransfer(2), Push(2));
  }

  lemma FirstCompletes(s: Driver, busy: Resource)
    requires s.contexts == [Context(7, [busy])] && busy.id == 1 && |s.agents| == 4
    requires s.agents[2] == Agent(2, Transfer(7, 1, true), Queued)
    requires s.agents[3] == Agent(3, Transfer(7, 1, true), Marking(1, Looking))
    ensures var t := DoSignal(DoLook(DoDequeue(DoPush(s, 3), 2), 2), 2);
            && Lookup(t.contexts, 7, 1) == Some(Mark(busy, Update(false, 0)))
            && |t.agents| == 4 && t.agents[3] == Agent(3, Transfer(7, 1, true), Queued)
  {
    hide Lookup, Store;
    var t := DoLook(DoDequeue(DoPush(s, 3), 2), 2);
    Single(busy, Mark(busy, Update(false, 0)));
    Single(Mark(busy, Update(false, 0)), busy);
    assert t.agents[2] == Agent(2, Transfer(7, 1, true), Completing(0, Signalling));
  }

  // ----- two calls of CtlMap on one resource -----

  function MappedBlobStart(): seq<Op> {
    FoundBlobStart() + [MapIoSpace(2, 4096)] + [SignalEvent(2)]
  }

  lemma MappedBlobReached(pages: nat)
    ensures var s := Run(Initial(pages), MappedBlobStart());
            && s.contexts == [Context(7, [Resource(1, Register(true, 0), Blob(Some(4096)), None, 0)])]
            && s.mappers == [] && s.nextMdl == 0 && s.lostMdls == {}
            && s.resourceIds == Idr.Idr(2, []) && s.fenceIds == Idr.Idr(1, [])
  {
    hide Run;
    FoundBlobReached(pages);
    RunSnoc(Initial(pages), FoundBlobStart(), MapIoSpace(2, 4096));
    RunSnoc(Initial(pages), FoundBlobStart() + [MapIoSpace(2, 4096)], SignalEvent(2));
    BlobGetsMapped(Run(Initial(pages), FoundBlobStart()));
  }

  lemma BlobGetsMapped(s: Driver)
    requires s.contexts == [Context(7, [Resource(1, Register(false, 0), Blob(None), None, 0)])]
    requires |s.agents| == 3 && s.agents[2] == Agent(2, MapBlob(7, 1), Completing(0, Storing))
    ensures var t := DoSignal(DoMapIoSpace(s, 2, 4096), 2);
            && t.contexts == [Context(7, [Resource(1, Register(true, 0), Blob(Some(4096)), None, 0)])]
            && t.mappers == s.mappers && t.nextMdl == s.nextMdl && t.lostMdls == s.lostMdls
            && t.resourceIds == s.resourceIds && t.fenceIds == s.fenceIds
  {
    hide Lookup, Store;
    var blob := Resource(1, Register(false, 0), Blob(None), None, 0);
    var exposed := Exposed(blob, 4096);
    Single(blob, exposed);
    Single(exposed, exposed.(state := Register(true, 0)));
    var u := DoMapIoSpace(s, 2, 4096);
    assert u.agents[2] == Agent(2, MapBlob(7, 1), Completing(0, Signalling)) && u.contexts == [Context(7, [exposed])];
  }

  lemma BothWaiting(pages: nat)
    ensures var s := Run(Initial(pages), MappedBlobStart() + [BeginMap(7, 1)] + [BeginMap(7, 1)]);
            && s.contexts == [Context(7, [Resource(1, Register(true, 0), Blob(Some(4096)), None, 0)])]
            && s.mappers == [Mapper(7, 1), Mapper(7, 1)] && s.nextMdl == 0 && s.lostMdls == {}
            && s.resourceIds == Idr.Idr(2, []) && s.fenceIds == Idr.Idr(1, [])
  {
    hide Run;
    MappedBlobReached(pages);
    RunSnoc(Initial(pages), MappedBlobStart(), BeginMap(7, 1));
    RunSnoc(Initial(pages), MappedBlobStart() + [BeginMap(7, 1)], BeginMap(7, 1));
  }

  // The first of the waiting calls maps the resource.
  lemma FirstMaps(s: Driver, r: Resource, user: nat)
    requires s.contexts == [Context(7, [r])] && r.id == 1 && r.state.idle && r.backing.Blob?
    requires s.mappers != [] && s.mappers[0] == Mapper(7, 1) && user != 0
    ensures var t := Next(s, EndMap(0, Mapped(user)));
            && t.contexts == [Context(7, [r.(mdl := Some(s.nextMdl), user := user)])]
            && t.mappers == s.mappers[1..] && t.nextMdl == s.nextMdl + 1
            && t.lostMdls == (if r.mdl.Some? then s.lostMdls + {r.mdl.value} else s.lostMdls)
            && t.resourceIds == s.resourceIds && t.fenceIds == s.fenceIds
  {
    hide Store, Lookup;
    Single(r, r.(mdl := Some(s.nextMdl), user := user));
  }

  // ----- a submit that its process does not outlive -----

  lemma FirstAllocation(pages: nat)
    requires pages >= 1
    ensures Allocate(Initial(pages).arena, RoundUp(100)).1.Some?
  {
    RoundUpExact(100);
    assert RoundUp(100) == PAGE_SIZE;
    assert RunAt(Initial(pages).arena.used, false, 1, 0);
    FindRunComplete(Initial(pages).arena.used, false, 1, 0);
  }

  lemma SubmitBegun(pages: nat)
    requires pages >= 1
    ensures var s := Next(Run(Initial(pages), [InitContext(7)]), BeginSubmit(7, 100, false, []));
            && s.contexts == [Context(7, [])] && |s.agents| == 2 && s.agents[1].phase == Marking(0, Looking)
            && s.agents[1].cmd.Submit3D? && s.agents[1].cmd.ctx == 7 && s.agents[1].cmd.handles == []
            && s.resourceIds == Idr.Idr(1, []) && s.fenceIds == Idr.Idr(1, [])
  {
    hide Run, Allocate, RoundUp;
    FirstContext(pages);
    FirstAllocation(pages);
    Empty(Resource(1, Register(true, 0), NoBuffer, None, 0));
  }

  lemma LastContextGone(s: Driver)
    requires s.contexts == [Context(7, [])]
    ensures var t := DoDestroyContext(s, 7);
            && t.contexts == [] && |t.agents| == |s.agents| + 1 && t.agents[..|s.agents|] == s.agents
            && t.resourceIds == s.resourceIds && t.fenceIds == s.fenceIds
  {
    Empty(Resource(1, Register(true, 0), NoBuffer, None, 0));
  }

  // ----- two submits that update the same resource at the same time -----

  lemma TwoAllocations(pages: nat)
    requires pages >= 2
    ensures var (a, g) := Allocate(Initial(pages).arena, RoundUp(100));
            g.Some? && Allocate(a, RoundUp(100)).1.Some?
  {
    hide FindRun, Scan;
    RoundUpExact(100);
    assert RoundUp(100) == PAGE_SIZE;
    var a := Initial(pages).arena;
    CountFreeUniform(a.used, false);
    assert RunAt(a.used, false, 1, 0);
    AllocateComplete(a, PAGE_SIZE);
    AllocateLockedKeeps(a, PAGE_SIZE);
    var (b, g) := Allocate(a, PAGE_SIZE);
    assert RunAt(b.used, false, 1, if g.value.start == 0 then 1 else 0);
    AllocateComplete(b, PAGE_SIZE);
  }

  // A submit of process 7 with an out-fence that names resource 1.
  function FencedSubmit(fence: nat, region: Region): Command {
    Submit3D(7, [1], fence, region, true)
  }

  lemma SubmitBegins(s: Driver, n: nat)
    requires FindContext(s.contexts, 7).Some? && Allocate(s.arena, RoundUp(100)).1.Some?
    requires s.fenceIds == Idr.Idr(n, []) && 1 <= n <= 2
    ensures var t := Next(s, BeginSubmit(7, 100, true, [1]));
            && t.contexts == s.contexts && t.arena == Allocate(s.arena, RoundUp(100)).0
            && t.agents == s.agents + [Agent(|s.issued|, FencedSubmit(n, Allocate(s.arena, RoundUp(100)).1.value),
                                             Marking(0, Looking))]
            && |t.issued| == |s.issued| + 1 && t.failedMaps == s.failedMaps
            && t.fenceIds == Idr.Idr(n + 1, []) && t.resourceIds == s.resourceIds
  {
    hide Allocate, RoundUp, FindContext;
    RangeOf(8);
  }

  function TwoSubmits(): seq<Op> {
    PlainStart() + [BeginSubmit(7, 100, true, [1])] + [BeginSubmit(7, 100, true, [1])]
  }

  ghost predicate Fenced(a: Agent, fence: nat, phase: Phase) {
    a.cmd.Submit3D? && a.cmd.ctx == 7 && a.cmd.handles == [1] && a.cmd.fence == fence && a.phase == phase
  }

  // Resource 1 has this register, and two submits that name it stand here.
  ghost predicate TwoAt(s: Driver, r: Register, p: Phase, q: Phase) {
    && s.contexts == [Context(7, [Resource(1, r, NoBuffer, None, 0)])]
    && |s.agents| == 4 && s.agents[0] == Agent(0, CtxCreate(7), Queued) && s.agents[1] == Agent(1, Create3D(7, 1), Queued)
    && Fenced(s.agents[2], 1, p) && Fenced(s.agents[3], 2, q)
    && s.resourceIds == Idr.Idr(2, []) && s.fenceIds == Idr.Idr(3, []) && s.failedMaps == {}
  }

  lemma TwoSubmitsReached(pages: nat)
    requires pages >= 2
    ensures TwoAt(Run(Initial(pages), TwoSubmits()), Register(true, 0), Marking(0, Looking), Marking(0, Looking))
  {
    hide Run, Next, Allocate, RoundUp;
    PlainReached(pages);
    TwoAllocations(pages);
    var plain := Resource(1, Register(true, 0), NoBuffer, None, 0);
    Single(plain, plain);
    RunSnoc(Initial(pages), PlainStart(), BeginSubmit(7, 100, true, [1]));
    RunSnoc(Initial(pages), PlainStart() + [BeginSubmit(7, 100, true, [1])], BeginSubmit(7, 100, true, [1]));
    SubmitBegins(WithPlain(pages), 1);
    SubmitBegins(Next(WithPlain(pages), BeginSubmit(7, 100, true, [1])), 2);
  }

  // One access of either of them to the resource.
  lemma LookFinds(s: Driver, r: Register, p: Phase, q: Phase, i: nat)
    requires TwoAt(s, r, p, q) && 2 <= i <= 3 && r.fence < i
    requires s.agents[i].phase == Marking(0, Looking) || s.agents[i].phase == Completing(0, Looking)
    ensures var t := Next(s, Look(i));
            if i == 2 then TwoAt(t, r, p.(stage := Storing), q) else TwoAt(t, r, p, q.(stage := Storing))
  {
    var plain := Resource(1, r, NoBuffer, None, 0);
    Single(plain, plain);
  }

  lemma StoreRecords(s: Driver, r: Register, p: Phase, q: Phase, i: nat)
    requires TwoAt(s, r, p, q) && 2 <= i <= 3
    requires s.agents[i].phase == Marking(0, Storing) || s.agents[i].phase == Completing(0, Storing)
    ensures var (t, r') := (Next(s, StoreFence(i)), Register(r.idle, i - 1));
            if i == 2 then TwoAt(t, r', p.(stage := Signalling), q) else TwoAt(t, r', p, q.(stage := Signalling))
  {
    hide Lookup, Store;
    Single(Resource(1, r, NoBuffer, None, 0), Resource(1, Register(r.idle, i - 1), NoBuffer, None, 0));
  }

  lemma SignalChanges(s: Driver, r: Register, p: Phase, q: Phase, i: nat)
    requires TwoAt(s, r, p, q) && 2 <= i <= 3
    requires s.agents[i].phase == Marking(0, Signalling) || s.agents[i].phase == Completing(0, Signalling)
    ensures var (t, r') := (Next(s, SignalEvent(i)), Register(s.agents[i].phase.Completing?, r.fence));
            if i == 2 then TwoAt(t, r', Onward(p), q) else TwoAt(t, r', p, Onward(q))
  {
    hide Lookup, Store;
    Single(Resource(1, r, NoBuffer, None, 0), Resource(1, Register(s.agents[i].phase.Completing?, r.fence), NoBuffer, None, 0));
  }

  lemma SecondIsPushed(s: Driver, r: Register, p: Phase)
    requires TwoAt(s, r, p, Marking(1, Looking))
    ensures TwoAt(Next(Next(s, Push(3)), Dequeue(3)), r, p, Completing(0, Looking))
  {
  }

  // The whole update of the resource by the second submit.
  lemma SecondUpdates(s: Driver, r: Register, p: Phase, q: Phase)
    requires TwoAt(s, r, p, q) && r.fence <= 2 && (q == Marking(0, Looking) || q == Completing(0, Looking))
    ensures TwoAt(Run(s, Turn(3)), Register(q.Completing?, 2), p, Onward(q))
  {
    hide Run, Next, TwoAt;
    TwoAre(s, r, p, q);
    RunThree(s, Look(3), StoreFence(3), SignalEvent(3));
    LookFinds(s, r, p, q, 3);
    var s1 := Next(s, Look(3));
    TwoAre(s1, r, p, q.(stage := Storing));
    StoreRecords(s1, r, p, q.(stage := Storing), 3);
    var s2 := Next(s1, StoreFence(3));
    TwoAre(s2, Register(r.idle, 2), p, q.(stage := Signalling));
    SignalChanges(s2, Register(r.idle, 2), p, q.(stage := Signalling), 3);
  }

  lemma TwoAre(s: Driver, r: Register, p: Phase, q: Phase)
    requires TwoAt(s, r, p, q)
    ensures |s.agents| == 4 && s.agents[2].phase == p && s.agents[3].phase == q
  {
  }

  // The first submit is stopped between its store of fence 1 and its change of the event, while
  // the second marks the resource busy, is pushed, completes and marks it idle.
  function OverlappingSubmits(): seq<Op> {
    TwoSubmits() + [Look(2), StoreFence(2)] + Turn(3) + [Push(3), Dequeue(3)] + Turn(3)
  }

  lemma OverlapReached(pages: nat)
    requires pages >= 2
    ensures TwoAt(Run(Initial(pages), OverlappingSubmits()), Register(true, 2), Marking(0, Signalling), Completing(1, Looking))
  {
    hide Run, Next, TwoAt;
    var s0 := Initial(pages);
    var ops := TwoSubmits();
    TwoSubmitsReached(pages);
    FirstStops(s0, ops);
    RunAppend(s0, ops + [Look(2), StoreFence(2)], Turn(3));
    SecondUpdates(Run(s0, ops + [Look(2), StoreFence(2)]), Register(true, 1), Marking(0, Signalling), Marking(0, Looking));
    var marked := ops + [Look(2), StoreFence(2)] + Turn(3);
    RunTwo(Run(s0, marked), Push(3), Dequeue(3));
    RunAppend(s0, marked, [Push(3), Dequeue(3)]);
    SecondIsPushed(Run(s0, marked), Register(false, 2), Marking(0, Signalling));
    RunAppend(s0, marked + [Push(3), Dequeue(3)], Turn(3));
    SecondUpdates(Run(s0, marked + [Push(3), Dequeue(3)]), Register(false, 2), Marking(0, Signalling), Completing(0, Looking));
  }

  lemma RunTwo(s: Driver, a: Op, b: Op)
    ensures Run(s, [a, b]) == Next(Next(s, a), b)
  {
    hide Next;
    RunSnoc(s, [a], b);
    RunSnoc(s, [], a);
    assert [a] + [b] == [a, b] && [] + [a] == [a];
  }

  lemma FirstStops(s: Driver, ops: seq<Op>)
    requires TwoAt(Run(s, ops), Register(true, 0), Marking(0, Looking), Marking(0, Looking))
    ensures TwoAt(Run(s, ops + [Look(2), StoreFence(2)]), Register(true, 1), Marking(0, Signalling), Marking(0, Looking))
  {
    hide Run, Next, TwoAt;
    var t := Run(s, ops);
    RunAppend(s, ops, [Look(2), StoreFence(2)]);
    RunTwo(t, Look(2), StoreFence(2));
    TwoAre(t, Register(true, 0), Marking(0, Looking), Marking(0, Looking));
    LookFinds(t, Register(true, 0), Marking(0, Looking), Marking(0, Looking), 2);
    TwoAre(Next(t, Look(2)), Register(true, 0), Marking(0, Storing), Marking(0, Looking));
    StoreRecords(Next(t, Look(2)), Register(true, 0), Marking(0, Storing), Marking(0, Looking), 2);
  }

  // ----- a transfer that outlives its resource, in an arena of one page -----

  function BackedStart(): seq<Op> {
    [InitContext(7)] + [CreateResource(7, 0)]
  }

  ghost predicate OnePage(a: Arena, used: bool) {
    a.used == [used] && a.available == if used then 0 else PAGE_SIZE
  }

  lemma AllocateOnly(a: Arena)
    requires OnePage(a, false)
    ensures Allocate(a, PAGE_SIZE).1 == Some(Region(0, 1)) && OnePage(Allocate(a, PAGE_SIZE).0, true)
  {
    hide FindRun, Scan;
    CountFreeUniform(a.used, false);
    assert RunAt(a.used, false, 1, 0);
    AllocateComplete(a, PAGE_SIZE);
    AllocateLockedKeeps(a, PAGE_SIZE);
  }

  lemma FreeOnly(a: Arena)
    requires OnePage(a, true)
    ensures OnePage(Free(a, 0, PAGE_SIZE), false)
  {
    hide FindRun, Scan;
    CountFreeUniform(a.used, true);
    FreeClearsRegion(a, Region(0, 1));
    assert Free(a, 0, PAGE_SIZE).used == [false];
    CountFreeUniform([false], false);
  }

  // What the creation of a backed resource with the only page adds.
  lemma CreatesBacked(s: Driver, n: nat)
    requires s.contexts == [Context(7, [])] && OnePage(s.arena, false) && s.resourceIds == Idr.Idr(n, []) && 1 <= n <= 2
    ensures var t := Next(s, CreateResource(7, 0));
            && t.contexts == [Context(7, [Resource(n, Register(true, 0), Dma(Region(0, 1)), None, 0)])]
            && t.agents == s.agents + [Agent(|s.issued|, Create3D(7, n), Queued),
                                       Agent(|s.issued| + 1, AttachBacking(7, n, Region(0, 1)), Queued)]
            && t.trace == s.trace + [Create3D(7, n), AttachBacking(7, n, Region(0, 1))]
            && |t.issued| == |s.issued| + 2
            && OnePage(t.arena, true) && t.resourceIds == Idr.Idr(n + 1, []) && t.fenceIds == s.fenceIds
  {
    hide Allocate;
    RangeOf(4);
    AllocateOnly(s.arena);
    Empty(Resource(n, Register(true, 0), Dma(Region(0, 1)), None, 0));
  }

  lemma BackedReached()
    ensures var s := Run(Initial(1), BackedStart());
            && s.contexts == [Context(7, [Resource(1, Register(true, 0), Dma(Region(0, 1)), None, 0)])]
            && |s.agents| == 3 && OnePage(s.arena, true)
            && s.trace == [CtxCreate(7), Create3D(7, 1), AttachBacking(7, 1, Region(0, 1))]
            && s.resourceIds == Idr.Idr(2, []) && s.fenceIds == Idr.Idr(1, [])
  {
    hide Run, Next;
    FirstContext(1);
    RunSnoc(Initial(1), [InitContext(7)], CreateResource(7, 0));
    CreatesBacked(Run(Initial(1), [InitContext(7)]), 1);
  }

  lemma TransferPushed()
    ensures var s := Run(Initial(1), BackedStart() + MarkedTransfer(3) + [Push(3)]);
            && s.contexts == [Context(7, [Resource(1, Register(false, 0), Dma(Region(0, 1)), None, 0)])]
            && |s.agents| == 4 && s.agents[3].phase.Queued? && s.agents[3].cmd == Transfer(7, 1, true)
            && OnePage(s.arena, true)
            && s.trace == [CtxCreate(7), Create3D(7, 1), AttachBacking(7, 1, Region(0, 1)), Transfer(7, 1, true)]
            && s.resourceIds == Idr.Idr(2, []) && s.fenceIds == Idr.Idr(1, [])
  {
    hide Run;
    BackedReached();
    MarkedReached(Initial(1), BackedStart(), Resource(1, Register(true, 0), Dma(Region(0, 1)), None, 0));
    RunSnoc(Initial(1), BackedStart() + MarkedTransfer(3), Push(3));
  }

  lemma ClosesBacked(s: Driver, r: Resource)
    requires s.contexts == [Context(7, [r])] && r.id == 1 && r.mdl.None? && r.backing == Dma(Region(0, 1))
    requires OnePage(s.arena, true)
    ensures var t := Next(s, CloseResource(7, 1));
            && t.contexts == [Context(7, [])] && OnePage(t.arena, false)
            && |t.agents| == |s.agents| + 2 && t.agents[..|s.agents|] == s.agents
            && t.trace == s.trace + [DetachBacking(1), Unref(7, 1)]
            && t.resourceIds == s.resourceIds && t.fenceIds == s.fenceIds
  {
    hide Free, Lookup, Remove;
    Single(r, r);
    FreeOnly(s.arena);
  }

  lemma OnlyPageOfSecond(s: Driver)
    requires s.contexts == [Context(7, [Resource(2, Register(true, 0), Dma(Region(0, 1)), None, 0)])]
    requires s.trace == [CtxCreate(7), Create3D(7, 1), AttachBacking(7, 1, Region(0, 1)), Transfer(7, 1, true)]
                        + [DetachBacking(1), Unref(7, 1)] + [Create3D(7, 2), AttachBacking(7, 2, Region(0, 1))]
    requires HostMemory.HasTransfer(s, 1)
    ensures HostMemory.AttachedTo(s.trace, 1) == Some(Region(0, 1))
    ensures !HostMemory.OwnedBy(s, 1, 0) && HostMemory.OwnedBy(s, 2, 0) && !HostMemory.TransfersKeepPages(s)
  {
    hide HostMemory.HasTransfer;
    var first := [CtxCreate(7), Create3D(7, 1)] + [AttachBacking(7, 1, Region(0, 1))];
    assert first[..|first| - 1] == [CtxCreate(7), Create3D(7, 1)];
    assert s.trace[..|first|] == first;
    HostMemory.AttachedBefore(first, s.trace, 1);
    var o := MemoryOwnership.ResourceAt(0, 0);
    assert MemoryOwnership.RegionOf(s, o) == Some(Region(0, 1)) && Region(0, 1).Has(0);
  }
}
