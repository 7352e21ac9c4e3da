// Runs from the initial state in which a promise of the driver breaks. Each one is the smallest
// witness for a condition that other modules prove to be exact.
module FailingRuns {
  import opened Wrappers
  import opened Paging
  import opened Arena
  import opened FenceRegister
  import opened DriverState
  import opened ResourceTable
  import opened BaseInvariant
  import opened AtomicSteps
  import opened RunFragments
  import Idr
  import HostView
  import HostProtocol
  import BlobReady
  import Stuck
  import Wakeup
  import ReleaseBalance
  import Release
  import BlobLedger
  import IoMappings
  import HostMemory
  import MemoryOwnership

  // Thread A begins a transfer, thread B closes the resource, thread A pushes: the host sees a
  // transfer after UNREF.
  lemma OvertakingClose(pages: nat)
    ensures var s := Run(Initial(pages), PlainStart() + MarkedTransfer(2)
                                         + [CloseResource(7, 1)] + [Push(2)]);
            IdsFit(s) && HostView.HostOf(s.trace, 1).Violated?
  {
    hide Run;
    var s0 := Initial(pages);
    PlainReached(pages);
    MarkedReached(s0, PlainStart(), Resource(1, Register(true, 0), NoBuffer, None, 0));
    var ops := PlainStart() + MarkedTransfer(2);
    RunSnoc(s0, ops, CloseResource(7, 1));
    RunSnoc(s0, ops + [CloseResource(7, 1)], Push(2));
    var s := Run(s0, ops);
    var t := Run(s0, ops + [CloseResource(7, 1)]);
    Single(Lookup(s.contexts, 7, 1).value, Lookup(s.contexts, 7, 1).value);
    assert t.contexts == [Context(7, [])];
    assert t.agents[2] == Agent(2, Transfer(7, 1, true), Marking(1, Looking));
    RangeOf(4);
    RangeOf(8);
    InitialBase(pages);
    HostView.InitialProtocol(pages);
    RunBase(s0, ops + [CloseResource(7, 1)]);
    HostView.RunProtocol(s0, ops + [CloseResource(7, 1)]);
    HostProtocol.OvertakingCloseBreaksLifecycle(t, 2, 7, 1);
  }

  // A transfer whose push fails after it has marked its resource busy: nothing that is in
  // flight will ever make the resource idle.
  lemma FailedPush(pages: nat)
    ensures var s := Run(Initial(pages), PlainStart() + MarkedTransfer(2) + [Abandon(2)]);
            IdsFit(s) && Lookup(s.contexts, 7, 1).Some? && Stuck.Stuck(s, 7, 1) && s.failedMaps == {}
  {
    hide Run;
    var s0 := Initial(pages);
    PlainReached(pages);
    MarkedReached(s0, PlainStart(), Resource(1, Register(true, 0), NoBuffer, None, 0));
    var ops := PlainStart() + MarkedTransfer(2);
    RunSnoc(s0, ops, Abandon(2));
    var s := Run(s0, ops + [Abandon(2)]);
    RangeOf(4);
    RangeOf(8);
    InitialBase(pages);
    RunBase(s0, ops + [Abandon(2)]);
    assert s.agents == WithPlain(pages).agents + [Agent(2, Transfer(7, 1, true), Abandoned(1))];
    assert Lookup(s.contexts, 7, 1) == Some(Resource(1, Register(false, 0), NoBuffer, None, 0));
    Stuck.StuckIffNoneCanWake(s, 7, 1);
  }

  // A blob whose mapping fails stays busy.
  lemma FailedMapping(pages: nat)
    ensures var s := Run(Initial(pages), FoundBlobStart() + [MapIoSpace(2, 0)]);
            IdsFit(s) && Lookup(s.contexts, 7, 1).Some? && Stuck.Stuck(s, 7, 1)
  {
    hide Run;
    var s0 := Initial(pages);
    FailedMapReached(pages);
    var ops := FoundBlobStart() + [MapIoSpace(2, 0)];
    var s := Run(s0, ops);
    RangeOf(4);
    RangeOf(8);
    InitialBase(pages);
    RunBase(s0, ops);
    Stuck.StuckIffNoneCanWake(s, 7, 1);
  }

  // A transfer on a blob that is not mapped yet completes first: the blob is idle, and not
  // mapped.
  lemma EarlyTransfer(pages: nat)
    ensures var s := Run(Initial(pages), BlobStart() + MarkedTransfer(3)
                                         + [Push(3)] + [Dequeue(3)] + [Look(3)] + [SignalEvent(3)]);
            IdsFit(s) && !BlobReady.IdleIsMapped(s)
  {
    hide Run, DoPush, DoDequeue, DoLook, DoSignal, Lookup;
    var s0 := Initial(pages);
    BlobReached(pages);
    MarkedReached(s0, BlobStart(), Resource(1, Register(false, 0), Blob(None), None, 0));
    var ops := BlobStart() + MarkedTransfer(3);
    RunSnoc(s0, ops, Push(3));
    RunSnoc(s0, ops + [Push(3)], Dequeue(3));
    RunSnoc(s0, ops + [Push(3)] + [Dequeue(3)], Look(3));
    RunSnoc(s0, ops + [Push(3)] + [Dequeue(3)] + [Look(3)], SignalEvent(3));
    TransferCompletes(Run(s0, ops), 3, Resource(1, Register(false, 0), Blob(None), None, 0));
    var s := Run(s0, ops + [Push(3)] + [Dequeue(3)] + [Look(3)] + [SignalEvent(3)]);
    assert BlobReady.Unmapped(Lookup(s.contexts, 7, 1)) && Lookup(s.contexts, 7, 1).value.state.idle;
    RangeOf(4);
    RangeOf(8);
  }

  // Two transfers on one resource, the first completed: idle, with the second outstanding.
  lemma FirstOfTwoTransfers(pages: nat)
    ensures var s := Run(Initial(pages), OneTransfer() + MarkedTransfer(3) + [Push(3)]
                                         + [Dequeue(2)] + [Look(2)] + [SignalEvent(2)]);
            && Lookup(s.contexts, 7, 1).Some? && Lookup(s.contexts, 7, 1).value.state.idle
            && |s.agents| == 4 && s.agents[3] == Agent(3, Transfer(7, 1, true), Queued)
  {
    hide Run, DoPush, DoDequeue, DoLook, DoSignal, Lookup;
    var s0 := Initial(pages);
    var busy := Resource(1, Register(false, 0), NoBuffer, None, 0);
    OneTransferReached(pages);
    MarkedReached(s0, OneTransfer(), busy);
    var two := OneTransfer() + MarkedTransfer(3);
    RunSnoc(s0, two, Push(3));
    RunSnoc(s0, two + [Push(3)], Dequeue(2));
    RunSnoc(s0, two + [Push(3)] + [Dequeue(2)], Look(2));
    RunSnoc(s0, two + [Push(3)] + [Dequeue(2)] + [Look(2)], SignalEvent(2));
    FirstCompletes(Run(s0, two), busy);
  }

  // A blob closed before its MAP_BLOB has completed: MmUnmapIoSpace without a mapping.
  lemma EarlyClose(pages: nat)
    ensures var s := Run(Initial(pages), BlobStart() + [CloseResource(7, 1)]);
            IdsFit(s) && BlobLedger.Stray(s.log)
  {
    hide Run;
    BlobReached(pages);
    RunSnoc(Initial(pages), BlobStart(), CloseResource(7, 1));
    var s := Run(Initial(pages), BlobStart() + [CloseResource(7, 1)]);
    assert s.log == [] + [UnmapIo(1, None)];
    BlobLedger.StrayPush([], UnmapIo(1, None));
    RangeOf(4);
    RangeOf(8);
  }

  // A blob closed after its mapping has failed, with no MAP_BLOB outstanding any more: the same.
  lemma FailedThenClosed(pages: nat)
    ensures var t := Run(Initial(pages), FoundBlobStart() + [MapIoSpace(2, 0)]);
            var s := Run(Initial(pages), FoundBlobStart() + [MapIoSpace(2, 0)] + [CloseResource(7, 1)]);
            IdsFit(s) && !BlobLedger.HasPendingMap(t.agents, 7, 1) && BlobLedger.Stray(s.log)
  {
    hide Run;
    FailedMapReached(pages);
    var ops := FoundBlobStart() + [MapIoSpace(2, 0)];
    RunSnoc(Initial(pages), ops, CloseResource(7, 1));
    var t := Run(Initial(pages), ops);
    assert t.agents[0].cmd == CtxCreate(7) && t.agents[1].cmd == CreateBlob(7, 1);
    var s := Run(Initial(pages), ops + [CloseResource(7, 1)]);
    assert s.log == [] + [UnmapIo(1, None)];
    BlobLedger.StrayPush([], UnmapIo(1, None));
    RangeOf(4);
    RangeOf(8);
  }

  // A blob closed between the look of its MAP_BLOB's completion and the mapping: no live blob has
  // the mapping, and nothing will undo it.
  lemma LeakedMapping(pages: nat)
    ensures var s := Run(Initial(pages), FoundBlobStart() + [CloseResource(7, 1)] + [MapIoSpace(2, 4096)]);
            IdsFit(s) && IoMappings.Leaked(s.log) && !IoMappings.MappingsBalanced(s)
  {
    hide Run, ReleaseBalance.Balanced, IoMappings.MappingsBalanced;
    var s0 := Initial(pages);
    FoundBlobReached(pages);
    RunSnoc(s0, FoundBlobStart(), CloseResource(7, 1));
    RunSnoc(s0, FoundBlobStart() + [CloseResource(7, 1)], MapIoSpace(2, 4096));
    var ops := FoundBlobStart() + [CloseResource(7, 1)] + [MapIoSpace(2, 4096)];
    var t := Run(s0, FoundBlobStart() + [CloseResource(7, 1)]);
    var blob := Resource(1, Register(false, 0), Blob(None), None, 0);
    Single(blob, blob);
    assert t.contexts == [Context(7, [])];
    assert t.agents[2] == Agent(2, MapBlob(7, 1), Completing(0, Storing));
    var s := Run(s0, ops);
    assert s.log[|s.log| - 1] == MapIo(1, 4096, false);
    RangeOf(4);
    RangeOf(8);
    InitialBase(pages);
    RunBase(s0, ops);
    ReleaseBalance.BalancedFromStart(pages, ops);
    IoMappings.BalancedIffNoneLeaked(s);
  }

  // Both calls find pMdl null, both map: the first MDL is never freed, and no resource holds it.
  lemma TwoMaps(pages: nat)
    ensures var s := Run(Initial(pages), MappedBlobStart() + [BeginMap(7, 1)] + [BeginMap(7, 1)]
                                         + [EndMap(0, Mapped(64))] + [EndMap(0, Mapped(128))]);
            IdsFit(s) && s.lostMdls == {0} && !Release.MdlsBalanced(s)
  {
    hide Run, Next, ReleaseBalance.Balanced, Release.MdlsBalanced;
    var s0 := Initial(pages);
    var both := MappedBlobStart() + [BeginMap(7, 1)] + [BeginMap(7, 1)];
    BothWaiting(pages);
    RunSnoc(s0, both, EndMap(0, Mapped(64)));
    RunSnoc(s0, both + [EndMap(0, Mapped(64))], EndMap(0, Mapped(128)));
    var r := Resource(1, Register(true, 0), Blob(Some(4096)), None, 0);
    FirstMaps(Run(s0, both), r, 64);
    FirstMaps(Run(s0, both + [EndMap(0, Mapped(64))]), r.(mdl := Some(0), user := 64), 128);
    RangeOf(4);
    RangeOf(8);
    ReleaseBalance.BalancedFromStart(pages, both + [EndMap(0, Mapped(64))] + [EndMap(0, Mapped(128))]);
    Release.BalancedIffNoneLost(Run(s0, both + [EndMap(0, Mapped(64))] + [EndMap(0, Mapped(128))]));
  }

  // Thread A begins a submit, the process exits, thread A pushes: a command for a context after
  // its CTX_DESTROY.
  lemma OvertakingExit(pages: nat)
    requires pages >= 1
    ensures var s := Run(Initial(pages), [InitContext(7)] + [BeginSubmit(7, 100, false, [])] + [DestroyContext(7)] + [Push(1)]);
            IdsFit(s) && HostView.HostContextOf(s.trace, 7).Broken?
  {
    hide Run, Allocate, RoundUp, DoDestroyContext, HostView.HostContextOf, HostView.Protocol;
    var s0 := Initial(pages);
    FirstContext(pages);
    var ops := [InitContext(7)] + [BeginSubmit(7, 100, false, [])];
    RunSnoc(s0, [InitContext(7)], BeginSubmit(7, 100, false, []));
    RunSnoc(s0, ops, DestroyContext(7));
    RunSnoc(s0, ops + [DestroyContext(7)], Push(1));
    var s := Run(s0, ops);
    SubmitBegun(pages);
    assert s.contexts == [Context(7, [])];
    LastContextGone(s);
    var t := Run(s0, ops + [DestroyContext(7)]);
    RangeOf(4);
    RangeOf(8);
    InitialBase(pages);
    HostView.InitialProtocol(pages);
    RunBase(s0, ops + [DestroyContext(7)]);
    HostView.RunProtocol(s0, ops + [DestroyContext(7)]);
    HostProtocol.PushedContext(t, 1, 7);
  }

  // Then the first one goes on and clears the event. Its own idle mark will be outdated: nothing
  // will ever make the resource idle, although no request was given up and no mapping failed.
  lemma LateClear(pages: nat)
    requires pages >= 2
    ensures var s := Run(Initial(pages), OverlappingSubmits() + [SignalEvent(2)]);
            && IdsFit(s) && Lookup(s.contexts, 7, 1).Some? && Stuck.Stuck(s, 7, 1)
            && s.failedMaps == {} && (forall k :: 0 <= k < |s.agents| ==> !s.agents[k].phase.Abandoned?)
            && !Wakeup.ClearsBacked(Initial(pages), OverlappingSubmits() + [SignalEvent(2)], 7, 1)
  {
    hide Run, Next, Stuck.Stuck, Wakeup.ClearsBacked;
    var s0 := Initial(pages);
    OverlapReached(pages);
    RunSnoc(s0, OverlappingSubmits(), SignalEvent(2));
    SignalChanges(Run(s0, OverlappingSubmits()), Register(true, 2), Marking(0, Signalling), Completing(1, Looking), 2);
    var ops := OverlappingSubmits() + [SignalEvent(2)];
    var s := Run(s0, ops);
    var r := Resource(1, Register(false, 2), NoBuffer, None, 0);
    Single(r, r);
    RangeOf(4);
    RangeOf(8);
    InitialBase(pages);
    RunBase(s0, ops);
    Stuck.StuckIffNoneCanWake(s, 7, 1);
    Stuck.StuckOnlyByAbandoning(pages, ops, 7, 1);
  }

  // A client closes a resource with a transfer outstanding and creates another one: the host may
  // still access the only page for the first, and it belongs to the second.
  lemma TransferOutlivesResource()
    ensures var s := Run(Initial(1), BackedStart() + MarkedTransfer(3) + [Push(3)]
                                     + [CloseResource(7, 1)] + [CreateResource(7, 0)]);
            && IdsFit(s) && HostMemory.HasTransfer(s, 1) && HostMemory.AttachedTo(s.trace, 1) == Some(Region(0, 1))
            && !HostMemory.OwnedBy(s, 1, 0) && HostMemory.OwnedBy(s, 2, 0) && !HostMemory.TransfersKeepPages(s)
  {
    hide Run, Next;
    var s0 := Initial(1);
    var ops := BackedStart() + MarkedTransfer(3) + [Push(3)];
    TransferPushed();
    RunSnoc(s0, ops, CloseResource(7, 1));
    ClosesBacked(Run(s0, ops), Resource(1, Register(false, 0), Dma(Region(0, 1)), None, 0));
    var t := Run(s0, ops + [CloseResource(7, 1)]);
    assert t.agents[..4][3] == t.agents[3];
    RunSnoc(s0, ops + [CloseResource(7, 1)], CreateResource(7, 0));
    CreatesBacked(t, 2);
    var s := Run(s0, ops + [CloseResource(7, 1)] + [CreateResource(7, 0)]);
    RangeOf(4);
    RangeOf(8);
    assert HostMemory.TransferOn(s.agents[3], 1);
    OnlyPageOfSecond(s);
  }
}
