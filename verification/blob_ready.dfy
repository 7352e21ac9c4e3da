// "Busy until the map blob callback was completed", the comment in CtlCreateBlobResource: an idle
// blob is mapped, which CtlMap relies on. Exactly when the driver keeps this promise.
module BlobReady {
  import opened Wrappers
  import opened Arena
  import opened FenceRegister
  import opened DriverState
  import opened ResourceTable
  import opened BaseInvariant
  import opened Requests
  import opened AtomicSteps
  import opened RegisterHistory
  import opened WakeRuns
  import Idr

  // The event of a blob is shared with submits and transfers, so the promise depends on the
  // client: it holds in every run in which clients name a blob only once it is mapped, and the
  // first call that names one earlier, a transfer or a submit, fenced or not, leaves a way to
  // break it.

  predicate Unmapped(r: Option<Resource>) {
    r.Some? && r.value.backing == Blob(None)
  }

  // An idle blob is mapped.
  ghost predicate IdleIsMapped(s: Driver) {
    forall c, id :: Unmapped(Lookup(s.contexts, c, id)) ==> !Lookup(s.contexts, c, id).value.state.idle
  }

  // No request has touched a blob that is not mapped.
  ghost predicate UnmappedIsUntouched(s: Driver) {
    forall c, id :: Unmapped(Lookup(s.contexts, c, id)) ==> Lookup(s.contexts, c, id).value.state == Register(false, 0)
  }

  // The handles are issued, and none of them is a blob that is not mapped yet.
  ghost predicate NamesReady(s: Driver, c: nat, ids: seq<nat>) {
    forall h :: h in ids ==> h < s.resourceIds.next && !Unmapped(Lookup(s.contexts, c, h))
  }

  ghost predicate Ready(s: Driver) {
    UnmappedIsUntouched(s) && forall k :: 0 <= k < |s.agents| ==>
        NamesReady(s, ContextOf(s.agents[k].cmd), Marks(s.agents[k].cmd))
  }

  // What a client can check before its call.
  ghost predicate WaitsForMapping(s: Driver, op: Op) {
    match op
    case BeginTransfer(c, id, _) => !Unmapped(Lookup(s.contexts, c, id))
    case BeginSubmit(c, _, _, handles) => NamesReady(s, c, handles)
    case _ => true
  }

  // ----- every step -----

  // A ready request never reaches an unmapped blob, and MAP_BLOB makes it a mapped one before it
  // sets its event.
  lemma NoWrite(s: Driver, op: Op, c: nat, id: nat)
    requires Ready(s) && Base(s) && Unmapped(Lookup(s.contexts, c, id))
    ensures WriteBy(s, op, c, id).None?
  {
    hide Lookup;
    if op.StoreFence? || op.SignalEvent? {
      if op.agent < |s.agents| {
        var a := s.agents[op.agent];
        assert MapTargetOk(s, a) && NamesReady(s, ContextOf(a.cmd), Marks(a.cmd));
      }
    }
  }

  // A blob that is not mapped after a step was not mapped before it, or is new.
  lemma StillUnmapped(s: Driver, op: Op, c: nat, id: nat)
    requires Ready(s) && Base(s) && IdsFit(Next(s, op)) && Unmapped(Lookup(Next(s, op).contexts, c, id))
    ensures Lookup(Next(s, op).contexts, c, id).value.state == Register(false, 0)
    ensures id < s.resourceIds.next ==> Unmapped(Lookup(s.contexts, c, id))
  {
    hide Lookup, Next, WriteBy;
    ResourceStep(s, op, c, id);
    if Lookup(s.contexts, c, id).Some? {
      assert Unmapped(Lookup(s.contexts, c, id));
      NoWrite(s, op, c, id);
      StepRegister(s, op, c, id);
    }
  }

  lemma StepReady(s: Driver, op: Op)
    requires Ready(s) && Base(s) && WaitsForMapping(s, op) && IdsFit(Next(s, op))
    ensures Ready(Next(s, op))
  {
    hide Lookup, Next;
    var s' := Next(s, op);
    CountersGrow(s, op);
    forall c: nat, id: nat | Unmapped(Lookup(s'.contexts, c, id))
      ensures Lookup(s'.contexts, c, id).value.state == Register(false, 0)
    {
      StillUnmapped(s, op, c, id);
    }
    forall k | 0 <= k < |s'.agents|
      ensures NamesReady(s', ContextOf(s'.agents[k].cmd), Marks(s'.agents[k].cmd))
    {
      var cmd := s'.agents[k].cmd;
      var l := RequestOrigin(s, op, k);
      NamedReady(s, op, k, l);
      forall h | h in Marks(cmd)
        ensures h < s'.resourceIds.next && !Unmapped(Lookup(s'.contexts, ContextOf(cmd), h))
      {
        if Unmapped(Lookup(s'.contexts, ContextOf(cmd), h)) {
          StillUnmapped(s, op, ContextOf(cmd), h);
        }
      }
    }
  }

  // What a request names is ready when it begins.
  lemma NamedReady(s: Driver, op: Op, k: nat, l: nat)
    requires Ready(s) && Base(s) && WaitsForMapping(s, op)
    requires k < |Next(s, op).agents| && ComesFrom(s, op, Next(s, op), k, l)
    ensures var cmd := Next(s, op).agents[k].cmd; NamesReady(s, ContextOf(cmd), Marks(cmd))
  {
    hide Lookup, Next;
    if l >= |s.agents| && op.BeginTransfer? {
      LookupBelow(s.contexts, s.resourceIds.next, op.ctx, op.res);
    }
  }

  ghost predicate WaitingRun(s: Driver, ops: seq<Op>)
    decreases |ops|
  {
    ops != [] ==> WaitsForMapping(s, ops[0]) && WaitingRun(Next(s, ops[0]), ops[1..])
  }

  lemma {:induction false} RunReady(s: Driver, ops: seq<Op>)
    requires Ready(s) && Base(s) && WaitingRun(s, ops) && IdsFit(Run(s, ops))
    ensures Ready(Run(s, ops)) && IdleIsMapped(Run(s, ops))
    decreases |ops|
  {
    if ops != [] {
      RunCountersGrow(Next(s, ops[0]), ops[1..]);
      StepReady(s, ops[0]);
      StepBase(s, ops[0]);
      RunReady(Next(s, ops[0]), ops[1..]);
    }
  }

  lemma ReadyFromStart(pages: nat, ops: seq<Op>)
    requires WaitingRun(Initial(pages), ops) && IdsFit(Run(Initial(pages), ops))
    ensures Ready(Run(Initial(pages), ops)) && Base(Run(Initial(pages), ops))
    ensures IdleIsMapped(Run(Initial(pages), ops))
  {
    InitialBase(pages);
    RunBase(Initial(pages), ops);
    RunReady(Initial(pages), ops);
  }

  // In every run in which clients name blobs only once they are mapped, idle means mapped.
  lemma IdleMeansMapped(pages: nat, ops: seq<Op>)
    requires WaitingRun(Initial(pages), ops) && IdsFit(Run(Initial(pages), ops))
    ensures IdleIsMapped(Run(Initial(pages), ops))
  {
    ReadyFromStart(pages, ops);
  }

  // However the run goes on, as long as later calls wait for mappings: idle means mapped.
  ghost predicate SafeFrom(s: Driver) {
    forall ops :: WaitingRun(s, ops) && IdsFit(Run(s, ops)) ==> IdleIsMapped(Run(s, ops))
  }

  lemma {:induction false} ProgressWaits(s: Driver, ops: seq<Op>)
    requires forall op :: op in ops ==> Progress(op)
    ensures WaitingRun(s, ops)
    decreases |ops|
  {
    if ops != [] {
      assert Progress(ops[0]);
      ProgressWaits(Next(s, ops[0]), ops[1..]);
    }
  }

  // A request that names an unmapped blob can idle it before the mapping is done: marked,
  // pushed, completed.
  lemma EarlyRequestIdles(s: Driver, i: nat, c: nat, id: nat) returns (ops: seq<Op>)
    requires i < |s.agents| && s.agents[i].phase == Marking(0, Looking) && !s.agents[i].cmd.MapBlob?
    requires ContextOf(s.agents[i].cmd) == c && id in Marks(s.agents[i].cmd)
    requires Unmapped(Lookup(s.contexts, c, id)) && Lookup(s.contexts, c, id).value.state.fence == 0
    ensures WaitingRun(s, ops) && Run(s, ops).resourceIds == s.resourceIds && Run(s, ops).fenceIds == s.fenceIds
    ensures !IdleIsMapped(Run(s, ops))
  {
    hide Lookup, Run;
    ops := WakeMarking(s, i, c, id);
    ProgressWaits(s, ops);
    assert Unmapped(Lookup(Run(s, ops).contexts, c, id));
  }

  // For every state reached by waiting calls, and a transfer or a submit, fenced or not, that is
  // accepted there and names issued handles: the promise is safe after it if and only if it
  // names no blob that is still unmapped.
  lemma SafeIffCallWaits(pages: nat, before: seq<Op>, op: Op)
    requires WaitingRun(Initial(pages), before) && (op.BeginTransfer? || op.BeginSubmit?)
    requires var s := Run(Initial(pages), before);
             && IdsFit(Next(s, op)) && |Next(s, op).agents| > |s.agents|
             && (op.BeginSubmit? ==> forall h :: h in op.handles ==> h < s.resourceIds.next)
    ensures var s := Run(Initial(pages), before); SafeFrom(Next(s, op)) <==> WaitsForMapping(s, op)
  {
    hide Lookup, Next, Base;
    var s := Run(Initial(pages), before);
    var t := Next(s, op);
    CountersGrow(s, op);
    ReadyFromStart(pages, before);
    QuietStep(s, op);
    if WaitsForMapping(s, op) {
      StepReady(s, op);
      StepBase(s, op);
      forall ops | WaitingRun(t, ops) && IdsFit(Run(t, ops))
        ensures IdleIsMapped(Run(t, ops))
      {
        RunReady(t, ops);
      }
    } else {
      var i := |s.agents|;
      BegunAt(s, op);
      var id := if op.BeginTransfer? then op.res else var h :| h in op.handles && Unmapped(Lookup(s.contexts, op.ctx, h)); h;
      var ops := EarlyRequestIdles(t, i, op.ctx, id);
    }
  }

  lemma BegunAt(s: Driver, op: Op)
    requires (op.BeginTransfer? || op.BeginSubmit?) && |Next(s, op).agents| > |s.agents|
    ensures var a := Next(s, op).agents[|s.agents|];
            && a.phase == Marking(0, Looking) && ContextOf(a.cmd) == op.ctx
            && Marks(a.cmd) == (if op.BeginTransfer? then [op.res] else op.handles) && !a.cmd.MapBlob?
  {
    hide Allocate, Lookup, FindContext;
  }

  // In every state: a transfer on a blob that is not mapped, completed before its MAP_BLOB,
  // leaves the blob idle and unmapped.
  lemma EarlyTransferBreaksPromise(s: Driver, c: nat, id: nat, toHost: bool)
    requires Unmapped(Lookup(s.contexts, c, id))
    ensures var t := DoTransfer(s, c, id, toHost, true);
            var s' := DoComplete(t, |s.agents|, 0);
            Unmapped(Lookup(s'.contexts, c, id)) && Lookup(s'.contexts, c, id).value.state.idle
  {
    hide Lookup, UpdateMany, Free;
    var t := DoTransfer(s, c, id, toHost, true);
    LookupUpdateMany(s.contexts, c, [id], Update(true, 0), c, id);
    LookupUpdateMany(t.contexts, c, [id], Update(false, 0), c, id);
  }
}
