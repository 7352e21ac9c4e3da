// The handlers and the completion of one command without interference, and the proof that
// each is a run of the fine-grained steps. The methods of the driver class are proved against
// these functions, so what holds of every fine-grained run holds of them.
module AtomicSteps {
  import opened Wrappers
  import opened Paging
  import opened FenceRegister
  import opened DriverState
  import opened ResourceTable
  import A = Arena

  // One turn of the loop of UpdateResourceState.
  function UpdateOne(cs: seq<Context>, c: nat, id: nat, u: Update): seq<Context> {
    var r := Lookup(cs, c, id);
    if r.None? then cs else Store(cs, c, id, Mark(r.value, u))
  }

  lemma LookupUpdateOne(cs: seq<Context>, c: nat, id: nat, u: Update, c': nat, id': nat)
    ensures var r := Lookup(cs, c', id');
            Lookup(UpdateOne(cs, c, id, u), c', id')
            == if c' == c && id' == id && r.Some? then Some(Mark(r.value, u)) else r
  {
    var r := Lookup(cs, c, id);
    if r.Some? {
      LookupStore(cs, c, id, Mark(r.value, u), c', id');
    }
  }

  // UpdateResourceState over a whole handle list.
  function UpdateMany(cs: seq<Context>, c: nat, ids: seq<nat>, u: Update): seq<Context>
    decreases |ids|
  {
    if ids == [] then cs else UpdateMany(UpdateOne(cs, c, ids[0], u), c, ids[1..], u)
  }

  // Duplicates in the list change nothing: the register of a named resource is updated once.
  lemma {:induction false} LookupUpdateMany(cs: seq<Context>, c: nat, ids: seq<nat>, u: Update, c': nat, id': nat)
    ensures var r := Lookup(cs, c', id');
            Lookup(UpdateMany(cs, c, ids, u), c', id')
            == if c' == c && id' in ids && r.Some? then Some(Mark(r.value, u)) else r
    decreases |ids|
  {
    if ids != [] {
      LookupUpdateOne(cs, c, ids[0], u, c', id');
      LookupUpdateMany(UpdateOne(cs, c, ids[0], u), c, ids[1..], u, c', id');
      assert id' in ids <==> id' == ids[0] || id' in ids[1..];
    }
  }

  // The exits of CtlSubmitCommand after the command memory was allocated: the handles cannot be
  // read, there is no memory for their copy, the push fails.
  datatype Fault = NoFault | HandlesUnreadable | NoHandleCopy | NotPushed

  ghost function DoSubmit(s: Driver, c: nat, size: nat, outFence: bool, handles: seq<nat>, fault: Fault): Driver {
    var t := DoBeginSubmit(s, c, size, outFence, handles);
    if |t.agents| == |s.agents| then t else Issue(t, |s.agents|, fault)
  }

  // CtlTransferHost ignores a failed push.
  ghost function DoTransfer(s: Driver, c: nat, id: nat, toHost: bool, pushed: bool): Driver {
    var t := DoBeginTransfer(s, c, id, toHost);
    if |t.agents| == |s.agents| then t else Issue(t, |s.agents|, if pushed then NoFault else NotPushed)
  }

  // What becomes of a request that has begun. Only a list of handles has to be read and copied.
  function Issue(s: Driver, i: nat, fault: Fault): Driver
    requires i < |s.agents|
  {
    if fault.HandlesUnreadable? && Marks(s.agents[i].cmd) != [] then SetPhase(s, i, Abandoned(0))
    else if fault.NotPushed? || (fault.NoHandleCopy? && Marks(s.agents[i].cmd) != []) then MarkAndGiveUp(s, i)
    else MarkAndPush(s, i)
  }

  function MarkAndGiveUp(s: Driver, i: nat): Driver
    requires i < |s.agents|
  {
    var cmd := s.agents[i].cmd;
    SetPhase(s, i, Abandoned(|Marks(cmd)|))
    .(contexts := UpdateMany(s.contexts, ContextOf(cmd), Marks(cmd), Update(true, FenceOf(cmd))))
  }

  function MarkAndPush(s: Driver, i: nat): Driver
    requires i < |s.agents|
  {
    var cmd := s.agents[i].cmd;
    SetPhase(s, i, Queued)
    .(contexts := UpdateMany(s.contexts, ContextOf(cmd), Marks(cmd), Update(true, FenceOf(cmd))),
      trace := s.trace + [cmd])
  }

  // A blob that is mapped and idle.
  function ExposedIdle(r: Resource, address: nat): Resource {
    Exposed(r, address).(state := r.state.(idle := true))
  }

  // MapBlobResourceCallback. Address 0 stands for a failure of MmMapIoSpaceEx.
  function MapCallback(s: Driver, c: nat, id: nat, address: nat): Driver {
    var r := Lookup(s.contexts, c, id);
    if r.None? then s
    else if address == 0 then s.(failedMaps := s.failedMaps + {(c, id)})
    else
      s.(contexts := Store(s.contexts, c, id, ExposedIdle(r.value, address)),
         log := s.log + [MapIo(id, address, true)])
  }

  // One turn of the loop of VirtioVgpuReadFromQueue.
  ghost function DoComplete(s: Driver, i: nat, address: nat): Driver {
    if i >= |s.agents| || !s.agents[i].phase.Queued? then s
    else
      var cmd := s.agents[i].cmd;
      if cmd.GetCapset? then SetPhase(s, i, Awaited)
      else if cmd.MapBlob? then DoFinish(SetPhase(MapCallback(s, cmd.ctx, cmd.res, address), i, Completing(1, Looking)), i)
      else
        DoFinish(SetPhase(s, i, Completing(|Marks(cmd)|, Looking))
                 .(contexts := UpdateMany(s.contexts, ContextOf(cmd), Marks(cmd), Update(false, FenceOf(cmd)))), i)
  }

  // ----- each is a run of small steps -----

  // The steps of one turn of the loop. Those that a turn skips leave the state alone.
  function Turn(i: nat): seq<Op> {
    [Look(i), StoreFence(i), SignalEvent(i)]
  }

  function Turns(i: nat, n: nat): seq<Op> {
    if n == 0 then [] else Turn(i) + Turns(i, n - 1)
  }

  lemma {:induction false} RunAppend(s: Driver, a: seq<Op>, b: seq<Op>)
    ensures Run(s, a + b) == Run(Run(s, a), b)
    decreases |a|
  {
    if a == [] {
      assert a + b == b;
    } else {
      assert (a + b)[1..] == a[1..] + b;
      RunAppend(Next(s, a[0]), a[1..], b);
    }
  }

  lemma RunNone(s: Driver)
    ensures Run(s, []) == s
  {
  }

  lemma RunCons(s: Driver, op: Op, ops: seq<Op>)
    ensures Run(s, [op] + ops) == Run(Next(s, op), ops)
  {
    assert ([op] + ops)[1..] == ops;
  }

  lemma RunSnoc(s: Driver, ops: seq<Op>, op: Op)
    ensures Run(s, ops + [op]) == Next(Run(s, ops), op)
  {
    hide Next;
    RunAppend(s, ops, [op]);
    var t := Run(s, ops);
    assert Run(t, [op]) == Run(Next(t, op), []);
  }

  lemma RunThree(s: Driver, a: Op, b: Op, c: Op)
    ensures Run(s, [a, b, c]) == Next(Next(Next(s, a), b), c)
  {
    hide Next;
    RunSnoc(s, [a, b], c);
    RunSnoc(s, [a], b);
    RunSnoc(s, [], a);
    assert [a, b] + [c] == [a, b, c] && [a] + [b] == [a, b] && [] + [a] == [a];
  }

  // The last of two stores into one resource stands.
  lemma StoreTwice(cs: seq<Context>, c: nat, id: nat, q: Resource, r: Resource)
    requires Lookup(cs, c, id).Some? && q.id == id
    ensures Lookup(Store(cs, c, id, q), c, id) == Some(q)
    ensures Store(Store(cs, c, id, q), c, id, r) == Store(cs, c, id, r)
  {
    LookupStore(cs, c, id, q, c, id);
    var i := FindContext(cs, c).value;
    var rs := cs[i].resources;
    var ds := Store(cs, c, id, q);
    FindContextSame(cs, ds, c);
    FindResourceSame(rs, ds[i].resources, id);
    var j := FindResource(rs, id).value;
    assert rs[j := q][j := r] == rs[j := r];
  }

  // What the stores of one turn leave in the lists.
  lemma WritesAreUpdate(cs: seq<Context>, c: nat, id: nat, u: Update)
    ensures var r := Lookup(cs, c, id);
            UpdateOne(cs, c, id, u)
            == if r.None? then cs
               else if u.fence == 0 then WriteOne(cs, c, id, Signal(u.busy))
               else if u.fence >= r.value.state.fence then WriteOne(WriteOne(cs, c, id, Record(u.fence)), c, id, Signal(u.busy))
               else cs
  {
    hide Store, Lookup;
    var r := Lookup(cs, c, id);
    if r.Some? {
      LookupFinds(cs, c, id);
      if u.fence != 0 && u.fence >= r.value.state.fence {
        StoreTwice(cs, c, id, r.value.(state := Written(r.value.state, Record(u.fence))), Mark(r.value, u));
      } else if u.fence != 0 {
        StoreSame(cs, c, id);
      }
    }
  }

  lemma StoreSame(cs: seq<Context>, c: nat, id: nat)
    requires Lookup(cs, c, id).Some?
    ensures Store(cs, c, id, Lookup(cs, c, id).value) == cs
  {
    var i := FindContext(cs, c).value;
    var j := FindResource(cs[i].resources, id).value;
    assert cs[i].resources[j := cs[i].resources[j]] == cs[i].resources;
  }

  // Request i of s, as it stands in the middle of an update.
  function InStage(s: Driver, i: nat, stage: Stage, cs: seq<Context>): Driver
    requires i < |s.agents| && Updating(s.agents[i])
  {
    SetPhase(s, i, s.agents[i].phase.(stage := stage)).(contexts := cs)
  }

  function Moved(s: Driver, i: nat, cs: seq<Context>): Driver
    requires i < |s.agents| && Updating(s.agents[i])
  {
    SetPhase(s, i, Onward(s.agents[i].phase)).(contexts := cs)
  }

  lemma FenceStored(s: Driver, i: nat, cs: seq<Context>)
    requires i < |s.agents| && Updating(s.agents[i]) && !s.agents[i].cmd.MapBlob?
    ensures var a := s.agents[i];
            DoStoreFence(InStage(s, i, Storing, cs), i)
            == InStage(s, i, Signalling, WriteOne(cs, ContextOf(a.cmd), Target(a), Record(FenceOf(a.cmd))))
    ensures DoStoreFence(InStage(s, i, Signalling, cs), i) == InStage(s, i, Signalling, cs)
  {
    hide WriteOne;
    SetPhaseTwice(s, i, s.agents[i].phase.(stage := Storing), s.agents[i].phase.(stage := Signalling));
  }

  lemma EventChanged(s: Driver, i: nat, cs: seq<Context>)
    requires i < |s.agents| && Updating(s.agents[i])
    ensures var a := s.agents[i];
            DoSignal(InStage(s, i, Signalling, cs), i)
            == Moved(s, i, WriteOne(cs, ContextOf(a.cmd), Target(a), Signal(a.phase.Marking?)))
    ensures DoSignal(Moved(s, i, cs), i) == Moved(s, i, cs) && DoStoreFence(Moved(s, i, cs), i) == Moved(s, i, cs)
  {
    hide WriteOne;
    SetPhaseTwice(s, i, s.agents[i].phase.(stage := Signalling), Onward(s.agents[i].phase));
  }

  lemma LookDecides(s: Driver, i: nat)
    requires i < |s.agents| && Updating(s.agents[i]) && s.agents[i].phase.stage.Looking? && !s.agents[i].cmd.MapBlob?
    ensures var a := s.agents[i];
            var (r, f) := (Lookup(s.contexts, ContextOf(a.cmd), Target(a)), FenceOf(a.cmd));
            DoLook(s, i) == if r.None? || 0 < f < r.value.state.fence then Moved(s, i, s.contexts)
                            else InStage(s, i, if f == 0 then Signalling else Storing, s.contexts)
  {
    hide Lookup, Targets, ContextOf, FenceOf;
  }

  lemma TurnIsUpdate(s: Driver, i: nat)
    requires i < |s.agents| && Updating(s.agents[i]) && s.agents[i].phase.stage.Looking? && !s.agents[i].cmd.MapBlob?
    ensures var a := s.agents[i];
            var u := Update(a.phase.Marking?, FenceOf(a.cmd));
            Run(s, Turn(i)) == Moved(s, i, UpdateOne(s.contexts, ContextOf(a.cmd), Target(a), u))
  {
    hide Run, DoLook, DoStoreFence, DoSignal, InStage, Moved, WriteOne, UpdateOne, Lookup, Targets, ContextOf, FenceOf;
    var a := s.agents[i];
    var c, id, f := ContextOf(a.cmd), Target(a), FenceOf(a.cmd);
    RunThree(s, Look(i), StoreFence(i), SignalEvent(i));
    WritesAreUpdate(s.contexts, c, id, Update(a.phase.Marking?, f));
    LookDecides(s, i);
    FenceStored(s, i, s.contexts);
    EventChanged(s, i, s.contexts);
    EventChanged(s, i, WriteOne(s.contexts, c, id, Record(f)));
  }

  // The rest of the loop, from handle k on.
  lemma {:induction false} LoopRun(s: Driver, i: nat, k: nat)
    requires i < |s.agents| && k <= |Targets(s.agents[i])| && (s.agents[i].cmd.MapBlob? ==> s.agents[i].phase.Marking?)
    requires s.agents[i].phase == Marking(k, Looking) || s.agents[i].phase == Completing(k, Looking)
    ensures var a := s.agents[i];
            var n := |Targets(a)|;
            var u := Update(a.phase.Marking?, FenceOf(a.cmd));
            Run(s, Turns(i, n - k))
            == SetPhase(s, i, a.phase.(done := n))
               .(contexts := UpdateMany(s.contexts, ContextOf(a.cmd), Targets(a)[k..], u))
    decreases |Targets(s.agents[i])| - k
  {
    hide UpdateOne, UpdateMany, Lookup, FenceOf, ContextOf;
    var a := s.agents[i];
    var n := |Targets(a)| - k;
    if n > 0 {
      TurnIsUpdate(s, i);
      var t := Run(s, Turn(i));
      RunAppend(s, Turn(i), Turns(i, n - 1));
      LoopRun(t, i, k + 1);
      UpdateManyFirst(s.contexts, ContextOf(a.cmd), Targets(a), k, Update(a.phase.Marking?, FenceOf(a.cmd)));
      SetPhaseTwice(s, i, Onward(a.phase), a.phase.(done := |Targets(a)|));
    } else {
      assert Targets(a)[k..] == [];
      UpdateManyNone(s.contexts, ContextOf(a.cmd), Update(a.phase.Marking?, FenceOf(a.cmd)));
      SetPhaseSame(s, i);
    }
  }

  lemma UpdateManyFirst(cs: seq<Context>, c: nat, ids: seq<nat>, k: nat, u: Update)
    requires k < |ids|
    ensures UpdateMany(cs, c, ids[k..], u) == UpdateMany(UpdateOne(cs, c, ids[k], u), c, ids[k + 1..], u)
  {
    hide UpdateOne;
    assert ids[k..][0] == ids[k] && ids[k..][1..] == ids[k + 1..];
  }

  lemma UpdateManyNone(cs: seq<Context>, c: nat, u: Update)
    ensures UpdateMany(cs, c, [], u) == cs
  {
  }

  lemma SetPhaseSame(s: Driver, i: nat)
    requires i < |s.agents|
    ensures SetPhase(s, i, s.agents[i].phase) == s
  {
    assert s.agents[i := s.agents[i].(phase := s.agents[i].phase)] == s.agents;
  }

  // Two phase changes of the same request: the last one stands.
  lemma SetPhaseTwice(s: Driver, i: nat, p: Phase, q: Phase)
    requires i < |s.agents|
    ensures SetPhase(SetPhase(s, i, p), i, q) == SetPhase(s, i, q)
  {
    var a := s.agents[i];
    assert s.agents[i := a.(phase := p)][i := a.(phase := q)] == s.agents[i := a.(phase := q)];
  }

  lemma PushMarked(s: Driver, i: nat, cs: seq<Context>)
    requires i < |s.agents|
    ensures var cmd := s.agents[i].cmd;
            DoPush(SetPhase(s, i, Marking(|Marks(cmd)|, Looking)).(contexts := cs), i)
            == SetPhase(s, i, Queued).(contexts := cs, trace := s.trace + [cmd])
  {
    SetPhaseTwice(s, i, Marking(|Marks(s.agents[i].cmd)|, Looking), Queued);
  }

  lemma MarkedAllIsPushed(s: Driver, i: nat)
    requires i < |s.agents| && s.agents[i].phase == Marking(0, Looking)
    ensures DoPush(Run(s, Turns(i, |Marks(s.agents[i].cmd)|)), i) == MarkAndPush(s, i)
  {
    hide Run, DoPush, UpdateMany;
    var cmd := s.agents[i].cmd;
    LoopRun(s, i, 0);
    assert Marks(cmd)[0..] == Marks(cmd);
    PushMarked(s, i, UpdateMany(s.contexts, ContextOf(cmd), Marks(cmd), Update(true, FenceOf(cmd))));
  }

  lemma GiveUpMarked(s: Driver, i: nat, cs: seq<Context>)
    requires i < |s.agents|
    ensures var n := |Marks(s.agents[i].cmd)|;
            DoAbandon(SetPhase(s, i, Marking(n, Looking)).(contexts := cs), i) == SetPhase(s, i, Abandoned(n)).(contexts := cs)
  {
    var n := |Marks(s.agents[i].cmd)|;
    SetPhaseTwice(s, i, Marking(n, Looking), Abandoned(n));
  }

  lemma MarkedAllIsGivenUp(s: Driver, i: nat)
    requires i < |s.agents| && s.agents[i].phase == Marking(0, Looking)
    ensures DoAbandon(Run(s, Turns(i, |Marks(s.agents[i].cmd)|)), i) == MarkAndGiveUp(s, i)
  {
    hide Run, DoAbandon, UpdateMany;
    var cmd := s.agents[i].cmd;
    LoopRun(s, i, 0);
    assert Marks(cmd)[0..] == Marks(cmd);
    GiveUpMarked(s, i, UpdateMany(s.contexts, ContextOf(cmd), Marks(cmd), Update(true, FenceOf(cmd))));
  }

  // The steps of request i, which names n handles, after its begin.
  function IssueOps(i: nat, n: nat, fault: Fault): seq<Op> {
    if fault.HandlesUnreadable? && n != 0 then [Abandon(i)]
    else if fault.NotPushed? || (fault.NoHandleCopy? && n != 0) then Turns(i, n) + [Abandon(i)]
    else Turns(i, n) + [Push(i)]
  }

  lemma IssueIsRun(s: Driver, i: nat, fault: Fault)
    requires i < |s.agents| && s.agents[i].phase == Marking(0, Looking)
    ensures Issue(s, i, fault) == Run(s, IssueOps(i, |Marks(s.agents[i].cmd)|, fault))
  {
    hide Run, MarkAndPush, MarkAndGiveUp, Turns, DoPush, DoAbandon, Next, Marks;
    var n := |Marks(s.agents[i].cmd)|;
    LastStep(s, Turns(i, n), i);
    if fault.HandlesUnreadable? && n != 0 {
      AbandonedAtOnce(s, i);
    } else if fault.NotPushed? || (fault.NoHandleCopy? && n != 0) {
      MarkedAllIsGivenUp(s, i);
    } else {
      MarkedAllIsPushed(s, i);
    }
  }

  lemma LastStep(s: Driver, ops: seq<Op>, i: nat)
    ensures Run(s, ops + [Abandon(i)]) == DoAbandon(Run(s, ops), i)
    ensures Run(s, ops + [Push(i)]) == DoPush(Run(s, ops), i)
  {
    hide Run, DoPush, DoAbandon;
    RunSnoc(s, ops, Abandon(i));
    RunSnoc(s, ops, Push(i));
  }

  lemma AbandonedAtOnce(s: Driver, i: nat)
    requires i < |s.agents| && s.agents[i].phase == Marking(0, Looking)
    ensures Run(s, [Abandon(i)]) == SetPhase(s, i, Abandoned(0))
  {
    hide Run;
    RunNone(s);
    LastStep(s, [], i);
    assert [] + [Abandon(i)] == [Abandon(i)];
  }

  // A step of request i.
  predicate StepOf(op: Op, i: nat) {
    op in Turn(i) || op == Push(i) || op == Abandon(i)
  }

  lemma {:induction false} TurnsAreSteps(i: nat, n: nat)
    ensures forall op :: op in Turns(i, n) ==> StepOf(op, i)
  {
    if n != 0 {
      TurnsAreSteps(i, n - 1);
    }
  }

  // The steps of a request that was never begun change nothing.
  lemma {:induction false} NobodySteps(s: Driver, i: nat, ops: seq<Op>)
    requires i >= |s.agents| && forall op :: op in ops ==> StepOf(op, i)
    ensures Run(s, ops) == s
    decreases |ops|
  {
    if ops != [] {
      assert StepOf(ops[0], i);
      NobodySteps(s, i, ops[1..]);
    }
  }

  // A submit is its begin and then, handle by handle, the marks, and the push or the exit that
  // `fault` says. The steps after a begin that was refused change nothing.
  lemma SubmitIsRun(s: Driver, c: nat, size: nat, outFence: bool, handles: seq<nat>, fault: Fault)
    ensures DoSubmit(s, c, size, outFence, handles, fault)
            == Run(s, [BeginSubmit(c, size, outFence, handles)] + IssueOps(|s.agents|, |handles|, fault))
  {
    hide Run, Issue, IssueOps, DoBeginSubmit;
    RequestIsRun(s, BeginSubmit(c, size, outFence, handles), |handles|, fault);
  }

  lemma TransferIsRun(s: Driver, c: nat, id: nat, toHost: bool, pushed: bool)
    ensures DoTransfer(s, c, id, toHost, pushed)
            == Run(s, [BeginTransfer(c, id, toHost)] + IssueOps(|s.agents|, 1, if pushed then NoFault else NotPushed))
  {
    hide Run, Issue, IssueOps, DoBeginTransfer;
    RequestIsRun(s, BeginTransfer(c, id, toHost), 1, if pushed then NoFault else NotPushed);
  }

  // What a begin leaves: no request, or one that has yet to mark its n handles.
  lemma BeginsOrNot(s: Driver, begin: Op, n: nat)
    requires begin.BeginSubmit? || begin.BeginTransfer?
    requires n == if begin.BeginSubmit? then |begin.handles| else 1
    ensures var t := Next(s, begin);
            || t == s
            || (|t.agents| == |s.agents| + 1 && t.agents[|s.agents|].phase == Marking(0, Looking)
                && |Marks(t.agents[|s.agents|].cmd)| == n)
  {
    hide A.Allocate, RoundUp, FindContext, Lookup;
  }

  lemma RequestIsRun(s: Driver, begin: Op, n: nat, fault: Fault)
    requires begin.BeginSubmit? || begin.BeginTransfer?
    requires n == if begin.BeginSubmit? then |begin.handles| else 1
    ensures var t := Next(s, begin);
            (if |t.agents| == |s.agents| then t else Issue(t, |s.agents|, fault))
            == Run(s, [begin] + IssueOps(|s.agents|, n, fault))
  {
    hide Issue, Next, Run;
    var t := Next(s, begin);
    var rest := IssueOps(|s.agents|, n, fault);
    BeginsOrNot(s, begin, n);
    RunCons(s, begin, rest);
    if |t.agents| == |s.agents| {
      TurnsAreSteps(|s.agents|, n);
      NobodySteps(t, |s.agents|, rest);
    } else {
      IssueIsRun(t, |s.agents|, fault);
    }
  }

  // ----- CtlMap -----

  // A call of CtlMap without interference. It is left waiting if the resource is busy.
  function DoMap(s: Driver, c: nat, id: nat, outcome: MapOutcome): Driver {
    var t := DoBeginMap(s, c, id);
    if |t.mappers| == |s.mappers| then t else DoEndMap(t, |s.mappers|, outcome)
  }

  // The call is its two halves. The second finds nobody if the first has not left a call waiting.
  lemma MapIsRun(s: Driver, c: nat, id: nat, outcome: MapOutcome)
    ensures DoMap(s, c, id, outcome) == Run(s, [BeginMap(c, id), EndMap(|s.mappers|, outcome)])
  {
    hide Lookup, Store, Run, DoEndMap, Next;
    var begin, end := BeginMap(c, id), EndMap(|s.mappers|, outcome);
    RunNone(s);
    RunSnoc(s, [], begin);
    RunSnoc(s, [begin], end);
    assert [] + [begin] == [begin] && [begin] + [end] == [begin, end];
    MapHalves(s, c, id, outcome);
  }

  lemma MapHalves(s: Driver, c: nat, id: nat, outcome: MapOutcome)
    ensures DoMap(s, c, id, outcome) == Next(Next(s, BeginMap(c, id)), EndMap(|s.mappers|, outcome))
  {
    hide Lookup, Store;
  }

  // ----- completions -----

  // Dequeued and marked idle handle by handle, a request is where DoComplete has it.
  lemma IdledAll(s: Driver, i: nat)
    requires i < |s.agents| && s.agents[i].phase.Queued? && !s.agents[i].cmd.GetCapset? && !s.agents[i].cmd.MapBlob?
    ensures var cmd := s.agents[i].cmd;
            Run(DoDequeue(s, i), Turns(i, |Marks(cmd)|))
            == SetPhase(s, i, Completing(|Marks(cmd)|, Looking))
               .(contexts := UpdateMany(s.contexts, ContextOf(cmd), Marks(cmd), Update(false, FenceOf(cmd))))
  {
    hide Run, UpdateMany;
    var cmd := s.agents[i].cmd;
    var t := SetPhase(s, i, Completing(0, Looking));
    assert DoDequeue(s, i) == t;
    LoopRun(t, i, 0);
    assert Marks(cmd)[0..] == Marks(cmd);
    SetPhaseTwice(s, i, Completing(0, Looking), Completing(|Marks(cmd)|, Looking));
  }

  // The steps of a completion, if the request is there and queued.
  function CompleteOps(agents: seq<Agent>, i: nat, address: nat): seq<Op> {
    if i >= |agents| || !agents[i].phase.Queued? then []
    else if agents[i].cmd.GetCapset? then [Dequeue(i)]
    else if agents[i].cmd.MapBlob? then [Dequeue(i)] + (MapSteps(i, address) + [Finish(i)])
    else [Dequeue(i)] + (Turns(i, |Marks(agents[i].cmd)|) + [Finish(i)])
  }

  // The completion of a MAP_BLOB: look for the blob, map it and store its address, set its event,
  // release the buffer.
  function MapSteps(i: nat, address: nat): seq<Op> {
    [Look(i), MapIoSpace(i, address), SignalEvent(i)]
  }

  lemma MapStepsAre(s: Driver, i: nat, address: nat)
    requires i < |s.agents| && s.agents[i].phase.Queued? && s.agents[i].cmd.MapBlob?
    ensures var cmd := s.agents[i].cmd;
            Run(DoDequeue(s, i), MapSteps(i, address))
            == SetPhase(MapCallback(s, cmd.ctx, cmd.res, address), i, Completing(1, Looking))
  {
    hide Run, Lookup, Store;
    var cmd := s.agents[i].cmd;
    var r := Lookup(s.contexts, cmd.ctx, cmd.res);
    var t := DoDequeue(s, i);
    RunThree(t, Look(i), MapIoSpace(i, address), SignalEvent(i));
    LookupFinds(s.contexts, cmd.ctx, cmd.res);
    if r.Some? && address != 0 {
      StoreTwice(s.contexts, cmd.ctx, cmd.res, Exposed(r.value, address), ExposedIdle(r.value, address));
    }
    assert Run(t, MapSteps(i, address)).agents == SetPhase(s, i, Completing(1, Looking)).agents;
  }

  // A completion is: off the queue, the idle marks or the mapping, the releases.
  lemma CompleteIsRun(s: Driver, i: nat, address: nat)
    ensures DoComplete(s, i, address) == Run(s, CompleteOps(s.agents, i, address))
  {
    hide Run, DoComplete, DoFinish, DoDequeue, Turns, Marks, MapSteps, Next;
    RunNone(s);
    CompleteSteps(s, i, address);
    if i < |s.agents| && s.agents[i].phase.Queued? {
      DequeuedQuery(s, i);
      AroundLoop(s, i, MapSteps(i, address));
      AroundLoop(s, i, Turns(i, |Marks(s.agents[i].cmd)|));
    }
  }

  lemma AroundLoop(s: Driver, i: nat, loop: seq<Op>)
    ensures Run(s, [Dequeue(i)] + (loop + [Finish(i)])) == DoFinish(Run(DoDequeue(s, i), loop), i)
  {
    hide Run, DoFinish, DoDequeue;
    RunCons(s, Dequeue(i), loop + [Finish(i)]);
    RunSnoc(DoDequeue(s, i), loop, Finish(i));
  }

  lemma CompleteSteps(s: Driver, i: nat, address: nat)
    ensures DoComplete(s, i, address)
            == if i >= |s.agents| || !s.agents[i].phase.Queued? then s
               else if s.agents[i].cmd.GetCapset? then SetPhase(s, i, Awaited)
               else if s.agents[i].cmd.MapBlob? then DoFinish(Run(DoDequeue(s, i), MapSteps(i, address)), i)
               else DoFinish(Run(DoDequeue(s, i), Turns(i, |Marks(s.agents[i].cmd)|)), i)
  {
    hide Run, UpdateMany, DoFinish, DoDequeue, MapCallback, Turns, Marks, MapSteps;
    if i < |s.agents| && s.agents[i].phase.Queued? && !s.agents[i].cmd.GetCapset? {
      if s.agents[i].cmd.MapBlob? {
        MapStepsAre(s, i, address);
      } else {
        IdledAll(s, i);
      }
    }
  }

  lemma DequeuedQuery(s: Driver, i: nat)
    requires i < |s.agents| && s.agents[i].phase.Queued?
    ensures s.agents[i].cmd.GetCapset? ==> Run(s, [Dequeue(i)]) == SetPhase(s, i, Awaited)
  {
    hide Run;
    RunNone(s);
    RunSnoc(s, [], Dequeue(i));
    assert [] + [Dequeue(i)] == [Dequeue(i)];
  }
}
