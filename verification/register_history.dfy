// From runs to histories: what a run does to the register of one resource, and when the event
// follows the theory of fence registers although no lock keeps the stores of an update together.
module RegisterHistory {
  import opened Wrappers
  import opened Arena
  import opened Paging
  import opened FenceRegister
  import opened DriverState
  import opened ResourceTable
  import opened BaseInvariant
  import opened Requests
  import Idr

  // The store that a step makes into the register of the resource (c, id).
  function WriteBy(s: Driver, op: Op, c: nat, id: nat): Option<Write> {
    match op
    case StoreFence(i) =>
      if i < |s.agents| && InUpdate(s.agents[i], c, id) && s.agents[i].phase.stage.Storing? && !s.agents[i].cmd.MapBlob?
      then Some(Record(FenceOf(s.agents[i].cmd))) else None
    case SignalEvent(i) =>
      if i < |s.agents| && InUpdate(s.agents[i], c, id) && s.agents[i].phase.stage.Signalling?
      then Some(Signal(s.agents[i].phase.Marking?)) else None
    case _ => None
  }

  // The update that a step completes by changing the event.
  function SignalBy(s: Driver, op: Op, c: nat, id: nat): Option<Update> {
    if op.SignalEvent? && WriteBy(s, op, c, id).Some?
    then Some(Update(s.agents[op.agent].phase.Marking?, FenceOf(s.agents[op.agent].cmd))) else None
  }

  ghost function Writes(s: Driver, ops: seq<Op>, c: nat, id: nat): seq<Write>
    decreases |ops|
  {
    if ops == [] then []
    else
      var w := WriteBy(s, ops[0], c, id);
      (if w.Some? then [w.value] else []) + Writes(Next(s, ops[0]), ops[1..], c, id)
  }

  // The updates of the resource, in the order of their changes of its event.
  ghost function History(s: Driver, ops: seq<Op>, c: nat, id: nat): seq<Update>
    decreases |ops|
  {
    if ops == [] then []
    else
      var u := SignalBy(s, ops[0], c, id);
      (if u.Some? then [u.value] else []) + History(Next(s, ops[0]), ops[1..], c, id)
  }

  function AfterWrite(r: Register, w: Option<Write>): Register {
    if w.Some? then Written(r, w.value) else r
  }

  function After(r: Register, u: Option<Update>): Register {
    if u.Some? then Apply(r, u.value) else r
  }

  // ----- one step -----

  lemma StepRegister(s: Driver, op: Op, c: nat, id: nat)
    requires Base(s) && IdsFit(Next(s, op))
    ensures var r, r' := Lookup(s.contexts, c, id), Lookup(Next(s, op).contexts, c, id);
            r.Some? && r'.Some? ==> r'.value.state == AfterWrite(r.value.state, WriteBy(s, op, c, id))
  {
    hide Lookup, WriteOne;
    if op.StoreFence? || op.SignalEvent? {
      if Next(s, op) != s {
        var a := s.agents[op.agent];
        LookupWriteOne(s.contexts, ContextOf(a.cmd), Target(a),
                       if op.StoreFence? then Record(FenceOf(a.cmd)) else Signal(a.phase.Marking?), c, id);
      }
    } else {
      hide Next;
      if Lookup(Next(s, op).contexts, c, id).Some? {
        ResourceStep(s, op, c, id);
      }
    }
  }

  // A resource that outlives a step was there before it, with the register that the step made of it.
  lemma StepState(s: Driver, op: Op, c: nat, id: nat)
    requires Base(s) && IdsFit(Next(s, op)) && id < s.resourceIds.next
    requires Lookup(Next(s, op).contexts, c, id).Some?
    ensures Lookup(s.contexts, c, id).Some?
    ensures Lookup(Next(s, op).contexts, c, id).value.state
            == AfterWrite(Lookup(s.contexts, c, id).value.state, WriteBy(s, op, c, id))
  {
    hide Lookup, Next, WriteBy;
    ResourceStep(s, op, c, id);
    StepRegister(s, op, c, id);
  }

  // ----- a whole run -----

  lemma {:induction false} WriteFirst(r: Register, w: Write, h: seq<Write>)
    ensures WriteAll(r, [w] + h) == WriteAll(Written(r, w), h)
  {
    if h == [] {
      assert [w] + h == [w] && [w][..0] == [];
    } else {
      assert ([w] + h)[..|h|] == [w] + h[..|h| - 1];
      WriteFirst(r, w, h[..|h| - 1]);
    }
  }

  lemma {:induction false} ApplyFirst(r: Register, u: Update, h: seq<Update>)
    ensures ApplyAll(r, [u] + h) == ApplyAll(Apply(r, u), h)
  {
    if h == [] {
      assert [u] + h == [u] && [u][..0] == [];
    } else {
      assert ([u] + h)[..|h|] == [u] + h[..|h| - 1];
      ApplyFirst(r, u, h[..|h| - 1]);
    }
  }

  // The register of a resource that outlives a run is what the stores that reached it have made
  // of it, whatever else happened.
  lemma {:induction false} RegisterIsHistory(s: Driver, ops: seq<Op>, c: nat, id: nat)
    requires Base(s) && IdsFit(Run(s, ops)) && id < s.resourceIds.next
    requires Lookup(Run(s, ops).contexts, c, id).Some?
    ensures Lookup(s.contexts, c, id).Some?
    ensures Lookup(Run(s, ops).contexts, c, id).value.state
            == WriteAll(Lookup(s.contexts, c, id).value.state, Writes(s, ops, c, id))
    decreases |ops|
  {
    hide Next, Lookup, WriteBy;
    if ops != [] {
      var t := Next(s, ops[0]);
      RunCountersGrow(t, ops[1..]);
      CountersGrow(s, ops[0]);
      StepBase(s, ops[0]);
      RegisterIsHistory(t, ops[1..], c, id);
      StepState(s, ops[0], c, id);
      var w, rest := WriteBy(s, ops[0], c, id), Writes(t, ops[1..], c, id);
      if w.Some? {
        WriteFirst(Lookup(s.contexts, c, id).value.state, w.value, rest);
      } else {
        assert [] + rest == rest;
      }
    }
  }

  // ----- when the event follows the updates as if each were made at once -----

  // In every state of the run the event is what it would be if each update were made at once,
  // when it changes the event. r is that register.
  ghost predicate InStep(s: Driver, ops: seq<Op>, c: nat, id: nat, r: Register)
    decreases |ops|
  {
    && (Lookup(s.contexts, c, id).Some? ==> Lookup(s.contexts, c, id).value.state.idle == r.idle)
    && (ops != [] ==> InStep(Next(s, ops[0]), ops[1..], c, id, After(r, SignalBy(s, ops[0], c, id))))
  }

  // No update that comes to change the event after a larger fence has changed it finds the event
  // the other way round.
  ghost predicate LateChangesNothing(s: Driver, ops: seq<Op>, c: nat, id: nat, r: Register)
    decreases |ops|
  {
    ops != [] ==>
      var u := SignalBy(s, ops[0], c, id);
      && (u.Some? && Outdated(r, u.value) && Lookup(s.contexts, c, id).Some? ==>
            Lookup(s.contexts, c, id).value.state.idle == !u.value.busy)
      && LateChangesNothing(Next(s, ops[0]), ops[1..], c, id, After(r, u))
  }

  lemma {:induction false} InStepFrom(s: Driver, ops: seq<Op>, c: nat, id: nat, r: Register)
    requires Base(s) && IdsFit(Run(s, ops)) && id < s.resourceIds.next
    requires Lookup(Run(s, ops).contexts, c, id).Some?
    requires Lookup(s.contexts, c, id).Some? && Lookup(s.contexts, c, id).value.state.idle == r.idle
    ensures InStep(s, ops, c, id, r) <==> LateChangesNothing(s, ops, c, id, r)
    ensures InStep(s, ops, c, id, r) ==>
              Lookup(Run(s, ops).contexts, c, id).value.state.idle == ApplyAll(r, History(s, ops, c, id)).idle
    decreases |ops|
  {
    hide Next, Lookup, WriteBy;
    if ops != [] {
      var t := Next(s, ops[0]);
      RunCountersGrow(t, ops[1..]);
      CountersGrow(s, ops[0]);
      StepBase(s, ops[0]);
      RegisterIsHistory(t, ops[1..], c, id);
      StepState(s, ops[0], c, id);
      var u, rest := SignalBy(s, ops[0], c, id), History(t, ops[1..], c, id);
      SignalEffect(s, ops[0], c, id);
      if Lookup(t.contexts, c, id).value.state.idle == After(r, u).idle {
        InStepFrom(t, ops[1..], c, id, After(r, u));
      } else {
        assert !InStep(t, ops[1..], c, id, After(r, u));
      }
      if u.Some? {
        ApplyFirst(r, u.value, rest);
      } else {
        assert [] + rest == rest;
      }
    }
  }

  lemma SignalEffect(s: Driver, op: Op, c: nat, id: nat)
    ensures var (w, u) := (WriteBy(s, op, c, id), SignalBy(s, op, c, id));
            if u.Some? then w == Some(Signal(u.value.busy)) else w.None? || w.value.Record?
  {
  }

  // For every stretch of a run that a resource outlives: the event follows the updates, as if
  // each were made at once, in every state of it if and only if no outdated update comes to
  // change the event to what it is not already.
  lemma InStepIff(s: Driver, ops: seq<Op>, c: nat, id: nat)
    requires Reachable(s) && IdsFit(Run(s, ops))
    requires Lookup(s.contexts, c, id).Some? && Lookup(Run(s, ops).contexts, c, id).Some?
    ensures var r := Lookup(s.contexts, c, id).value.state;
            InStep(s, ops, c, id, r) <==> LateChangesNothing(s, ops, c, id, r)
  {
    ReachedState(s);
    LookupBelow(s.contexts, s.resourceIds.next, c, id);
    InStepFrom(s, ops, c, id, Lookup(s.contexts, c, id).value.state);
  }

  // ----- fenced requests keep their marks in order -----

  // Fence ids are below the counter and belong to one request each.
  ghost predicate FencesUnique(s: Driver) {
    && (forall k :: 0 <= k < |s.agents| ==> FenceOf(s.agents[k].cmd) < s.fenceIds.next)
    && forall j, k :: 0 <= j < k < |s.agents| && FenceOf(s.agents[j].cmd) != 0 ==>
         FenceOf(s.agents[j].cmd) != FenceOf(s.agents[k].cmd)
  }

  // A new request has no fence, or the next one.
  lemma NewFence(s: Driver, op: Op, k: nat)
    requires IdsFit(Next(s, op)) && |s.agents| <= k < |Next(s, op).agents|
    requires Pushed(s, op, Next(s, op).agents[k]) || Begun(s, op, Next(s, op).agents[k])
    ensures var s' := Next(s, op);
            || FenceOf(s'.agents[k].cmd) == 0
            || (k == |s.agents| == |s'.agents| - 1 && FenceOf(s'.agents[k].cmd) == s.fenceIds.next < s'.fenceIds.next)
  {
    if op.BeginSubmit? {
      hide Allocate, FindContext, RoundUp;
    } else {
      hide Next;
    }
  }

  lemma StepFences(s: Driver, op: Op)
    requires Base(s) && FencesUnique(s) && IdsFit(Next(s, op))
    ensures FencesUnique(Next(s, op))
  {
    hide Next;
    var s' := Next(s, op);
    CountersGrow(s, op);
    forall k: nat | k < |s'.agents|
      ensures var l := Before(s, op, s', k);
              if l < |s.agents| then s'.agents[k].cmd == s.agents[l].cmd
              else || FenceOf(s'.agents[k].cmd) == 0
                   || (k == |s.agents| == |s'.agents| - 1 && FenceOf(s'.agents[k].cmd) == s.fenceIds.next < s'.fenceIds.next)
    {
      var l := RequestOrigin(s, op, k);
      if l >= |s.agents| {
        NewFence(s, op, k);
      }
    }
    forall j: nat, k: nat | j < k < |s'.agents| && FenceOf(s'.agents[j].cmd) != 0
      ensures FenceOf(s'.agents[j].cmd) != FenceOf(s'.agents[k].cmd)
    {
      assert Before(s, op, s', j) < Before(s, op, s', k);
    }
  }

  // No request with this fence will mark anything busy any more.
  ghost predicate PastMarking(s: Driver, fence: nat) {
    && 0 < fence < s.fenceIds.next
    && forall k :: 0 <= k < |s.agents| && FenceOf(s.agents[k].cmd) == fence ==> !s.agents[k].phase.Marking?
  }

  lemma StepPastMarking(s: Driver, op: Op, fence: nat)
    requires Base(s) && PastMarking(s, fence) && IdsFit(Next(s, op))
    ensures PastMarking(Next(s, op), fence)
  {
    hide Next;
    var s' := Next(s, op);
    CountersGrow(s, op);
    forall k | 0 <= k < |s'.agents| && FenceOf(s'.agents[k].cmd) == fence
      ensures !s'.agents[k].phase.Marking?
    {
      var l := RequestOrigin(s, op, k);
      if l >= |s.agents| {
        NewFence(s, op, k);
      }
    }
  }

  lemma {:induction false} NoBusyLater(s: Driver, ops: seq<Op>, c: nat, id: nat, fence: nat)
    requires Base(s) && PastMarking(s, fence) && IdsFit(Run(s, ops))
    ensures Update(true, fence) !in History(s, ops, c, id)
    decreases |ops|
  {
    if ops != [] {
      RunCountersGrow(Next(s, ops[0]), ops[1..]);
      StepBase(s, ops[0]);
      StepPastMarking(s, ops[0], fence);
      NoBusyLater(Next(s, ops[0]), ops[1..], c, id, fence);
      assert SignalBy(s, ops[0], c, id) != Some(Update(true, fence));
    }
  }

  lemma {:induction false} MarksInOrderFrom(s: Driver, ops: seq<Op>, c: nat, id: nat)
    requires Base(s) && FencesUnique(s) && IdsFit(Run(s, ops))
    requires forall u :: u in History(s, ops, c, id) ==> u.fence != 0
    ensures FencedInOrder(History(s, ops, c, id))
    decreases |ops|
  {
    if ops != [] {
      var t := Next(s, ops[0]);
      RunCountersGrow(t, ops[1..]);
      StepBase(s, ops[0]);
      StepFences(s, ops[0]);
      var u, rest := SignalBy(s, ops[0], c, id), History(t, ops[1..], c, id);
      var h := History(s, ops, c, id);
      assert forall v :: v in rest ==> v in h;
      MarksInOrderFrom(t, ops[1..], c, id);
      if u.Some? {
        assert h == [u.value] + rest && u.value in h;
        if !u.value.busy {
          IdleEndsMarking(s, ops[0], c, id);
          NoBusyLater(t, ops[1..], c, id, u.value.fence);
        }
        OrderedCons(u.value, rest);
      } else {
        assert h == rest;
      }
    }
  }

  lemma OrderedCons(u: Update, rest: seq<Update>)
    requires FencedInOrder(rest) && u.fence != 0
    requires !u.busy ==> Update(true, u.fence) !in rest
    ensures FencedInOrder([u] + rest)
  {
    var h := [u] + rest;
    forall i, j | 0 <= i < j < |h| && h[i].fence == h[j].fence && h[j].busy
      ensures h[i].busy
    {
      if i == 0 {
        assert h[j] == Update(true, u.fence) && h[j] in rest;
      } else {
        assert h[i] == rest[i - 1] && h[j] == rest[j - 1];
      }
    }
  }

  // The request that marks idle is past marking, and no other has its fence.
  lemma IdleEndsMarking(s: Driver, op: Op, c: nat, id: nat)
    requires Base(s) && FencesUnique(s) && IdsFit(Next(s, op))
    requires SignalBy(s, op, c, id).Some? && !SignalBy(s, op, c, id).value.busy
    requires SignalBy(s, op, c, id).value.fence != 0
    ensures PastMarking(Next(s, op), SignalBy(s, op, c, id).value.fence)
  {
    var fence := SignalBy(s, op, c, id).value.fence;
    var i := op.agent;
    assert FenceOf(s.agents[i].cmd) == fence;
    forall k | 0 <= k < |s.agents| && FenceOf(s.agents[k].cmd) == fence
      ensures k == i
    {
      assert !(k < i) && !(i < k);
    }
    StepPastMarking(s, op, fence);
  }

  // ----- the results about fenced runs -----

  lemma {:induction false} RunFences(s: Driver, ops: seq<Op>)
    requires Base(s) && FencesUnique(s) && IdsFit(Run(s, ops))
    ensures FencesUnique(Run(s, ops))
    decreases |ops|
  {
    if ops != [] {
      RunCountersGrow(Next(s, ops[0]), ops[1..]);
      StepBase(s, ops[0]);
      StepFences(s, ops[0]);
      RunFences(Next(s, ops[0]), ops[1..]);
    }
  }

  // What the results below need of the state from which they look on.
  lemma ReachedState(s: Driver)
    requires Reachable(s)
    ensures Base(s) && FencesUnique(s)
  {
    var pages, ops :| s == Run(Initial(pages), ops) && IdsFit(s);
    InitialBase(pages);
    RunBase(Initial(pages), ops);
    RunFences(Initial(pages), ops);
  }

  // In every run, from any point of it on: the marks of a fenced request reach a resource busy
  // first and idle last.
  lemma FencedMarksInOrder(s: Driver, ops: seq<Op>, c: nat, id: nat)
    requires Reachable(s) && IdsFit(Run(s, ops))
    requires forall u :: u in History(s, ops, c, id) ==> u.fence != 0
    ensures FencedInOrder(History(s, ops, c, id))
  {
    ReachedState(s);
    MarksInOrderFrom(s, ops, c, id);
  }

  // In every run, for any stretch of it in which no late update changes the event: the event shows
  // the last update that was not outdated, whatever requests are still outstanding.
  lemma RunShowsLastThatCounts(s: Driver, ops: seq<Op>, c: nat, id: nat, i: nat)
    requires Reachable(s) && IdsFit(Run(s, ops))
    requires Lookup(s.contexts, c, id).Some? && Lookup(Run(s, ops).contexts, c, id).Some?
    requires var r := Lookup(s.contexts, c, id).value.state;
             LateChangesNothing(s, ops, c, id, r) && LastThatCounts(r, History(s, ops, c, id), i)
    ensures Lookup(Run(s, ops).contexts, c, id).value.state.idle == !History(s, ops, c, id)[i].busy
  {
    ReachedState(s);
    LookupBelow(s.contexts, s.resourceIds.next, c, id);
    var r := Lookup(s.contexts, c, id).value.state;
    InStepFrom(s, ops, c, id, r);
    ShowsLastThatCounts(r, History(s, ops, c, id), i);
  }

  // The stretch of a run that a resource outlives, without late changes and with fenced updates only.
  ghost predicate FencedStretch(s: Driver, ops: seq<Op>, c: nat, id: nat) {
    && Reachable(s) && IdsFit(Run(s, ops))
    && Lookup(s.contexts, c, id).Some? && Lookup(Run(s, ops).contexts, c, id).Some?
    && LateChangesNothing(s, ops, c, id, Lookup(s.contexts, c, id).value.state)
    && forall u :: u in History(s, ops, c, id) ==> u.fence != 0
  }

  lemma FencedStretchFolds(s: Driver, ops: seq<Op>, c: nat, id: nat)
    requires FencedStretch(s, ops, c, id)
    ensures var h := History(s, ops, c, id);
            && FencedInOrder(h)
            && Lookup(Run(s, ops).contexts, c, id).value.state.idle
               == ApplyAll(Lookup(s.contexts, c, id).value.state, h).idle
  {
    hide Run, Lookup, LateChangesNothing;
    ReachedState(s);
    LookupBelow(s.contexts, s.resourceIds.next, c, id);
    InStepFrom(s, ops, c, id, Lookup(s.contexts, c, id).value.state);
    FencedMarksInOrder(s, ops, c, id);
  }

  // If only fenced requests reach the resource, it ends up idle if and only if the request with
  // the highest fence has marked it idle, whatever the interleaving and the completion order.
  lemma FencedRunOutcome(s: Driver, ops: seq<Op>, c: nat, id: nat, m: nat)
    requires FencedStretch(s, ops, c, id)
    requires var r := Lookup(s.contexts, c, id).value.state; Highest(r, History(s, ops, c, id), m) && m > r.fence
    ensures Lookup(Run(s, ops).contexts, c, id).value.state.idle <==> Update(false, m) in History(s, ops, c, id)
  {
    FencedStretchFolds(s, ops, c, id);
    FencedOutcome(Lookup(s.contexts, c, id).value.state, History(s, ops, c, id), m);
  }

  ghost predicate SameUpdates(h: seq<Update>, g: seq<Update>) {
    forall u :: u in h <==> u in g
  }

  // Two ways for a run to go on that make the same fenced updates, interleaved as they may,
  // agree on the event, as long as late updates change nothing.
  lemma FencedRunsAgree(s: Driver, ops: seq<Op>, ops': seq<Op>, c: nat, id: nat)
    requires FencedStretch(s, ops, c, id) && FencedStretch(s, ops', c, id)
    requires SameUpdates(History(s, ops, c, id), History(s, ops', c, id))
    requires forall u :: u in History(s, ops, c, id) ==> u.fence != Lookup(s.contexts, c, id).value.state.fence
    ensures Lookup(Run(s, ops).contexts, c, id).value.state.idle == Lookup(Run(s, ops').contexts, c, id).value.state.idle
  {
    FencedStretchFolds(s, ops, c, id);
    FencedStretchFolds(s, ops', c, id);
    FencedUpdatesCommute(Lookup(s.contexts, c, id).value.state, History(s, ops, c, id), History(s, ops', c, id));
  }
}
