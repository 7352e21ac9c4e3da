// Who can still make a busy resource idle, and the run that shows it: a live request that names
// the resource and whose idle mark will count goes on alone, from whatever stage it has reached.
// It finishes the update it is in, marks the rest of its handles busy if it has not been pushed
// yet, is pushed and taken out of the queue, and marks its handles idle. A MAP_BLOB looks for its
// blob, maps it and sets its event. Nothing else has to happen for that, and no ids are taken.
// Module Stuck uses these runs for one half of its equivalence.
module WakeRuns {
  import opened Wrappers
  import opened Arena
  import opened FenceRegister
  import opened DriverState
  import opened ResourceTable
  import opened BaseInvariant
  import opened Requests
  import opened AtomicSteps
  import opened RegisterHistory
  import opened Wakeup
  import Idr

  // The resources that a live request will have marked idle by the time it has completed. Other
  // than Owed, this counts what it has yet to mark busy.
  function ToIdle(a: Agent): seq<nat> {
    match a.phase
    case Marking(k, stage) =>
      if k < |Marks(a.cmd)| || (k == |Marks(a.cmd)| && stage.Looking?) then IdleMarks(a.cmd) else []
    case Queued => IdleMarks(a.cmd)
    case Completing(k, _) => if k <= |IdleMarks(a.cmd)| then IdleMarks(a.cmd)[k..] else []
    case Awaited => []
    case Abandoned(_) => []
  }

  predicate CanWake(a: Agent, c: nat, id: nat, fence: nat) {
    ContextOf(a.cmd) == c && id in ToIdle(a) && Counting(a, c, id, fence)
  }

  // ----- someone left to wake it -----

  // The steps of requests that have begun.
  predicate Progress(op: Op) {
    op.Look? || op.StoreFence? || op.SignalEvent? || op.MapIoSpace? || op.Push? || op.Dequeue?
  }

  // These steps lead from s to t, take no ids and leave resource (c, id) and request i there.
  // Only a MAP_BLOB changes what is behind the resource.
  ghost predicate LeadsTo(s: Driver, ops: seq<Op>, t: Driver, i: nat, c: nat, id: nat) {
    && t == Run(s, ops) && (forall op :: op in ops ==> Progress(op))
    && t.resourceIds == s.resourceIds && t.fenceIds == s.fenceIds
    && i < |s.agents| == |t.agents| && t.agents[i].cmd == s.agents[i].cmd
    && Lookup(s.contexts, c, id).Some? && Lookup(t.contexts, c, id).Some?
    && (!s.agents[i].cmd.MapBlob? ==>
          Lookup(t.contexts, c, id).value.backing == Lookup(s.contexts, c, id).value.backing)
  }

  lemma Onwards(s: Driver, ops: seq<Op>, t: Driver, ops': seq<Op>, u: Driver, i: nat, c: nat, id: nat)
    requires LeadsTo(s, ops, t, i, c, id) && LeadsTo(t, ops', u, i, c, id)
    ensures LeadsTo(s, ops + ops', u, i, c, id)
  {
    hide Run, Lookup;
    RunAppend(s, ops, ops');
  }

  // These steps of request i make the resource idle.
  ghost predicate Wakes(s: Driver, i: nat, ops: seq<Op>, c: nat, id: nat) {
    LeadsTo(s, ops, Run(s, ops), i, c, id) && Lookup(Run(s, ops).contexts, c, id).value.state.idle
  }

  lemma WakesAfter(s: Driver, ops: seq<Op>, t: Driver, ops': seq<Op>, i: nat, c: nat, id: nat)
    requires LeadsTo(s, ops, t, i, c, id) && Wakes(t, i, ops', c, id)
    ensures Wakes(s, i, ops + ops', c, id)
  {
    hide Run, Lookup;
    RunAppend(s, ops, ops');
    Onwards(s, ops, t, ops', Run(t, ops'), i, c, id);
  }

  predicate CanWakeNow(s: Driver, i: nat, c: nat, id: nat) {
    && i < |s.agents| && Lookup(s.contexts, c, id).Some?
    && CanWake(s.agents[i], c, id, Lookup(s.contexts, c, id).value.state.fence)
  }

  lemma TurnsAre(i: nat, n: nat)
    ensures forall op :: op in Turns(i, n) ==> Progress(op)
  {
  }

  // The rest of an update of one resource that has been looked at.
  function RestOfTurn(i: nat): seq<Op> {
    [StoreFence(i), MapIoSpace(i, 1), SignalEvent(i)]
  }

  // The register that the rest of the update leaves.
  function Finished(a: Agent, r: Register): Register
    requires Updating(a)
  {
    var q := if a.phase.stage.Storing? && !a.cmd.MapBlob? then Written(r, Record(FenceOf(a.cmd))) else r;
    Written(q, Signal(a.phase.Marking?))
  }

  lemma FinishTurn(s: Driver, i: nat, c: nat, id: nat) returns (t: Driver)
    requires i < |s.agents| && Updating(s.agents[i]) && !s.agents[i].phase.stage.Looking? && Lookup(s.contexts, c, id).Some?
    ensures LeadsTo(s, RestOfTurn(i), t, i, c, id)
    ensures t.agents[i] == s.agents[i].(phase := Onward(s.agents[i].phase))
    ensures var (a, r) := (s.agents[i], Lookup(s.contexts, c, id).value.state);
            Lookup(t.contexts, c, id).value.state == if InUpdate(a, c, id) then Finished(a, r) else r
  {
    hide Run, Lookup, DoStoreFence, DoMapIoSpace, DoSignal, Marks, ContextOf, FenceOf;
    RunThree(s, StoreFence(i), MapIoSpace(i, 1), SignalEvent(i));
    var s1 := FenceTurn(s, i, c, id);
    var s2 := MapTurn(s1, i, c, id);
    t := SignalTurn(s2, i, c, id);
  }

  // The three steps of the rest of a turn, each for what it does if it is the request's next one.
  lemma FenceTurn(s: Driver, i: nat, c: nat, id: nat) returns (t: Driver)
    requires i < |s.agents| && Updating(s.agents[i]) && !s.agents[i].phase.stage.Looking? && Lookup(s.contexts, c, id).Some?
    ensures t == DoStoreFence(s, i) && SameRest(s, t, i, c, id)
    ensures var (a, r) := (s.agents[i], Lookup(s.contexts, c, id).value);
            && t.agents[i] == a.(phase := a.phase.(stage := if a.cmd.MapBlob? then a.phase.stage else Signalling))
            && Lookup(t.contexts, c, id).value
               == if InUpdate(a, c, id) && a.phase.stage.Storing? && !a.cmd.MapBlob?
                  then r.(state := Written(r.state, Record(FenceOf(a.cmd)))) else r
  {
    hide Lookup, WriteOne;
    t := DoStoreFence(s, i);
    LookupWriteOne(s.contexts, ContextOf(s.agents[i].cmd), Target(s.agents[i]), Record(FenceOf(s.agents[i].cmd)), c, id);
  }

  lemma MapTurn(s: Driver, i: nat, c: nat, id: nat) returns (t: Driver)
    requires i < |s.agents| && Updating(s.agents[i]) && Lookup(s.contexts, c, id).Some?
    requires if s.agents[i].cmd.MapBlob? then !s.agents[i].phase.stage.Looking? else s.agents[i].phase.stage.Signalling?
    ensures t == DoMapIoSpace(s, i, 1) && SameRest(s, t, i, c, id)
    ensures t.agents[i] == s.agents[i].(phase := s.agents[i].phase.(stage := Signalling))
    ensures Lookup(t.contexts, c, id).value.state == Lookup(s.contexts, c, id).value.state
    ensures !s.agents[i].cmd.MapBlob? ==> t == s
  {
    hide Lookup, Store;
    t := DoMapIoSpace(s, i, 1);
    LookupMapIoSpace(s, i, 1, c, id);
  }

  lemma SignalTurn(s: Driver, i: nat, c: nat, id: nat) returns (t: Driver)
    requires i < |s.agents| && Updating(s.agents[i]) && s.agents[i].phase.stage.Signalling?
             && Lookup(s.contexts, c, id).Some?
    ensures t == DoSignal(s, i) && SameRest(s, t, i, c, id)
    ensures var (a, r) := (s.agents[i], Lookup(s.contexts, c, id).value);
            && t.agents[i] == a.(phase := Onward(a.phase))
            && Lookup(t.contexts, c, id).value
               == if InUpdate(a, c, id) then r.(state := Written(r.state, Signal(a.phase.Marking?))) else r
  {
    hide Lookup, WriteOne;
    t := DoSignal(s, i);
    LookupWriteOne(s.contexts, ContextOf(s.agents[i].cmd), Target(s.agents[i]), Signal(s.agents[i].phase.Marking?), c, id);
  }

  ghost predicate SameRest(s: Driver, t: Driver, i: nat, c: nat, id: nat) {
    && t.resourceIds == s.resourceIds && t.fenceIds == s.fenceIds
    && i < |s.agents| == |t.agents| && Lookup(t.contexts, c, id).Some?
  }

  // The rest of the turn has idled the resource, or the request can still do it.
  lemma StillWakes(s: Driver, t: Driver, i: nat, c: nat, id: nat)
    requires CanWakeNow(s, i, c, id) && Updating(s.agents[i]) && !s.agents[i].phase.stage.Looking?
    requires i < |t.agents| && t.agents[i] == s.agents[i].(phase := Onward(s.agents[i].phase))
             && Lookup(t.contexts, c, id).Some?
    requires var (a, r) := (s.agents[i], Lookup(s.contexts, c, id).value.state);
             Lookup(t.contexts, c, id).value.state == if InUpdate(a, c, id) then Finished(a, r) else r
    ensures if s.agents[i].phase.Completing? && InUpdate(s.agents[i], c, id) then Lookup(t.contexts, c, id).value.state.idle
            else CanWakeNow(t, i, c, id)
  {
    hide Lookup, ToIdle, Targets;
    OnwardIdles(s.agents[i], c, id);
  }

  lemma OnwardIdles(a: Agent, c: nat, id: nat)
    requires Updating(a) && !a.phase.stage.Looking? && ContextOf(a.cmd) == c && id in ToIdle(a)
    ensures id in ToIdle(a.(phase := Onward(a.phase))) || (a.phase.Completing? && InUpdate(a, c, id))
  {
    hide Marks, ContextOf;
    if a.phase.Completing? {
      var k := a.phase.done;
      assert IdleMarks(a.cmd)[k..] == [Target(a)] + IdleMarks(a.cmd)[k + 1..];
    }
  }

  // From a look at the next handle on, completing.
  lemma WakeIdling(s: Driver, i: nat, c: nat, id: nat) returns (ops: seq<Op>)
    requires CanWakeNow(s, i, c, id) && s.agents[i].phase.Completing? && s.agents[i].phase.stage.Looking?
    ensures Wakes(s, i, ops, c, id)
  {
    hide Lookup, UpdateMany, Run;
    var a := s.agents[i];
    var k := a.phase.done;
    if a.cmd.MapBlob? {
      var t := DoLook(s, i);
      RunCons(s, Look(i), []);
      RunNone(t);
      assert LeadsTo(s, [Look(i)] + [], t, i, c, id);
      var u := FinishTurn(t, i, c, id);
      assert Wakes(t, i, RestOfTurn(i), c, id);
      ops := [Look(i)] + [] + RestOfTurn(i);
      WakesAfter(s, [Look(i)] + [], t, RestOfTurn(i), i, c, id);
    } else {
      ops := Turns(i, |Marks(a.cmd)| - k);
      TurnsAre(i, |Marks(a.cmd)| - k);
      LoopRun(s, i, k);
      LookupUpdateMany(s.contexts, c, Marks(a.cmd)[k..], Update(false, FenceOf(a.cmd)), c, id);
    }
  }

  lemma WakeCompleting(s: Driver, i: nat, c: nat, id: nat) returns (ops: seq<Op>)
    requires CanWakeNow(s, i, c, id) && s.agents[i].phase.Completing?
    ensures Wakes(s, i, ops, c, id)
  {
    assert i < |s.agents|;
    hide Lookup, Run, LeadsTo, CanWakeNow, Finished;
    if s.agents[i].phase.stage.Looking? {
      ops := WakeIdling(s, i, c, id);
    } else {
      CompletingTargets(s, i, c, id);
      var t := FinishTurn(s, i, c, id);
      ops := RestOfTurn(i);
      LeadsWhere(s, ops, t, i, c, id);
      StillWakes(s, t, i, c, id);
      if !InUpdate(s.agents[i], c, id) {
        var rest := WakeIdling(t, i, c, id);
        WakesAfter(s, ops, t, rest, i, c, id);
        ops := ops + rest;
      }
    }
  }

  lemma CompletingTargets(s: Driver, i: nat, c: nat, id: nat)
    requires CanWakeNow(s, i, c, id)
    requires || s.agents[i].phase.Completing?
             || (s.agents[i].phase.Marking? && !s.agents[i].phase.stage.Looking?)
    ensures i < |s.agents| && Updating(s.agents[i]) && Lookup(s.contexts, c, id).Some?
  {
  }

  lemma LeadsWhere(s: Driver, ops: seq<Op>, t: Driver, i: nat, c: nat, id: nat)
    requires LeadsTo(s, ops, t, i, c, id)
    ensures t == Run(s, ops) && |t.agents| == |s.agents| && Lookup(s.contexts, c, id).Some?
            && Lookup(t.contexts, c, id).Some?
  {
  }

  lemma WakeQueued(s: Driver, i: nat, c: nat, id: nat) returns (ops: seq<Op>)
    requires CanWakeNow(s, i, c, id) && s.agents[i].phase.Queued?
    ensures Wakes(s, i, ops, c, id)
  {
    hide Lookup, Run;
    var t := DoDequeue(s, i);
    RunCons(s, Dequeue(i), []);
    RunNone(t);
    var rest := WakeCompleting(t, i, c, id);
    ops := [Dequeue(i)] + [] + rest;
    WakesAfter(s, [Dequeue(i)] + [], t, rest, i, c, id);
  }

  // From a look at the next handle on, marking.
  lemma WakeUnmarked(s: Driver, i: nat, c: nat, id: nat) returns (ops: seq<Op>)
    requires CanWakeNow(s, i, c, id) && s.agents[i].phase.Marking? && s.agents[i].phase.stage.Looking?
    ensures Wakes(s, i, ops, c, id)
  {
    hide Lookup, Run, UpdateMany, LeadsTo;
    var a := s.agents[i];
    var k := a.phase.done;
    var marks := Turns(i, |Marks(a.cmd)| - k);
    MarkedWell(s, i, c, id);
    var t := Run(s, marks);
    var u := DoPush(t, i);
    RunCons(t, Push(i), []);
    RunNone(u);
    PushLeads(t, i, c, id);
    var rest := WakeQueued(u, i, c, id);
    WakesAfter(t, [Push(i)] + [], u, rest, i, c, id);
    WakesAfter(s, marks, t, [Push(i)] + [] + rest, i, c, id);
    ops := marks + ([Push(i)] + [] + rest);
  }

  lemma PushLeads(t: Driver, i: nat, c: nat, id: nat)
    requires CanWakeNow(t, i, c, id) && t.agents[i].phase == Marking(|Marks(t.agents[i].cmd)|, Looking)
    requires Run(t, [Push(i)] + []) == DoPush(t, i)
    ensures LeadsTo(t, [Push(i)] + [], DoPush(t, i), i, c, id) && CanWakeNow(DoPush(t, i), i, c, id)
    ensures DoPush(t, i).agents[i].phase.Queued?
  {
    hide Lookup, Run;
  }

  lemma MarkedWell(s: Driver, i: nat, c: nat, id: nat)
    requires CanWakeNow(s, i, c, id) && s.agents[i].phase.Marking? && s.agents[i].phase.stage.Looking?
    ensures var a := s.agents[i];
            var marks := Turns(i, |Marks(a.cmd)| - a.phase.done);
            var t := Run(s, marks);
            && LeadsTo(s, marks, t, i, c, id) && CanWakeNow(t, i, c, id)
            && t.agents[i] == a.(phase := Marking(|Marks(a.cmd)|, Looking))
  {
    hide Lookup, Run, UpdateMany;
    var a := s.agents[i];
    var k := a.phase.done;
    TurnsAre(i, |Marks(a.cmd)| - k);
    LoopRun(s, i, k);
    LookupUpdateMany(s.contexts, c, Marks(a.cmd)[k..], Update(true, FenceOf(a.cmd)), c, id);
  }

  lemma WakeMarking(s: Driver, i: nat, c: nat, id: nat) returns (ops: seq<Op>)
    requires CanWakeNow(s, i, c, id) && s.agents[i].phase.Marking?
    ensures Wakes(s, i, ops, c, id)
  {
    assert i < |s.agents|;
    hide Lookup, Run, LeadsTo, CanWakeNow, Finished;
    if s.agents[i].phase.stage.Looking? {
      ops := WakeUnmarked(s, i, c, id);
    } else {
      CompletingTargets(s, i, c, id);
      var t := FinishTurn(s, i, c, id);
      LeadsWhere(s, RestOfTurn(i), t, i, c, id);
      StillWakes(s, t, i, c, id);
      var rest := WakeUnmarked(t, i, c, id);
      WakesAfter(s, RestOfTurn(i), t, rest, i, c, id);
      ops := RestOfTurn(i) + rest;
    }
  }
}
