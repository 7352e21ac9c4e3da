// Runs in which the updates of a resource do not overlap, as they would not under a lock: the
// register behaves as if each update were made at once, and no wakeup is lost.
module SerialUpdates {
  import opened Wrappers
  import opened Arena
  import opened FenceRegister
  import opened DriverState
  import opened ResourceTable
  import opened BaseInvariant
  import opened Requests
  import opened RegisterHistory
  import opened Wakeup
  import opened Stuck

  // The next step of the request is a look at the resource.
  predicate LooksAt(a: Agent, c: nat, id: nat) {
    Updating(a) && a.phase.stage.Looking? && ContextOf(a.cmd) == c && Target(a) == id
  }

  ghost predicate NoneInUpdate(agents: seq<Agent>, c: nat, id: nat) {
    forall k :: 0 <= k < |agents| ==> !InUpdate(agents[k], c, id)
  }

  // No update of the resource begins while another one is in progress.
  ghost predicate Serial(s: Driver, ops: seq<Op>, c: nat, id: nat)
    decreases |ops|
  {
    ops != [] ==> Alone(s, ops[0], c, id) && Serial(Next(s, ops[0]), ops[1..], c, id)
  }

  ghost predicate Alone(s: Driver, op: Op, c: nat, id: nat) {
    op.Look? && op.agent < |s.agents| && LooksAt(s.agents[op.agent], c, id) ==> NoneInUpdate(s.agents, c, id)
  }

  // ----- the one update in progress -----

  // What the test of the fence has established still holds.
  predicate TestStands(a: Agent, r: Option<Resource>)
    requires Updating(a)
  {
    && (a.phase.stage.Storing? && !a.cmd.MapBlob? ==> FenceOf(a.cmd) != 0)
    && (r.Some? && FenceOf(a.cmd) != 0 ==>
          if a.phase.stage.Storing? then FenceOf(a.cmd) >= r.value.state.fence
          else FenceOf(a.cmd) == r.value.state.fence)
  }

  ghost predicate Exclusive(s: Driver, c: nat, id: nat) {
    && (forall j, k :: 0 <= j < k < |s.agents| ==> !(InUpdate(s.agents[j], c, id) && InUpdate(s.agents[k], c, id)))
    && forall k :: 0 <= k < |s.agents| && InUpdate(s.agents[k], c, id) ==>
         id < s.resourceIds.next && TestStands(s.agents[k], Lookup(s.contexts, c, id))
  }

  // A request that is in an update after a step was in it before, or the step has looked at the
  // resource and found it.
  lemma InUpdateBefore(s: Driver, op: Op, c: nat, id: nat, k: nat)
    requires k < |Next(s, op).agents| && InUpdate(Next(s, op).agents[k], c, id)
    ensures var l := Before(s, op, Next(s, op), k);
            && l < |s.agents|
            && (InUpdate(s.agents[l], c, id) || (op == Look(l) && LooksAt(s.agents[l], c, id)))
            && (Next(s, op).agents[k] == s.agents[l] || (Moves(op) && k == l == op.agent))
  {
    hide Next, Lookup, FindContext;
    var l := RequestOrigin(s, op, k);
    if l < |s.agents| {
      MovesAlone(s, op, k, l);
      SameRequest(s.agents[l], Next(s, op).agents[k]);
      if Next(s, op).agents[k] != s.agents[l] && !InUpdate(s.agents[l], c, id) {
        OnlyLooksEnter(s, op, c, id);
      }
    }
  }

  lemma OnlyLooksEnter(s: Driver, op: Op, c: nat, id: nat)
    requires Moves(op) && op.agent < |s.agents| && |Next(s, op).agents| > op.agent
    requires InUpdate(Next(s, op).agents[op.agent], c, id) && !InUpdate(s.agents[op.agent], c, id)
    ensures op.Look? && LooksAt(s.agents[op.agent], c, id)
  {
    hide Lookup, Store, WriteOne, FenceOf;
  }

  lemma StepExclusive(s: Driver, op: Op, c: nat, id: nat)
    requires Base(s) && IdsFit(Next(s, op)) && Exclusive(s, c, id) && Alone(s, op, c, id)
    ensures Exclusive(Next(s, op), c, id)
  {
    hide Next, Lookup, InUpdate, TestStands, LooksAt;
    var s' := Next(s, op);
    CountersGrow(s, op);
    forall k | 0 <= k < |s'.agents| && InUpdate(s'.agents[k], c, id)
      ensures var l := Before(s, op, s', k);
              l < |s.agents| && (InUpdate(s.agents[l], c, id) || (op == Look(l) && LooksAt(s.agents[l], c, id)))
      ensures id < s'.resourceIds.next && TestStandsIn(s', k, c, id)
    {
      InUpdateBefore(s, op, c, id, k);
      StepTestStands(s, op, c, id, k);
    }
    forall j, k | 0 <= j < k < |s'.agents|
      ensures !(InUpdate(s'.agents[j], c, id) && InUpdate(s'.agents[k], c, id))
    {
      assert Before(s, op, s', j) < Before(s, op, s', k);
    }
  }

  predicate TestStandsIn(s: Driver, k: nat, c: nat, id: nat) {
    k < |s.agents| && Updating(s.agents[k]) && TestStands(s.agents[k], Lookup(s.contexts, c, id))
  }

  lemma StepTestStands(s: Driver, op: Op, c: nat, id: nat, k: nat)
    requires Base(s) && IdsFit(Next(s, op)) && Exclusive(s, c, id) && Alone(s, op, c, id)
    requires k < |Next(s, op).agents| && InUpdate(Next(s, op).agents[k], c, id)
    ensures id < s.resourceIds.next && TestStandsIn(Next(s, op), k, c, id)
  {
    hide Next, Lookup, WriteBy, LooksAt;
    var s' := Next(s, op);
    InUpdateBefore(s, op, c, id, k);
    var l := Before(s, op, s', k);
    if Moves(op) {
      OthersStay(s, op, l);
    }
    if !InUpdate(s.agents[l], c, id) {
      EnteredOk(s, l, c, id);
    } else {
      if Lookup(s'.contexts, c, id).Some? {
        StepState(s, op, c, id);
      }
      if s'.agents[k] != s.agents[l] {
        MovedOk(s, op, c, id);
      } else if WriteBy(s, op, c, id).Some? {
        WriterMoves(s, op, c, id);
      }
    }
  }

  // A write is a step of the one request in the update.
  lemma WriterMoves(s: Driver, op: Op, c: nat, id: nat)
    requires WriteBy(s, op, c, id).Some?
    ensures Moves(op) && op.agent < |s.agents| && InUpdate(s.agents[op.agent], c, id)
    ensures |Next(s, op).agents| == |s.agents| && Next(s, op).agents[op.agent] != s.agents[op.agent]
  {
    hide Lookup, WriteOne;
  }

  lemma EnteredOk(s: Driver, l: nat, c: nat, id: nat)
    requires Base(s) && l < |s.agents| && LooksAt(s.agents[l], c, id)
    requires |Next(s, Look(l)).agents| == |s.agents| && InUpdate(Next(s, Look(l)).agents[l], c, id)
    ensures id < s.resourceIds.next && TestStandsIn(Next(s, Look(l)), l, c, id)
  {
    hide Lookup, Marks;
    LookupBelow(s.contexts, s.resourceIds.next, c, id);
  }

  lemma MovedOk(s: Driver, op: Op, c: nat, id: nat)
    requires Moves(op) && op.agent < |s.agents| && InUpdate(s.agents[op.agent], c, id)
    requires TestStands(s.agents[op.agent], Lookup(s.contexts, c, id))
    requires |Next(s, op).agents| == |s.agents| && InUpdate(Next(s, op).agents[op.agent], c, id)
    requires Next(s, op).agents[op.agent] != s.agents[op.agent]
    requires var r, r' := Lookup(s.contexts, c, id), Lookup(Next(s, op).contexts, c, id);
             r'.Some? ==> r.Some? && r'.value.state == AfterWrite(r.value.state, WriteBy(s, op, c, id))
    ensures TestStandsIn(Next(s, op), op.agent, c, id)
  {
    hide Lookup, Store, WriteOne, Marks;
  }

  // ----- no wakeup is lost -----

  lemma ExclusiveNotLate(s: Driver, op: Op, c: nat, id: nat)
    requires Exclusive(s, c, id)
    ensures !LateClear(s, op, c, id)
  {
    hide Lookup;
  }

  lemma {:induction false} SerialBacked(s: Driver, ops: seq<Op>, c: nat, id: nat)
    requires Base(s) && IdsFit(Run(s, ops)) && Exclusive(s, c, id) && Serial(s, ops, c, id)
    ensures ClearsBacked(s, ops, c, id)
    decreases |ops|
  {
    hide Next, Exclusive, LateClear, Alone;
    if ops != [] {
      RunCountersGrow(Next(s, ops[0]), ops[1..]);
      ExclusiveNotLate(s, ops[0], c, id);
      StepExclusive(s, ops[0], c, id);
      StepBase(s, ops[0]);
      SerialBacked(Next(s, ops[0]), ops[1..], c, id);
    }
  }

  // In every run in which the updates of the resource do not overlap: while it is busy it waits
  // for a live request that has marked it and will mark it idle, or for one that was given up
  // after marking it, or its mapping failed; and once it is stuck, it is for the last two reasons.
  lemma SerialNoWakeupIsLost(pages: nat, ops: seq<Op>, c: nat, id: nat)
    requires IdsFit(Run(Initial(pages), ops)) && Serial(Initial(pages), ops, c, id)
    requires var s := Run(Initial(pages), ops);
             Lookup(s.contexts, c, id).Some? && !Lookup(s.contexts, c, id).value.state.idle
    ensures var s := Run(Initial(pages), ops);
            var fence := Lookup(s.contexts, c, id).value.state.fence;
            && (HasWaker(s.agents, c, id, fence) || HeldByAbandoned(s.agents, c, id, fence) || (c, id) in s.failedMaps)
            && (Stuck.Stuck(s, c, id) ==> HeldByAbandoned(s.agents, c, id, fence) || (c, id) in s.failedMaps)
  {
    hide Lookup, Run, Stuck.Stuck, HasWaker, HeldByAbandoned, Serial;
    InitialBase(pages);
    SerialBacked(Initial(pages), ops, c, id);
    NoWakeupIsLost(pages, ops, c, id);
    if Stuck.Stuck(Run(Initial(pages), ops), c, id) {
      StuckOnlyByAbandoning(pages, ops, c, id);
    }
  }

  // ----- the register is the history of updates -----

  // A fenced update has stored its fence and not changed the event yet.
  predicate HasStored(a: Agent, c: nat, id: nat) {
    InUpdate(a, c, id) && a.phase.stage.Signalling? && FenceOf(a.cmd) != 0
  }

  ghost predicate NoneHasStored(agents: seq<Agent>, c: nat, id: nat) {
    forall k :: 0 <= k < |agents| ==> !HasStored(agents[k], c, id)
  }

  // The register is r, but for the fence that the update in progress has stored.
  ghost predicate Tracks(s: Driver, c: nat, id: nat, r: Register) {
    Lookup(s.contexts, c, id).Some? ==>
      var q := Lookup(s.contexts, c, id).value.state;
      q.idle == r.idle && r.fence <= q.fence && (NoneHasStored(s.agents, c, id) ==> q.fence == r.fence)
  }

  // What has stored its fence waits for its own change of the event.
  lemma StoredStays(s: Driver, op: Op, c: nat, id: nat, k: nat)
    requires k < |s.agents| && HasStored(s.agents[k], c, id) && WriteBy(s, op, c, id).None?
    ensures !NoneHasStored(Next(s, op).agents, c, id)
  {
    hide Next, Lookup, InUpdate, WriteBy;
    var s' := Next(s, op);
    if s' == s {
    } else if Appending(op) {
      StepAppends(s, op);
      assert s'.agents[..|s.agents|][k] == s'.agents[k];
    } else if op.Finish? || op.Collect? {
      LeaverOwesNothing(s, op);
      NoLeaver(s, op, c, id);
      assert s'.agents[if k < op.agent then k else k - 1] == s.agents[k];
    } else {
      OthersStay(s, op, k);
      if k == op.agent {
        StoredWaits(s, op, c, id);
      }
    }
  }

  lemma NoLeaver(s: Driver, op: Op, c: nat, id: nat)
    requires (op.Finish? || op.Collect?) && op.agent < |s.agents| && Next(s, op) != s
    ensures !InUpdate(s.agents[op.agent], c, id)
  {
    hide Free;
  }

  lemma StoredWaits(s: Driver, op: Op, c: nat, id: nat)
    requires Moves(op) && op.agent < |s.agents| && HasStored(s.agents[op.agent], c, id) && WriteBy(s, op, c, id).None?
    ensures Next(s, op) == s
  {
    hide Lookup, Store, WriteOne;
  }

  lemma StepTracks(s: Driver, op: Op, c: nat, id: nat, r: Register)
    requires Base(s) && IdsFit(Next(s, op)) && id < s.resourceIds.next
    requires Exclusive(s, c, id) && Tracks(s, c, id, r)
    requires Lookup(Next(s, op).contexts, c, id).Some?
    ensures Tracks(Next(s, op), c, id, After(r, SignalBy(s, op, c, id)))
  {
    hide Next, Lookup, HasStored, WriteBy;
    var s' := Next(s, op);
    StepState(s, op, c, id);
    SignalEffect(s, op, c, id);
    if WriteBy(s, op, c, id).None? {
      if !NoneHasStored(s.agents, c, id) {
        var k :| 0 <= k < |s.agents| && HasStored(s.agents[k], c, id);
        StoredStays(s, op, c, id, k);
      }
    } else {
      WriteTracks(s, op, c, id);
    }
  }

  // The write of the one update in progress.
  lemma WriteTracks(s: Driver, op: Op, c: nat, id: nat)
    requires Exclusive(s, c, id) && WriteBy(s, op, c, id).Some? && Lookup(s.contexts, c, id).Some?
    ensures op.agent < |s.agents|
    ensures var (a, q, w) := (s.agents[op.agent], Lookup(s.contexts, c, id).value.state, WriteBy(s, op, c, id).value);
            if w.Record? then
              w.fence == FenceOf(a.cmd) >= q.fence && !NoneHasStored(Next(s, op).agents, c, id)
                  && SignalBy(s, op, c, id).None?
            else
              && SignalBy(s, op, c, id) == Some(Update(w.busy, FenceOf(a.cmd)))
              && (FenceOf(a.cmd) == 0 ==> NoneHasStored(s.agents, c, id))
              && (FenceOf(a.cmd) != 0 ==> FenceOf(a.cmd) == q.fence)
  {
    hide Lookup, WriteOne;
    var a := s.agents[op.agent];
    assert InUpdate(a, c, id) && TestStands(a, Lookup(s.contexts, c, id));
    if WriteBy(s, op, c, id).value.Record? {
      assert HasStored(Next(s, op).agents[op.agent], c, id);
    } else if FenceOf(a.cmd) == 0 {
      forall k | 0 <= k < |s.agents|
        ensures !HasStored(s.agents[k], c, id)
      {
        assert k < op.agent || op.agent < k ==> !InUpdate(s.agents[k], c, id);
      }
    }
  }

  lemma {:induction false} SerialFrom(s: Driver, ops: seq<Op>, c: nat, id: nat, r: Register)
    requires Base(s) && IdsFit(Run(s, ops)) && id < s.resourceIds.next
    requires Exclusive(s, c, id) && Serial(s, ops, c, id) && Tracks(s, c, id, r)
    requires Lookup(Run(s, ops).contexts, c, id).Some?
    ensures InStep(s, ops, c, id, r) && Tracks(Run(s, ops), c, id, ApplyAll(r, History(s, ops, c, id)))
    decreases |ops|
  {
    hide Next, Exclusive, Lookup, NoneHasStored, Alone;
    if ops != [] {
      var t := Next(s, ops[0]);
      RunCountersGrow(t, ops[1..]);
      CountersGrow(s, ops[0]);
      StepBase(s, ops[0]);
      StepExclusive(s, ops[0], c, id);
      RegisterIsHistory(t, ops[1..], c, id);
      StepTracks(s, ops[0], c, id, r);
      var u, rest := SignalBy(s, ops[0], c, id), History(t, ops[1..], c, id);
      SerialFrom(t, ops[1..], c, id, After(r, u));
      if u.Some? {
        ApplyFirst(r, u.value, rest);
      } else {
        assert [] + rest == rest;
      }
    }
  }

  lemma QuietStart(s: Driver, c: nat, id: nat)
    requires NoneInUpdate(s.agents, c, id) && Lookup(s.contexts, c, id).Some?
    ensures Exclusive(s, c, id) && Tracks(s, c, id, Lookup(s.contexts, c, id).value.state)
  {
  }

  // For every stretch of a run in which the updates of a resource do not overlap, from a state
  // where none is in progress: no late update changes the event, and where none is in progress
  // at the end, the register is the history of the updates, each made at once.
  lemma SerialRegisterIsHistory(s: Driver, ops: seq<Op>, c: nat, id: nat)
    requires Reachable(s) && IdsFit(Run(s, ops)) && Serial(s, ops, c, id) && NoneInUpdate(s.agents, c, id)
    requires Lookup(s.contexts, c, id).Some? && Lookup(Run(s, ops).contexts, c, id).Some?
    ensures LateChangesNothing(s, ops, c, id, Lookup(s.contexts, c, id).value.state)
    ensures NoneInUpdate(Run(s, ops).agents, c, id) ==>
              Lookup(Run(s, ops).contexts, c, id).value.state
              == ApplyAll(Lookup(s.contexts, c, id).value.state, History(s, ops, c, id))
  {
    hide Run, Serial, Lookup, Exclusive, InUpdate;
    ReachedState(s);
    SomeIsIssued(s, c, id);
    var r := Lookup(s.contexts, c, id).value.state;
    QuietStart(s, c, id);
    SerialFrom(s, ops, c, id, r);
    InStepIff(s, ops, c, id);
  }

  lemma SomeIsIssued(s: Driver, c: nat, id: nat)
    requires Base(s) && Lookup(s.contexts, c, id).Some?
    ensures id < s.resourceIds.next
  {
    LookupBelow(s.contexts, s.resourceIds.next, c, id);
  }

  // So if only fenced requests reach the resource there, it ends up with the highest fence, and
  // idle if and only if the request with that fence has marked it idle, whatever the order.
  lemma SerialFencedOutcome(s: Driver, ops: seq<Op>, c: nat, id: nat, m: nat)
    requires Reachable(s) && IdsFit(Run(s, ops)) && Serial(s, ops, c, id)
    requires NoneInUpdate(s.agents, c, id) && NoneInUpdate(Run(s, ops).agents, c, id)
    requires Lookup(s.contexts, c, id).Some? && Lookup(Run(s, ops).contexts, c, id).Some?
    requires var (r, h) := (Lookup(s.contexts, c, id).value.state, History(s, ops, c, id));
             (forall u :: u in h ==> u.fence != 0) && Highest(r, h, m) && m > r.fence
    ensures var q := Lookup(Run(s, ops).contexts, c, id).value.state;
            q.fence == m && (q.idle <==> Update(false, m) in History(s, ops, c, id))
  {
    hide Run, Serial, Lookup;
    SerialRegisterIsHistory(s, ops, c, id);
    FencedMarksInOrder(s, ops, c, id);
    FencedOutcome(Lookup(s.contexts, c, id).value.state, History(s, ops, c, id), m);
  }
}
