// Precise quiescence: when every submit carries a fence, submits are not interleaved with each
// other and the device completes commands in the order in which they were pushed, a resource
// is idle if and only if no outstanding submit names it.
module Quiescence {
  import opened Wrappers
  import opened Paging
  import opened Arena
  import opened FenceRegister
  import opened DriverState
  import opened ResourceTable
  import opened BaseInvariant
  import opened Requests
  import opened AtomicSteps
  import Idr

  datatype Act =
    | Init(ctx: nat)
    | Destroy(ctx: nat)
    | Create(ctx: nat, size: nat)
    | Close(ctx: nat, res: nat)
    | MapUser(ctx: nat, res: nat)
    | MapUserOn(mapper: nat, outcome: MapOutcome)
    | SubmitFenced(ctx: nat, size: nat, handles: seq<nat>)
    | CompleteOldest

  ghost function Perform(s: Driver, act: Act): Driver {
    match act
    case Init(c) => Next(s, InitContext(c))
    case Destroy(c) => Next(s, DestroyContext(c))
    case Create(c, size) => Next(s, CreateResource(c, size))
    case Close(c, id) => Next(s, CloseResource(c, id))
    case MapUser(c, id) => Next(s, BeginMap(c, id))
    case MapUserOn(k, outcome) => Next(s, EndMap(k, outcome))
    case SubmitFenced(c, size, handles) => DoSubmit(s, c, size, true, handles, NoFault)
    case CompleteOldest => DoComplete(s, 0, 0)
  }

  // Clients name only handles that have been issued.
  ghost predicate IssuedHandles(s: Driver, act: Act) {
    act.SubmitFenced? ==> forall h :: h in act.handles ==> h < s.resourceIds.next
  }

  predicate Names(a: Agent, c: nat, id: nat) {
    a.cmd.Submit3D? && a.cmd.ctx == c && id in a.cmd.handles
  }

  ghost predicate Outstanding(s: Driver, c: nat, id: nat) {
    exists k :: 0 <= k < |s.agents| && Names(s.agents[k], c, id)
  }

  ghost predicate LastNaming(agents: seq<Agent>, k: nat, c: nat, id: nat) {
    k < |agents| && Names(agents[k], c, id) && forall l :: k < l < |agents| ==> !Names(agents[l], c, id)
  }

  // The register shows the youngest outstanding submit that names the resource.
  ghost predicate ShowsYoungest(s: Driver, c: nat, id: nat) {
    var r := Lookup(s.contexts, c, id);
    r.Some? ==>
      && r.value.state.fence < s.fenceIds.next
      && (!Outstanding(s, c, id) ==> r.value.state.idle)
      && forall k: nat :: LastNaming(s.agents, k, c, id) ==> r.value.state == Register(false, s.agents[k].cmd.fence)
  }

  ghost predicate RequestOk(s: Driver, a: Agent) {
    && a.phase.Queued? && !a.cmd.Transfer? && !a.cmd.MapBlob? && !a.cmd.GetCapset?
    && (a.cmd.Submit3D? ==> 1 <= a.cmd.fence < s.fenceIds.next && forall h :: h in a.cmd.handles ==> h < s.resourceIds.next)
  }

  ghost predicate FencesAscend(agents: seq<Agent>) {
    forall j, k :: 0 <= j < k < |agents| && agents[j].cmd.Submit3D? && agents[k].cmd.Submit3D? ==>
      agents[j].cmd.fence < agents[k].cmd.fence
  }

  ghost predicate Precise(s: Driver) {
    && (forall k :: 0 <= k < |s.agents| ==> RequestOk(s, s.agents[k]))
    && FencesAscend(s.agents)
    && forall c, id :: ShowsYoungest(s, c, id)
  }

  lemma LastExists(agents: seq<Agent>, c: nat, id: nat) returns (k: nat)
    requires exists l :: 0 <= l < |agents| && Names(agents[l], c, id)
    ensures LastNaming(agents, k, c, id)
  {
    k := |agents| - 1;
    while !Names(agents[k], c, id)
      invariant k < |agents| && forall l :: k < l < |agents| ==> !Names(agents[l], c, id)
      invariant exists l :: 0 <= l <= k && Names(agents[l], c, id)
      decreases k
    {
      k := k - 1;
    }
  }

  // The point of the invariant.
  lemma IdleIffNoneOutstanding(s: Driver, c: nat, id: nat)
    requires Precise(s) && Lookup(s.contexts, c, id).Some?
    ensures Lookup(s.contexts, c, id).value.state.idle <==> !Outstanding(s, c, id)
  {
    assert ShowsYoungest(s, c, id);
    if Outstanding(s, c, id) {
      var k := LastExists(s.agents, c, id);
    }
  }

  // Appending commands that name nothing, and keeping, removing or adding idle resources.
  lemma KeepsPrecise(s: Driver, s': Driver)
    requires Precise(s)
    requires s.resourceIds.next <= s'.resourceIds.next && s.fenceIds.next == s'.fenceIds.next
    requires |s'.agents| >= |s.agents| && s'.agents[..|s.agents|] == s.agents
    requires forall k :: |s.agents| <= k < |s'.agents| ==> RequestOk(s', s'.agents[k]) && !s'.agents[k].cmd.Submit3D?
    requires forall c: nat, id: nat :: Lookup(s'.contexts, c, id).Some? ==>
               var r := Lookup(s'.contexts, c, id).value;
               || (Lookup(s.contexts, c, id).Some? && Lookup(s.contexts, c, id).value.state == r.state)
               || (id >= s.resourceIds.next && r.state == Register(true, 0) && s.fenceIds.next >= 1)
    ensures Precise(s')
  {
    assert forall k :: 0 <= k < |s.agents| ==> s'.agents[k] == s'.agents[..|s.agents|][k] == s.agents[k];
    forall c: nat, id: nat
      ensures ShowsYoungest(s', c, id)
    {
      assert ShowsYoungest(s, c, id);
      if Outstanding(s, c, id) {
        var k :| 0 <= k < |s.agents| && Names(s.agents[k], c, id);
        assert Names(s'.agents[k], c, id);
        assert RequestOk(s, s.agents[k]);
      }
      forall k: nat | LastNaming(s'.agents, k, c, id)
        ensures LastNaming(s.agents, k, c, id)
      {
        assert forall l :: k < l < |s.agents| ==> s.agents[l] == s'.agents[l];
      }
    }
  }

  // The steps of handlers that submit and complete nothing.
  predicate Plain(op: Op) {
    op.InitContext? || op.DestroyContext? || op.CreateResource? || op.CloseResource? || op.BeginMap? || op.EndMap?
  }

  lemma PlainPrecise(s: Driver, op: Op)
    requires Precise(s) && Base(s) && Plain(op) && IdsFit(Next(s, op))
    ensures Precise(Next(s, op))
  {
    hide Next, Lookup, Precise;
    var s' := Next(s, op);
    CountersGrow(s, op);
    StepAppends(s, op);
    forall c: nat, id: nat | Lookup(s'.contexts, c, id).Some?
      ensures var r := Lookup(s'.contexts, c, id).value;
              || (Lookup(s.contexts, c, id).Some? && Lookup(s.contexts, c, id).value.state == r.state)
              || (id >= s.resourceIds.next && r.state == Register(true, 0))
    {
      ResourceStep(s, op, c, id);
    }
    KeepsPrecise(s, s');
  }

  lemma SubmitShape(s: Driver, c: nat, size: nat, handles: seq<nat>)
    requires Base(s) && IdsFit(DoSubmit(s, c, size, true, handles, NoFault))
    ensures var s' := DoSubmit(s, c, size, true, handles, NoFault);
            || s' == s
            || (var fence := s.fenceIds.next;
                && |s'.agents| == |s.agents| + 1 && s'.agents[..|s.agents|] == s.agents
                && s'.agents[|s.agents|].phase.Queued?
                && s'.agents[|s.agents|].cmd.Submit3D?
                && s'.agents[|s.agents|].cmd == Submit3D(c, handles, fence, s'.agents[|s.agents|].cmd.region, true)
                && s'.contexts == UpdateMany(s.contexts, c, handles, Update(true, fence))
                && s'.resourceIds == s.resourceIds && s'.fenceIds.next == fence + 1)
  {
    hide Allocate, RoundUp, UpdateMany, FindContext, Idr.LowBytes;
    var t := DoBeginSubmit(s, c, size, true, handles);
    if |t.agents| != |s.agents| {
      assert Idr.GetWithoutCache(s.fenceIds, 8).1 == s.fenceIds.next;
    }
  }

  // The new submit is the youngest and its fence exceeds every recorded one.
  lemma SubmitPrecise(s: Driver, c: nat, size: nat, handles: seq<nat>)
    requires Precise(s) && Base(s) && IdsFit(DoSubmit(s, c, size, true, handles, NoFault))
    requires forall h :: h in handles ==> h < s.resourceIds.next
    ensures Precise(DoSubmit(s, c, size, true, handles, NoFault))
  {
    SubmitShape(s, c, size, handles);
    var s' := DoSubmit(s, c, size, true, handles, NoFault);
    if s' != s {
      AppendedSubmitPrecise(s, s', s'.agents[|s.agents|]);
    }
  }

  lemma AppendedSubmitPrecise(s: Driver, s': Driver, a: Agent)
    requires Precise(s) && s.fenceIds.next >= 1
    requires s'.agents == s.agents + [a] && a.cmd.Submit3D? && a.phase.Queued?
    requires a.cmd.fence == s.fenceIds.next && s'.fenceIds.next == s.fenceIds.next + 1
    requires forall h :: h in a.cmd.handles ==> h < s.resourceIds.next
    requires s'.resourceIds == s.resourceIds
    requires s'.contexts == UpdateMany(s.contexts, a.cmd.ctx, a.cmd.handles, Update(true, a.cmd.fence))
    ensures Precise(s')
  {
    assert forall k :: 0 <= k < |s.agents| ==> s'.agents[k] == s.agents[k] && RequestOk(s, s.agents[k]);
    forall c: nat, id: nat
      ensures ShowsYoungest(s', c, id)
    {
      assert ShowsYoungest(s, c, id);
      LookupUpdateMany(s.contexts, a.cmd.ctx, a.cmd.handles, Update(true, a.cmd.fence), c, id);
      if Names(a, c, id) {
        assert Names(s'.agents[|s.agents|], c, id);
        assert Outstanding(s', c, id);
      } else {
        if Outstanding(s, c, id) {
          var k :| 0 <= k < |s.agents| && Names(s.agents[k], c, id);
          assert Names(s'.agents[k], c, id);
        }
        forall k: nat | LastNaming(s'.agents, k, c, id)
          ensures LastNaming(s.agents, k, c, id)
        {
          assert forall l :: k < l < |s.agents| ==> s.agents[l] == s'.agents[l];
        }
      }
    }
  }

  // The oldest request is the youngest one naming a resource only if it is the only one.
  lemma CompletePrecise(s: Driver)
    requires Precise(s)
    ensures Precise(DoComplete(s, 0, 0))
  {
    hide Free, Lookup, UpdateMany;
    var s' := DoComplete(s, 0, 0);
    if s.agents != [] {
      var a := s.agents[0];
      assert RequestOk(s, a);
      assert s'.agents == s.agents[1..];
      forall k | 0 <= k < |s'.agents|
        ensures RequestOk(s', s'.agents[k])
      {
        assert s'.agents[k] == s.agents[k + 1] && RequestOk(s, s.agents[k + 1]);
      }
      forall c: nat, id: nat
        ensures ShowsYoungest(s', c, id)
      {
        LookupUpdateMany(s.contexts, ContextOf(a.cmd), Marks(a.cmd), Update(false, FenceOf(a.cmd)), c, id);
        RemovedOldest(s, s', c, id);
      }
    }
  }

  lemma RemovedOldest(s: Driver, s': Driver, c: nat, id: nat)
    requires Precise(s) && s.agents != [] && s'.agents == s.agents[1..] && s'.fenceIds == s.fenceIds
    requires var a := s.agents[0];
             var r := Lookup(s.contexts, c, id);
             Lookup(s'.contexts, c, id)
             == if ContextOf(a.cmd) == c && id in Marks(a.cmd) && r.Some?
                then Some(Mark(r.value, Update(false, FenceOf(a.cmd)))) else r
    ensures ShowsYoungest(s', c, id)
  {
    var a := s.agents[0];
    assert RequestOk(s, a) && ShowsYoungest(s, c, id);
    assert Names(a, c, id) <==> ContextOf(a.cmd) == c && id in Marks(a.cmd);
    forall k | 0 <= k < |s'.agents|
      ensures Names(s'.agents[k], c, id) <==> Names(s.agents[k + 1], c, id)
    {
    }
    if Outstanding(s', c, id) {
      var k := LastExists(s'.agents, c, id);
      assert Names(s.agents[k + 1], c, id);
      forall l | k + 1 < l < |s.agents|
        ensures !Names(s.agents[l], c, id)
      {
        assert s'.agents[l - 1] == s.agents[l];
      }
      assert LastNaming(s.agents, k + 1, c, id);
      assert Names(a, c, id) ==> a.cmd.fence < s.agents[k + 1].cmd.fence;
      forall l: nat | LastNaming(s'.agents, l, c, id)
        ensures l == k
      {
        assert !(l < k) && !(k < l);
      }
    } else if Outstanding(s, c, id) {
      var k := LastExists(s.agents, c, id);
      assert forall l :: 1 <= l < |s.agents| ==> s.agents[l] == s'.agents[l - 1];
      assert k == 0;
    }
  }

  lemma PerformBase(s: Driver, act: Act)
    requires Base(s) && IdsFit(Perform(s, act))
    ensures Base(Perform(s, act))
  {
    match act
    case Init(c) => StepBase(s, InitContext(c));
    case Destroy(c) => StepBase(s, DestroyContext(c));
    case Create(c, size) => StepBase(s, CreateResource(c, size));
    case Close(c, id) => StepBase(s, CloseResource(c, id));
    case MapUser(c, id) => StepBase(s, BeginMap(c, id));
    case MapUserOn(k, outcome) => StepBase(s, EndMap(k, outcome));
    case SubmitFenced(c, size, handles) =>
      SubmitIsRun(s, c, size, true, handles, NoFault);
      RunBase(s, [BeginSubmit(c, size, true, handles)] + IssueOps(|s.agents|, |handles|, NoFault));
    case CompleteOldest =>
      CompleteIsRun(s, 0, 0);
      RunBase(s, CompleteOps(s.agents, 0, 0));
  }

  lemma PerformPrecise(s: Driver, act: Act)
    requires Precise(s) && Base(s) && IdsFit(Perform(s, act)) && IssuedHandles(s, act)
    ensures Precise(Perform(s, act))
  {
    hide Precise, Base, DoSubmit, DoComplete;
    match act
    case Init(c) => PlainPrecise(s, InitContext(c));
    case Destroy(c) => PlainPrecise(s, DestroyContext(c));
    case Create(c, size) => PlainPrecise(s, CreateResource(c, size));
    case Close(c, id) => PlainPrecise(s, CloseResource(c, id));
    case MapUser(c, id) => PlainPrecise(s, BeginMap(c, id));
    case MapUserOn(k, outcome) => PlainPrecise(s, EndMap(k, outcome));
    case SubmitFenced(c, size, handles) => SubmitPrecise(s, c, size, handles);
    case CompleteOldest => CompletePrecise(s);
  }

  // The states that a sequence of acts goes through. Clients name issued handles, and the ids
  // have not run out.
  ghost predicate Execution(states: seq<Driver>, acts: seq<Act>) {
    && |states| == |acts| + 1
    && forall k :: 0 <= k < |acts| ==> Performs(states[k], acts[k], states[k + 1])
  }

  ghost predicate Performs(s: Driver, act: Act, s': Driver) {
    s' == Perform(s, act) && IssuedHandles(s, act) && IdsFit(s')
  }

  lemma {:induction false} ExecutionPrecise(pages: nat, states: seq<Driver>, acts: seq<Act>, k: nat)
    requires Execution(states, acts) && states[0] == Initial(pages) && k < |states|
    ensures Precise(states[k]) && Base(states[k])
  {
    hide Perform;
    if k == 0 {
      InitialBase(pages);
      InitialPrecise(pages);
    } else {
      ExecutionPrecise(pages, states, acts, k - 1);
      assert Performs(states[k - 1], acts[k - 1], states[k]);
      PerformPrecise(states[k - 1], acts[k - 1]);
      PerformBase(states[k - 1], acts[k - 1]);
    }
  }

  lemma InitialPrecise(pages: nat)
    ensures Precise(Initial(pages))
  {
  }

  // In every state of every such execution, a resource is idle exactly when no outstanding
  // submit names it.
  lemma Quiescent(pages: nat, states: seq<Driver>, acts: seq<Act>, k: nat, c: nat, id: nat)
    requires Execution(states, acts) && states[0] == Initial(pages) && k < |states|
    requires Lookup(states[k].contexts, c, id).Some?
    ensures Lookup(states[k].contexts, c, id).value.state.idle <==> !Outstanding(states[k], c, id)
  {
    ExecutionPrecise(pages, states, acts, k);
    IdleIffNoneOutstanding(states[k], c, id);
  }

  // Outside such runs, whoever else is outstanding: one completion idles a busy resource if and
  // only if it is unfenced or its fence is not below the recorded one.
  lemma CompletionIdlesIff(s: Driver, i: nat, c: nat, id: nat)
    requires i < |s.agents| && s.agents[i].phase.Queued?
    requires ContextOf(s.agents[i].cmd) == c && id in Marks(s.agents[i].cmd)
    requires Lookup(s.contexts, c, id).Some? && !Lookup(s.contexts, c, id).value.state.idle
    ensures var s', fence := DoComplete(s, i, 0), FenceOf(s.agents[i].cmd);
            && Lookup(s'.contexts, c, id).Some?
            && (Lookup(s'.contexts, c, id).value.state.idle <==>
                  fence == 0 || fence >= Lookup(s.contexts, c, id).value.state.fence)
  {
    hide Free, UpdateMany, Lookup;
    LookupUpdateMany(s.contexts, c, Marks(s.agents[i].cmd), Update(false, FenceOf(s.agents[i].cmd)), c, id);
  }
}
