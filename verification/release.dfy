// Every command buffer, handle copy and MDL is released exactly once and every out-fence is
// signalled exactly once, but for MDLs that a second call of CtlMap overwrites.
module Release {
  import opened Wrappers
  import opened Paging
  import opened Arena
  import opened FenceRegister
  import opened Sums
  import opened Weights
  import opened DriverState
  import opened ResourceTable
  import opened BaseInvariant
  import opened Requests
  import opened ReleaseBalance
  import Idr

  // In every run: no release of a request is performed twice, one that is outstanding has not
  // been performed, and one that has completed has performed exactly what it owed, also when
  // its context was gone by then.
  lemma ReleasedExactlyOnce(pages: nat, ops: seq<Op>, rel: LogEntry)
    requires IdsFit(Run(Initial(pages), ops))
    requires rel.FreeBuffer? || rel.FreeHandles? || rel.SignalFence?
    ensures var s := Run(Initial(pages), ops);
            && Done(s, rel) <= 1
            && (forall k :: 0 <= k < |s.agents| && s.agents[k].tag == rel.tag ==> Done(s, rel) == 0)
            && ((forall k :: 0 <= k < |s.agents| ==> s.agents[k].tag != rel.tag) ==>
                  (Done(s, rel) == 1 <==> rel.tag < |s.issued| && Owes(s.issued[rel.tag], rel.tag, rel)))
  {
    BalancedFromStart(pages, ops);
    var s := Run(Initial(pages), ops);
    assert Balance(s, rel);
    NoResourceDuty(s.contexts, rel);
    forall k | 0 <= k < |s.agents| && s.agents[k].tag == rel.tag
      ensures Done(s, rel) == 0
    {
      SumSplit(s.agents, k, RequestDuty(rel));
    }
    if forall k :: 0 <= k < |s.agents| ==> s.agents[k].tag != rel.tag {
      NoDuty(s.agents, rel);
    }
  }

  // ----- MDLs -----

  ghost predicate HeldByResource(s: Driver, m: nat) {
    exists i, j :: 0 <= i < |s.contexts| && 0 <= j < |s.contexts[i].resources|
                   && s.contexts[i].resources[j].mdl == Some(m)
  }

  // Every MDL is freed at most once, and is outstanding exactly as long as a live resource
  // holds it.
  ghost predicate MdlsBalanced(s: Driver) {
    forall m: nat :: m < s.nextMdl ==>
      Done(s, FreeMdl(m)) <= 1 && (Done(s, FreeMdl(m)) == 0 <==> HeldByResource(s, m))
  }

  lemma HeldMdl(s: Driver, m: nat)
    ensures HeldByResource(s, m) <==> Sum(s.contexts, ContextSum(ResourceDuty(FreeMdl(m)))) > 0
  {
    var f := ResourceDuty(FreeMdl(m));
    if Sum(s.contexts, ContextSum(f)) > 0 {
      var i := SumPositive(s.contexts, ContextSum(f));
      var j := SumPositive(s.contexts[i].resources, f);
      assert s.contexts[i].resources[j].mdl == Some(m);
    }
    forall i, j | 0 <= i < |s.contexts| && 0 <= j < |s.contexts[i].resources|
                  && s.contexts[i].resources[j].mdl == Some(m)
      ensures Sum(s.contexts, ContextSum(f)) > 0
    {
      SumSplit(s.contexts, i, ContextSum(f));
      SumSplit(s.contexts[i].resources, j, f);
    }
  }

  lemma BalancedIffNoneLost(s: Driver)
    requires Balanced(s)
    ensures MdlsBalanced(s) <==> s.lostMdls == {}
  {
    forall m: nat | m < s.nextMdl
      ensures Done(s, FreeMdl(m)) + Sum(s.contexts, ContextSum(ResourceDuty(FreeMdl(m)))) == if m in s.lostMdls then 0 else 1
      ensures HeldByResource(s, m) <==> Sum(s.contexts, ContextSum(ResourceDuty(FreeMdl(m)))) > 0
    {
      assert Balance(s, FreeMdl(m));
      NoDuty(s.agents, FreeMdl(m));
      HeldMdl(s, m);
    }
    if s.lostMdls != {} {
      var m :| m in s.lostMdls;
      assert m < s.nextMdl;
      assert Done(s, FreeMdl(m)) == 0 && !HeldByResource(s, m);
    }
  }

  // A call of CtlMap that goes on after its wait still finds pMdl null.
  predicate FindsUnmapped(s: Driver, op: Op) {
    op.EndMap? && op.mapper < |s.mappers| ==>
      var r := Lookup(s.contexts, s.mappers[op.mapper].ctx, s.mappers[op.mapper].res);
      r.Some? && r.value.state.idle ==> r.value.mdl.None?
  }

  ghost predicate MapsFindUnmapped(s: Driver, ops: seq<Op>)
    decreases |ops|
  {
    ops != [] ==> FindsUnmapped(s, ops[0]) && MapsFindUnmapped(Next(s, ops[0]), ops[1..])
  }

  lemma {:induction false} DrainLoses(s: Driver, c: nat, rs: seq<Resource>)
    ensures Drain(s, c, rs).lostMdls == s.lostMdls && Drain(s, c, rs).mappers == s.mappers
    decreases |rs|
  {
    hide Free;
    if rs != [] {
      DrainLoses(DeleteResource(s, c, rs[|rs| - 1]), c, rs[..|rs| - 1]);
    }
  }

  lemma StepLost(s: Driver, op: Op)
    ensures Next(s, op).lostMdls == {} <==> s.lostMdls == {} && FindsUnmapped(s, op)
  {
    hide Allocate, Free, Store, Insert, Remove, WriteOne;
    if op.DestroyContext? && FindContext(s.contexts, op.ctx).Some? {
      var i := FindContext(s.contexts, op.ctx).value;
      DrainLoses(s.(contexts := Without(s.contexts, i)), op.ctx, s.contexts[i].resources);
    }
  }

  lemma {:induction false} RunLost(s: Driver, ops: seq<Op>)
    ensures Run(s, ops).lostMdls == {} <==> s.lostMdls == {} && MapsFindUnmapped(s, ops)
    decreases |ops|
  {
    hide Next, FindsUnmapped;
    if ops != [] {
      StepLost(s, ops[0]);
      RunLost(Next(s, ops[0]), ops[1..]);
    }
  }

  // In every run, over every failure branch of CtlMap and every interleaving of its two halves:
  // the MDLs are balanced if and only if every call that goes on after its wait still finds the
  // resource without one.
  lemma MdlOutstandingIffHeld(pages: nat, ops: seq<Op>)
    requires IdsFit(Run(Initial(pages), ops))
    ensures MdlsBalanced(Run(Initial(pages), ops)) <==> MapsFindUnmapped(Initial(pages), ops)
  {
    BalancedFromStart(pages, ops);
    BalancedIffNoneLost(Run(Initial(pages), ops));
    RunLost(Initial(pages), ops);
  }

  // The client has no two calls of CtlMap on one handle in progress.
  ghost predicate OneMapAtATime(s: Driver, ops: seq<Op>)
    decreases |ops|
  {
    ops != [] ==>
      && (ops[0].BeginMap? ==> Mapper(ops[0].ctx, ops[0].res) !in s.mappers)
      && OneMapAtATime(Next(s, ops[0]), ops[1..])
  }

  // Calls in progress are about different resources, none of which is mapped.
  ghost predicate MappersAlone(s: Driver) {
    && (forall j, k :: 0 <= j < k < |s.mappers| ==> s.mappers[j] != s.mappers[k])
    && forall k :: 0 <= k < |s.mappers| ==> MapperAlone(s, s.mappers[k])
  }

  ghost predicate MapperAlone(s: Driver, m: Mapper) {
    m.res < s.resourceIds.next && (Lookup(s.contexts, m.ctx, m.res).Some? ==> Lookup(s.contexts, m.ctx, m.res).value.mdl.None?)
  }

  lemma StepMappersAlone(s: Driver, op: Op)
    requires MappersAlone(s) && Base(s) && IdsFit(Next(s, op))
    requires op.BeginMap? ==> Mapper(op.ctx, op.res) !in s.mappers
    ensures MappersAlone(Next(s, op)) && FindsUnmapped(s, op)
  {
    hide Next, Lookup;
    var s' := Next(s, op);
    CountersGrow(s, op);
    forall k | 0 <= k < |s'.mappers|
      ensures MapperAlone(s', s'.mappers[k])
    {
      MapperOrigin(s, op, k);
      if Lookup(s'.contexts, s'.mappers[k].ctx, s'.mappers[k].res).Some? {
        ResourceStep(s, op, s'.mappers[k].ctx, s'.mappers[k].res);
      }
    }
    forall j, k | 0 <= j < k < |s'.mappers|
      ensures s'.mappers[j] != s'.mappers[k]
    {
      MapperOrigin(s, op, j);
      MapperOrigin(s, op, k);
    }
    if op.EndMap? && op.mapper < |s.mappers| {
      assert MapperAlone(s, s.mappers[op.mapper]);
    }
  }

  lemma {:induction false} AloneFindsUnmapped(s: Driver, ops: seq<Op>)
    requires MappersAlone(s) && Base(s) && OneMapAtATime(s, ops) && IdsFit(Run(s, ops))
    ensures MapsFindUnmapped(s, ops)
    decreases |ops|
  {
    if ops != [] {
      RunCountersGrow(Next(s, ops[0]), ops[1..]);
      StepMappersAlone(s, ops[0]);
      StepBase(s, ops[0]);
      AloneFindsUnmapped(Next(s, ops[0]), ops[1..]);
    }
  }

  // So the MDLs are balanced in every run of clients that wait for one call of CtlMap on a
  // handle before they make the next.
  lemma OneMapAtATimeBalanced(pages: nat, ops: seq<Op>)
    requires IdsFit(Run(Initial(pages), ops)) && OneMapAtATime(Initial(pages), ops)
    ensures MdlsBalanced(Run(Initial(pages), ops))
  {
    InitialBase(pages);
    AloneFindsUnmapped(Initial(pages), ops);
    MdlOutstandingIffHeld(pages, ops);
  }
}
