// What one step of the machine can do, said once for all steps. Every request of the next state
// was there before, in the same phase and stage or the one before, or the step has issued it. Every
// resource was there before and has changed only as the step allows, or the step has created
// it; and only closing a resource and destroying its context remove it. The same for the calls
// of CtlMap that wait and for the list of contexts. The invariants of the other modules are
// proved from these facts wherever they do not depend on how a step does its work.
module Requests {
  import opened Wrappers
  import opened Paging
  import opened Arena
  import opened FenceRegister
  import opened DriverState
  import opened ResourceTable
  import opened BaseInvariant
  import Idr

  // The update of one resource goes on, or ends.
  predicate Advances(p: Phase, q: Phase)
    requires (p.Marking? && q.Marking?) || (p.Completing? && q.Completing?)
  {
    || (q.done == p.done && p.stage.Looking? && !q.stage.Looking?)
    || (q.done == p.done && p.stage.Storing? && q.stage.Signalling?)
    || q == Onward(p)
  }

  // One step of a request through its phases, or none.
  predicate PhaseSteps(cmd: Command, p: Phase, q: Phase) {
    || q == p
    || (p.Marking? && p.done < |Marks(cmd)| && q.Marking? && Advances(p, q))
    || (p == Marking(|Marks(cmd)|, Looking) && q.Queued?)
    || (p.Marking? && p.stage.Looking? && q == Abandoned(p.done))
    || (p.Queued? && q == if cmd.GetCapset? then Awaited else Completing(0, Looking))
    || (p.Completing? && p.done < |IdleMarks(cmd)| && q.Completing? && Advances(p, q))
  }

  // What a handler pushes at once.
  predicate Pushed(s: Driver, op: Op, a: Agent) {
    && a.phase.Queued? && Marks(a.cmd) == [] && !a.cmd.Transfer? && !a.cmd.Submit3D?
    && (a.cmd.GetCapset? ==> op.QueryCapset?)
    && (a.cmd.MapBlob? ==> op.CreateBlobResource? && a.cmd.res == Idr.GetWithoutCache(s.resourceIds, 4).1)
  }

  // What a submit or a transfer begins with: what it names has been looked up.
  predicate Begun(s: Driver, op: Op, a: Agent) {
    && a.phase == Marking(0, Looking)
    && match op
       case BeginTransfer(c, id, toHost) =>
         a.cmd == Transfer(c, id, toHost) && Lookup(s.contexts, c, id).Some?
       case BeginSubmit(c, _, outFence, handles) =>
         && a.cmd.Submit3D? && a.cmd.ctx == c && a.cmd.handles == handles && a.cmd.outFence == outFence
         && FindContext(s.contexts, c).Some?
       case _ => false
  }

  // Where request k was before the step.
  function Before(s: Driver, op: Op, s': Driver, k: nat): nat {
    if (op.Finish? || op.Collect?) && |s'.agents| < |s.agents| && k >= op.agent then k + 1 else k
  }

  // Request k of s' is request l of s, or new.
  predicate ComesFrom(s: Driver, op: Op, s': Driver, k: nat, l: nat)
    requires k < |s'.agents|
  {
    var a := s'.agents[k];
    && l == Before(s, op, s', k)
    && if l < |s.agents| then
         a.cmd == s.agents[l].cmd && a.tag == s.agents[l].tag && PhaseSteps(a.cmd, s.agents[l].phase, a.phase)
       else l == k && (Pushed(s, op, a) || Begun(s, op, a))
  }

  ghost predicate Appends(s: Driver, op: Op, s': Driver) {
    && |s'.agents| >= |s.agents| && s'.agents[..|s.agents|] == s.agents
    && forall k :: |s.agents| <= k < |s'.agents| ==> Pushed(s, op, s'.agents[k]) || Begun(s, op, s'.agents[k])
  }

  lemma DeleteAppends(s: Driver, op: Op, c: nat, r: Resource)
    ensures Appends(s, op, DeleteResource(s, c, r))
  {
    hide Free;
  }

  lemma {:induction false} DrainAppends(s: Driver, t: Driver, op: Op, c: nat, rs: seq<Resource>)
    requires Appends(s, op, t)
    ensures Appends(s, op, Drain(t, c, rs))
    decreases |rs|
  {
    if rs != [] {
      var u := DeleteResource(t, c, rs[|rs| - 1]);
      DeleteAppends(t, op, c, rs[|rs| - 1]);
      assert u.agents[..|s.agents|] == u.agents[..|t.agents|][..|s.agents|];
      forall k | |s.agents| <= k < |u.agents|
        ensures Pushed(s, op, u.agents[k]) || Begun(s, op, u.agents[k])
      {
        if k < |t.agents| {
          assert u.agents[..|t.agents|][k] == t.agents[k];
        } else {
          DeletedOnly(t, c, rs[|rs| - 1], k);
        }
      }
      DrainAppends(s, u, op, c, rs[..|rs| - 1]);
    }
  }

  lemma DeletedOnly(s: Driver, c: nat, r: Resource, k: nat)
    requires |s.agents| <= k < |DeleteResource(s, c, r).agents|
    ensures var a := DeleteResource(s, c, r).agents[k];
            a.phase.Queued? && (a.cmd.DetachBacking? || a.cmd.UnmapBlob? || a.cmd.Unref?)
  {
    hide Free;
  }

  lemma AppendsAt(s: Driver, op: Op, s': Driver, k: nat)
    requires Appends(s, op, s') && Appending(op) && k < |s'.agents|
    ensures ComesFrom(s, op, s', k, k)
  {
    if k < |s.agents| {
      assert s'.agents[..|s.agents|][k] == s'.agents[k] == s.agents[k];
    }
  }

  predicate Appending(op: Op) {
    op.InitContext? || op.DestroyContext? || op.QueryCapset? || op.CreateResource? || op.CreateBlobResource?
    || op.CloseResource? || op.BeginMap? || op.EndMap? || op.BeginTransfer? || op.BeginSubmit?
  }

  // The steps that move one request on.
  predicate Moves(op: Op) {
    !Appending(op) && !op.Finish? && !op.Collect?
  }

  lemma StepAppends(s: Driver, op: Op)
    requires Appending(op)
    ensures Appends(s, op, Next(s, op))
  {
    if op.DestroyContext? {
      DestroyAppends(s, op);
    } else if op.CloseResource? {
      CloseAppends(s, op);
    } else if op.CreateResource? || op.CreateBlobResource? {
      CreateAppends(s, op);
    } else if op.BeginTransfer? || op.BeginSubmit? {
      BeginAppends(s, op);
    } else {
      hide Lookup, Store, CountMdls, Shared, FindContext;
    }
  }

  lemma CreateAppends(s: Driver, op: Op)
    requires op.CreateResource? || op.CreateBlobResource?
    ensures Appends(s, op, Next(s, op))
  {
    hide Allocate, Insert, FindContext, BufferBytes;
  }

  lemma BeginAppends(s: Driver, op: Op)
    requires op.BeginTransfer? || op.BeginSubmit?
    ensures Appends(s, op, Next(s, op))
  {
    hide Allocate, FindContext, Lookup, RoundUp;
  }

  lemma DestroyAppends(s: Driver, op: Op)
    requires op.DestroyContext?
    ensures Appends(s, op, Next(s, op))
  {
    hide Free, Drain, FindContext;
    if FindContext(s.contexts, op.ctx).Some? {
      var i := FindContext(s.contexts, op.ctx).value;
      var t := s.(contexts := Without(s.contexts, i));
      DrainAppends(s, t, op, op.ctx, s.contexts[i].resources);
      var u := Drain(t, op.ctx, s.contexts[i].resources);
      assert Emit(u, CtxDestroy(op.ctx)).agents[..|s.agents|] == u.agents[..|s.agents|];
    }
  }

  lemma CloseAppends(s: Driver, op: Op)
    requires op.CloseResource?
    ensures Appends(s, op, Next(s, op))
  {
    hide DeleteResource, Remove, Lookup;
    if Lookup(s.contexts, op.ctx, op.res).Some? {
      var t := s.(contexts := Remove(s.contexts, op.ctx, op.res));
      DrainlessAppends(s, t, op, Lookup(s.contexts, op.ctx, op.res).value);
    }
  }

  lemma DrainlessAppends(s: Driver, t: Driver, op: Op, r: Resource)
    requires op.CloseResource? && t.agents == s.agents
    ensures Appends(s, op, DeleteResource(t, op.ctx, r))
  {
    hide Free;
  }

  lemma RequestOrigin(s: Driver, op: Op, k: nat) returns (l: nat)
    requires k < |Next(s, op).agents|
    ensures ComesFrom(s, op, Next(s, op), k, l)
  {
    hide Next;
    if Appending(op) {
      l := k;
      StepAppends(s, op);
      AppendsAt(s, op, Next(s, op), k);
    } else if op.Finish? || op.Collect? {
      l := RemovalOrigin(s, op, k);
    } else {
      l := k;
      PhaseOrigin(s, op, k);
    }
  }

  lemma RemovalOrigin(s: Driver, op: Op, k: nat) returns (l: nat)
    requires k < |Next(s, op).agents| && (op.Finish? || op.Collect?)
    ensures ComesFrom(s, op, Next(s, op), k, l)
  {
    hide Next, Pushed, Begun;
    l := if Next(s, op) != s && k >= op.agent then k + 1 else k;
    if Next(s, op) != s {
      LeaverLeaves(s, op);
    }
  }

  lemma PhaseOrigin(s: Driver, op: Op, k: nat)
    requires k < |Next(s, op).agents|
    requires Moves(op)
    ensures ComesFrom(s, op, Next(s, op), k, k)
  {
    hide WriteOne, Lookup, Store;
  }

  lemma LeaverLeaves(s: Driver, op: Op)
    requires (op.Finish? || op.Collect?) && Next(s, op) != s
    ensures op.agent < |s.agents| && Next(s, op).agents == Without(s.agents, op.agent)
  {
    hide Free;
  }

  lemma OthersStay(s: Driver, op: Op, k: nat)
    requires k < |s.agents| && Moves(op)
    ensures |Next(s, op).agents| == |s.agents| && (k != op.agent ==> Next(s, op).agents[k] == s.agents[k])
    ensures s.failedMaps <= Next(s, op).failedMaps
  {
    hide WriteOne, Lookup, Store;
  }

  // A step moves at most its own request.
  lemma MovesAlone(s: Driver, op: Op, k: nat, l: nat)
    requires k < |Next(s, op).agents| && l < |s.agents| && ComesFrom(s, op, Next(s, op), k, l)
    ensures || Next(s, op).agents[k] == s.agents[l]
            || (Moves(op) && k == l == op.agent)
  {
    hide Next;
    if Appending(op) {
      StepAppends(s, op);
      assert Next(s, op).agents[..|s.agents|][l] == s.agents[l];
    } else if op.Finish? || op.Collect? {
      if Next(s, op) != s {
        LeaverLeaves(s, op);
      }
    } else {
      OthersStay(s, op, l);
    }
  }

  // ----- where resources and waiting calls of CtlMap come from -----

  // A resource as the handlers create it.
  predicate Created(op: Op, r: Resource) {
    && r.mdl.None?
    && if op.CreateBlobResource? then r.backing == Blob(None) && r.state == Register(false, 0)
       else op.CreateResource? && !r.backing.Blob? && r.state == Register(true, 0)
  }

  // What a step may change in a resource.
  predicate Changed(s: Driver, op: Op, c: nat, id: nat, r: Resource, r': Resource) {
    && r'.id == r.id
    && (r'.mdl != r.mdl ==> op.EndMap? && op.mapper < |s.mappers| && s.mappers[op.mapper] == Mapper(c, id))
    && (r'.backing != r.backing ==>
          && op.MapIoSpace? && op.agent < |s.agents|
          && s.agents[op.agent].cmd == MapBlob(c, id) && s.agents[op.agent].phase == Completing(0, Storing)
          && r.backing == Blob(None) && r'.backing == Blob(Some(op.address)) && op.address != 0)
    && (r'.state != r.state ==>
          && (op.StoreFence? || op.SignalEvent?) && op.agent < |s.agents| && InUpdate(s.agents[op.agent], c, id))
  }

  // What a step can do to the resource that a lookup finds.
  predicate Evolves(s: Driver, op: Op, c: nat, id: nat, r: Option<Resource>, r': Option<Resource>) {
    if r.None? then r'.Some? ==> id == s.resourceIds.next && Created(op, r'.value) && op.ctx == c
    else if r'.None? then op == CloseResource(c, id) || op == DestroyContext(c)
    else Changed(s, op, c, id, r.value, r'.value)
  }

  lemma ResourceStep(s: Driver, op: Op, c: nat, id: nat)
    requires Base(s) && IdsFit(Next(s, op))
    ensures Evolves(s, op, c, id, Lookup(s.contexts, c, id), Lookup(Next(s, op).contexts, c, id))
  {
    hide Next, Lookup;
    if op.CreateResource? || op.CreateBlobResource? {
      CreateStep(s, op, c, id);
    } else if op.InitContext? || op.DestroyContext? || op.CloseResource? {
      ListStep(s, op, c, id);
    } else if Quiet(op) {
      QuietStep(s, op);
    } else {
      FieldStep(s, op, c, id);
    }
  }

  // The lists of contexts and resources get shorter or longer, what stays is as it was.
  lemma ListStep(s: Driver, op: Op, c: nat, id: nat)
    requires Base(s) && (op.InitContext? || op.DestroyContext? || op.CloseResource?)
    ensures Lookup(Next(s, op).contexts, c, id)
            == if op == CloseResource(c, id) || op == DestroyContext(c) then None else Lookup(s.contexts, c, id)
  {
    hide Free, DeleteResource, Drain, Lookup, Remove;
    if op.CloseResource? {
      CloseShape(s, op.ctx, op.res);
      if Lookup(s.contexts, op.ctx, op.res).Some? {
        LookupRemove(s.contexts, s.resourceIds.next, op.ctx, op.res, c, id);
      }
    } else {
      SameContextIds(s, op);
      if op.InitContext? {
        if FindContext(s.contexts, op.ctx).None? {
          LookupNewContext(s.contexts, op.ctx, c, id);
        }
      } else if FindContext(s.contexts, op.ctx).Some? {
        LookupDropContext(s.contexts, FindContext(s.contexts, op.ctx).value, c, id);
      } else {
        NoContext(s.contexts, op.ctx, id);
      }
    }
  }

  lemma NoContext(cs: seq<Context>, c: nat, id: nat)
    requires FindContext(cs, c).None?
    ensures Lookup(cs, c, id).None?
  {
  }

  lemma CreateInserts(s: Driver, op: Op) returns (r: Resource)
    requires Base(s) && IdsFit(Next(s, op)) && (op.CreateResource? || op.CreateBlobResource?)
    ensures var ds := Next(s, op).contexts;
            || ds == s.contexts
            || (FindContext(s.contexts, op.ctx).Some? && ds == Insert(s.contexts, op.ctx, r)
                && r.id == s.resourceIds.next && Created(op, r))
  {
    hide Allocate, Insert, FindResource, WellFormed;
    if op.CreateBlobResource? {
      r := Resource(s.resourceIds.next, Register(false, 0), Blob(None), None, 0);
    } else {
      var plain := Resource(s.resourceIds.next, Register(true, 0), NoBuffer, None, 0);
      if op.size == 1 || op.size >= WORD {
        r := plain;
      } else {
        var g := Allocate(s.arena, BufferBytes(op.size)).1;
        r := if g.Some? then plain.(backing := Dma(g.value)) else plain;
      }
    }
  }

  lemma CreateStep(s: Driver, op: Op, c: nat, id: nat)
    requires Base(s) && IdsFit(Next(s, op)) && (op.CreateResource? || op.CreateBlobResource?)
    ensures Evolves(s, op, c, id, Lookup(s.contexts, c, id), Lookup(Next(s, op).contexts, c, id))
  {
    hide Next, Insert, Lookup;
    var r := CreateInserts(s, op);
    LookupBelow(s.contexts, s.resourceIds.next, c, id);
    if Next(s, op).contexts != s.contexts {
      LookupInsert(s.contexts, op.ctx, r, c, id);
    }
  }

  // The steps that change fields of one resource.
  lemma FieldStep(s: Driver, op: Op, c: nat, id: nat)
    requires Base(s) && (op.StoreFence? || op.SignalEvent? || op.EndMap? || op.MapIoSpace?)
    ensures Evolves(s, op, c, id, Lookup(s.contexts, c, id), Lookup(Next(s, op).contexts, c, id))
  {
    hide Lookup, Store, WriteOne, WellFormed;
    if op.EndMap? {
      EndMapStep(s, op.mapper, op.outcome, c, id);
    } else if Next(s, op) != s {
      var a := s.agents[op.agent];
      if op.MapIoSpace? {
        assert MapTargetOk(s, a);
        LookupMapIoSpace(s, op.agent, op.address, c, id);
      } else {
        LookupWriteOne(s.contexts, ContextOf(a.cmd), Target(a),
                       if op.StoreFence? then Record(FenceOf(a.cmd)) else Signal(a.phase.Marking?), c, id);
      }
    }
  }

  lemma EndMapStep(s: Driver, k: nat, outcome: MapOutcome, c: nat, id: nat)
    ensures Evolves(s, EndMap(k, outcome), c, id, Lookup(s.contexts, c, id), Lookup(DoEndMap(s, k, outcome).contexts, c, id))
  {
    hide Store, Lookup;
    LookupEndMap(s, k, outcome, c, id);
    if DoEndMap(s, k, outcome).contexts != s.contexts {
      var (c', id') := (s.mappers[k].ctx, s.mappers[k].res);
      LookupFinds(s.contexts, c', id');
      LookupStore(s.contexts, c', id', Shared(Lookup(s.contexts, c', id').value, outcome, s.nextMdl), c, id);
    }
  }

  // A waiting call was waiting before, unless the step is its first half; and the call that the
  // step completes does not wait any more.
  lemma MapperOrigin(s: Driver, op: Op, k: nat)
    requires Base(s) && k < |Next(s, op).mappers|
    ensures var m := Next(s, op).mappers[k];
            if k == |s.mappers| then
              && op == BeginMap(m.ctx, m.res) && m.res < s.resourceIds.next
              && var r := Lookup(s.contexts, m.ctx, m.res);
                 r.Some? && r.value.mdl.None? && !r.value.backing.NoBuffer?
            else
              var l := if op.EndMap? && |Next(s, op).mappers| < |s.mappers| && k >= op.mapper then k + 1 else k;
              l < |s.mappers| && m == s.mappers[l]
    ensures op.EndMap? ==>
              || Next(s, op) == s
              || (op.mapper < |s.mappers| && Next(s, op).mappers == Without(s.mappers, op.mapper))
  {
    if op.DestroyContext? {
      hide Drain, FindContext;
      if FindContext(s.contexts, op.ctx).Some? {
        var i := FindContext(s.contexts, op.ctx).value;
        DrainMappers(s.(contexts := Without(s.contexts, i)), op.ctx, s.contexts[i].resources);
      }
    } else if op.BeginMap? {
      hide Lookup;
      LookupBelow(s.contexts, s.resourceIds.next, op.ctx, op.res);
    } else {
      OtherMappers(s, op);
    }
  }

  lemma OtherMappers(s: Driver, op: Op)
    requires !op.DestroyContext? && !op.BeginMap?
    ensures var s' := Next(s, op);
            if op.EndMap? then s' == s || (op.mapper < |s.mappers| && s'.mappers == Without(s.mappers, op.mapper))
            else s'.mappers == s.mappers
  {
    hide Allocate, Free, Store, Insert, Remove, WriteOne, Lookup, FindContext, BufferBytes;
  }

  lemma {:induction false} DrainMappers(s: Driver, c: nat, rs: seq<Resource>)
    ensures Drain(s, c, rs).mappers == s.mappers
    decreases |rs|
  {
    hide Free;
    if rs != [] {
      DrainMappers(DeleteResource(s, c, rs[|rs| - 1]), c, rs[..|rs| - 1]);
    }
  }

  // ----- contexts -----

  lemma FindContextSurvives(s: Driver, op: Op, c: nat)
    requires Base(s) && FindContext(s.contexts, c).Some? && op != DestroyContext(c)
    ensures FindContext(Next(s, op).contexts, c).Some?
  {
    hide Next, Base;
    SameContextIds(s, op);
    IdSurvives(s.contexts, Next(s, op).contexts, op, c);
  }

  // The id is still in the list, where the list has changed around it.
  lemma IdSurvives(cs: seq<Context>, ds: seq<Context>, op: Op, c: nat)
    requires FindContext(cs, c).Some? && op != DestroyContext(c)
    requires if op.DestroyContext? && FindContext(cs, op.ctx).Some? then ds == Without(cs, FindContext(cs, op.ctx).value)
             else if op.InitContext? && FindContext(cs, op.ctx).None? then ds == [Context(op.ctx, [])] + cs
             else SameIds(cs, ds)
    ensures FindContext(ds, c).Some?
  {
    var i := FindContext(cs, c).value;
    if op.DestroyContext? && FindContext(cs, op.ctx).Some? {
      var j := FindContext(cs, op.ctx).value;
      assert ds[if i < j then i else i - 1].id == c;
    } else if op.InitContext? && FindContext(cs, op.ctx).None? {
      assert ds[i + 1].id == c;
    } else {
      assert ds[i].id == c;
    }
  }

  ghost predicate SameIds(cs: seq<Context>, ds: seq<Context>) {
    |ds| == |cs| && forall k :: 0 <= k < |cs| ==> ds[k].id == cs[k].id
  }

  // The context list, by ids.
  lemma SameContextIds(s: Driver, op: Op)
    requires Base(s)
    ensures var cs, ds := s.contexts, Next(s, op).contexts;
            if op.DestroyContext? && FindContext(cs, op.ctx).Some? then ds == Without(cs, FindContext(cs, op.ctx).value)
            else if op.InitContext? && FindContext(cs, op.ctx).None? then ds == [Context(op.ctx, [])] + cs
            else SameIds(cs, ds)
  {
    hide Allocate, Free;
    if op.DestroyContext? {
      if FindContext(s.contexts, op.ctx).Some? {
        var i := FindContext(s.contexts, op.ctx).value;
        DestroyIsCloses(s, s.resourceIds.next, op.ctx);
        assert Without(s.contexts[i := Context(op.ctx, [])], i) == Without(s.contexts, i);
      }
    } else if Quiet(op) {
      QuietStep(s, op);
    } else if !op.InitContext? {
      ListsKeepIds(s, op);
    }
  }

  lemma ListsKeepIds(s: Driver, op: Op)
    requires !Quiet(op) && !op.DestroyContext? && !op.InitContext?
    ensures SameIds(s.contexts, Next(s, op).contexts)
  {
    if op.CloseResource? {
      CloseKeepsIds(s, op.ctx, op.res);
    } else if op.CreateResource? || op.CreateBlobResource? {
      hide Allocate, FindContext, BufferBytes;
    } else {
      FieldsKeepIds(s, op);
    }
  }

  lemma FieldsKeepIds(s: Driver, op: Op)
    requires op.StoreFence? || op.SignalEvent? || op.EndMap? || op.MapIoSpace?
    ensures SameIds(s.contexts, Next(s, op).contexts)
  {
    if op.EndMap? {
      hide FindContext, FindResource, Shared, CountMdls;
    } else if op.MapIoSpace? {
      hide FindContext, FindResource;
    } else {
      hide FindContext, FindResource, Marks;
    }
  }

  lemma CloseKeepsIds(s: Driver, c: nat, id: nat)
    ensures SameIds(s.contexts, DoClose(s, c, id).contexts)
  {
    hide FindContext, FindResource, DeleteResource, DoClose;
    CloseShape(s, c, id);
  }
}
