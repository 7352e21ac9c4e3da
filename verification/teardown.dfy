// Destroying a context: what the host is told and in which order, what happens to the memory,
// and that requests in flight keep theirs.
module Teardown {
  import opened Wrappers
  import opened Paging
  import opened Arena
  import opened Sums
  import opened Weights
  import opened DriverState
  import opened ResourceTable
  import opened BaseInvariant
  import opened MemoryOwnership

  function DeleteTrace(c: nat, r: Resource): seq<Command> {
    (match r.backing
     case NoBuffer => []
     case Dma(_) => [DetachBacking(r.id)]
     case Blob(_) => [UnmapBlob(c, r.id)]) + [Unref(c, r.id)]
  }

  // The list is drained from its tail, so the oldest resource comes first.
  function DrainTrace(c: nat, rs: seq<Resource>): seq<Command> {
    if rs == [] then [] else DeleteTrace(c, rs[|rs| - 1]) + DrainTrace(c, rs[..|rs| - 1])
  }

  // The resource ids of the UNREF commands, in order.
  function Unrefs(trace: seq<Command>): seq<nat> {
    if trace == [] then []
    else (if trace[0].Unref? then [trace[0].res] else []) + Unrefs(trace[1..])
  }

  lemma {:induction false} UnrefsAppend(a: seq<Command>, b: seq<Command>)
    ensures Unrefs(a + b) == Unrefs(a) + Unrefs(b)
  {
    if a == [] {
      assert a + b == b;
    } else {
      assert (a + b)[0] == a[0] && (a + b)[1..] == a[1..] + b;
      UnrefsAppend(a[1..], b);
      var first := if a[0].Unref? then [a[0].res] else [];
      assert first + (Unrefs(a[1..]) + Unrefs(b)) == (first + Unrefs(a[1..])) + Unrefs(b);
    }
  }

  lemma DeleteUnrefs(c: nat, r: Resource)
    ensures Unrefs(DeleteTrace(c, r)) == [r.id]
  {
    var first := DeleteTrace(c, r)[..|DeleteTrace(c, r)| - 1];
    assert DeleteTrace(c, r) == first + [Unref(c, r.id)];
    UnrefsAppend(first, [Unref(c, r.id)]);
    assert Unrefs([Unref(c, r.id)]) == [r.id] + Unrefs([]);
    assert first != [] ==> first[1..] == [];
  }

  function OldestFirst(rs: seq<Resource>): (ids: seq<nat>)
    ensures |ids| == |rs|
    ensures forall k :: 0 <= k < |rs| ==> ids[k] == rs[|rs| - 1 - k].id
  {
    if rs == [] then [] else [rs[|rs| - 1].id] + OldestFirst(rs[..|rs| - 1])
  }

  // One UNREF for every resource, the oldest first.
  lemma {:induction false} DrainUnrefs(c: nat, rs: seq<Resource>)
    ensures Unrefs(DrainTrace(c, rs)) == OldestFirst(rs)
  {
    if rs != [] {
      var last, front := rs[|rs| - 1], rs[..|rs| - 1];
      DrainUnrefs(c, front);
      DeleteUnrefs(c, last);
      UnrefsAppend(DeleteTrace(c, last), DrainTrace(c, front));
    }
  }

  lemma DeletePushes(s: Driver, c: nat, r: Resource)
    ensures DeleteResource(s, c, r).trace == s.trace + DeleteTrace(c, r)
    ensures DeleteResource(s, c, r).contexts == s.contexts
  {
    hide Free;
  }

  lemma {:induction false} DrainPushes(s: Driver, c: nat, rs: seq<Resource>)
    ensures Drain(s, c, rs).trace == s.trace + DrainTrace(c, rs)
    ensures Drain(s, c, rs).contexts == s.contexts
    decreases |rs|
  {
    hide Free, DeleteResource, DeleteTrace;
    if rs != [] {
      var last, front := rs[|rs| - 1], rs[..|rs| - 1];
      DeletePushes(s, c, last);
      DrainPushes(DeleteResource(s, c, last), c, front);
      assert s.trace + DeleteTrace(c, last) + DrainTrace(c, front) == s.trace + (DeleteTrace(c, last) + DrainTrace(c, front));
    }
  }

  ghost predicate OnlyCommandsAdded(s: Driver, s': Driver) {
    && |s'.agents| >= |s.agents| && s'.agents[..|s.agents|] == s.agents
    && forall k :: |s.agents| <= k < |s'.agents| ==> !s'.agents[k].cmd.Submit3D?
  }

  lemma DeleteAgents(s: Driver, c: nat, r: Resource)
    ensures OnlyCommandsAdded(s, DeleteResource(s, c, r))
  {
    hide Free;
  }

  lemma {:induction false} DrainAgents(s: Driver, c: nat, rs: seq<Resource>)
    ensures OnlyCommandsAdded(s, Drain(s, c, rs))
    decreases |rs|
  {
    hide DeleteResource;
    if rs != [] {
      var t := DeleteResource(s, c, rs[|rs| - 1]);
      DeleteAgents(s, c, rs[|rs| - 1]);
      DrainAgents(t, c, rs[..|rs| - 1]);
      var u := Drain(s, c, rs);
      assert u.agents[..|s.agents|] == u.agents[..|t.agents|][..|s.agents|];
      forall k | |s.agents| <= k < |u.agents|
        ensures !u.agents[k].cmd.Submit3D?
      {
        if k < |t.agents| {
          assert u.agents[..|t.agents|][k] == t.agents[k];
        }
      }
    }
  }

  // CtlDestroyVirglContext: the context is gone and no other has changed, the host sees one
  // UNREF for every resource in ascending id order and CTX_DESTROY after all of them, and the
  // requests in flight are as they were.
  lemma DestroyOrder(s: Driver, c: nat)
    requires Base(s) && FindContext(s.contexts, c).Some?
    ensures var i := FindContext(s.contexts, c).value;
            var rs := s.contexts[i].resources;
            var s' := DoDestroyContext(s, c);
            && s'.contexts == Without(s.contexts, i) && FindContext(s'.contexts, c).None?
            && s'.trace == s.trace + DrainTrace(c, rs) + [CtxDestroy(c)]
            && Unrefs(DrainTrace(c, rs)) == OldestFirst(rs)
            && (forall j, k :: 0 <= j < k < |rs| ==> OldestFirst(rs)[j] < OldestFirst(rs)[k])
            && OnlyCommandsAdded(s, s')
  {
    var i := FindContext(s.contexts, c).value;
    var rs := s.contexts[i].resources;
    var t := s.(contexts := Without(s.contexts, i));
    DrainPushes(t, c, rs);
    DrainUnrefs(c, rs);
    DrainAgents(t, c, rs);
    var u := Drain(t, c, rs);
    var s' := DoDestroyContext(s, c);
    assert s'.agents[..|u.agents|] == u.agents;
    assert s'.agents[..|s.agents|] == u.agents[..|s.agents|];
    forall k | 0 <= k < |t.contexts|
      ensures t.contexts[k].id != c
    {
      assert t.contexts[k] == s.contexts[if k < i then k else k + 1];
    }
  }

  // What the owners lose is what the resources of the context had.
  lemma DestroyWeight(s: Driver, c: nat, m: Measure)
    requires Base(s) && FindContext(s.contexts, c).Some?
    ensures Owned(DoDestroyContext(s, c), m)
            + Sum(s.contexts[FindContext(s.contexts, c).value].resources, ResourceWeight(m)) == Owned(s, m)
  {
    hide DoDestroyContext, Base;
    var i := FindContext(s.contexts, c).value;
    var s' := DoDestroyContext(s, c);
    DestroyOrder(s, c);
    SumRemove(s.contexts, i, ContextWeight(m));
    assert s'.agents == s.agents + s'.agents[|s.agents|..];
    SumAppend(s.agents, s'.agents[|s.agents|..], AgentWeight(m));
    if Sum(s'.agents[|s.agents|..], AgentWeight(m)) > 0 {
      var k := SumPositive(s'.agents[|s.agents|..], AgentWeight(m));
    }
  }

  // Exactly the pages of the context's own resources come back; every page of another context
  // and of a submit in flight stays marked.
  lemma DestroyFreesItsPages(s: Driver, c: nat)
    requires Base(s) && Ownership(s) && FindContext(s.contexts, c).Some?
    ensures var rs := s.contexts[FindContext(s.contexts, c).value].resources;
            var s' := DoDestroyContext(s, c);
            && (forall p :: Marked(s'.arena.used, p) <==>
                  Marked(s.arena.used, p) && Sum(rs, ResourceWeight(OwnersOf(p))) == 0)
            && |s'.arena.used| - CountFree(s'.arena.used)
               == |s.arena.used| - CountFree(s.arena.used) - Sum(rs, ResourceWeight(AllPages))
  {
    hide DoDestroyContext, Base;
    var rs := s.contexts[FindContext(s.contexts, c).value].resources;
    var s' := DoDestroyContext(s, c);
    DestroyOwnership(s, c);
    forall p: nat
      ensures Marked(s'.arena.used, p) <==> Marked(s.arena.used, p) && Sum(rs, ResourceWeight(OwnersOf(p))) == 0
    {
      DestroyWeight(s, c, OwnersOf(p));
    }
    DestroyWeight(s, c, AllPages);
  }
}
