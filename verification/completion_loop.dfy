// The completion loop of kernelmode/vgpu/vgpu.c over all that the device hands back.
module CompletionLoop {
  import opened Wrappers
  import opened Paging
  import opened Arena
  import opened FenceRegister
  import opened DriverState
  import opened ResourceTable
  import opened BaseInvariant
  import opened AtomicSteps
  import opened HandlerEffects
  import opened MemoryOwnership
  import opened ReleaseBalance
  import opened Requests

  // ----- requests by tag -----

  // Tags tell requests apart.
  ghost predicate Ascending(agents: seq<Agent>) {
    forall j, k :: 0 <= j < k < |agents| ==> agents[j].tag < agents[k].tag
  }

  ghost predicate TagsOk(s: Driver) {
    Ascending(s.agents) && forall k :: 0 <= k < |s.agents| ==> s.agents[k].tag < |s.issued|
  }

  // The first request with this tag, or the length of the list.
  function PositionOf(agents: seq<Agent>, tag: nat): (i: nat)
    ensures i <= |agents| && (i < |agents| ==> agents[i].tag == tag)
    ensures forall k :: 0 <= k < i ==> agents[k].tag != tag
  {
    if agents == [] || agents[0].tag == tag then 0 else PositionOf(agents[1..], tag) + 1
  }

  function RequestWith(agents: seq<Agent>, tag: nat): Option<Agent> {
    var i := PositionOf(agents, tag);
    if i < |agents| then Some(agents[i]) else None
  }

  lemma RequestIn(agents: seq<Agent>, i: nat)
    requires Ascending(agents) && i < |agents|
    ensures RequestWith(agents, agents[i].tag) == Some(agents[i])
  {
    hide PositionOf;
  }

  lemma AscendingOff(agents: seq<Agent>, i: nat)
    requires Ascending(agents) && i < |agents|
    ensures Ascending(Without(agents, i))
  {
    var rest := Without(agents, i);
    assert forall k :: 0 <= k < |rest| ==> rest[k] == agents[if k < i then k else k + 1];
  }

  lemma RequestOff(agents: seq<Agent>, i: nat, tag: nat)
    requires Ascending(agents) && i < |agents|
    ensures Ascending(Without(agents, i))
    ensures RequestWith(Without(agents, i), tag) == if tag == agents[i].tag then None else RequestWith(agents, tag)
  {
    hide PositionOf, Ascending;
    var rest := Without(agents, i);
    AscendingOff(agents, i);
    RequestIn(agents, i);
    var j, k := PositionOf(agents, tag), PositionOf(rest, tag);
    if j < |agents| && j != i {
      assert rest[if j < i then j else j - 1] == agents[j];
    }
    if k < |rest| {
      var l := if k < i then k else k + 1;
      assert rest[k] == agents[l];
      RequestIn(agents, l);
      OtherTag(agents, i, l);
    }
  }

  lemma OtherTag(agents: seq<Agent>, i: nat, j: nat)
    requires Ascending(agents) && i < |agents| && j < |agents| && i != j
    ensures agents[i].tag != agents[j].tag
  {
  }

  lemma RequestMoved(agents: seq<Agent>, i: nat, phase: Phase, tag: nat)
    requires Ascending(agents) && i < |agents|
    ensures var a := agents[i].(phase := phase);
            && Ascending(agents[i := a])
            && RequestWith(agents[i := a], tag) == if tag == a.tag then Some(a) else RequestWith(agents, tag)
  {
    var a := agents[i].(phase := phase);
    var moved := agents[i := a];
    var j := PositionOf(agents, tag);
    if j < |agents| {
      assert moved[j].tag == tag;
      RequestIn(moved, j);
    }
  }

  // ----- the loop -----

  // A buffer that virtqueue_get_buf returns, told by its tag, and the address at which
  // MmMapIoSpaceEx maps the blob if it is a MAP_BLOB.
  datatype HandBack = HandBack(tag: nat, address: nat)

  ghost function CompleteAll(s: Driver, ready: seq<HandBack>): Driver {
    if ready == [] then s
    else
      var t := CompleteAll(s, ready[..|ready| - 1]);
      var h := ready[|ready| - 1];
      DoComplete(t, PositionOf(t.agents, h.tag), h.address)
  }

  ghost function CompleteAllOps(s: Driver, ready: seq<HandBack>): seq<Op> {
    if ready == [] then []
    else
      var before := CompleteAllOps(s, ready[..|ready| - 1]);
      var t := Run(s, before);
      var h := ready[|ready| - 1];
      before + CompleteOps(t.agents, PositionOf(t.agents, h.tag), h.address)
  }

  // The loop is the run of the small steps of one completion after the other.
  lemma {:induction false} CompleteAllIsRun(s: Driver, ready: seq<HandBack>)
    ensures CompleteAll(s, ready) == Run(s, CompleteAllOps(s, ready))
  {
    hide DoComplete, CompleteOps, Run;
    if ready == [] {
      RunNone(s);
    } else {
      CompleteAllIsRun(s, ready[..|ready| - 1]);
      var before := CompleteAllOps(s, ready[..|ready| - 1]);
      var t := Run(s, before);
      var h := ready[|ready| - 1];
      var i := PositionOf(t.agents, h.tag);
      RunAppend(s, before, CompleteOps(t.agents, i, h.address));
      CompleteIsRun(t, i, h.address);
    }
  }

  // ----- one completion -----

  // The state once request i has been released.
  ghost function Retired(s: Driver, i: nat): Driver
    requires i < |s.agents|
  {
    var a := s.agents[i];
    var t := s.(agents := Without(s.agents, i), log := s.log + Releases(a));
    if a.cmd.Submit3D? then t.(arena := Free(s.arena, a.cmd.region.start, a.cmd.region.pages * PAGE_SIZE)) else t
  }

  // A completion is the effect on the resources followed by the releases.
  lemma CompleteEffect(s: Driver, i: nat, address: nat)
    requires i < |s.agents| && s.agents[i].phase.Queued?
    ensures var cmd := s.agents[i].cmd;
            DoComplete(s, i, address)
            == if cmd.GetCapset? then SetPhase(s, i, Awaited)
               else if cmd.MapBlob? then Retired(MapCallback(s, cmd.ctx, cmd.res, address), i)
               else Retired(s.(contexts := UpdateMany(s.contexts, ContextOf(cmd), Marks(cmd), Update(false, FenceOf(cmd)))), i)
  {
    hide UpdateMany, Free, Lookup;
    var a := s.agents[i];
    var b := a.(phase := Completing(|IdleMarks(a.cmd)|, Looking));
    assert Without(s.agents[i := b], i) == Without(s.agents, i);
    assert Releases(b) == Releases(a);
    assert a.cmd.MapBlob? ==> Releases(a) == [FreeBuffer(a.tag)];
  }

  lemma NotQueued(s: Driver, i: nat, address: nat)
    ensures i >= |s.agents| || !s.agents[i].phase.Queued? ==> DoComplete(s, i, address) == s
  {
  }

  // What is left of a request that was in the queue.
  function LeftOf(a: Agent): Option<Agent> {
    if a.cmd.GetCapset? then Some(a.(phase := Awaited)) else None
  }

  // A command that the device has finished, with the address of the mapping.
  datatype Finished = Finished(request: Agent, address: nat)

  // The mark that the completion of a command makes on resource (c, id).
  function IdleMark(f: Finished, c: nat, id: nat): seq<Update> {
    match f.request.cmd
    case Transfer(ctx, res, _) => if ctx == c && res == id then [Update(false, 0)] else []
    case Submit3D(ctx, handles, fence, _, _) => if ctx == c && id in handles then [Update(false, fence)] else []
    case MapBlob(ctx, res) => if ctx == c && res == id && f.address != 0 then [Update(false, 0)] else []
    case _ => []
  }

  // The address that it gives to blob (c, id).
  function NewAddress(f: Finished, c: nat, id: nat): seq<nat> {
    if f.request.cmd == MapBlob(c, id) && f.address != 0 then [f.address] else []
  }

  function Completed(r: Resource, marks: seq<Update>, addresses: seq<nat>): Resource {
    r.(state := ApplyAll(r.state, marks),
       backing := if addresses == [] then r.backing else Blob(Some(addresses[|addresses| - 1])))
  }

  function MaybeCompleted(r: Option<Resource>, marks: seq<Update>, addresses: seq<nat>): Option<Resource> {
    if r.None? then None else Some(Completed(r.value, marks, addresses))
  }

  // The blob has been mapped, and is still there.
  function MapEntry(cs: seq<Context>, f: Finished): seq<LogEntry> {
    var cmd := f.request.cmd;
    if cmd.MapBlob? && f.address != 0 && Lookup(cs, cmd.ctx, cmd.res).Some? then [MapIo(cmd.res, f.address, true)] else []
  }

  predicate FailsToMap(cs: seq<Context>, f: Finished, c: nat, id: nat) {
    f.request.cmd == MapBlob(c, id) && f.address == 0 && Lookup(cs, c, id).Some?
  }

  // The waiter of a capset query frees its buffer itself.
  function LogOf(cs: seq<Context>, f: Finished): seq<LogEntry> {
    if f.request.cmd.GetCapset? then [] else MapEntry(cs, f) + Releases(f.request)
  }

  lemma MapsEntry(s: Driver, c: nat, id: nat, address: nat, c': nat, id': nat)
    ensures var s' := MapCallback(s, c, id, address);
            var r := Lookup(s.contexts, c', id');
            && SameContexts(s.contexts, s'.contexts)
            && Lookup(s'.contexts, c', id')
               == (if r.Some? && c' == c && id' == id && address != 0
                   then Some(r.value.(backing := Blob(Some(address)), state := r.value.state.(idle := true))) else r)
            && s'.agents == s.agents && s'.arena == s.arena
            && s' == s.(contexts := s'.contexts, log := s'.log, failedMaps := s'.failedMaps)
            && s'.log == s.log + (if address != 0 && Lookup(s.contexts, c, id).Some? then [MapIo(id, address, true)] else [])
            && s'.failedMaps == s.failedMaps + if address == 0 && Lookup(s.contexts, c, id).Some? then {(c, id)} else {}
  {
    hide Lookup, Store, OnlyEntry;
    var r := Lookup(s.contexts, c, id);
    if r.Some? && address != 0 {
      LookupFinds(s.contexts, c, id);
      StoredEntry(s.contexts, c, id, ExposedIdle(r.value, address));
      EntryIs(s.contexts, MapCallback(s, c, id, address).contexts, c, id, Some(ExposedIdle(r.value, address)), c', id');
    } else {
      KeptContexts(s.contexts, s.contexts);
    }
  }

  lemma EntryIs(cs: seq<Context>, ds: seq<Context>, c: nat, id: nat, r: Option<Resource>, c': nat, id': nat)
    requires OnlyEntry(cs, ds, c, id, r)
    ensures SameContexts(cs, ds) && Lookup(ds, c', id') == if c' == c && id' == id then r else Lookup(cs, c', id')
  {
  }

  lemma AppliedOnce(r: Register, u: Update)
    ensures ApplyAll(r, []) == r && ApplyAll(r, [u]) == Apply(r, u)
  {
    assert [u][..0] == [];
  }

  lemma MarksEntry(cs: seq<Context>, a: Agent, address: nat, c: nat, id: nat)
    requires !a.cmd.MapBlob?
    ensures var ds := UpdateMany(cs, ContextOf(a.cmd), Marks(a.cmd), Update(false, FenceOf(a.cmd)));
            && SameContexts(cs, ds)
            && Lookup(ds, c, id) == MaybeCompleted(Lookup(cs, c, id), IdleMark(Finished(a, address), c, id), [])
  {
    hide Lookup, UpdateMany;
    var u := Update(false, FenceOf(a.cmd));
    UpdateKeepsContexts(cs, ContextOf(a.cmd), Marks(a.cmd), u);
    LookupUpdateMany(cs, ContextOf(a.cmd), Marks(a.cmd), u, c, id);
    if Lookup(cs, c, id).Some? {
      AppliedOnce(Lookup(cs, c, id).value.state, u);
    }
  }

  // What one completion does to every resource, the log and the failed mappings.
  lemma CompletionEffect(s: Driver, i: nat, address: nat, c: nat, id: nat)
    requires i < |s.agents| && s.agents[i].phase.Queued?
    ensures var s' := DoComplete(s, i, address);
            var f := Finished(s.agents[i], address);
            && SameContexts(s.contexts, s'.contexts)
            && Lookup(s'.contexts, c, id)
               == MaybeCompleted(Lookup(s.contexts, c, id), IdleMark(f, c, id), NewAddress(f, c, id))
            && s'.log == s.log + LogOf(s.contexts, f)
            && ((c, id) in s'.failedMaps <==> (c, id) in s.failedMaps || FailsToMap(s.contexts, f, c, id))
            && s' == s.(contexts := s'.contexts, agents := s'.agents, log := s'.log, failedMaps := s'.failedMaps,
                        arena := s'.arena)
  {
    hide Lookup, UpdateMany, MapCallback, DoComplete, Free, SameContexts, Marks, Releases;
    var a := s.agents[i];
    CompleteEffect(s, i, address);
    if a.cmd.MapBlob? {
      MapsEntry(s, a.cmd.ctx, a.cmd.res, address, c, id);
      if Lookup(s.contexts, c, id).Some? {
        AppliedOnce(Lookup(s.contexts, c, id).value.state, Update(false, 0));
      }
    } else if a.cmd.GetCapset? {
      KeptContexts(s.contexts, s.contexts);
    } else {
      MarksEntry(s.contexts, a, address, c, id);
    }
  }

  lemma CompletionLeaves(s: Driver, i: nat, address: nat)
    requires i < |s.agents| && s.agents[i].phase.Queued?
    ensures DoComplete(s, i, address).agents
            == if s.agents[i].cmd.GetCapset? then s.agents[i := s.agents[i].(phase := Awaited)] else Without(s.agents, i)
    ensures DoComplete(s, i, address).issued == s.issued
    ensures DoComplete(s, i, address).arena
            == if s.agents[i].cmd.Submit3D?
               then Free(s.arena, s.agents[i].cmd.region.start, s.agents[i].cmd.region.pages * PAGE_SIZE) else s.arena
  {
    hide Lookup, UpdateMany, DoComplete, Free;
    CompleteEffect(s, i, address);
  }

  // ----- the requests -----

  predicate HandsBack(ready: seq<HandBack>, tag: nat) {
    exists k :: 0 <= k < |ready| && ready[k].tag == tag
  }

  lemma HandsBackLast(ready: seq<HandBack>, tag: nat)
    requires ready != []
    ensures HandsBack(ready, tag) <==> HandsBack(ready[..|ready| - 1], tag) || ready[|ready| - 1].tag == tag
  {
    var front := ready[..|ready| - 1];
    if HandsBack(front, tag) {
      var k :| 0 <= k < |front| && front[k].tag == tag;
      assert ready[k].tag == tag;
    }
    if HandsBack(ready, tag) {
      var k :| 0 <= k < |ready| && ready[k].tag == tag;
      if k < |front| {
        assert front[k].tag == tag;
      }
    }
  }

  predicate IsQueued(r: Option<Agent>) {
    r.Some? && r.value.phase.Queued?
  }

  lemma OneRequest(t: Driver, h: HandBack, tag: nat)
    requires TagsOk(t)
    ensures var t' := DoComplete(t, PositionOf(t.agents, h.tag), h.address);
            var r := RequestWith(t.agents, tag);
            && TagsOk(t') && t'.issued == t.issued
            && RequestWith(t'.agents, tag) == if IsQueued(r) && tag == h.tag then LeftOf(r.value) else r
  {
    hide DoComplete;
    var i := PositionOf(t.agents, h.tag);
    NotQueued(t, i, h.address);
    if i < |t.agents| && t.agents[i].phase.Queued? {
      CompletionLeaves(t, i, h.address);
      RequestIn(t.agents, i);
      RequestOff(t.agents, i, tag);
      RequestMoved(t.agents, i, Awaited, tag);
    }
  }

  // Every request that is in the queue when the device hands it back is gone afterwards, but
  // for a capset query, whose waiter has been signalled. Every other request is as it was.
  lemma {:induction false} LoopRequests(s: Driver, ready: seq<HandBack>, tag: nat)
    requires TagsOk(s)
    ensures var s' := CompleteAll(s, ready);
            var r := RequestWith(s.agents, tag);
            && TagsOk(s') && s'.issued == s.issued
            && RequestWith(s'.agents, tag) == if IsQueued(r) && HandsBack(ready, tag) then LeftOf(r.value) else r
  {
    hide DoComplete, TagsOk, RequestWith, PositionOf;
    if ready != [] {
      var front, h := ready[..|ready| - 1], ready[|ready| - 1];
      LoopRequests(s, front, tag);
      HandsBackLast(ready, tag);
      OneRequest(CompleteAll(s, front), h, tag);
    }
  }

  // The requests that the loop finishes, in the order in which the device hands them back: those
  // that are in the queue, each once.
  function FinishedBy(agents: seq<Agent>, ready: seq<HandBack>): seq<Finished> {
    if ready == [] then []
    else
      var front, h := ready[..|ready| - 1], ready[|ready| - 1];
      var r := RequestWith(agents, h.tag);
      FinishedBy(agents, front)
      + if IsQueued(r) && !HandsBack(front, h.tag) then [Finished(r.value, h.address)] else []
  }

  // What the last buffer handed back adds.
  lemma LastFinished(s: Driver, ready: seq<HandBack>)
    requires TagsOk(s) && ready != []
    ensures var front, h := ready[..|ready| - 1], ready[|ready| - 1];
            var t := CompleteAll(s, front);
            var i := PositionOf(t.agents, h.tag);
            FinishedBy(s.agents, ready)
            == FinishedBy(s.agents, front)
               + if i < |t.agents| && t.agents[i].phase.Queued? then [Finished(t.agents[i], h.address)] else []
  {
    hide DoComplete, TagsOk, CompleteAll;
    LoopRequests(s, ready[..|ready| - 1], ready[|ready| - 1].tag);
  }

  // ----- the resources -----

  function AllMarks(fs: seq<Finished>, c: nat, id: nat): seq<Update> {
    if fs == [] then [] else AllMarks(fs[..|fs| - 1], c, id) + IdleMark(fs[|fs| - 1], c, id)
  }

  function AllAddresses(fs: seq<Finished>, c: nat, id: nat): seq<nat> {
    if fs == [] then [] else AllAddresses(fs[..|fs| - 1], c, id) + NewAddress(fs[|fs| - 1], c, id)
  }

  lemma CompletedTwice(r: Resource, marks: seq<Update>, more: seq<Update>, addresses: seq<nat>, others: seq<nat>)
    requires |more| <= 1 && |others| <= 1
    ensures Completed(Completed(r, marks, addresses), more, others) == Completed(r, marks + more, addresses + others)
  {
    var state := ApplyAll(r.state, marks);
    if more == [] {
      assert marks + more == marks;
    } else {
      AppliedOnce(state, more[0]);
      assert more == [more[0]];
      assert (marks + more)[..|marks|] == marks;
    }
    if others == [] {
      assert addresses + others == addresses;
    } else {
      assert (addresses + others)[|addresses|] == others[0];
    }
    assert ApplyAll(state, more) == ApplyAll(r.state, marks + more);
  }

  // Every live resource has taken the idle marks of the finished requests that name it, in the
  // order in which the device handed them back, and a blob the address of its mapping.
  lemma {:induction false} LoopResources(s: Driver, ready: seq<HandBack>, c: nat, id: nat)
    requires TagsOk(s)
    ensures var s' := CompleteAll(s, ready);
            var fs := FinishedBy(s.agents, ready);
            && SameContexts(s.contexts, s'.contexts)
            && Lookup(s'.contexts, c, id)
               == MaybeCompleted(Lookup(s.contexts, c, id), AllMarks(fs, c, id), AllAddresses(fs, c, id))
            && s' == s.(contexts := s'.contexts, agents := s'.agents, log := s'.log, failedMaps := s'.failedMaps,
                        arena := s'.arena)
  {
    hide DoComplete, TagsOk, Lookup, PositionOf, IdleMark, NewAddress, Completed, FinishedBy, LogOf, FailsToMap;
    if ready == [] {
      NothingFinished(s, c, id);
    } else {
      var front, h := ready[..|ready| - 1], ready[|ready| - 1];
      var t := CompleteAll(s, front);
      var i := PositionOf(t.agents, h.tag);
      LoopResources(s, front, c, id);
      LastFinished(s, ready);
      NotQueued(t, i, h.address);
      if i < |t.agents| && t.agents[i].phase.Queued? {
        OneMore(s, t, FinishedBy(s.agents, front), i, h.address, c, id);
      } else {
        assert FinishedBy(s.agents, front) + [] == FinishedBy(s.agents, front);
      }
    }
  }

  lemma NothingFinished(s: Driver, c: nat, id: nat)
    ensures FinishedBy(s.agents, []) == [] && SameContexts(s.contexts, s.contexts)
    ensures Lookup(s.contexts, c, id) == MaybeCompleted(Lookup(s.contexts, c, id), AllMarks([], c, id), AllAddresses([], c, id))
  {
    hide Lookup, FindContext;
  }

  lemma OneMore(s: Driver, t: Driver, fs: seq<Finished>, i: nat, address: nat, c: nat, id: nat)
    requires i < |t.agents| && t.agents[i].phase.Queued? && SameContexts(s.contexts, t.contexts)
    requires Lookup(t.contexts, c, id) == MaybeCompleted(Lookup(s.contexts, c, id), AllMarks(fs, c, id), AllAddresses(fs, c, id))
    ensures var t' := DoComplete(t, i, address);
            var gs := fs + [Finished(t.agents[i], address)];
            && SameContexts(s.contexts, t'.contexts)
            && Lookup(t'.contexts, c, id)
               == MaybeCompleted(Lookup(s.contexts, c, id), AllMarks(gs, c, id), AllAddresses(gs, c, id))
            && t' == t.(contexts := t'.contexts, agents := t'.agents, log := t'.log, failedMaps := t'.failedMaps,
                        arena := t'.arena)
  {
    hide DoComplete, Lookup, FindContext, Completed, LogOf, FailsToMap;
    var f := Finished(t.agents[i], address);
    CompletionEffect(t, i, address, c, id);
    assert (fs + [f])[..|fs|] == fs;
    var r := Lookup(s.contexts, c, id);
    if r.Some? {
      CompletedTwice(r.value, AllMarks(fs, c, id), IdleMark(f, c, id), AllAddresses(fs, c, id), NewAddress(f, c, id));
    }
  }

  lemma LoopKeepsResources(s: Driver, ready: seq<HandBack>, c: nat, id: nat)
    requires TagsOk(s)
    ensures Lookup(CompleteAll(s, ready).contexts, c, id).Some? == Lookup(s.contexts, c, id).Some?
  {
    hide Lookup, CompleteAll;
    LoopResources(s, ready, c, id);
  }

  // ----- the log -----

  function AllLog(cs: seq<Context>, fs: seq<Finished>): seq<LogEntry> {
    if fs == [] then [] else AllLog(cs, fs[..|fs| - 1]) + LogOf(cs, fs[|fs| - 1])
  }

  lemma OneMoreLogged(s: Driver, t: Driver, fs: seq<Finished>, i: nat, address: nat)
    requires i < |t.agents| && t.agents[i].phase.Queued? && t.log == s.log + AllLog(s.contexts, fs)
    requires LogOf(t.contexts, Finished(t.agents[i], address)) == LogOf(s.contexts, Finished(t.agents[i], address))
    ensures DoComplete(t, i, address).log == s.log + AllLog(s.contexts, fs + [Finished(t.agents[i], address)])
  {
    hide DoComplete, LogOf, Lookup, Completed, FailsToMap;
    var f := Finished(t.agents[i], address);
    CompletionEffect(t, i, address, 0, 0);
    assert (fs + [f])[..|fs|] == fs;
  }

  lemma SameLog(s: Driver, front: seq<HandBack>, f: Finished)
    requires TagsOk(s)
    ensures LogOf(CompleteAll(s, front).contexts, f) == LogOf(s.contexts, f)
  {
    hide Lookup, CompleteAll, TagsOk, Releases;
    var cmd := f.request.cmd;
    if cmd.MapBlob? {
      LoopKeepsResources(s, front, cmd.ctx, cmd.res);
    }
  }

  // The log grows by the mappings made and by what each finished request owed, in the order in
  // which the device handed them back.
  lemma {:induction false} LoopLog(s: Driver, ready: seq<HandBack>)
    requires TagsOk(s)
    ensures CompleteAll(s, ready).log == s.log + AllLog(s.contexts, FinishedBy(s.agents, ready))
  {
    hide DoComplete, TagsOk, PositionOf, FinishedBy, LogOf;
    if ready == [] {
      NothingFinished(s, 0, 0);
    } else {
      var front, h := ready[..|ready| - 1], ready[|ready| - 1];
      var t := CompleteAll(s, front);
      var fs := FinishedBy(s.agents, front);
      var i := PositionOf(t.agents, h.tag);
      LoopLog(s, front);
      LastFinished(s, ready);
      NotQueued(t, i, h.address);
      if i < |t.agents| && t.agents[i].phase.Queued? {
        SameLog(s, front, Finished(t.agents[i], h.address));
        OneMoreLogged(s, t, fs, i, h.address);
      } else {
        assert fs + [] == fs;
      }
    }
  }

  // The mappings that have failed.
  lemma {:induction false} LoopFailures(s: Driver, ready: seq<HandBack>, c: nat, id: nat)
    requires TagsOk(s)
    ensures (c, id) in CompleteAll(s, ready).failedMaps <==>
              || (c, id) in s.failedMaps
              || exists k :: 0 <= k < |FinishedBy(s.agents, ready)| && FailsToMap(s.contexts, FinishedBy(s.agents, ready)[k], c, id)
  {
    hide DoComplete, TagsOk, Lookup, PositionOf, FinishedBy, LogOf, Completed;
    var fs' := FinishedBy(s.agents, ready);
    if ready == [] {
      NothingFinished(s, 0, 0);
    } else {
      var front, h := ready[..|ready| - 1], ready[|ready| - 1];
      var t := CompleteAll(s, front);
      var fs := FinishedBy(s.agents, front);
      var i := PositionOf(t.agents, h.tag);
      LoopFailures(s, front, c, id);
      LastFinished(s, ready);
      NotQueued(t, i, h.address);
      if i < |t.agents| && t.agents[i].phase.Queued? {
        CompletionEffect(t, i, h.address, c, id);
        LoopKeepsResources(s, front, c, id);
        assert fs' == fs + [Finished(t.agents[i], h.address)];
        assert forall k :: 0 <= k < |fs| ==> fs'[k] == fs[k];
        assert FailsToMap(t.contexts, fs'[|fs|], c, id) <==> FailsToMap(s.contexts, fs'[|fs|], c, id);
      } else {
        assert fs' == fs;
      }
    }
  }

  // ----- releases, request by request -----

  lemma HandBackReleases(t: Driver, h: HandBack, rel: LogEntry)
    requires rel.FreeBuffer? || rel.FreeHandles? || rel.SignalFence?
    ensures var r := RequestWith(t.agents, h.tag);
            multiset(DoComplete(t, PositionOf(t.agents, h.tag), h.address).log)[rel]
            == multiset(t.log)[rel]
               + if h.tag == rel.tag && IsQueued(r) && !r.value.cmd.GetCapset? && Owes(r.value.cmd, rel.tag, rel) then 1 else 0
  {
    hide DoComplete, Lookup, Releases, Completed, FailsToMap, LogOf;
    var i := PositionOf(t.agents, h.tag);
    NotQueued(t, i, h.address);
    if i < |t.agents| && t.agents[i].phase.Queued? {
      var f := Finished(t.agents[i], h.address);
      CompletionEffect(t, i, h.address, 0, 0);
      OneLogged(t.contexts, f, rel);
      AddedToLog(t.log, LogOf(t.contexts, f), rel);
    }
  }

  // Each request that is in the queue when the device hands it back gives back what it owes,
  // exactly once: its buffer, and a submit its copy of the handles and its out-fence. No other
  // request gives back anything.
  lemma {:induction false} LoopReleases(s: Driver, ready: seq<HandBack>, rel: LogEntry)
    requires TagsOk(s) && (rel.FreeBuffer? || rel.FreeHandles? || rel.SignalFence?)
    ensures var r := RequestWith(s.agents, rel.tag);
            multiset(CompleteAll(s, ready).log)[rel]
            == multiset(s.log)[rel]
               + if IsQueued(r) && HandsBack(ready, rel.tag) && !r.value.cmd.GetCapset? && Owes(r.value.cmd, rel.tag, rel)
                 then 1 else 0
  {
    hide DoComplete, TagsOk, PositionOf, RequestWith, Owes;
    if ready != [] {
      var front := ready[..|ready| - 1];
      LoopReleases(s, front, rel);
      HandsBackLast(ready, rel.tag);
      LoopRequests(s, front, rel.tag);
      HandBackReleases(CompleteAll(s, front), ready[|ready| - 1], rel);
    }
  }

  lemma AddedToLog(log: seq<LogEntry>, more: seq<LogEntry>, rel: LogEntry)
    ensures multiset(log + more)[rel] == multiset(log)[rel] + multiset(more)[rel]
  {
  }

  lemma OneLogged(cs: seq<Context>, f: Finished, rel: LogEntry)
    requires !rel.MapIo?
    ensures multiset(LogOf(cs, f))[rel] == if f.request.cmd.GetCapset? then 0 else RequestDuty(rel)(f.request)
  {
    hide Lookup, Releases;
    OneRelease(f.request);
    AddedToLog(MapEntry(cs, f), Releases(f.request), rel);
  }

  // ----- the pages -----

  lemma FreedRegion(s: Driver, i: nat)
    requires Ownership(s) && i < |s.agents| && s.agents[i].cmd.Submit3D?
    ensures var g := s.agents[i].cmd.region;
            var b := Free(s.arena, g.start, g.pages * PAGE_SIZE);
            |b.used| == |s.arena.used| && forall p :: Marked(b.used, p) == (Marked(s.arena.used, p) && !g.Has(p))
  {
    hide Ownership, Free, Marked;
    var g := s.agents[i].cmd.region;
    forall p: nat | g.Has(p)
      ensures Marked(s.arena.used, p)
    {
      OwnedIsMarked(s, RequestAt(i), p);
    }
    assert Valid(s.arena) by { CountsPages(s); }
    FreeMarked(s.arena, g);
  }

  // The command memory of the finished submits is clear, and every other page is as it was.
  lemma {:induction false} LoopPages(s: Driver, ready: seq<HandBack>, p: nat)
    requires TagsOk(s) && Base(s) && Ownership(s) && IdsFit(s)
    ensures var s' := CompleteAll(s, ready);
            var fs := FinishedBy(s.agents, ready);
            && |s'.arena.used| == |s.arena.used|
            && (Marked(s'.arena.used, p) <==>
                  && Marked(s.arena.used, p)
                  && forall k :: 0 <= k < |fs| && fs[k].request.cmd.Submit3D? ==> !fs[k].request.cmd.region.Has(p))
  {
    hide DoComplete, TagsOk, Base, Ownership, PositionOf, FinishedBy, IdsFit, Marked, Lookup, Free;
    if ready == [] {
      NothingFinished(s, 0, 0);
    } else {
      var front, h := ready[..|ready| - 1], ready[|ready| - 1];
      var t := CompleteAll(s, front);
      var fs := FinishedBy(s.agents, front);
      var i := PositionOf(t.agents, h.tag);
      LoopPages(s, front, p);
      LoopOwnership(s, front);
      LastFinished(s, ready);
      NotQueued(t, i, h.address);
      if i < |t.agents| && t.agents[i].phase.Queued? {
        CompletionLeaves(t, i, h.address);
        if t.agents[i].cmd.Submit3D? {
          FreedRegion(t, i);
        }
        var fs' := FinishedBy(s.agents, ready);
        assert fs' == fs + [Finished(t.agents[i], h.address)];
        assert fs'[|fs|].request == t.agents[i] && forall k :: 0 <= k < |fs| ==> fs'[k] == fs[k];
      } else {
        assert FinishedBy(s.agents, ready) == fs;
      }
    }
  }

  lemma LoopOwnership(s: Driver, ready: seq<HandBack>)
    requires TagsOk(s) && Base(s) && Ownership(s) && IdsFit(s)
    ensures Ownership(CompleteAll(s, ready))
  {
    hide CompleteAll, CompleteAllOps, Run, Base, Ownership, TagsOk;
    LoopResources(s, ready, 0, 0);
    CompleteAllIsRun(s, ready);
    RunOwnership(s, CompleteAllOps(s, ready));
  }

  // ----- from the call to the end -----

  // The copy of the handles goes before the out-fence is signalled, and the buffer last.
  lemma ReleaseOrder(a: Agent)
    ensures var l := Releases(a);
            && l != [] && l[|l| - 1] == FreeBuffer(a.tag)
            && (forall k :: 0 <= k < |l| - 1 ==> l[k] == FreeHandles(a.tag) || l[k] == SignalFence(a.tag))
            && (forall k :: 0 < k < |l| ==> !l[k].FreeHandles?)
  {
  }

  // A capset query is pushed, handed back and collected: nothing is left of it, and its buffer
  // has been freed once, by its waiter.
  lemma QueryRound(s: Driver)
    requires TagsOk(s)
    ensures var i := |s.agents|;
            var t := CompleteAll(Next(s, QueryCapset), [HandBack(|s.issued|, 0)]);
            && t.log == s.log
            && Next(t, Collect(i)) == s.(issued := s.issued + [GetCapset], trace := s.trace + [GetCapset],
                                         log := s.log + [FreeBuffer(|s.issued|)])
  {
    hide DoComplete;
    var u := Next(s, QueryCapset);
    LastHandedBack(s, u, 0);
    CompleteEffect(u, |s.agents|, 0);
    var t := DoComplete(u, |s.agents|, 0);
    assert Without(t.agents, |s.agents|) == s.agents;
  }

  // The device hands back the youngest request.
  lemma LastHandedBack(s: Driver, t: Driver, address: nat)
    requires TagsOk(s) && |t.agents| == |s.agents| + 1 && t.agents[..|s.agents|] == s.agents
    requires t.agents[|s.agents|].tag == |s.issued|
    ensures CompleteAll(t, [HandBack(|s.issued|, address)]) == DoComplete(t, |s.agents|, address)
  {
    hide DoComplete;
    var h := HandBack(|s.issued|, address);
    assert [h][..0] == [];
    assert forall k :: 0 <= k < |s.agents| ==> t.agents[k] == t.agents[..|s.agents|][k] == s.agents[k];
    assert PositionOf(t.agents, h.tag) == |s.agents|;
  }

  // A submit is accepted, pushed and handed back: its request and its command memory are gone as
  // if it had not been, its releases are in the log, and each live resource that it named is
  // idle, unless a larger fence had been recorded before.
  lemma SubmitRound(s: Driver, c: nat, size: nat, outFence: bool, handles: seq<nat>)
    requires TagsOk(s) && Base(s) && Ownership(s) && size < WORD && IdsFit(DoSubmit(s, c, size, outFence, handles, NoFault))
    requires FindContext(s.contexts, c).Some? && ClearRunExists(s.arena, PagesFor(size))
    ensures var t := DoSubmit(s, c, size, outFence, handles, NoFault);
            var u := CompleteAll(t, [HandBack(|s.issued|, 0)]);
            && u.agents == s.agents && u.arena.used == s.arena.used && u.arena.available == s.arena.available
            && |t.agents| == |s.agents| + 1 && u.log == s.log + Releases(t.agents[|s.agents|])
            && forall c': nat, id: nat ::
                 var fence := if outFence then s.fenceIds.next else 0;
                 Lookup(u.contexts, c', id)
                 == MaybeCompleted(Lookup(s.contexts, c', id),
                                   if c' == c && id in handles then [Update(true, fence), Update(false, fence)] else [], [])
  {
    hide DoSubmit, DoComplete, CompleteAll, TagsOk, Base, Ownership, Takes, GivesBack, Idr.Range, ClearRunExists, FindContext,
      MakesRequest, SameContexts, Lookup, Free, Releases, MaybeCompleted, LogOf, FailsToMap;
    var t := DoSubmit(s, c, size, outFence, handles, NoFault);
    var i := |s.agents|;
    CountsPages(s);
    SubmitEffect(s, c, size, outFence, handles, NoFault);
    FencePositive(s);
    var a := t.agents[i];
    PushedSubmit(s, t, a.cmd, c, handles, a.cmd.fence);
    LastHandedBack(s, t, 0);
    CompletionLeaves(t, i, 0);
    assert Without(t.agents, i) == s.agents;
    SubmitOwned(s, c, size, outFence, handles);
    OwnerGivesBack(t, RequestAt(i));
    TakenAndGivenBack(s.arena, t.arena, CompleteAll(t, [HandBack(|s.issued|, 0)]).arena, a.cmd.region);
    forall c': nat, id: nat
      ensures Lookup(DoComplete(t, i, 0).contexts, c', id)
              == MaybeCompleted(Lookup(s.contexts, c', id),
                                if c' == c && id in handles then [Update(true, a.cmd.fence), Update(false, a.cmd.fence)] else [], [])
    {
      CompletionEffect(t, i, 0, c', id);
      MarkedAndIdled(s, t, a, c, handles, c', id);
    }
    CompletionEffect(t, i, 0, 0, 0);
    SubmitLog(t.contexts, a);
  }

  lemma SubmitLog(cs: seq<Context>, a: Agent)
    requires a.cmd.Submit3D?
    ensures LogOf(cs, Finished(a, 0)) == Releases(a)
  {
    hide Releases;
    assert MapEntry(cs, Finished(a, 0)) == [];
  }

  lemma FencePositive(s: Driver)
    requires Base(s)
    ensures s.fenceIds.next >= 1
  {
  }

  lemma PushedSubmit(s: Driver, t: Driver, cmd: Command, c: nat, handles: seq<nat>, fence: nat)
    requires MakesRequest(s, t, cmd, c, handles, fence, NoFault)
    ensures t.agents == s.agents + [Agent(|s.issued|, cmd, Queued)]
    ensures Shows(s.contexts, t.contexts, c, handles, Update(true, fence))
  {
    hide Shows;
  }

  lemma MarkedAndIdled(s: Driver, t: Driver, a: Agent, c: nat, handles: seq<nat>, c': nat, id: nat)
    requires a.cmd.Submit3D? && a.cmd.ctx == c && a.cmd.handles == handles
    requires Shows(s.contexts, t.contexts, c, handles, Update(true, a.cmd.fence))
    ensures NewAddress(Finished(a, 0), c', id) == []
    ensures MaybeCompleted(Lookup(t.contexts, c', id), IdleMark(Finished(a, 0), c', id), [])
            == MaybeCompleted(Lookup(s.contexts, c', id),
                              if c' == c && id in handles then [Update(true, a.cmd.fence), Update(false, a.cmd.fence)] else [], [])
  {
    hide Lookup;
    var busy, idle := Update(true, a.cmd.fence), Update(false, a.cmd.fence);
    var r := Lookup(s.contexts, c', id);
    if r.Some? {
      AppliedOnce(r.value.state, busy);
      AppliedOnce(Apply(r.value.state, busy), idle);
      assert [busy, idle][..1] == [busy];
    }
  }

  lemma SubmitOwned(s: Driver, c: nat, size: nat, outFence: bool, handles: seq<nat>)
    requires Base(s) && Ownership(s) && IdsFit(DoSubmit(s, c, size, outFence, handles, NoFault))
    ensures Ownership(DoSubmit(s, c, size, outFence, handles, NoFault))
  {
    hide DoSubmit, Base, Ownership, IssueOps, Run;
    SubmitIsRun(s, c, size, outFence, handles, NoFault);
    RunOwnership(s, [BeginSubmit(c, size, outFence, handles)] + IssueOps(|s.agents|, |handles|, NoFault));
  }

  // ----- tags ascend in every run -----

  // Requests were only added, each with the next tag.
  ghost predicate AddsTags(s: Driver, s': Driver) {
    && |s'.agents| >= |s.agents| && s'.agents[..|s.agents|] == s.agents
    && |s'.issued| == |s.issued| + (|s'.agents| - |s.agents|)
    && forall k :: |s.agents| <= k < |s'.agents| ==> s'.agents[k].tag == |s.issued| + (k - |s.agents|)
  }

  lemma DeleteAddsTags(s: Driver, c: nat, r: Resource)
    ensures AddsTags(s, DeleteResource(s, c, r))
  {
    hide Free;
  }

  lemma AddsTagsTwice(s: Driver, t: Driver, u: Driver)
    requires AddsTags(s, t) && AddsTags(t, u)
    ensures AddsTags(s, u)
  {
    assert u.agents[..|s.agents|] == u.agents[..|t.agents|][..|s.agents|];
    assert forall k :: 0 <= k < |t.agents| ==> u.agents[k] == u.agents[..|t.agents|][k];
  }

  lemma {:induction false} DrainAddsTags(s: Driver, c: nat, rs: seq<Resource>)
    ensures AddsTags(s, Drain(s, c, rs))
    decreases |rs|
  {
    hide DeleteResource;
    if rs != [] {
      var t := DeleteResource(s, c, rs[|rs| - 1]);
      DeleteAddsTags(s, c, rs[|rs| - 1]);
      DrainAddsTags(t, c, rs[..|rs| - 1]);
      AddsTagsTwice(s, t, Drain(s, c, rs));
    }
  }

  lemma AddsTagsOk(s: Driver, s': Driver)
    requires TagsOk(s) && AddsTags(s, s')
    ensures TagsOk(s')
  {
    assert forall k :: 0 <= k < |s.agents| ==> s'.agents[k] == s'.agents[..|s.agents|][k] == s.agents[k];
  }

  lemma AppendingAddsTags(s: Driver, op: Op)
    requires Appending(op)
    ensures AddsTags(s, Next(s, op))
  {
    if op.DestroyContext? {
      hide FindContext, Drain;
      if FindContext(s.contexts, op.ctx).Some? {
        var i := FindContext(s.contexts, op.ctx).value;
        var t := s.(contexts := Without(s.contexts, i));
        var u := Drain(t, op.ctx, s.contexts[i].resources);
        DrainAddsTags(t, op.ctx, s.contexts[i].resources);
        AddsTagsTwice(s, u, Emit(u, CtxDestroy(op.ctx)));
      }
    } else if op.CloseResource? {
      hide DeleteResource, Lookup, Remove;
      if Lookup(s.contexts, op.ctx, op.res).Some? {
        DeleteAddsTags(s.(contexts := Remove(s.contexts, op.ctx, op.res)), op.ctx, Lookup(s.contexts, op.ctx, op.res).value);
      }
    } else if op.CreateResource? || op.CreateBlobResource? {
      CreatingAddsTags(s, op);
    } else {
      OthersAddTags(s, op);
    }
  }

  lemma CreatingAddsTags(s: Driver, op: Op)
    requires op.CreateResource? || op.CreateBlobResource?
    ensures AddsTags(s, Next(s, op))
  {
    hide Allocate, Insert, FindContext, BufferBytes;
  }

  lemma OthersAddTags(s: Driver, op: Op)
    requires op.InitContext? || op.QueryCapset? || op.BeginMap? || op.EndMap? || op.BeginTransfer? || op.BeginSubmit?
    ensures AddsTags(s, Next(s, op))
  {
    if op.BeginTransfer? || op.BeginSubmit? {
      hide Allocate, FindContext, Lookup, RoundUp;
    } else {
      hide FindContext, Lookup, Store, Shared;
    }
  }

  lemma StepTags(s: Driver, op: Op)
    requires TagsOk(s)
    ensures TagsOk(Next(s, op))
  {
    hide Next;
    if Appending(op) {
      AppendingAddsTags(s, op);
      AddsTagsOk(s, Next(s, op));
    } else {
      MovingTags(s, op);
    }
  }

  lemma MovingTags(s: Driver, op: Op)
    requires TagsOk(s) && !Appending(op)
    ensures TagsOk(Next(s, op))
  {
    hide Next;
    var s' := Next(s, op);
    IssuesNothing(s, op);
    forall k | 0 <= k < |s'.agents|
      ensures var l := Before(s, op, s', k); l < |s.agents| && s'.agents[k].tag == s.agents[l].tag
    {
      var l := RequestOrigin(s, op, k);
    }
    assert forall j, k :: 0 <= j < k < |s'.agents| ==> Before(s, op, s', j) < Before(s, op, s', k);
  }

  lemma IssuesNothing(s: Driver, op: Op)
    requires !Appending(op)
    ensures Next(s, op).issued == s.issued && |Next(s, op).agents| <= |s.agents|
  {
    hide WriteOne, Lookup, Store, Free;
  }

  // In every run the tags of the requests ascend.
  lemma {:induction false} RunTags(s: Driver, ops: seq<Op>)
    requires TagsOk(s)
    ensures TagsOk(Run(s, ops))
    decreases |ops|
  {
    hide TagsOk, Next;
    if ops != [] {
      StepTags(s, ops[0]);
      RunTags(Next(s, ops[0]), ops[1..]);
    }
  }
}
