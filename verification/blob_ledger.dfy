// What the log says about the kernel mappings of blobs, and the ledger that every step keeps: a
// live blob has no address exactly as long as its MAP_BLOB has not completed or if its mapping has
// failed; the log shows one mapping and no unmapping for a live blob with an address, and
// nothing for any other live resource and for ids that are not issued yet. With the ledger, a
// call of MmUnmapIoSpace without an outstanding mapping can be told from the state in which a
// blob is deleted. Module IoMappings has the results.
module BlobLedger {
  import opened Wrappers
  import opened Paging
  import opened Arena
  import opened FenceRegister
  import opened Sums
  import opened Weights
  import opened DriverState
  import opened ResourceTable
  import opened BaseInvariant
  import opened Requests
  import opened Wakeup
  import opened ReleaseBalance
  import Idr

  // ----- what a step adds to the log -----

  function DrainLog(rs: seq<Resource>): seq<LogEntry> {
    if rs == [] then [] else DeleteLog(rs[|rs| - 1]) + DrainLog(rs[..|rs| - 1])
  }

  lemma {:induction false} DrainLogs(s: Driver, c: nat, rs: seq<Resource>)
    ensures Drain(s, c, rs).log == s.log + DrainLog(rs)
    decreases |rs|
  {
    hide Free, DeleteResource;
    if rs != [] {
      var last, front := rs[|rs| - 1], rs[..|rs| - 1];
      DeleteIs(s, c, last);
      DrainLogs(DeleteResource(s, c, last), c, front);
      assert s.log + DeleteLog(last) + DrainLog(front) == s.log + (DeleteLog(last) + DrainLog(front));
    }
  }

  // The resources that a call deletes, the newest first.
  function Deleted(s: Driver, op: Op): seq<Resource> {
    match op
    case CloseResource(c, id) => if Lookup(s.contexts, c, id).Some? then [Lookup(s.contexts, c, id).value] else []
    case DestroyContext(c) =>
      var i := FindContext(s.contexts, c);
      if i.Some? then s.contexts[i.value].resources else []
    case _ => []
  }

  // The step maps a blob.
  predicate Maps(s: Driver, op: Op) {
    op.MapIoSpace? && op.agent < |s.agents| && op.address != 0
    && s.agents[op.agent].cmd.MapBlob? && s.agents[op.agent].phase == Completing(0, Storing)
  }

  predicate NoMapping(log: seq<LogEntry>) {
    forall e :: e in log ==> !e.MapIo? && !e.UnmapIo?
  }

  lemma LogStep(s: Driver, op: Op) returns (added: seq<LogEntry>)
    ensures Next(s, op).log == s.log + added
    ensures if op.CloseResource? || op.DestroyContext? then added == DrainLog(Deleted(s, op))
            else if Maps(s, op) then
              var cmd := s.agents[op.agent].cmd;
              added == [MapIo(cmd.res, op.address, Lookup(s.contexts, cmd.ctx, cmd.res).Some?)]
            else NoMapping(added)
  {
    if op.CloseResource? {
      added := DrainLog(Deleted(s, op));
      CloseLog(s, op.ctx, op.res);
    } else if op.DestroyContext? {
      added := DrainLog(Deleted(s, op));
      hide Drain, DrainLog;
      if FindContext(s.contexts, op.ctx).Some? {
        var i := FindContext(s.contexts, op.ctx).value;
        DrainLogs(s.(contexts := Without(s.contexts, i)), op.ctx, s.contexts[i].resources);
      }
    } else {
      added := OtherLogs(s, op);
    }
  }

  lemma CloseLog(s: Driver, c: nat, id: nat)
    ensures DoClose(s, c, id).log == s.log + DrainLog(Deleted(s, CloseResource(c, id)))
  {
    hide DeleteResource, Remove, Lookup;
    if Lookup(s.contexts, c, id).Some? {
      var r := Lookup(s.contexts, c, id).value;
      DeleteIs(s.(contexts := Remove(s.contexts, c, id)), c, r);
      assert [r][..0] == [] && DrainLog([r]) == DeleteLog(r) + DrainLog([]);
    }
  }

  lemma OtherLogs(s: Driver, op: Op) returns (added: seq<LogEntry>)
    requires !op.CloseResource? && !op.DestroyContext?
    ensures Next(s, op).log == s.log + added
    ensures if Maps(s, op) then
              var cmd := s.agents[op.agent].cmd;
              added == [MapIo(cmd.res, op.address, Lookup(s.contexts, cmd.ctx, cmd.res).Some?)]
            else NoMapping(added)
  {
    added := [];
    if op.CreateResource? || op.CreateBlobResource? || op.BeginSubmit? {
      AllocatingLogs(s, op);
    } else if op.EndMap? {
      added := EndMapLogs(s, op.mapper, op.outcome);
    } else if op.Finish? || op.Collect? {
      added := LeavingLogs(s, op);
    } else if op.MapIoSpace? {
      added := MappingLogs(s, op.agent, op.address);
    } else {
      QuietLogs(s, op);
    }
  }

  lemma EndMapLogs(s: Driver, k: nat, outcome: MapOutcome) returns (added: seq<LogEntry>)
    ensures DoEndMap(s, k, outcome).log == s.log + added && NoMapping(added)
  {
    hide Lookup, Store, Shared;
    added := DoEndMap(s, k, outcome).log[|s.log|..];
  }

  lemma LeavingLogs(s: Driver, op: Op) returns (added: seq<LogEntry>)
    requires op.Finish? || op.Collect?
    ensures Next(s, op).log == s.log + added && NoMapping(added)
  {
    hide Free;
    added := if Next(s, op) == s then []
             else if op.Finish? then Releases(s.agents[op.agent])
             else [FreeBuffer(s.agents[op.agent].tag)];
  }

  lemma MappingLogs(s: Driver, i: nat, address: nat) returns (added: seq<LogEntry>)
    ensures DoMapIoSpace(s, i, address).log == s.log + added
    ensures if Maps(s, MapIoSpace(i, address)) then
              var cmd := s.agents[i].cmd;
              added == [MapIo(cmd.res, address, Lookup(s.contexts, cmd.ctx, cmd.res).Some?)]
            else added == []
  {
    hide Lookup, Store;
    added := DoMapIoSpace(s, i, address).log[|s.log|..];
  }

  lemma QuietLogs(s: Driver, op: Op)
    requires Moves(op) || op.InitContext? || op.QueryCapset? || op.BeginMap? || op.BeginTransfer?
    requires !op.MapIoSpace?
    ensures Next(s, op).log == s.log
  {
    hide Lookup, FindContext, WriteOne;
  }

  lemma AllocatingLogs(s: Driver, op: Op)
    requires op.CreateResource? || op.CreateBlobResource? || op.BeginSubmit?
    ensures Next(s, op).log == s.log
  {
    hide Allocate, FindContext, Insert, BufferBytes, Idr.GetWithoutCache, RoundUp;
  }

  // ----- unmapping without a mapping -----

  function MapCount(log: seq<LogEntry>, id: nat): nat {
    if log == [] then 0
    else MapCount(log[..|log| - 1], id) + if log[|log| - 1].MapIo? && log[|log| - 1].res == id then 1 else 0
  }

  function UnmapCount(log: seq<LogEntry>, id: nat): nat {
    if log == [] then 0
    else UnmapCount(log[..|log| - 1], id) + if log[|log| - 1].UnmapIo? && log[|log| - 1].res == id then 1 else 0
  }

  // MmUnmapIoSpace is called for a blob of which no mapping is outstanding.
  ghost predicate StrayAt(log: seq<LogEntry>, p: nat) {
    p < |log| && log[p].UnmapIo? && MapCount(log[..p], log[p].res) <= UnmapCount(log[..p], log[p].res)
  }

  ghost predicate Stray(log: seq<LogEntry>) {
    exists p :: StrayAt(log, p)
  }

  lemma StrayPush(log: seq<LogEntry>, e: LogEntry)
    ensures Stray(log + [e]) <==> Stray(log) || (e.UnmapIo? && MapCount(log, e.res) <= UnmapCount(log, e.res))
  {
    hide MapCount, UnmapCount;
    var more := log + [e];
    forall p: nat
      ensures StrayAt(more, p) <==>
                StrayAt(log, p) || (p == |log| && e.UnmapIo? && MapCount(log, e.res) <= UnmapCount(log, e.res))
    {
      assert p <= |log| ==> more[..p] == log[..p];
      assert log[..|log|] == log;
    }
    assert Stray(log) ==> exists p :: StrayAt(more, p);
    assert e.UnmapIo? && MapCount(log, e.res) <= UnmapCount(log, e.res) ==> StrayAt(more, |log|);
  }

  lemma CountPush(log: seq<LogEntry>, e: LogEntry, id: nat)
    ensures MapCount(log + [e], id) == MapCount(log, id) + if e.MapIo? && e.res == id then 1 else 0
    ensures UnmapCount(log + [e], id) == UnmapCount(log, id) + if e.UnmapIo? && e.res == id then 1 else 0
  {
    assert (log + [e])[..|log|] == log;
  }

  lemma {:induction false} PlainLog(log: seq<LogEntry>, added: seq<LogEntry>)
    requires NoMapping(added)
    ensures Stray(log + added) <==> Stray(log)
    ensures forall id ::
              MapCount(log + added, id) == MapCount(log, id) && UnmapCount(log + added, id) == UnmapCount(log, id)
  {
    hide Stray;
    if added == [] {
      assert log + added == log;
    } else {
      var front, e := added[..|added| - 1], added[|added| - 1];
      PlainLog(log, front);
      assert log + added == log + front + [e];
      StrayPush(log + front, e);
      forall id: nat
        ensures MapCount(log + added, id) == MapCount(log, id) && UnmapCount(log + added, id) == UnmapCount(log, id)
      {
        CountPush(log + front, e, id);
      }
    }
  }

  // What the log says of a live resource: mapped if it is a blob with an address, never unmapped.
  predicate Accounted(log: seq<LogEntry>, r: Resource) {
    && UnmapCount(log, r.id) == 0
    && MapCount(log, r.id) == if r.backing.Blob? && r.backing.address.Some? then 1 else 0
  }

  lemma DeleteStray(log: seq<LogEntry>, r: Resource)
    requires Accounted(log, r)
    ensures Stray(log + DeleteLog(r)) <==> Stray(log) || r.backing == Blob(None)
    ensures forall id :: id != r.id ==>
              MapCount(log + DeleteLog(r), id) == MapCount(log, id)
                  && UnmapCount(log + DeleteLog(r), id) == UnmapCount(log, id)
  {
    hide Stray, MapCount, UnmapCount;
    var freed := if r.backing.NoBuffer? || r.mdl.None? || r.user == 0 then [] else [FreeMdl(r.mdl.value)];
    PlainLog(log, freed);
    if r.backing.Blob? {
      var e := UnmapIo(r.id, r.backing.address);
      assert log + DeleteLog(r) == log + freed + [e];
      StrayPush(log + freed, e);
      forall id: nat | id != r.id
        ensures MapCount(log + DeleteLog(r), id) == MapCount(log, id)
        ensures UnmapCount(log + DeleteLog(r), id) == UnmapCount(log, id)
      {
        CountPush(log + freed, e, id);
      }
    } else {
      assert DeleteLog(r) == freed;
    }
  }

  lemma {:induction false} DrainStray(log: seq<LogEntry>, rs: seq<Resource>)
    requires Descending(rs) && forall r :: r in rs ==> Accounted(log, r)
    ensures Stray(log + DrainLog(rs)) <==> Stray(log) || exists r :: r in rs && r.backing == Blob(None)
    ensures forall id :: (forall r :: r in rs ==> r.id != id) ==>
              MapCount(log + DrainLog(rs), id) == MapCount(log, id)
                  && UnmapCount(log + DrainLog(rs), id) == UnmapCount(log, id)
    decreases |rs|
  {
    hide Stray, MapCount, UnmapCount, DeleteLog;
    if rs == [] {
      assert log + DrainLog(rs) == log;
    } else {
      var last, front := rs[|rs| - 1], rs[..|rs| - 1];
      DeleteStray(log, last);
      forall r | r in front
        ensures Accounted(log + DeleteLog(last), r)
      {
        assert Accounted(log, r) && r.id != last.id;
      }
      DrainStray(log + DeleteLog(last), front);
      assert log + DrainLog(rs) == log + DeleteLog(last) + DrainLog(front);
      assert forall r :: r in rs <==> r == last || r in front;
    }
  }

  // ----- blobs that are not mapped -----

  ghost predicate HasPendingMap(agents: seq<Agent>, c: nat, id: nat) {
    exists k :: 0 <= k < |agents| && MapPending(agents[k]) && agents[k].cmd == MapBlob(c, id)
  }

  // The MAP_BLOB of the blob has not completed, or its mapping has failed.
  ghost predicate Unready(s: Driver, c: nat, id: nat) {
    HasPendingMap(s.agents, c, id) || (c, id) in s.failedMaps
  }

  // A pending MAP_BLOB has not failed, and no other context has its blob.
  ghost predicate PendingOk(s: Driver, a: Agent) {
    a.cmd.MapBlob? ==>
      && (MapPending(a) ==> (a.cmd.ctx, a.cmd.res) !in s.failedMaps)
      && forall c :: Lookup(s.contexts, c, a.cmd.res).Some? ==> c == a.cmd.ctx
  }

  ghost predicate ResourceKnown(s: Driver, c: nat, id: nat) {
    var r := Lookup(s.contexts, c, id);
    r.Some? ==> Accounted(s.log, r.value) && (r.value.backing == Blob(None) <==> Unready(s, c, id))
  }

  ghost predicate Ledger(s: Driver) {
    && (forall c, id :: ResourceKnown(s, c, id))
    && (forall k :: 0 <= k < |s.agents| ==> PendingOk(s, s.agents[k]))
    && (forall f :: f in s.failedMaps ==> f.1 < s.resourceIds.next)
    && (forall id: nat :: id >= s.resourceIds.next ==> MapCount(s.log, id) == UnmapCount(s.log, id) == 0)
  }

  // ----- the ledger over a step -----

  lemma NewMapBlob(s: Driver, op: Op, k: nat)
    requires IdsFit(Next(s, op)) && op.CreateBlobResource? && |s.agents| <= k < |Next(s, op).agents|
    ensures FindContext(s.contexts, op.ctx).Some? && |Next(s, op).agents| == |s.agents| + 2
    ensures Next(s, op).agents[|s.agents| + 1].cmd == MapBlob(op.ctx, s.resourceIds.next)
    ensures !Next(s, op).agents[|s.agents|].cmd.MapBlob?
  {
    hide Insert, FindContext;
  }

  // A MAP_BLOB was there before, pending if it is now, or has come with its blob.
  lemma MapBlobBefore(s: Driver, op: Op, k: nat)
    requires Base(s) && IdsFit(Next(s, op)) && k < |Next(s, op).agents| && Next(s, op).agents[k].cmd.MapBlob?
    ensures var (a, l) := (Next(s, op).agents[k], Before(s, op, Next(s, op), k));
            if l < |s.agents| then a.cmd == s.agents[l].cmd && (MapPending(a) ==> MapPending(s.agents[l]))
            else op.CreateBlobResource? && a.cmd == MapBlob(op.ctx, s.resourceIds.next)
  {
    hide Next, Lookup, FindContext, WellFormed;
    var l := RequestOrigin(s, op, k);
    if l < |s.agents| {
      assert MapTargetOk(s, s.agents[l]);
    } else {
      NewMapBlob(s, op, k);
    }
  }

  lemma FailuresStep(s: Driver, op: Op)
    ensures var s' := Next(s, op);
            || s'.failedMaps == s.failedMaps
            || (&& op.MapIoSpace? && op.address == 0 && op.agent < |s.agents| && |s'.agents| == |s.agents|
                && MapPending(s.agents[op.agent]) && !MapPending(s'.agents[op.agent])
                && s'.failedMaps == s.failedMaps + {(s.agents[op.agent].cmd.ctx, s.agents[op.agent].cmd.res)})
  {
    if Appending(op) {
      AppendingFailures(s, op);
    } else {
      hide Free, Lookup, Store, WriteOne;
    }
  }

  // A pending MAP_BLOB whose blob is live stays pending until it has mapped it, or failed to.
  lemma PendingStays(s: Driver, op: Op, k: nat)
    requires k < |s.agents| && MapPending(s.agents[k])
    requires Lookup(s.contexts, s.agents[k].cmd.ctx, s.agents[k].cmd.res).Some?
    ensures var (c, id) := (s.agents[k].cmd.ctx, s.agents[k].cmd.res);
            || HasPendingMap(Next(s, op).agents, c, id)
            || (c, id) in Next(s, op).failedMaps
            || (Maps(s, op) && op.agent == k)
  {
    hide Next, Lookup;
    var s' := Next(s, op);
    if s' == s {
    } else if Appending(op) {
      StepAppends(s, op);
      assert s'.agents[..|s.agents|][k] == s'.agents[k];
    } else if op.Finish? || op.Collect? {
      LeaverIsDone(s, op);
      assert s'.agents[if k < op.agent then k else k - 1] == s.agents[k];
    } else {
      PendingMoves(s, op, k);
    }
  }

  lemma LeaverIsDone(s: Driver, op: Op)
    requires (op.Finish? || op.Collect?) && Next(s, op) != s
    ensures op.agent < |s.agents| && Next(s, op).agents == Without(s.agents, op.agent) && !MapPending(s.agents[op.agent])
  {
    hide Free;
  }

  lemma PendingMoves(s: Driver, op: Op, k: nat)
    requires Moves(op) && k < |s.agents| && MapPending(s.agents[k])
    requires Lookup(s.contexts, s.agents[k].cmd.ctx, s.agents[k].cmd.res).Some?
    ensures var s' := Next(s, op);
            || (|s'.agents| == |s.agents| && s'.agents[k].cmd == s.agents[k].cmd && MapPending(s'.agents[k]))
            || (s.agents[k].cmd.ctx, s.agents[k].cmd.res) in s'.failedMaps
            || (Maps(s, op) && op.agent == k)
  {
    hide Lookup, Store, WriteOne;
  }

  lemma StepPendingOk(s: Driver, op: Op, k: nat)
    requires Ledger(s) && Base(s) && IdsFit(Next(s, op)) && k < |Next(s, op).agents|
    ensures PendingOk(Next(s, op), Next(s, op).agents[k])
  {
    hide Next, Lookup, ResourceKnown, WellFormed;
    var s' := Next(s, op);
    var a := s'.agents[k];
    if a.cmd.MapBlob? {
      MapBlobBefore(s, op, k);
      FailuresStep(s, op);
      var l := Before(s, op, s', k);
      forall c: nat | Lookup(s'.contexts, c, a.cmd.res).Some?
        ensures c == a.cmd.ctx
      {
        ResourceStep(s, op, c, a.cmd.res);
        LookupBelow(s.contexts, s.resourceIds.next, c, a.cmd.res);
        if l < |s.agents| {
          assert PendingOk(s, s.agents[l]) && MapTargetOk(s, s.agents[l]);
        }
      }
      if l < |s.agents| {
        assert PendingOk(s, s.agents[l]) && MapTargetOk(s, s.agents[l]);
        if s'.failedMaps != s.failedMaps {
          assert k == l && (k != op.agent ==> a.cmd.res != s.agents[op.agent].cmd.res);
        }
      }
    }
  }

  // The log of a step says nothing about ids that are not deleted or mapped by it.
  lemma StepCounts(s: Driver, op: Op, id: nat)
    requires Ledger(s) && Base(s)
    requires forall r :: r in Deleted(s, op) ==> r.id != id
    ensures var (log, log') := (s.log, Next(s, op).log);
            && UnmapCount(log', id) == UnmapCount(log, id)
            && MapCount(log', id) == MapCount(log, id) + if Maps(s, op) && s.agents[op.agent].cmd.res == id then 1 else 0
  {
    hide Next, Lookup, Ledger, Base, Stray, DrainLog, Deleted, FindContext;
    var added := LogStep(s, op);
    if op.CloseResource? || op.DestroyContext? {
      DeletedKnown(s, op);
      DrainStray(s.log, Deleted(s, op));
    } else if Maps(s, op) {
      CountPush(s.log, added[0], id);
    } else {
      PlainLog(s.log, added);
    }
  }

  // What a call deletes is live, in the order of ids, and known.
  lemma DeletedKnown(s: Driver, op: Op)
    requires Ledger(s) && Base(s)
    ensures Descending(Deleted(s, op))
    ensures forall r :: r in Deleted(s, op) ==>
              Accounted(s.log, r) && Lookup(s.contexts, op.ctx, r.id) == Some(r)
              && (r.backing == Blob(None) <==> Unready(s, op.ctx, r.id))
    ensures Deleted(s, op) != [] ==> op.CloseResource? || op.DestroyContext?
  {
    hide Accounted, Unready, MapsOk;
    if op.CloseResource? {
      LookupFinds(s.contexts, op.ctx, op.res);
      assert ResourceKnown(s, op.ctx, op.res);
    } else if op.DestroyContext? && FindContext(s.contexts, op.ctx).Some? {
      var i := FindContext(s.contexts, op.ctx).value;
      var rs := s.contexts[i].resources;
      forall r | r in rs
        ensures Accounted(s.log, r) && Lookup(s.contexts, op.ctx, r.id) == Some(r)
        ensures r.backing == Blob(None) <==> Unready(s, op.ctx, r.id)
      {
        var j :| 0 <= j < |rs| && rs[j] == r;
        LookupAt(s.contexts, s.resourceIds.next, i, j);
        assert ResourceKnown(s, op.ctx, r.id);
      }
    }
  }

  // What is live after a call has not been deleted by it.
  lemma SurvivorNotDeleted(s: Driver, op: Op, c: nat, id: nat)
    requires Ledger(s) && Base(s) && IdsFit(Next(s, op)) && id < s.resourceIds.next
    requires Lookup(Next(s, op).contexts, c, id).Some?
    ensures forall r :: r in Deleted(s, op) ==> r.id != id
    ensures Lookup(s.contexts, c, id).Some?
  {
    hide Next, Lookup, Ledger, Deleted, FindContext;
    ResourceStep(s, op, c, id);
    DeletedKnown(s, op);
    forall r | r in Deleted(s, op)
      ensures r.id != id
    {
      if r.id == id {
        assert OneOwner(s.contexts);
        assert op.ctx == c;
        DeletedGone(s, op, r);
      }
    }
  }

  lemma DeletedGone(s: Driver, op: Op, r: Resource)
    requires Base(s) && (op.CloseResource? || op.DestroyContext?) && r in Deleted(s, op)
    ensures Lookup(Next(s, op).contexts, op.ctx, r.id).None?
  {
    hide Next, Lookup;
    ListStep(s, op, op.ctx, r.id);
    if op.CloseResource? {
      LookupFinds(s.contexts, op.ctx, op.res);
    }
  }

  lemma UnreadyBefore(s: Driver, op: Op, c: nat, id: nat)
    requires Ledger(s) && Base(s) && IdsFit(Next(s, op)) && id < s.resourceIds.next
    requires Unready(Next(s, op), c, id)
    ensures Unready(s, c, id) && !Mapping(s, op, c, id)
  {
    hide Next, Lookup, ResourceKnown, WellFormed;
    var s' := Next(s, op);
    FailuresStep(s, op);
    if HasPendingMap(s'.agents, c, id) {
      var k :| 0 <= k < |s'.agents| && MapPending(s'.agents[k]) && s'.agents[k].cmd == MapBlob(c, id);
      MapBlobBefore(s, op, k);
      PendingNotMapped(s, op, k);
      assert HasPendingMap(s.agents, c, id);
    } else {
      if (c, id) !in s.failedMaps {
        assert MapPending(s.agents[op.agent]) && s.agents[op.agent].cmd == MapBlob(c, id);
      }
      if Mapping(s, op, c, id) {
        MappingWasPending(s, op);
      }
    }
  }

  lemma UnreadyStays(s: Driver, op: Op, c: nat, id: nat)
    requires Unready(s, c, id) && !Mapping(s, op, c, id) && Lookup(s.contexts, c, id).Some?
    ensures Unready(Next(s, op), c, id)
  {
    hide Next, Lookup;
    FailuresStep(s, op);
    if HasPendingMap(s.agents, c, id) {
      var k :| 0 <= k < |s.agents| && MapPending(s.agents[k]) && s.agents[k].cmd == MapBlob(c, id);
      PendingStays(s, op, k);
    }
  }

  predicate Mapping(s: Driver, op: Op, c: nat, id: nat) {
    Maps(s, op) && s.agents[op.agent].cmd == MapBlob(c, id)
  }

  lemma MappingWasPending(s: Driver, op: Op)
    requires Maps(s, op)
    ensures op.agent < |s.agents| && MapPending(s.agents[op.agent]) && Next(s, op).failedMaps == s.failedMaps
  {
    hide Lookup, Store;
  }

  // A blob that the step maps has no pending MAP_BLOB after it.
  lemma PendingNotMapped(s: Driver, op: Op, k: nat)
    requires Base(s) && IdsFit(Next(s, op)) && k < |Next(s, op).agents| && MapPending(Next(s, op).agents[k])
    ensures Maps(s, op) ==> s.agents[op.agent].cmd.res != Next(s, op).agents[k].cmd.res
  {
    if Maps(s, op) {
      hide Lookup, Store, WellFormed;
    }
  }

  lemma StepKnown(s: Driver, op: Op, c: nat, id: nat)
    requires Ledger(s) && Base(s) && IdsFit(Next(s, op))
    ensures ResourceKnown(Next(s, op), c, id)
  {
    hide Next, Lookup, MapCount, UnmapCount, Maps, Unready, Deleted;
    var s' := Next(s, op);
    if Lookup(s'.contexts, c, id).Some? {
      ResourceStep(s, op, c, id);
      if Lookup(s.contexts, c, id).None? {
        CreatedKnown(s, op, c, id);
      } else {
        LookupBelow(s.contexts, s.resourceIds.next, c, id);
        SurvivorKnown(s, op, c, id);
      }
    }
  }

  lemma SurvivorKnown(s: Driver, op: Op, c: nat, id: nat)
    requires Ledger(s) && Base(s) && IdsFit(Next(s, op)) && id < s.resourceIds.next
    requires Lookup(s.contexts, c, id).Some? && Lookup(Next(s, op).contexts, c, id).Some?
    ensures ResourceKnown(Next(s, op), c, id)
  {
    hide Next, Lookup, MapCount, UnmapCount, Unready, Deleted, Base;
    assert ResourceKnown(s, c, id);
    ResourceStep(s, op, c, id);
    SurvivorNotDeleted(s, op, c, id);
    StepCounts(s, op, id);
    if Unready(Next(s, op), c, id) {
      UnreadyBefore(s, op, c, id);
    } else if Unready(s, c, id) && !Mapping(s, op, c, id) {
      UnreadyStays(s, op, c, id);
    }
    LookupFinds(s.contexts, c, id);
    if Maps(s, op) {
      MappedKnown(s, op, c, id);
    }
  }

  // The blob that the step maps has no other owner, and gets the address.
  lemma MappedKnown(s: Driver, op: Op, c: nat, id: nat)
    requires Ledger(s) && Base(s) && Maps(s, op) && Lookup(s.contexts, c, id).Some?
    ensures s.agents[op.agent].cmd.res == id ==> s.agents[op.agent].cmd == MapBlob(c, id)
    ensures s.agents[op.agent].cmd == MapBlob(c, id) ==>
              Lookup(s.contexts, c, id).value.backing == Blob(None)
              && Lookup(Next(s, op).contexts, c, id) == Some(Exposed(Lookup(s.contexts, c, id).value, op.address))
  {
    hide Lookup, Store, ResourceKnown, WellFormed;
    assert PendingOk(s, s.agents[op.agent]) && MapTargetOk(s, s.agents[op.agent]);
    LookupMapIoSpace(s, op.agent, op.address, c, id);
  }

  lemma CreatedKnown(s: Driver, op: Op, c: nat, id: nat)
    requires Ledger(s) && Base(s) && IdsFit(Next(s, op))
    requires Lookup(s.contexts, c, id).None? && Lookup(Next(s, op).contexts, c, id).Some?
    ensures ResourceKnown(Next(s, op), c, id)
  {
    hide Next, Lookup, MapCount, UnmapCount, ResourceKnown, WellFormed;
    var s' := Next(s, op);
    ResourceStep(s, op, c, id);
    LookupFinds(s'.contexts, c, id);
    AllocatingLogs(s, op);
    FailuresStep(s, op);
    CreatedReady(s, op, c, id);
    var r := Lookup(s'.contexts, c, id).value;
    assert Accounted(s'.log, r);
    KnownIs(s', c, id);
  }

  lemma KnownIs(s: Driver, c: nat, id: nat)
    requires Lookup(s.contexts, c, id).Some?
    ensures ResourceKnown(s, c, id) <==>
              Accounted(s.log, Lookup(s.contexts, c, id).value)
              && (Lookup(s.contexts, c, id).value.backing == Blob(None) <==> Unready(s, c, id))
  {
  }

  lemma CreatedReady(s: Driver, op: Op, c: nat, id: nat)
    requires Ledger(s) && Base(s) && IdsFit(Next(s, op)) && (op.CreateResource? || op.CreateBlobResource?)
    requires id == s.resourceIds.next && c == op.ctx
    requires Lookup(s.contexts, c, id).None? && Lookup(Next(s, op).contexts, c, id).Some?
    ensures Unready(Next(s, op), c, id) <==> op.CreateBlobResource?
  {
    hide Next, Lookup, ResourceKnown, WellFormed;
    var s' := Next(s, op);
    FailuresStep(s, op);
    if op.CreateBlobResource? {
      BlobComesAlong(s, op);
    } else if HasPendingMap(s'.agents, c, id) {
      var k :| 0 <= k < |s'.agents| && MapPending(s'.agents[k]) && s'.agents[k].cmd == MapBlob(c, id);
      MapBlobBefore(s, op, k);
    }
  }

  lemma BlobComesAlong(s: Driver, op: Op)
    requires IdsFit(Next(s, op)) && op.CreateBlobResource? && Next(s, op).contexts != s.contexts
    ensures HasPendingMap(Next(s, op).agents, op.ctx, s.resourceIds.next)
  {
    hide Insert, FindContext;
    var agents := Next(s, op).agents;
    assert agents[|agents| - 1].cmd == MapBlob(op.ctx, s.resourceIds.next) && MapPending(agents[|agents| - 1]);
  }

  lemma StepLedger(s: Driver, op: Op)
    requires Ledger(s) && Base(s) && IdsFit(Next(s, op))
    ensures Ledger(Next(s, op))
  {
    hide Next, Lookup, MapCount, UnmapCount, ResourceKnown, PendingOk, WellFormed, Deleted;
    var s' := Next(s, op);
    CountersGrow(s, op);
    FailuresStep(s, op);
    forall c: nat, id: nat
      ensures ResourceKnown(s', c, id)
    {
      StepKnown(s, op, c, id);
    }
    forall k | 0 <= k < |s'.agents|
      ensures PendingOk(s', s'.agents[k])
    {
      StepPendingOk(s, op, k);
    }
    if s'.failedMaps != s.failedMaps {
      assert MapTargetOk(s, s.agents[op.agent]);
    }
    forall id: nat | id >= s'.resourceIds.next
      ensures MapCount(s'.log, id) == UnmapCount(s'.log, id) == 0
    {
      DeletedBelow(s, op);
      StepCounts(s, op, id);
      if Maps(s, op) {
        assert MapTargetOk(s, s.agents[op.agent]);
      }
    }
  }

  lemma DeletedBelow(s: Driver, op: Op)
    requires Ledger(s) && Base(s)
    ensures forall r :: r in Deleted(s, op) ==> r.id < s.resourceIds.next
  {
    hide Ledger, Lookup, Deleted;
    DeletedKnown(s, op);
    forall r | r in Deleted(s, op)
      ensures r.id < s.resourceIds.next
    {
      LookupBelow(s.contexts, s.resourceIds.next, op.ctx, r.id);
    }
  }
}
