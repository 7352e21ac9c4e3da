// The kernel mappings of blobs: MmMapIoSpaceEx when a MAP_BLOB completes, MmUnmapIoSpace when the
// blob is deleted, whether it is mapped or not. Exactly when the two are balanced.
module IoMappings {
  import opened Wrappers
  import opened Paging
  import opened Arena
  import opened FenceRegister
  import opened Sums
  import opened Weights
  import opened DriverState
  import opened ResourceTable
  import opened BaseInvariant
  import opened Requests
  import opened Wakeup
  import opened ReleaseBalance
  import opened BlobLedger
  import Idr

  // ----- mappings that are never undone -----

  ghost predicate LiveAt(s: Driver, id: nat, address: nat) {
    exists i, j :: 0 <= i < |s.contexts| && 0 <= j < |s.contexts[i].resources|
                   && s.contexts[i].resources[j].id == id
                   && s.contexts[i].resources[j].backing == Blob(Some(address))
  }

  function Made(log: seq<LogEntry>, id: nat, address: nat): nat {
    multiset(log)[MapIo(id, address, true)] + multiset(log)[MapIo(id, address, false)]
  }

  // Every mapping has been undone, or the live blob that it was made for has it.
  ghost predicate MappingsBalanced(s: Driver) {
    forall id: nat, address: nat ::
      Made(s.log, id, address) == multiset(s.log)[UnmapIo(id, Some(address))] + if LiveAt(s, id, address) then 1 else 0
  }

  // At most one position has a positive weight.
  lemma {:induction false} SumOfOne<T>(xs: seq<T>, f: T -> nat)
    requires forall i :: 0 <= i < |xs| ==> f(xs[i]) <= 1
    requires forall i, j :: 0 <= i < j < |xs| ==> f(xs[i]) == 0 || f(xs[j]) == 0
    ensures Sum(xs, f) <= 1
  {
    if xs != [] {
      SumOfOne(xs[1..], f);
      if f(xs[0]) > 0 && Sum(xs[1..], f) > 0 {
        var j := SumPositive(xs[1..], f);
      }
    }
  }

  // Ids are unique, so at most one resource has the mapping.
  lemma HeldOnce(s: Driver, id: nat, address: nat)
    requires Base(s)
    ensures Sum(s.contexts, ContextSum(ResourceDuty(UnmapIo(id, Some(address))))) == if LiveAt(s, id, address) then 1 else 0
  {
    hide Base, WellFormed;
    var f := ResourceDuty(UnmapIo(id, Some(address)));
    forall i | 0 <= i < |s.contexts|
      ensures Sum(s.contexts[i].resources, f) <= 1
    {
      HeldInContext(s, i, f, id, address);
    }
    forall i, j | 0 <= i < j < |s.contexts|
      ensures ContextSum(f)(s.contexts[i]) == 0 || ContextSum(f)(s.contexts[j]) == 0
    {
      if ContextSum(f)(s.contexts[i]) > 0 && ContextSum(f)(s.contexts[j]) > 0 {
        var k := SumPositive(s.contexts[i].resources, f);
        var l := SumPositive(s.contexts[j].resources, f);
        SameOwner(s, i, k, j, l);
      }
    }
    SumOfOne(s.contexts, ContextSum(f));
    HeldSomewhere(s, id, address);
  }

  lemma HeldInContext(s: Driver, i: nat, f: Resource -> nat, id: nat, address: nat)
    requires Base(s) && i < |s.contexts| && f == ResourceDuty(UnmapIo(id, Some(address)))
    ensures Sum(s.contexts[i].resources, f) <= 1
  {
    SumOfOne(s.contexts[i].resources, f);
  }

  lemma SameOwner(s: Driver, i: nat, k: nat, j: nat, l: nat)
    requires Base(s) && i < |s.contexts| && j < |s.contexts| && k < |s.contexts[i].resources|
             && l < |s.contexts[j].resources|
    requires s.contexts[i].resources[k].id == s.contexts[j].resources[l].id
    ensures i == j
  {
    LookupAt(s.contexts, s.resourceIds.next, i, k);
    LookupAt(s.contexts, s.resourceIds.next, j, l);
  }

  lemma HeldSomewhere(s: Driver, id: nat, address: nat)
    ensures Sum(s.contexts, ContextSum(ResourceDuty(UnmapIo(id, Some(address))))) > 0 <==> LiveAt(s, id, address)
  {
    var f := ResourceDuty(UnmapIo(id, Some(address)));
    if Sum(s.contexts, ContextSum(f)) > 0 {
      var i := SumPositive(s.contexts, ContextSum(f));
      var j := SumPositive(s.contexts[i].resources, f);
      assert s.contexts[i].resources[j].backing == Blob(Some(address));
    }
    forall i, j | 0 <= i < |s.contexts| && 0 <= j < |s.contexts[i].resources|
                  && s.contexts[i].resources[j].id == id
                  && s.contexts[i].resources[j].backing == Blob(Some(address))
      ensures Sum(s.contexts, ContextSum(f)) > 0
    {
      SumSplit(s.contexts, i, ContextSum(f));
      SumSplit(s.contexts[i].resources, j, f);
    }
  }

  ghost predicate Leaked(log: seq<LogEntry>) {
    exists id, address :: MapIo(id, address, false) in log
  }

  lemma BalancedIffNoneLeaked(s: Driver)
    requires Balanced(s) && Base(s)
    ensures MappingsBalanced(s) <==> !Leaked(s.log)
  {
    hide Sum, Base;
    forall id: nat, address: nat
      ensures multiset(s.log)[UnmapIo(id, Some(address))] + (if LiveAt(s, id, address) then 1 else 0)
              == multiset(s.log)[MapIo(id, address, true)]
    {
      var rel := UnmapIo(id, Some(address));
      assert Balance(s, rel);
      NoDuty(s.agents, rel);
      HeldOnce(s, id, address);
    }
    if Leaked(s.log) {
      var id, address :| MapIo(id, address, false) in s.log;
      assert multiset(s.log)[MapIo(id, address, false)] > 0;
      assert Made(s.log, id, address) > multiset(s.log)[MapIo(id, address, true)];
    } else {
      forall id: nat, address: nat
        ensures multiset(s.log)[MapIo(id, address, false)] == 0
      {
        assert MapIo(id, address, false) !in s.log;
      }
    }
  }

  // A blob that is being mapped is still there when its address is stored.
  predicate FindsBlob(s: Driver, op: Op) {
    Maps(s, op) ==> Lookup(s.contexts, s.agents[op.agent].cmd.ctx, s.agents[op.agent].cmd.res).Some?
  }

  ghost predicate MappingsFindBlobs(s: Driver, ops: seq<Op>)
    decreases |ops|
  {
    ops != [] ==> FindsBlob(s, ops[0]) && MappingsFindBlobs(Next(s, ops[0]), ops[1..])
  }

  lemma {:induction false} DrainLeaksNothing(rs: seq<Resource>)
    ensures forall e :: e in DrainLog(rs) ==> !e.MapIo?
  {
    if rs != [] {
      DrainLeaksNothing(rs[..|rs| - 1]);
    }
  }

  lemma LeakedAppend(a: seq<LogEntry>, b: seq<LogEntry>)
    ensures Leaked(a + b) <==> Leaked(a) || Leaked(b)
  {
    assert forall e :: e in a + b <==> e in a || e in b;
  }

  lemma StepLeaked(s: Driver, op: Op)
    ensures Leaked(Next(s, op).log) <==> Leaked(s.log) || !FindsBlob(s, op)
  {
    hide Next, Lookup, DrainLog, Deleted;
    var added := LogStep(s, op);
    LeakedAppend(s.log, added);
    if op.CloseResource? || op.DestroyContext? {
      DrainLeaksNothing(Deleted(s, op));
    } else if Maps(s, op) {
      var cmd := s.agents[op.agent].cmd;
      assert MapIo(cmd.res, op.address, Lookup(s.contexts, cmd.ctx, cmd.res).Some?) in added;
    }
  }

  lemma {:induction false} RunLeaked(s: Driver, ops: seq<Op>)
    ensures Leaked(Run(s, ops).log) <==> Leaked(s.log) || !MappingsFindBlobs(s, ops)
    decreases |ops|
  {
    hide Next, Leaked, FindsBlob;
    if ops != [] {
      StepLeaked(s, ops[0]);
      RunLeaked(Next(s, ops[0]), ops[1..]);
    }
  }

  // In every run: every mapping of a blob is undone once its blob is deleted, and none without
  // having been made, if and only if every blob that is mapped is still there when the address
  // is stored.
  lemma MappingOutstandingIffLive(pages: nat, ops: seq<Op>)
    requires IdsFit(Run(Initial(pages), ops))
    ensures MappingsBalanced(Run(Initial(pages), ops)) <==> MappingsFindBlobs(Initial(pages), ops)
  {
    hide Run, Next, MappingsBalanced, MappingsFindBlobs;
    BalancedFromStart(pages, ops);
    InitialBase(pages);
    RunBase(Initial(pages), ops);
    BalancedIffNoneLeaked(Run(Initial(pages), ops));
    RunLeaked(Initial(pages), ops);
    NothingLogged(pages);
  }

  lemma NothingLogged(pages: nat)
    ensures Initial(pages).log == [] && !Leaked(Initial(pages).log)
  {
  }

  // The call deletes no blob whose MAP_BLOB has not completed or whose mapping has failed.
  ghost predicate DeletesReady(s: Driver, op: Op) {
    match op
    case CloseResource(c, id) => Lookup(s.contexts, c, id).Some? ==> !Unready(s, c, id)
    case DestroyContext(c) =>
      var i := FindContext(s.contexts, c);
      i.Some? ==> forall r :: r in s.contexts[i.value].resources ==> !Unready(s, c, r.id)
    case _ => true
  }

  // ----- exactly when -----

  lemma StepStray(s: Driver, op: Op)
    requires Ledger(s) && Base(s)
    ensures Stray(Next(s, op).log) <==> Stray(s.log) || !DeletesReady(s, op)
  {
    hide Next, Lookup, Ledger, Base, Stray, DrainLog, Unready;
    var added := LogStep(s, op);
    if op.CloseResource? || op.DestroyContext? {
      DeletedKnown(s, op);
      DrainStray(s.log, Deleted(s, op));
      DeletesReadyIs(s, op);
    } else if Maps(s, op) {
      StrayPush(s.log, added[0]);
    } else {
      PlainLog(s.log, added);
    }
  }

  lemma DeletesReadyIs(s: Driver, op: Op)
    requires op.CloseResource? || op.DestroyContext?
    ensures DeletesReady(s, op) <==> forall r :: r in Deleted(s, op) ==> !Unready(s, op.ctx, r.id)
  {
    hide Unready, Lookup;
    if op.CloseResource? {
      LookupFinds(s.contexts, op.ctx, op.res);
    }
  }

  ghost predicate RunDeletesReady(s: Driver, ops: seq<Op>)
    decreases |ops|
  {
    ops != [] ==> DeletesReady(s, ops[0]) && RunDeletesReady(Next(s, ops[0]), ops[1..])
  }

  lemma {:induction false} RunStray(s: Driver, ops: seq<Op>)
    requires Ledger(s) && Base(s) && IdsFit(Run(s, ops))
    ensures Stray(Run(s, ops).log) <==> Stray(s.log) || !RunDeletesReady(s, ops)
    decreases |ops|
  {
    hide Next, Stray, DeletesReady, Ledger;
    if ops != [] {
      RunCountersGrow(Next(s, ops[0]), ops[1..]);
      StepStray(s, ops[0]);
      StepLedger(s, ops[0]);
      StepBase(s, ops[0]);
      RunStray(Next(s, ops[0]), ops[1..]);
    }
  }

  lemma InitialLedger(pages: nat)
    ensures Ledger(Initial(pages)) && !Stray(Initial(pages).log)
  {
  }

  // In every run: MmUnmapIoSpace is called for a blob without an outstanding mapping if and only
  // if a close or the end of a context deletes a blob whose MAP_BLOB has not completed, or whose
  // mapping has failed.
  lemma UnmapsOnlyMappedIff(pages: nat, ops: seq<Op>)
    requires IdsFit(Run(Initial(pages), ops))
    ensures !Stray(Run(Initial(pages), ops).log) <==> RunDeletesReady(Initial(pages), ops)
  {
    hide Run, Stray, RunDeletesReady;
    InitialLedger(pages);
    InitialBase(pages);
    RunStray(Initial(pages), ops);
  }

  // ----- a discipline that suffices for both -----

  // The blob of a pending MAP_BLOB is live.
  ghost predicate PendingLive(s: Driver) {
    forall k :: 0 <= k < |s.agents| && MapPending(s.agents[k]) ==>
      Lookup(s.contexts, s.agents[k].cmd.ctx, s.agents[k].cmd.res).Some?
  }

  lemma NewBlobLive(s: Driver, op: Op)
    requires IdsFit(Next(s, op)) && op.CreateBlobResource? && FindContext(s.contexts, op.ctx).Some?
    ensures Lookup(Next(s, op).contexts, op.ctx, s.resourceIds.next).Some?
  {
    hide Insert, FindContext, Lookup;
    var blob := Resource(s.resourceIds.next, Register(false, 0), Blob(None), None, 0);
    LookupInsert(s.contexts, op.ctx, blob, op.ctx, s.resourceIds.next);
  }

  lemma StepPendingLive(s: Driver, op: Op)
    requires PendingLive(s) && Base(s) && IdsFit(Next(s, op)) && DeletesReady(s, op)
    ensures PendingLive(Next(s, op)) && FindsBlob(s, op)
  {
    hide Next, Lookup, FindContext, WellFormed, DeletesReady;
    var s' := Next(s, op);
    forall k | 0 <= k < |s'.agents| && MapPending(s'.agents[k])
      ensures Lookup(s'.contexts, s'.agents[k].cmd.ctx, s'.agents[k].cmd.res).Some?
    {
      var (c, id) := (s'.agents[k].cmd.ctx, s'.agents[k].cmd.res);
      MapBlobBefore(s, op, k);
      var l := Before(s, op, s', k);
      if l < |s.agents| {
        assert HasPendingMap(s.agents, c, id);
        ResourceStep(s, op, c, id);
        if Lookup(s'.contexts, c, id).None? {
          ReadyKeepsPending(s, op, c, id);
        }
      } else {
        NewMapBlob(s, op, k);
        NewBlobLive(s, op);
      }
    }
  }

  lemma ReadyKeepsPending(s: Driver, op: Op, c: nat, id: nat)
    requires DeletesReady(s, op) && Unready(s, c, id) && Lookup(s.contexts, c, id).Some?
    ensures op != CloseResource(c, id) && op != DestroyContext(c)
  {
    hide Unready;
    LookupFinds(s.contexts, c, id);
  }

  lemma {:induction false} ReadyFinds(s: Driver, ops: seq<Op>)
    requires PendingLive(s) && Base(s) && IdsFit(Run(s, ops)) && RunDeletesReady(s, ops)
    ensures MappingsFindBlobs(s, ops)
    decreases |ops|
  {
    hide Next, PendingLive, DeletesReady, FindsBlob;
    if ops != [] {
      RunCountersGrow(Next(s, ops[0]), ops[1..]);
      StepPendingLive(s, ops[0]);
      StepBase(s, ops[0]);
      ReadyFinds(Next(s, ops[0]), ops[1..]);
    }
  }

  // So in every run in which no blob is deleted before its MAP_BLOB has completed, or after its
  // mapping has failed, every mapping is undone exactly when its blob is deleted.
  lemma ReadyDeletesBalance(pages: nat, ops: seq<Op>)
    requires IdsFit(Run(Initial(pages), ops)) && RunDeletesReady(Initial(pages), ops)
    ensures MappingsBalanced(Run(Initial(pages), ops)) && !Stray(Run(Initial(pages), ops).log)
  {
    hide Run, Next, MappingsBalanced, MappingsFindBlobs, RunDeletesReady, Stray;
    InitialBase(pages);
    ReadyFinds(Initial(pages), ops);
    MappingOutstandingIffLive(pages, ops);
    UnmapsOnlyMappedIff(pages, ops);
  }
}
