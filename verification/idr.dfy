// The id generators of kernelmode/vgpu/idr.c: a counter that starts at 1 and a list of ids
// given back, newest first. Ids are copied to and from callers as their low bytes.
module Idr {
  datatype Idr = Idr(next: nat, free: seq<nat>)

  // The number of values that fit in `size` bytes.
  function Range(size: nat): (r: nat)
    ensures r >= 1
  {
    if size == 0 then 1 else 256 * Range(size - 1)
  }

  // RtlCopyMemory of the first `size` bytes of a little-endian integer into a cleared one, byte
  // by byte.
  function LowBytes(id: nat, size: nat): (low: nat)
    ensures low < Range(size)
    ensures id < Range(size) ==> low == id
    decreases size
  {
    if size == 0 then 0 else id % 256 + 256 * LowBytes(id / 256, size - 1)
  }

  function GetWithoutCache(s: Idr, size: nat): (Idr, nat) {
    (s.(next := s.next + 1), LowBytes(s.next, size))
  }

  function Get(s: Idr, size: nat): (Idr, nat) {
    if s.free == [] then GetWithoutCache(s, size)
    else (s.(free := s.free[1..]), LowBytes(s.free[0], size))
  }

  function Put(s: Idr, id: nat, size: nat): Idr {
    s.(free := [LowBytes(id, size)] + s.free)
  }

  class IdGenerator {
    var next: nat
    var freeIds: seq<nat>

    ghost function State(): Idr
      reads this
    {
      Idr(next, freeIds)
    }

    // InitializeIdr: 0 is never handed out.
    constructor ()
      ensures State() == Idr(1, [])
    {
      next := 1;
      freeIds := [];
    }

    method GetIdWithoutCache(size: nat) returns (id: nat)
      modifies this
      ensures (State(), id) == GetWithoutCache(old(State()), size)
    {
      id := LowBytes(next, size);
      next := next + 1;
    }

    method GetId(size: nat) returns (id: nat)
      modifies this
      ensures (State(), id) == Get(old(State()), size)
    {
      if freeIds == [] {
        id := GetIdWithoutCache(size);
      } else {
        id := LowBytes(freeIds[0], size);
        freeIds := freeIds[1..];
      }
    }

    method PutId(id: nat, size: nat)
      modifies this
      ensures State() == Put(old(State()), id, size)
    {
      freeIds := [LowBytes(id, size)] + freeIds;
    }
  }

  // The ids 1 .. next-1 are split between the live ones and the free list.
  ghost predicate Partition(s: Idr, live: set<nat>) {
    && s.next >= 1
    && (forall id :: id in live || id in s.free <==> 1 <= id < s.next)
    && (forall id :: id in s.free ==> id !in live)
    && (forall i, j :: 0 <= i < j < |s.free| ==> s.free[i] != s.free[j])
  }

  datatype Call = UncachedCall | CachedCall | PutCall(id: nat)

  // One call with `size`-byte ids, and the set of ids that are live after it.
  ghost function Step(s: Idr, live: set<nat>, call: Call, size: nat): (Idr, set<nat>) {
    match call
    case UncachedCall => var (s', id) := GetWithoutCache(s, size); (s', live + {id})
    case CachedCall => var (s', id) := Get(s, size); (s', live + {id})
    case PutCall(id) => (Put(s, id, size), live - {id})
  }

  ghost function RunCalls(s: Idr, live: set<nat>, calls: seq<Call>, size: nat): (Idr, set<nat>)
    decreases |calls|
  {
    if calls == [] then (s, live)
    else var (s', live') := Step(s, live, calls[0], size); RunCalls(s', live', calls[1..], size)
  }

  // Callers give back only ids that they hold.
  ghost predicate HeldPuts(s: Idr, live: set<nat>, calls: seq<Call>, size: nat)
    decreases |calls|
  {
    calls != [] ==>
      && (calls[0].PutCall? ==> calls[0].id in live)
      && var (s', live') := Step(s, live, calls[0], size); HeldPuts(s', live', calls[1..], size)
  }

  lemma {:induction false} CounterGrows(s: Idr, live: set<nat>, calls: seq<Call>, size: nat)
    ensures s.next <= RunCalls(s, live, calls, size).0.next
    decreases |calls|
  {
    if calls != [] {
      var (s', live') := Step(s, live, calls[0], size);
      CounterGrows(s', live', calls[1..], size);
    }
  }

  lemma StepKeepsPartition(s: Idr, live: set<nat>, call: Call, size: nat)
    requires Partition(s, live)
    requires call.PutCall? ==> call.id in live
    requires Step(s, live, call, size).0.next <= Range(size)
    ensures Partition(Step(s, live, call, size).0, Step(s, live, call, size).1)
    ensures call.PutCall? || |Step(s, live, call, size).1| == |live| + 1
  {
    hide Partition, Range, LowBytes;
    if call.PutCall? {
      PutKeepsPartition(s, live, call.id, size);
    } else if call.CachedCall? && s.free != [] {
      ReuseKeepsPartition(s, live, size);
    } else {
      NewKeepsPartition(s, live, size);
    }
  }

  lemma NewKeepsPartition(s: Idr, live: set<nat>, size: nat)
    requires Partition(s, live) && s.next < Range(size)
    ensures var (s', id) := GetWithoutCache(s, size); Partition(s', live + {id}) && id !in live
  {
    hide Range, LowBytes;
  }

  lemma PutKeepsPartition(s: Idr, live: set<nat>, id: nat, size: nat)
    requires Partition(s, live) && id in live && s.next <= Range(size)
    ensures Partition(Put(s, id, size), live - {id})
  {
    hide Range, LowBytes;
    assert forall x :: x in Put(s, id, size).free <==> x == id || x in s.free;
  }

  lemma ReuseKeepsPartition(s: Idr, live: set<nat>, size: nat)
    requires Partition(s, live) && s.free != [] && s.next <= Range(size)
    ensures var (s', id) := Get(s, size); Partition(s', live + {id}) && id !in live
  {
    hide Range, LowBytes;
    assert s.free[0] in s.free;
    assert forall x :: x in s.free <==> x == s.free[0] || x in s.free[1..];
  }

  // For every sequence of calls whose counter still fits the copied width: live and free ids
  // partition 1 .. next-1, so 0 is never issued and no id is live twice.
  lemma {:induction false} RunKeepsPartition(s: Idr, live: set<nat>, calls: seq<Call>, size: nat)
    requires Partition(s, live) && HeldPuts(s, live, calls, size)
    requires RunCalls(s, live, calls, size).0.next <= Range(size)
    ensures Partition(RunCalls(s, live, calls, size).0, RunCalls(s, live, calls, size).1)
    decreases |calls|
  {
    if calls != [] {
      var (s', live') := Step(s, live, calls[0], size);
      CounterGrows(s', live', calls[1..], size);
      StepKeepsPartition(s, live, calls[0], size);
      RunKeepsPartition(s', live', calls[1..], size);
    }
  }

  // The width is exact: an uncached id is fresh and non-zero if and only if the counter fits.
  lemma UncachedFreshIffCounterFits(s: Idr, live: set<nat>, size: nat)
    requires Partition(s, live)
    ensures var id := GetWithoutCache(s, size).1;
            (id != 0 && id !in live && id !in s.free) <==> s.next < Range(size)
  {
  }

  // An id given back comes out of the next cached request, and the list is as it was.
  lemma PutThenGet(s: Idr, id: nat, size: nat)
    requires id < Range(size)
    ensures Get(Put(s, id, size), size) == (s, id)
  {
    assert ([id] + s.free)[1..] == s.free;
  }
}
