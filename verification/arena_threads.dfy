// Threads calling into kernelmode/vgpu/memory.c at once. AllocateVgpuMemory reads
// AvailableMemorySize before it takes the lock, so the size check may be stale. Every call is
// nevertheless one atomic operation at some moment between its start and its end.
module ArenaThreads {
  import opened Wrappers
  import opened Paging
  import opened Arena

  // waiting: the sizes whose callers passed the check and have not yet taken the lock.
  datatype Shared = Shared(arena: Arena, waiting: map<nat, nat>)

  datatype Event =
    | Check(thread: nat, size: nat)
    | Lock(thread: nat)
    | FreeLocked(region: Region)
    | ShrinkLocked(region: Region, kept: nat)

  // One operation of the sequential allocator together with what it returned.
  datatype Call =
    | AllocateCall(size: nat, result: Option<Region>)
    | FreeCall(region: Region)
    | ShrinkCall(region: Region, kept: nat)

  // What the callers respect: whole pages, and only marked regions are given back.
  ghost predicate Proper(s: Shared, e: Event) {
    match e
    case Check(t, size) => size % PAGE_SIZE == 0 && t !in s.waiting
    case Lock(t) => t in s.waiting
    case FreeLocked(r) => RunAt(s.arena.used, true, r.pages, r.start)
    case ShrinkLocked(r, kept) => RunAt(s.arena.used, true, r.pages, r.start) && kept < r.pages
  }

  // The next state, and the call that takes effect at this event if one does.
  ghost function Step(s: Shared, e: Event): (Shared, seq<Call>)
    requires Proper(s, e)
  {
    match e
    case Check(t, size) =>
      if size > s.arena.available then (s, [AllocateCall(size, None)])
      else (s.(waiting := s.waiting[t := size]), [])
    case Lock(t) =>
      var (b, r) := AllocateLocked(s.arena, s.waiting[t]);
      (Shared(b, s.waiting - {t}), [AllocateCall(s.waiting[t], r)])
    case FreeLocked(r) => (s.(arena := Free(s.arena, r.start, r.pages * PAGE_SIZE)), [FreeCall(r)])
    case ShrinkLocked(r, kept) =>
      (s.(arena := Shrink(s.arena, r.start * PAGE_SIZE, r.pages * PAGE_SIZE, kept * PAGE_SIZE).0), [ShrinkCall(r, kept)])
  }

  // The sequential allocator running `call`, with the result the call reports.
  ghost predicate Atomic(a: Arena, call: Call, b: Arena) {
    match call
    case AllocateCall(size, result) => Allocate(a, size) == (b, result)
    case FreeCall(r) => b == Free(a, r.start, r.pages * PAGE_SIZE)
    case ShrinkCall(r, kept) => b == Shrink(a, r.start * PAGE_SIZE, r.pages * PAGE_SIZE, kept * PAGE_SIZE).0
  }

  ghost predicate Invariant(s: Shared) {
    Valid(s.arena) && forall t :: t in s.waiting ==> s.waiting[t] % PAGE_SIZE == 0
  }

  // The counter is exact at every release of the lock, it never goes below zero, and the
  // event either takes effect as one sequential call or leaves the arena alone.
  lemma StepIsAtomic(s: Shared, e: Event)
    requires Invariant(s) && Proper(s, e)
    ensures var (s', calls) := Step(s, e);
            && Invariant(s') && s'.arena.available >= 0
            && (calls == [] ==> s'.arena == s.arena)
            && (calls != [] ==> |calls| == 1 && Atomic(s.arena, calls[0], s'.arena))
  {
    hide Scan, FindRun, Fill, AllocateLocked, Free, Shrink;
    match e
    case Check(t, size) =>
    case Lock(t) =>
      AllocateLockedKeeps(s.arena, s.waiting[t]);
      AllocateComplete(s.arena, s.waiting[t]);
    case FreeLocked(r) => FreeClearsRegion(s.arena, r);
    case ShrinkLocked(r, kept) =>
      ShrinkFreesTail(s.arena, r, kept);
      FreeClearsRegion(s.arena, Region(r.start + kept, r.pages - kept));
  }

  ghost predicate ProperRun(s: Shared, events: seq<Event>)
    decreases |events|
  {
    events == [] || (Proper(s, events[0]) && ProperRun(Step(s, events[0]).0, events[1..]))
  }

  ghost function RunEvents(s: Shared, events: seq<Event>): (Shared, seq<Call>)
    requires ProperRun(s, events)
    decreases |events|
  {
    if events == [] then (s, [])
    else
      var (s', calls) := Step(s, events[0]);
      var (last, rest) := RunEvents(s', events[1..]);
      (last, calls + rest)
  }

  ghost predicate Sequential(a: Arena, calls: seq<Call>, b: Arena)
    decreases |calls|
  {
    if calls == [] then a == b
    else exists m :: Atomic(a, calls[0], m) && Sequential(m, calls[1..], b)
  }

  // Every interleaving is linearizable: the calls, in the order in which they took effect and
  // with the results they returned, are a run of the sequential allocator between the same
  // two arenas.
  lemma {:induction false} Linearizable(s: Shared, events: seq<Event>)
    requires Invariant(s) && ProperRun(s, events)
    ensures var (s', calls) := RunEvents(s, events);
            Invariant(s') && s'.arena.available >= 0 && Sequential(s.arena, calls, s'.arena)
    decreases |events|
  {
    if events != [] {
      var (m, first) := Step(s, events[0]);
      StepIsAtomic(s, events[0]);
      Linearizable(m, events[1..]);
      var rest := RunEvents(m, events[1..]).1;
      if first == [] {
        assert first + rest == rest;
      } else {
        assert (first + rest)[1..] == rest;
      }
    }
  }

  // A stale check may refuse a request that the same arena could serve once the lock is free:
  // the answer belongs to the moment of the check, not to the moment of the return.
  lemma StaleCheckMayRefuse(s: Shared, t: nat, size: nat, region: Region)
    requires Invariant(s) && Proper(s, Check(t, size)) && Proper(s, FreeLocked(region))
    requires s.arena.available < size <= region.pages * PAGE_SIZE
    ensures Step(s, Check(t, size)) == (s, [AllocateCall(size, None)])
    ensures Allocate(Step(s, FreeLocked(region)).0.arena, size).1.Some?
  {
    FreeClearsRegion(s.arena, region);
    var b := Free(s.arena, region.start, region.pages * PAGE_SIZE);
    assert RunAt(b.used, false, size / PAGE_SIZE, region.start);
    AllocateComplete(b, size);
  }
}
