// The page allocator of kernelmode/vgpu/memory.c as functions on values: an RTL bitmap, the
// cached count of available bytes and the roving hint. `VgpuMemory` proves the in-place code
// against these functions; the lemmas here say what they mean: when an allocation fails, what it
// and a free do to the bitmap and the counter, that regions handed out are disjoint, and that
// frees, also those of a shrunken region, give back what was taken.
module Arena {
  import opened Wrappers
  import opened Paging

  // used: RegionBitmap, available: AvailableMemorySize, hint: LastFreeIndex.
  datatype Arena = Arena(used: seq<bool>, available: int, hint: nat)

  // A run of whole pages inside the arena.
  datatype Region = Region(start: nat, pages: nat) {
    predicate Has(p: nat) {
      start <= p < start + pages
    }
  }

  ghost predicate Overlap(a: Region, b: Region) {
    exists p :: a.Has(p) && b.Has(p)
  }

  // ----- the bitmap -----

  ghost predicate RunAt(bits: seq<bool>, v: bool, n: nat, i: nat) {
    i + n <= |bits| && forall k :: i <= k < i + n ==> bits[k] == v
  }

  // The first run of n bits equal to v at or after `from`.
  ghost function Scan(bits: seq<bool>, v: bool, n: nat, from: nat): (r: Option<nat>)
    ensures r.Some? ==> from <= r.value && RunAt(bits, v, n, r.value)
    ensures r.Some? ==> forall i :: from <= i < r.value ==> !RunAt(bits, v, n, i)
    ensures r.None? ==> forall i :: from <= i ==> !RunAt(bits, v, n, i)
    decreases |bits| - from
  {
    if from + n > |bits| then None
    else if RunAt(bits, v, n, from) then Some(from)
    else Scan(bits, v, n, from + 1)
  }

  // RtlFindClearBits and RtlFindSetBits: search from the hint, then the whole map.
  ghost function FindRun(bits: seq<bool>, v: bool, n: nat, hint: nat): Option<nat> {
    var h := if hint < |bits| then hint else 0;
    var r := Scan(bits, v, n, h);
    if r.Some? then r else Scan(bits, v, n, 0)
  }

  // The hint decides which run is returned, never whether there is one.
  lemma FindRunComplete(bits: seq<bool>, v: bool, n: nat, hint: nat)
    ensures FindRun(bits, v, n, hint).None? <==> forall i :: !RunAt(bits, v, n, i)
    ensures var r := FindRun(bits, v, n, hint); r.Some? ==> RunAt(bits, v, n, r.value)
  {
  }

  lemma FindRunAtHint(bits: seq<bool>, v: bool, n: nat, hint: nat)
    requires hint < |bits| && RunAt(bits, v, n, hint)
    ensures FindRun(bits, v, n, hint) == Some(hint)
  {
  }

  function Fill(bits: seq<bool>, i: nat, n: nat, v: bool): (r: seq<bool>)
    requires i + n <= |bits|
    ensures |r| == |bits|
    ensures forall k :: 0 <= k < |bits| ==> r[k] == if i <= k < i + n then v else bits[k]
  {
    bits[..i] + seq(n, _ => v) + bits[i + n..]
  }

  ghost function CountFree(bits: seq<bool>): nat {
    if bits == [] then 0 else (if bits[0] then 0 else 1) + CountFree(bits[1..])
  }

  lemma {:induction false} CountFreeAppend(a: seq<bool>, b: seq<bool>)
    ensures CountFree(a + b) == CountFree(a) + CountFree(b)
  {
    if a == [] {
      assert a + b == b;
    } else {
      assert (a + b)[1..] == a[1..] + b;
      CountFreeAppend(a[1..], b);
    }
  }

  lemma {:induction false} CountFreeUniform(bits: seq<bool>, v: bool)
    requires forall k :: 0 <= k < |bits| ==> bits[k] == v
    ensures CountFree(bits) == if v then 0 else |bits|
  {
    if bits != [] {
      CountFreeUniform(bits[1..], v);
    }
  }

  // Filling a uniform run changes the number of clear bits by its length.
  lemma CountFreeFill(bits: seq<bool>, i: nat, n: nat, v: bool)
    requires RunAt(bits, !v, n, i)
    ensures CountFree(Fill(bits, i, n, v)) == if v then CountFree(bits) - n else CountFree(bits) + n
  {
    var a, b, c := bits[..i], bits[i..i + n], bits[i + n..];
    assert bits == a + b + c;
    CountFreeAppend(a + b, c);
    CountFreeAppend(a, b);
    CountFreeUniform(b, !v);
    var b' := seq(n, _ => v);
    CountFreeAppend(a + b', c);
    CountFreeAppend(a, b');
    CountFreeUniform(b', v);
  }

  // ----- the allocator -----

  // What every release of the allocator's spin lock leaves behind.
  ghost predicate Valid(a: Arena) {
    a.available == PAGE_SIZE * CountFree(a.used)
  }

  // AllocateVgpuMemory between taking and releasing the lock.
  ghost function AllocateLocked(a: Arena, size: nat): (Arena, Option<Region>) {
    var n := size / PAGE_SIZE;
    var r := FindRun(a.used, false, n, a.hint);
    if r.None? then (a, None)
    else (Arena(Fill(a.used, r.value, n, true), a.available - size, r.value + n), Some(Region(r.value, n)))
  }

  // AllocateVgpuMemory with nothing happening between the size check and the lock.
  ghost function Allocate(a: Arena, size: nat): (Arena, Option<Region>) {
    if size > a.available then (a, None) else AllocateLocked(a, size)
  }

  // FreeVgpuMemory, given the page index of the address.
  ghost function Free(a: Arena, index: nat, size: nat): Arena {
    var n := size / PAGE_SIZE;
    var r := FindRun(a.used, true, n, index);
    if r.None? then a
    else Arena(Fill(a.used, r.value, n, false), a.available + size, r.value)
  }

  // ReallocVgpuMemory, which only shrinks, given the offset of the address in bytes.
  ghost function Shrink(a: Arena, offset: nat, origin: nat, target: nat): (Arena, bool) {
    if origin <= target then (a, false)
    else
      var change := origin - target;
      var r := FindRun(a.used, true, change / PAGE_SIZE, (offset + target) / PAGE_SIZE);
      if r.None? then (a, false)
      else (Arena(Fill(a.used, r.value, change / PAGE_SIZE, false), a.available + change, r.value), true)
  }

  ghost predicate ClearRunExists(a: Arena, n: nat) {
    exists i :: RunAt(a.used, false, n, i)
  }

  // A clear run is no longer than the number of clear bits.
  lemma RunIsCounted(bits: seq<bool>, n: nat, i: nat)
    requires RunAt(bits, false, n, i)
    ensures n <= CountFree(bits)
  {
    CountFreeFill(bits, i, n, true);
  }

  // Sequential completeness: an allocation fails exactly when no run of free pages is long
  // enough, wherever the hint stands. The size check in front never changes the outcome.
  lemma AllocateComplete(a: Arena, size: nat)
    requires Valid(a) && size % PAGE_SIZE == 0
    ensures Allocate(a, size).1.None? <==> !ClearRunExists(a, size / PAGE_SIZE)
    ensures Allocate(a, size) == AllocateLocked(a, size)
  {
    FindRunComplete(a.used, false, size / PAGE_SIZE, a.hint);
    if ClearRunExists(a, size / PAGE_SIZE) {
      var i :| RunAt(a.used, false, size / PAGE_SIZE, i);
      RunIsCounted(a.used, size / PAGE_SIZE, i);
    }
  }

  // The locked part alone keeps the counter exact and never drives it below zero, whatever a
  // caller saw before taking the lock. The pages handed out were free and are now marked.
  lemma AllocateLockedKeeps(a: Arena, size: nat)
    requires Valid(a) && size % PAGE_SIZE == 0
    ensures Valid(AllocateLocked(a, size).0) && AllocateLocked(a, size).0.available >= 0
    ensures var (b, r) := AllocateLocked(a, size);
            r.Some? ==> r.value.pages == size / PAGE_SIZE
                        && RunAt(a.used, false, r.value.pages, r.value.start)
                        && b.used == Fill(a.used, r.value.start, r.value.pages, true)
  {
    var n := size / PAGE_SIZE;
    FindRunComplete(a.used, false, n, a.hint);
    var r := FindRun(a.used, false, n, a.hint);
    if r.Some? {
      CountFreeFill(a.used, r.value, n, true);
    }
  }

  // Freeing a region whose pages are all marked clears exactly those pages.
  lemma FreeClearsRegion(a: Arena, r: Region)
    requires Valid(a) && RunAt(a.used, true, r.pages, r.start)
    ensures var b := Free(a, r.start, r.pages * PAGE_SIZE);
            && Valid(b) && b.used == Fill(a.used, r.start, r.pages, false)
            && b.available == a.available + r.pages * PAGE_SIZE
  {
    if r.start < |a.used| {
      FindRunAtHint(a.used, true, r.pages, r.start);
      CountFreeFill(a.used, r.start, r.pages, false);
    } else {
      assert RunAt(a.used, true, r.pages, 0);
      assert Fill(a.used, 0, 0, false) == a.used;
      assert Fill(a.used, r.start, 0, false) == a.used;
    }
  }

  // A region handed out shares no page with a region that was marked before.
  lemma AllocateDisjoint(a: Arena, size: nat, live: Region)
    requires Valid(a) && size % PAGE_SIZE == 0 && Allocate(a, size).1.Some?
    requires RunAt(a.used, true, live.pages, live.start)
    ensures !Overlap(Allocate(a, size).1.value, live)
  {
    AllocateLockedKeeps(a, size);
    forall p: nat | live.Has(p)
      ensures !Allocate(a, size).1.value.Has(p)
    {
      assert a.used[p];
    }
  }

  // Shrinking frees the tail of the region.
  lemma ShrinkFreesTail(a: Arena, r: Region, kept: nat)
    requires RunAt(a.used, true, r.pages, r.start) && kept < r.pages
    ensures Shrink(a, r.start * PAGE_SIZE, r.pages * PAGE_SIZE, kept * PAGE_SIZE)
            == (Free(a, r.start + kept, (r.pages - kept) * PAGE_SIZE), true)
    ensures RunAt(a.used, true, r.pages - kept, r.start + kept)
  {
    hide Scan, Fill;
    assert r.pages * PAGE_SIZE - kept * PAGE_SIZE == (r.pages - kept) * PAGE_SIZE;
    assert (r.start * PAGE_SIZE + kept * PAGE_SIZE) / PAGE_SIZE == r.start + kept;
    assert r.start + kept < |a.used|;
    FindRunAtHint(a.used, true, r.pages - kept, r.start + kept);
  }

  // Shrinking a live region and then freeing what is left is the same as freeing it whole.
  lemma ShrinkThenFree(a: Arena, r: Region, kept: nat)
    requires Valid(a) && RunAt(a.used, true, r.pages, r.start) && kept < r.pages
    ensures var (b, ok) := Shrink(a, r.start * PAGE_SIZE, r.pages * PAGE_SIZE, kept * PAGE_SIZE);
            var whole := Free(a, r.start, r.pages * PAGE_SIZE);
            var rest := Free(b, r.start, kept * PAGE_SIZE);
            && ok && RunAt(b.used, true, kept, r.start)
            && rest.used == whole.used && rest.available == whole.available
  {
    hide Scan, FindRun, Free, Shrink, Fill;
    var tail := Region(r.start + kept, r.pages - kept);
    ShrinkFreesTail(a, r, kept);
    FreeClearsRegion(a, tail);
    var b := Free(a, tail.start, tail.pages * PAGE_SIZE);
    assert RunAt(b.used, true, kept, r.start);
    FreeClearsRegion(b, Region(r.start, kept));
    FreeClearsRegion(a, r);
    assert Fill(b.used, r.start, kept, false) == Fill(a.used, r.start, r.pages, false);
  }

  // Freeing undoes an allocation, in the bitmap and in the counter.
  lemma FreeUndoesAllocate(a: Arena, size: nat)
    requires Valid(a) && size % PAGE_SIZE == 0 && Allocate(a, size).1.Some?
    ensures var (b, r) := Allocate(a, size);
            var c := Free(b, r.value.start, size);
            c.used == a.used && c.available == a.available
  {
    hide Scan, FindRun, Free;
    var (b, r) := Allocate(a, size);
    AllocateLockedKeeps(a, size);
    FreeClearsRegion(b, r.value);
    assert Free(b, r.value.start, size).used == a.used;
  }

  // ----- the roving hint -----

  function From(a: Arena): nat {
    if a.hint < |a.used| then a.hint else 0
  }

  // Next fit: an allocation takes the first clear run that is long enough at or after the hint,
  // and only if there is none, the first of all. The hint then stands behind the new region.
  lemma NextFit(a: Arena, size: nat)
    requires Valid(a) && size % PAGE_SIZE == 0 && Allocate(a, size).1.Some?
    ensures var (b, r) := Allocate(a, size);
            var g := r.value;
            && b.hint == g.start + g.pages
            && (g.start >= From(a) ==> forall i: nat :: From(a) <= i < g.start ==> !RunAt(a.used, false, g.pages, i))
            && (g.start < From(a) ==>
                  forall i: nat :: i < g.start || i >= From(a) ==> !RunAt(a.used, false, g.pages, i))
  {
  }

  // So an allocation goes on where the last one ended, if there is room.
  lemma AllocateContinues(a: Arena, size: nat, next: nat)
    requires Valid(a) && size % PAGE_SIZE == 0 && next % PAGE_SIZE == 0 && next > 0 && Allocate(a, size).1.Some?
    requires var (b, r) := Allocate(a, size); RunAt(b.used, false, next / PAGE_SIZE, r.value.start + r.value.pages)
    ensures var (b, r) := Allocate(a, size);
            Allocate(b, next).1 == Some(Region(r.value.start + r.value.pages, next / PAGE_SIZE))
  {
    hide Scan, FindRun, Fill;
    var (b, r) := Allocate(a, size);
    AllocateLockedKeeps(a, size);
    AllocateComplete(b, next);
    FindRunAtHint(b.used, false, next / PAGE_SIZE, b.hint);
  }

  // The hint stands at the freed pages, so the next allocation that they have room for takes
  // them again.
  lemma FreedIsReused(a: Arena, r: Region, size: nat)
    requires Valid(a) && RunAt(a.used, true, r.pages, r.start)
    requires size % PAGE_SIZE == 0 && 0 < size <= r.pages * PAGE_SIZE
    ensures Allocate(Free(a, r.start, r.pages * PAGE_SIZE), size).1 == Some(Region(r.start, size / PAGE_SIZE))
  {
    hide Scan, Fill;
    var b := Free(a, r.start, r.pages * PAGE_SIZE);
    FreeClearsRegion(a, r);
    FindRunAtHint(a.used, true, r.pages, r.start);
    assert RunAt(b.used, false, size / PAGE_SIZE, r.start);
    AllocateComplete(b, size);
    FindRunAtHint(b.used, false, size / PAGE_SIZE, r.start);
  }

  // The same after a shrink: the tail is taken next.
  lemma ShrunkIsReused(a: Arena, r: Region, kept: nat, size: nat)
    requires Valid(a) && RunAt(a.used, true, r.pages, r.start) && kept < r.pages
    requires size % PAGE_SIZE == 0 && 0 < size <= (r.pages - kept) * PAGE_SIZE
    ensures var (b, _) := Shrink(a, r.start * PAGE_SIZE, r.pages * PAGE_SIZE, kept * PAGE_SIZE);
            Allocate(b, size).1 == Some(Region(r.start + kept, size / PAGE_SIZE))
  {
    ShrinkFreesTail(a, r, kept);
    FreedIsReused(a, Region(r.start + kept, r.pages - kept), size);
  }
}
