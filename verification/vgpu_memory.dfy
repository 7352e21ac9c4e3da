// VGPU_MEMORY of kernelmode/vgpu/memory.c, updated in place. Every method is proved equal to
// the function of the same operation in module Arena.
module VgpuMemory {
  import opened Wrappers
  import opened Paging
  import A = Arena

  datatype Descriptor = Descriptor(virtualAddress: nat, physicalAddress: nat)

  class VgpuMemory {
    const virtualAddress: nat
    const physicalAddress: nat
    const bitmap: array<bool>
    var available: int
    var lastFreeIndex: nat

    ghost function State(): A.Arena
      reads this, bitmap
    {
      A.Arena(bitmap[..], available, lastFreeIndex)
    }

    // The address of page `index`, in both address spaces.
    function DescriptorOf(index: nat): Descriptor {
      Descriptor(virtualAddress + index * PAGE_SIZE, physicalAddress + index * PAGE_SIZE)
    }

    // InitializeVgpuMemory. The source asserts that the size is a multiple of 32 KiB.
    constructor (virtualAddress: nat, physicalAddress: nat, size: nat)
      requires size % (PAGE_SIZE * 8) == 0
      ensures this.virtualAddress == virtualAddress && this.physicalAddress == physicalAddress
      ensures fresh(bitmap)
      ensures State() == A.Arena(seq(size / PAGE_SIZE, _ => false), size, 0)
      ensures A.Valid(State())
    {
      this.virtualAddress := virtualAddress;
      this.physicalAddress := physicalAddress;
      bitmap := new bool[size / PAGE_SIZE](_ => false);
      available := size;
      lastFreeIndex := 0;
      new;
      assert bitmap[..] == seq(size / PAGE_SIZE, _ => false);
      A.CountFreeUniform(bitmap[..], false);
    }

    // One pass over the bitmap from `from`, counting the length of the current run.
    method FindRunFrom(v: bool, n: nat, from: nat) returns (r: Option<nat>)
      ensures r == A.Scan(bitmap[..], v, n, from)
    {
      if n == 0 {
        return if from <= bitmap.Length then Some(from) else None;
      }
      var i := from;
      var length := 0;
      while i < bitmap.Length
        invariant length < n && from + length <= i
        invariant length > 0 || from <= bitmap.Length ==> i <= bitmap.Length
        invariant forall k :: i - length <= k < i ==> bitmap[k] == v
        invariant forall j :: from <= j < i - length ==> !A.RunAt(bitmap[..], v, n, j)
      {
        if bitmap[i] == v {
          length := length + 1;
          i := i + 1;
          if length == n {
            assert A.RunAt(bitmap[..], v, n, i - n);
            return Some(i - n);
          }
        } else {
          forall j | i - length <= j <= i
            ensures !A.RunAt(bitmap[..], v, n, j)
          {
            assert bitmap[..][i] != v;
          }
          length := 0;
          i := i + 1;
        }
      }
      return None;
    }

    // RtlFindClearBits and RtlFindSetBits.
    method FindRun(v: bool, n: nat, hint: nat) returns (r: Option<nat>)
      ensures r == A.FindRun(bitmap[..], v, n, hint)
    {
      r := FindRunFrom(v, n, if hint < bitmap.Length then hint else 0);
      if r.None? {
        r := FindRunFrom(v, n, 0);
      }
    }

    // RtlSetBits and RtlClearBits.
    method SetRun(i: nat, n: nat, v: bool)
      requires i + n <= bitmap.Length
      modifies bitmap
      ensures bitmap[..] == A.Fill(old(bitmap[..]), i, n, v)
    {
      for k := i to i + n
        invariant forall j :: 0 <= j < bitmap.Length ==> bitmap[j] == if i <= j < k then v else old(bitmap[j])
      {
        bitmap[k] := v;
      }
    }

    method FindAndFlip(v: bool, n: nat, hint: nat) returns (r: Option<nat>)
      modifies bitmap
      ensures r == A.FindRun(old(bitmap[..]), v, n, hint)
      ensures r.None? ==> bitmap[..] == old(bitmap[..])
      ensures r.Some? ==> A.RunAt(old(bitmap[..]), v, n, r.value)
                          && bitmap[..] == A.Fill(old(bitmap[..]), r.value, n, !v)
    {
      r := FindRun(v, n, hint);
      if r.Some? {
        SetRun(r.value, n, !v);
      }
    }

    // AllocateVgpuMemory.
    method Allocate(size: nat) returns (memory: Option<Descriptor>, region: Option<A.Region>)
      modifies this, bitmap
      ensures (State(), region) == A.Allocate(old(State()), size)
      ensures memory == if region.None? then None else Some(DescriptorOf(region.value.start))
    {
      memory, region := None, None;
      if size > available {
        return;
      }
      var page := size / PAGE_SIZE;
      var index := FindAndFlip(false, page, lastFreeIndex);
      if index.None? {
        return;
      }
      lastFreeIndex := index.value + page;
      available := available - size;
      memory := Some(DescriptorOf(index.value));
      region := Some(A.Region(index.value, page));
    }

    function IndexOf(address: nat): nat
      requires address >= virtualAddress
    {
      (address - virtualAddress) / PAGE_SIZE
    }

    // FreeVgpuMemory.
    method Free(address: nat, size: nat)
      requires address >= virtualAddress
      modifies this, bitmap
      ensures State() == A.Free(old(State()), IndexOf(address), size)
    {
      var index := FindAndFlip(true, size / PAGE_SIZE, IndexOf(address));
      if index.Some? {
        lastFreeIndex := index.value;
        available := available + size;
      }
    }

    // ReallocVgpuMemory.
    method Realloc(address: nat, origin: nat, target: nat) returns (ok: bool)
      requires address >= virtualAddress
      modifies this, bitmap
      ensures (State(), ok) == A.Shrink(old(State()), address - virtualAddress, origin, target)
    {
      if origin <= target {
        return false;
      }
      var change := origin - target;
      var index := FindAndFlip(true, change / PAGE_SIZE, (address - virtualAddress + target) / PAGE_SIZE);
      if index.None? {
        return false;
      }
      lastFreeIndex := index.value;
      available := available + change;
      return true;
    }
  }
}
