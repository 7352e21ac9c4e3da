// LIST_ENTRY: circular doubly linked lists whose links live inside the records. A list is a
// ring of entries that starts at the list head, which belongs to no record.
module IntrusiveList {
  import opened Wrappers

  class ListEntry<T> {
    var flink: ListEntry<T>
    var blink: ListEntry<T>
    // The structure the entry is embedded in, for CONTAINING_RECORD. None for a list head.
    var record: Option<T>

    // InitializeListHead.
    constructor ()
      ensures flink == this && blink == this && record == None
    {
      flink, blink := this, this;
      record := None;
    }
  }

  function Successor(i: nat, n: nat): nat
    requires i < n
  {
    if i + 1 == n then 0 else i + 1
  }

  ghost predicate Distinct<T>(ring: seq<ListEntry<T>>) {
    forall i, j :: 0 <= i < j < |ring| ==> ring[i] != ring[j]
  }

  // The two link conditions for one position.
  ghost predicate Linked<T>(ring: seq<ListEntry<T>>, i: nat)
    requires i < |ring|
    reads ring
  {
    var next := ring[Successor(i, |ring|)];
    ring[i].flink == next && next.blink == ring[i]
  }

  // Following flink from the head visits the ring in order and ends at the head; blink goes
  // the other way round.
  ghost predicate Ring<T>(ring: seq<ListEntry<T>>)
    reads ring
  {
    |ring| >= 1 && Distinct(ring) && forall i: nat :: i < |ring| ==> Linked(ring, i)
  }

  // InsertHeadList.
  method InsertHeadList<T>(head: ListEntry<T>, entry: ListEntry<T>, ghost ring: seq<ListEntry<T>>)
    requires Ring(ring) && ring[0] == head && entry !in ring
    modifies head`flink, head.flink`blink, entry`flink, entry`blink
    ensures Ring([head, entry] + ring[1..])
  {
    ghost var n := |ring|;
    assert Linked(ring, 0);
    var next := head.flink;
    entry.flink := next;
    entry.blink := head;
    next.blink := entry;
    head.flink := entry;
    ghost var result := [head, entry] + ring[1..];
    assert forall i :: 1 <= i < n ==> result[i + 1] == ring[i];
    forall i: nat | i < |result|
      ensures Linked(result, i)
    {
      if 2 <= i {
        assert old(Linked(ring, i - 1));
      }
    }
  }

  // RemoveEntryList: the neighbours of the entry are joined.
  method RemoveEntryList<T>(entry: ListEntry<T>, ghost ring: seq<ListEntry<T>>, ghost k: nat)
    requires Ring(ring) && 0 < k < |ring| && ring[k] == entry
    modifies entry.blink`flink, entry.flink`blink
    ensures Ring(Without(ring, k))
  {
    ghost var n := |ring|;
    assert Linked(ring, k - 1) && Linked(ring, k);
    var next := entry.flink;
    var prev := entry.blink;
    prev.flink := next;
    next.blink := prev;
    ghost var result := Without(ring, k);
    assert forall i :: 0 <= i < |result| ==> result[i] == ring[if i < k then i else i + 1];
    forall i: nat | i < |result|
      ensures Linked(result, i)
    {
      if i != k - 1 {
        assert old(Linked(ring, if i < k then i else i + 1));
      }
    }
  }
}
