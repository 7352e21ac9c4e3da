// VIRGL_RESOURCE and VIRGL_CONTEXT of kernelmode/vgpu/global.h as objects, with the lookups and
// UpdateResourceState of kernelmode/vgpu/control.h walking the intrusive list. The list is
// proved to hold the sequence of resources that DriverState works on.
module VirglContext {
  import opened Wrappers
  import opened FenceRegister
  import opened DriverState
  import opened IntrusiveList

  // ----- the loop of UpdateResourceState on one list -----

  function UpdateIn(rs: seq<Resource>, id: nat, u: Update): (qs: seq<Resource>)
    ensures |qs| == |rs|
  {
    var j := FindResource(rs, id);
    if j.None? then rs else rs[j.value := Mark(rs[j.value], u)]
  }

  function UpdateList(rs: seq<Resource>, ids: seq<nat>, u: Update): (qs: seq<Resource>)
    ensures |qs| == |rs|
  {
    if ids == [] then rs else UpdateIn(UpdateList(rs, ids[..|ids| - 1], u), ids[|ids| - 1], u)
  }

  class VirglResource {
    const id: nat
    const entry: ListEntry<VirglResource>
    var idle: bool
    var fenceId: nat
    var backing: Backing
    var mdl: Option<nat>
    var user: nat

    constructor (id: nat, idle: bool, backing: Backing)
      ensures fresh(entry) && entry.record == Some(this)
      ensures Value() == Resource(id, Register(idle, 0), backing, None, 0)
    {
      this.id := id;
      this.idle := idle;
      this.backing := backing;
      entry := new ListEntry<VirglResource>();
      fenceId := 0;
      mdl := None;
      user := 0;
      new;
      entry.record := Some(this);
    }

    function Value(): Resource
      reads this
    {
      Resource(id, Register(idle, fenceId), backing, mdl, user)
    }

    // The body of the loop of UpdateResourceState: fence 0 always signals, another fence only
    // if it is at least the recorded one, which it then replaces.
    method Signal(busy: bool, fenceId: nat)
      modifies this
      ensures Value() == Mark(old(Value()), Update(busy, fenceId))
    {
      var signal := false;
      if fenceId == 0 {
        signal := true;
      } else if fenceId >= this.fenceId {
        this.fenceId := fenceId;
        signal := true;
      }
      if signal {
        idle := !busy;
      }
    }
  }

  class VirglContext {
    const id: nat
    const head: ListEntry<VirglResource>
    ghost var resources: seq<VirglResource>
    ghost var Repr: set<object>

    ghost function Ends(): seq<ListEntry<VirglResource>>
      reads this
    {
      [head] + Entries(resources)
    }

    ghost predicate Valid()
      reads this, Repr
      ensures Valid() ==> this in Repr
    {
      && this in Repr && head in Repr
      && (forall r :: r in resources ==> r in Repr && r.entry in Repr)
      && Ring(Ends()) && head.record == None
      && forall k :: 0 <= k < |resources| ==> resources[k].entry.record == Some(resources[k])
    }

    // The resources as values, newest first.
    ghost function Values(): seq<Resource>
      reads this, Repr
      requires Valid()
    {
      ValuesOf(resources)
    }

    ghost function Value(): Context
      reads this, Repr
      requires Valid()
    {
      Context(id, Values())
    }

    constructor (id: nat)
      ensures Valid() && fresh(Repr)
      ensures Value() == Context(id, []) && this.id == id
    {
      this.id := id;
      head := new ListEntry<VirglResource>();
      resources := [];
      Repr := {this, head};
    }

    // GetResourceFromListUnsafe.
    method Find(id: nat) returns (r: VirglResource?, ghost position: Option<nat>)
      requires Valid()
      ensures position == FindResource(Values(), id)
      ensures r == null <==> position.None?
      ensures position.Some? ==> r == resources[position.value]
    {
      FirstEntry();
      var item := head.flink;
      ghost var k := 0;
      while item != head
        invariant k <= |resources|
        invariant item == if k < |resources| then Ends()[k + 1] else head
        invariant forall j :: 0 <= j < k ==> resources[j].id != id
        decreases |resources| - k
      {
        var resource := item.record.value;
        if resource.id == id {
          FoundAt(Values(), id, k);
          return resource, Some(k);
        }
        assert Linked(Ends(), k + 1);
        item := item.flink;
        k := k + 1;
      }
      return null, None;
    }

    // The links of a new first entry.
    method Link(r: VirglResource)
      requires Valid() && r !in resources && r.entry !in Ends() && r.entry.record == Some(r)
      modifies this, Entries(resources), head, r.entry
      ensures Valid() && resources == [r] + old(resources) && Repr == old(Repr) + {r, r.entry}
    {
      hide Ring;
      FirstEntry();
      InsertHeadList(head, r.entry, Ends());
      resources := [r] + resources;
      Repr := Repr + {r, r.entry};
      assert Ends() == [head, r.entry] + old(Ends())[1..];
      assert forall k :: 1 <= k < |resources| ==> resources[k] == old(resources)[k - 1];
    }

    // The links around an entry that leaves.
    method Unlink(r: VirglResource, ghost j: nat)
      requires Valid() && j < |resources| && resources[j] == r
      modifies this, Entries(resources), head
      ensures Valid() && resources == Without(old(resources), j) && Repr == old(Repr)
    {
      hide Ring;
      Neighbours(j);
      RemoveEntryList(r.entry, Ends(), j + 1);
      resources := Without(resources, j);
      assert Ends() == Without(old(Ends()), j + 1);
      assert forall k :: 0 <= k < |resources| ==> resources[k] == old(resources)[if k < j then k else k + 1];
    }

    // ExInterlockedInsertHeadList of a new resource.
    method Insert(r: VirglResource)
      requires Valid() && r !in resources && r.entry !in Ends() && r.entry.record == Some(r)
      modifies this, Entries(resources), head, r.entry
      ensures Valid() && resources == [r] + old(resources) && Repr == old(Repr) + {r, r.entry}
      ensures Values() == [r.Value()] + old(Values())
    {
      hide Valid, Entries;
      Link(r);
      assert resources[1..] == old(resources);
    }

    // RemoveEntryListUnsafe.
    method Remove(r: VirglResource, ghost j: nat)
      requires Valid() && j < |resources| && resources[j] == r
      modifies this, Entries(resources), head
      ensures Valid() && resources == Without(old(resources), j) && Repr == old(Repr)
      ensures Values() == Without(old(Values()), j)
    {
      hide Valid, Entries;
      Unlink(r, j);
      ValuesWithout(old(resources), j);
    }

    // RemoveTailList, with the CONTAINING_RECORD that follows it.
    method RemoveTail() returns (r: VirglResource)
      requires Valid() && resources != []
      modifies this, Entries(resources), head
      ensures Valid() && r == old(resources)[|old(resources)| - 1]
      ensures resources == old(resources)[..|old(resources)| - 1] && Repr == old(Repr)
      ensures Values() == old(Values())[..|old(resources)| - 1]
    {
      assert Linked(Ends(), |resources|);
      var item := head.blink;
      r := item.record.value;
      hide Valid, Entries;
      Remove(r, |resources| - 1);
    }

    method IsEmpty() returns (b: bool)
      requires Valid()
      ensures b <==> resources == []
    {
      FirstEntry();
      b := head.flink == head;
    }

    // One turn of the loop of UpdateResourceState.
    method UpdateOneState(id: nat, busy: bool, fenceId: nat)
      requires Valid()
      modifies resources
      ensures Valid() && Values() == UpdateIn(old(Values()), id, Update(busy, fenceId))
    {
      hide Ring, FindResource;
      var resource, position := Find(id);
      ghost var before := Values();
      if resource != null {
        DistinctResources();
        resource.Signal(busy, fenceId);
        assert Values() == before[position.value := Mark(before[position.value], Update(busy, fenceId))];
      }
    }

    // UpdateResourceState: whatever is in the handle list, found or not, once or often.
    method UpdateResourceState(ids: seq<nat>, busy: bool, fenceId: nat)
      requires Valid()
      modifies resources
      ensures Valid() && Values() == UpdateList(old(Values()), ids, Update(busy, fenceId))
    {
      var index := 0;
      while index < |ids|
        invariant index <= |ids| && Valid()
        invariant Values() == UpdateList(old(Values()), ids[..index], Update(busy, fenceId))
      {
        UpdateOneState(ids[index], busy, fenceId);
        assert ids[..index + 1][..index] == ids[..index];
        index := index + 1;
      }
      assert ids[..|ids|] == ids;
    }

    lemma Neighbours(j: nat)
      requires Valid() && j < |resources|
      ensures var e := resources[j].entry;
              && (e.blink == head || e.blink in Entries(resources))
              && (e.flink == head || e.flink in Entries(resources))
    {
      var n := |Ends()|;
      assert Linked(Ends(), j) && Linked(Ends(), j + 1);
      assert forall k :: 1 <= k < n ==> Ends()[k] == Entries(resources)[k - 1];
    }

    // A change of one resource's fields leaves the list alone.
    twostate lemma StoredLinks(j: nat)
      requires old(Valid()) && unchanged(this) && j < |resources|
      requires forall o :: o in Repr && o != resources[j] ==> unchanged(o)
      ensures Valid()
    {
      forall e | e in Ends()
        ensures unchanged(e)
      {
        if e != head {
          var k :| 0 <= k < |resources| && Entries(resources)[k] == e;
          assert resources[k] in resources && e as object != resources[j];
        }
      }
      forall i: nat | i < |Ends()|
        ensures Linked(Ends(), i)
      {
        assert old(Linked(Ends(), i));
        assert Ends()[i] in Ends() && Ends()[Successor(i, |Ends()|)] in Ends();
      }
      forall k | 0 <= k < |resources|
        ensures resources[k].entry.record == Some(resources[k])
      {
        assert Ends()[k + 1] in Ends();
      }
    }

    // At most resource j has changed since.
    twostate lemma Stored(j: nat)
      requires old(Valid()) && unchanged(this) && j < |resources|
      requires forall o :: o in Repr && o != resources[j] ==> unchanged(o)
      ensures Valid() && Values() == old(Values())[j := resources[j].Value()]
    {
      hide Valid, ValuesOf;
      StoredLinks(j);
      DistinctResources();
      Inside();
      forall k | 0 <= k < |resources| && k != j
        ensures resources[k].Value() == old(resources[k].Value())
      {
        assert resources[k] in resources;
      }
    }

    // What the context owns is in Repr.
    lemma Inside()
      requires Valid()
      ensures this in Repr && head in Repr
      ensures forall r :: r in resources ==> r in Repr && r.entry in Repr
      ensures forall e :: e in Entries(resources) ==> e in Repr
    {
      forall e | e in Entries(resources)
        ensures e in Repr
      {
        var k :| 0 <= k < |resources| && Entries(resources)[k] == e;
        assert resources[k] in resources;
      }
    }

    // The head points at the newest resource, or at itself.
    lemma FirstEntry()
      requires Valid()
      ensures head.flink == if resources == [] then head else resources[0].entry
      ensures head.flink == head || head.flink in Entries(resources)
      ensures forall r :: r in resources ==> r.entry != head
    {
      assert Linked(Ends(), 0);
      forall r | r in resources
        ensures r.entry != head
      {
        var k :| 0 <= k < |resources| && resources[k] == r;
        assert Ends()[k + 1] != Ends()[0];
      }
    }

    lemma DistinctResources()
      requires Valid()
      ensures forall i, j :: 0 <= i < j < |resources| ==> resources[i] != resources[j]
    {
      forall i, j | 0 <= i < j < |resources|
        ensures resources[i] != resources[j]
      {
        assert Ends()[i + 1] != Ends()[j + 1];
      }
    }
  }

  ghost function Entries(rs: seq<VirglResource>): (es: seq<ListEntry<VirglResource>>)
    ensures |es| == |rs|
    ensures forall k :: 0 <= k < |rs| ==> es[k] == rs[k].entry
  {
    seq(|rs|, k requires 0 <= k < |rs| => rs[k].entry)
  }

  ghost function ValuesOf(rs: seq<VirglResource>): (vs: seq<Resource>)
    reads rs
    ensures |vs| == |rs|
    ensures forall k :: 0 <= k < |rs| ==> vs[k] == rs[k].Value()
  {
    if rs == [] then [] else [rs[0].Value()] + ValuesOf(rs[1..])
  }

  lemma ValuesWithout(rs: seq<VirglResource>, j: nat)
    requires j < |rs|
    ensures ValuesOf(Without(rs, j)) == Without(ValuesOf(rs), j)
  {
    hide ValuesOf;
    var a, b := ValuesOf(Without(rs, j)), Without(ValuesOf(rs), j);
    forall k | 0 <= k < |a|
      ensures a[k] == b[k]
    {
      assert Without(rs, j)[k] == rs[if k < j then k else k + 1];
    }
  }

  lemma FoundAt(rs: seq<Resource>, id: nat, k: nat)
    requires k < |rs| && rs[k].id == id && forall j :: 0 <= j < k ==> rs[j].id != id
    ensures FindResource(rs, id) == Some(k)
  {
  }
}
