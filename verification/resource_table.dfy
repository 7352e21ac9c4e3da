// The context list and the resource lists refine a finite map from (context id, resource id)
// to resources: each list operation acts on Lookup as a map operation.
module ResourceTable {
  import opened Wrappers
  import opened FenceRegister
  import opened DriverState
  import Idr

  ghost predicate DistinctContexts(cs: seq<Context>) {
    forall i, j :: 0 <= i < j < |cs| ==> cs[i].id != cs[j].id
  }

  // Newest first, which with ids handed out in ascending order means descending ids.
  ghost predicate Descending(rs: seq<Resource>) {
    forall j, k :: 0 <= j < k < |rs| ==> rs[j].id > rs[k].id
  }

  ghost predicate IdsBelow(rs: seq<Resource>, next: nat) {
    forall j :: 0 <= j < |rs| ==> 1 <= rs[j].id < next
  }

  // No resource id is live in two contexts.
  ghost predicate OneOwner(cs: seq<Context>) {
    forall c, c', id :: Lookup(cs, c, id).Some? && Lookup(cs, c', id).Some? ==> c == c'
  }

  ghost predicate WellFormed(cs: seq<Context>, next: nat) {
    && DistinctContexts(cs)
    && OneOwner(cs)
    && forall i :: 0 <= i < |cs| ==> Descending(cs[i].resources) && IdsBelow(cs[i].resources, next)
  }

  lemma LookupFinds(cs: seq<Context>, c: nat, id: nat)
    ensures Lookup(cs, c, id).Some? ==> Lookup(cs, c, id).value.id == id
  {
  }

  lemma LookupAt(cs: seq<Context>, next: nat, i: nat, j: nat)
    requires WellFormed(cs, next) && i < |cs| && j < |cs[i].resources|
    ensures Lookup(cs, cs[i].id, cs[i].resources[j].id) == Some(cs[i].resources[j])
    ensures FindContext(cs, cs[i].id) == Some(i)
    ensures FindResource(cs[i].resources, cs[i].resources[j].id) == Some(j)
  {
    assert FindContext(cs, cs[i].id) == Some(i);
  }

  lemma LookupBelow(cs: seq<Context>, next: nat, c: nat, id: nat)
    requires WellFormed(cs, next)
    ensures Lookup(cs, c, id).Some? ==> 1 <= id < next
  {
  }

  // ----- each list operation is a map operation -----

  lemma FindContextSame(cs: seq<Context>, ds: seq<Context>, c: nat)
    requires |cs| == |ds| && forall k :: 0 <= k < |cs| ==> cs[k].id == ds[k].id
    ensures FindContext(cs, c) == FindContext(ds, c)
  {
    var (a, b) := (FindContext(cs, c), FindContext(ds, c));
    if a.Some? && b.Some? {
      assert a.value == b.value;
    }
  }

  lemma FindResourceSame(rs: seq<Resource>, qs: seq<Resource>, id: nat)
    requires |rs| == |qs| && forall k :: 0 <= k < |rs| ==> rs[k].id == qs[k].id
    ensures FindResource(rs, id) == FindResource(qs, id)
  {
    var (a, b) := (FindResource(rs, id), FindResource(qs, id));
    if a.Some? && b.Some? {
      assert a.value == b.value;
    }
  }

  lemma LookupStore(cs: seq<Context>, c: nat, id: nat, r: Resource, c': nat, id': nat)
    requires Lookup(cs, c, id).Some? && r.id == id
    ensures Lookup(Store(cs, c, id, r), c', id') == if c' == c && id' == id then Some(r) else Lookup(cs, c', id')
  {
    var i := FindContext(cs, c).value;
    var rs := cs[i].resources;
    var ds := Store(cs, c, id, r);
    FindContextSame(cs, ds, c');
    if c' == c {
      FindResourceSame(rs, ds[i].resources, id');
    }
  }

  lemma LookupInsert(cs: seq<Context>, c: nat, r: Resource, c': nat, id': nat)
    requires FindContext(cs, c).Some?
    ensures Lookup(Insert(cs, c, r), c', id') == if c' == c && id' == r.id then Some(r) else Lookup(cs, c', id')
  {
    var i := FindContext(cs, c).value;
    var ds := Insert(cs, c, r);
    FindContextSame(cs, ds, c');
    if c' == c {
      assert ds[i].resources[1..] == cs[i].resources;
    }
  }

  lemma LookupRemove(cs: seq<Context>, next: nat, c: nat, id: nat, c': nat, id': nat)
    requires WellFormed(cs, next) && Lookup(cs, c, id).Some?
    ensures Lookup(Remove(cs, c, id), c', id') == if c' == c && id' == id then None else Lookup(cs, c', id')
  {
    var i := FindContext(cs, c).value;
    var j := FindResource(cs[i].resources, id).value;
    var ds := Remove(cs, c, id);
    FindContextSame(cs, ds, c');
    if c' == c {
      RemovedFind(cs[i].resources, j, id');
    }
  }

  lemma RemovedFind(rs: seq<Resource>, j: nat, id: nat)
    requires Descending(rs) && j < |rs|
    ensures var (a, b) := (FindResource(rs, id), FindResource(Without(rs, j), id));
            if id == rs[j].id then b.None?
            else a.Some? == b.Some? && (a.Some? ==> Without(rs, j)[b.value] == rs[a.value])
  {
    var qs := Without(rs, j);
    var (a, b) := (FindResource(rs, id), FindResource(qs, id));
    if a.Some? && a.value != j {
      var k := if a.value < j then a.value else a.value - 1;
      assert qs[k] == rs[a.value];
    }
    if b.Some? {
      var k := if b.value < j then b.value else b.value + 1;
      assert rs[k] == qs[b.value];
    }
  }

  lemma LookupNewContext(cs: seq<Context>, c: nat, c': nat, id': nat)
    requires FindContext(cs, c).None?
    ensures Lookup([Context(c, [])] + cs, c', id') == Lookup(cs, c', id')
  {
    var ds := [Context(c, [])] + cs;
    assert ds[1..] == cs;
  }

  lemma LookupDropContext(cs: seq<Context>, i: nat, c': nat, id': nat)
    requires DistinctContexts(cs) && i < |cs|
    ensures Lookup(Without(cs, i), c', id') == if c' == cs[i].id then None else Lookup(cs, c', id')
  {
    var ds := Without(cs, i);
    var (a, b) := (FindContext(cs, c'), FindContext(ds, c'));
    if a.Some? && a.value != i {
      var k := if a.value < i then a.value else a.value - 1;
      assert ds[k] == cs[a.value];
    }
    if b.Some? {
      var k := if b.value < i then b.value else b.value + 1;
      assert cs[k] == ds[b.value];
    }
  }

  // A store of UpdateResourceState changes the named resource's register and nothing else.
  lemma LookupWriteOne(cs: seq<Context>, c: nat, id: nat, w: Write, c': nat, id': nat)
    ensures var r := Lookup(cs, c', id');
            Lookup(WriteOne(cs, c, id, w), c', id')
            == if c' == c && id' == id && r.Some? then Some(r.value.(state := Written(r.value.state, w))) else r
  {
    var r := Lookup(cs, c, id);
    if r.Some? {
      LookupStore(cs, c, id, r.value.(state := Written(r.value.state, w)), c', id');
    }
  }

  // CtlMap changes the mapping of one resource, not its kind, its event or its fence.
  lemma LookupEndMap(s: Driver, k: nat, outcome: MapOutcome, c: nat, id: nat)
    ensures var r, r' := Lookup(s.contexts, c, id), Lookup(DoEndMap(s, k, outcome).contexts, c, id);
            && r'.Some? == r.Some?
            && (r.Some? ==> r'.value.id == r.value.id && r'.value.state == r.value.state
                            && r'.value.backing == r.value.backing)
  {
    if DoEndMap(s, k, outcome).contexts != s.contexts {
      var (c', id') := (s.mappers[k].ctx, s.mappers[k].res);
      LookupFinds(s.contexts, c', id');
      LookupStore(s.contexts, c', id', Shared(Lookup(s.contexts, c', id').value, outcome, s.nextMdl), c, id);
    }
  }

  // What the step of request i does if it maps a blob.
  lemma LookupMapIoSpace(s: Driver, i: nat, address: nat, c: nat, id: nat)
    ensures var s' := DoMapIoSpace(s, i, address);
            var r := Lookup(s.contexts, c, id);
            Lookup(s'.contexts, c, id)
            == if s' != s && s.agents[i].cmd == MapBlob(c, id) && r.Some? && address != 0
               then Some(Exposed(r.value, address)) else r
  {
    hide Store, Lookup;
    if DoMapIoSpace(s, i, address) != s && address != 0 && Lookup(s.contexts, s.agents[i].cmd.ctx, s.agents[i].cmd.res).Some? {
      var (c', id') := (s.agents[i].cmd.ctx, s.agents[i].cmd.res);
      LookupFinds(s.contexts, c', id');
      LookupStore(s.contexts, c', id', Exposed(Lookup(s.contexts, c', id').value, address), c, id);
    }
  }

  // ----- well-formedness is kept -----

  lemma WellFormedStore(cs: seq<Context>, next: nat, c: nat, id: nat, r: Resource)
    requires WellFormed(cs, next) && Lookup(cs, c, id).Some? && r.id == id
    ensures WellFormed(Store(cs, c, id, r), next)
  {
    forall c': nat, id': nat
      ensures Lookup(Store(cs, c, id, r), c', id').Some? == Lookup(cs, c', id').Some?
    {
      LookupStore(cs, c, id, r, c', id');
    }
  }

  lemma WellFormedInsert(cs: seq<Context>, next: nat, c: nat, r: Resource)
    requires WellFormed(cs, next) && FindContext(cs, c).Some? && r.id == next >= 1
    ensures WellFormed(Insert(cs, c, r), next + 1)
  {
    forall c': nat, id': nat
      ensures Lookup(Insert(cs, c, r), c', id').Some? <==>
              Lookup(cs, c', id').Some? || (c' == c && id' == next)
      ensures Lookup(cs, c', id').Some? ==> id' < next
    {
      LookupInsert(cs, c, r, c', id');
      LookupBelow(cs, next, c', id');
    }
  }

  lemma WellFormedRemove(cs: seq<Context>, next: nat, c: nat, id: nat)
    requires WellFormed(cs, next) && Lookup(cs, c, id).Some?
    ensures WellFormed(Remove(cs, c, id), next)
  {
    forall c': nat, id': nat
      ensures Lookup(Remove(cs, c, id), c', id').Some? ==> Lookup(cs, c', id').Some?
    {
      LookupRemove(cs, next, c, id, c', id');
    }
  }

  lemma WellFormedNewContext(cs: seq<Context>, next: nat, c: nat)
    requires WellFormed(cs, next) && FindContext(cs, c).None?
    ensures WellFormed([Context(c, [])] + cs, next)
  {
    forall c': nat, id': nat
      ensures Lookup([Context(c, [])] + cs, c', id') == Lookup(cs, c', id')
    {
      LookupNewContext(cs, c, c', id');
    }
  }

  lemma WellFormedDropContext(cs: seq<Context>, next: nat, i: nat)
    requires WellFormed(cs, next) && i < |cs|
    ensures WellFormed(Without(cs, i), next)
  {
    forall c': nat, id': nat
      ensures Lookup(Without(cs, i), c', id').Some? ==> Lookup(cs, c', id').Some?
    {
      LookupDropContext(cs, i, c', id');
    }
  }
}
