// Sums over all resources of all contexts, and how the list operations change them.
module Weights {
  import opened Wrappers
  import opened Sums
  import opened DriverState

  function ContextSum(f: Resource -> nat): Context -> nat {
    (c: Context) => Sum(c.resources, f)
  }

  lemma StoreWeight(cs: seq<Context>, c: nat, id: nat, r: Resource, f: Resource -> nat)
    requires Lookup(cs, c, id).Some?
    ensures Sum(Store(cs, c, id, r), ContextSum(f)) + f(Lookup(cs, c, id).value) == Sum(cs, ContextSum(f)) + f(r)
  {
    var i := FindContext(cs, c).value;
    var j := FindResource(cs[i].resources, id).value;
    SumUpdate(cs[i].resources, j, r, f);
    SumUpdate(cs, i, cs[i].(resources := cs[i].resources[j := r]), ContextSum(f));
  }

  lemma InsertWeight(cs: seq<Context>, c: nat, r: Resource, f: Resource -> nat)
    requires FindContext(cs, c).Some?
    ensures Sum(Insert(cs, c, r), ContextSum(f)) == Sum(cs, ContextSum(f)) + f(r)
  {
    var i := FindContext(cs, c).value;
    assert ([r] + cs[i].resources)[1..] == cs[i].resources;
    SumUpdate(cs, i, cs[i].(resources := [r] + cs[i].resources), ContextSum(f));
  }

  lemma RemoveWeight(cs: seq<Context>, c: nat, id: nat, f: Resource -> nat)
    requires Lookup(cs, c, id).Some?
    ensures Sum(Remove(cs, c, id), ContextSum(f)) + f(Lookup(cs, c, id).value) == Sum(cs, ContextSum(f))
  {
    var i := FindContext(cs, c).value;
    var rs := cs[i].resources;
    var j := FindResource(rs, id).value;
    SumRemove(rs, j, f);
    SumUpdate(cs, i, cs[i].(resources := rs[..j] + rs[j + 1..]), ContextSum(f));
  }

  lemma NewContextWeight(cs: seq<Context>, c: nat, f: Resource -> nat)
    ensures Sum([Context(c, [])] + cs, ContextSum(f)) == Sum(cs, ContextSum(f))
  {
    assert ([Context(c, [])] + cs)[1..] == cs;
  }
}
