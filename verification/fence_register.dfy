// The busy/idle event and the highest-fence number of a resource, as UpdateResourceState of
// kernelmode/vgpu/control.h changes them, and what any history of such changes amounts to.
module FenceRegister {
  // idle: the state of StateEvent, fence: FenceId.
  datatype Register = Register(idle: bool, fence: nat)

  datatype Update = Update(busy: bool, fence: nat)

  // Fence 0 always takes effect, another fence only if it is at least the recorded one.
  function Apply(r: Register, u: Update): Register {
    if u.fence == 0 then r.(idle := !u.busy)
    else if u.fence >= r.fence then Register(!u.busy, u.fence)
    else r
  }

  // The two stores of an update, which take no lock, one at a time.
  datatype Write = Record(fence: nat) | Signal(busy: bool)

  function Written(r: Register, w: Write): Register {
    match w
    case Record(fence) => r.(fence := fence)
    case Signal(busy) => r.(idle := !busy)
  }

  function WriteAll(r: Register, h: seq<Write>): Register {
    if h == [] then r else Written(WriteAll(r, h[..|h| - 1]), h[|h| - 1])
  }

  // A fenced update that arrives after a larger fence was recorded.
  predicate Outdated(r: Register, u: Update) {
    0 < u.fence < r.fence
  }

  function ApplyAll(r: Register, h: seq<Update>): Register {
    if h == [] then r else Apply(ApplyAll(r, h[..|h| - 1]), h[|h| - 1])
  }

  // Update i of the history is not outdated: unfenced, or no larger fence was recorded before.
  ghost predicate Counts(r: Register, h: seq<Update>, i: nat)
    requires i < |h|
  {
    h[i].fence == 0 || (h[i].fence >= r.fence && forall j :: 0 <= j < i ==> h[j].fence <= h[i].fence)
  }

  ghost predicate LastThatCounts(r: Register, h: seq<Update>, i: nat) {
    i < |h| && Counts(r, h, i) && forall j :: i < j < |h| ==> !Counts(r, h, j)
  }

  ghost predicate Highest(r: Register, h: seq<Update>, m: nat) {
    && r.fence <= m && (forall i :: 0 <= i < |h| ==> h[i].fence <= m)
    && (m == r.fence || exists i :: 0 <= i < |h| && h[i].fence == m)
  }

  // The recorded fence is the highest ever seen, in any order of arrival.
  lemma {:induction false} RecordsHighest(r: Register, h: seq<Update>)
    ensures Highest(r, h, ApplyAll(r, h).fence)
  {
    if h != [] {
      var before := h[..|h| - 1];
      RecordsHighest(r, before);
      var m := ApplyAll(r, before).fence;
      if m != r.fence {
        var i :| 0 <= i < |before| && before[i].fence == m;
        assert h[i].fence == m;
      }
    }
  }

  lemma CountsInPrefix(r: Register, h: seq<Update>, n: nat, i: nat)
    requires i < n <= |h|
    ensures Counts(r, h[..n], i) <==> Counts(r, h, i)
  {
    assert forall j :: 0 <= j <= i ==> h[..n][j] == h[j];
  }

  lemma LastCounts(r: Register, h: seq<Update>)
    requires h != []
    ensures Counts(r, h, |h| - 1) <==>
            h[|h| - 1].fence == 0 || h[|h| - 1].fence >= ApplyAll(r, h[..|h| - 1]).fence
  {
    var before := h[..|h| - 1];
    RecordsHighest(r, before);
    assert forall j :: 0 <= j < |before| ==> before[j] == h[j];
  }

  // The event shows the direction of the last update that was not outdated when it arrived.
  lemma {:induction false} ShowsLastThatCounts(r: Register, h: seq<Update>, i: nat)
    requires LastThatCounts(r, h, i)
    ensures ApplyAll(r, h).idle == !h[i].busy
  {
    LastCounts(r, h);
    var before := h[..|h| - 1];
    if i < |before| {
      forall j | i <= j < |before|
        ensures Counts(r, before, j) <==> Counts(r, h, j)
      {
        CountsInPrefix(r, h, |before|, j);
      }
      ShowsLastThatCounts(r, before, i);
    }
  }

  // Every update carries a fence, and no command marks busy after it has marked idle.
  ghost predicate FencedInOrder(h: seq<Update>) {
    && (forall i :: 0 <= i < |h| ==> h[i].fence != 0)
    && (forall i, j :: 0 <= i < j < |h| && h[i].fence == h[j].fence && h[j].busy ==> h[i].busy)
  }

  lemma LastOf(h: seq<Update>, m: nat) returns (i: nat)
    requires exists k :: 0 <= k < |h| && h[k].fence == m
    ensures i < |h| && h[i].fence == m && forall j :: i < j < |h| ==> h[j].fence != m
  {
    i := |h| - 1;
    while h[i].fence != m
      invariant i < |h| && forall j :: i < j < |h| ==> h[j].fence != m
      invariant exists k :: 0 <= k <= i && h[k].fence == m
      decreases i
    {
      i := i - 1;
    }
  }

  // Fenced commands only: the resource is idle if and only if the command with the highest
  // fence has completed, whatever the order of the other marks.
  lemma FencedOutcome(r: Register, h: seq<Update>, m: nat)
    requires FencedInOrder(h) && Highest(r, h, m) && m > r.fence
    ensures ApplyAll(r, h).fence == m
    ensures ApplyAll(r, h).idle <==> Update(false, m) in h
  {
    RecordsHighest(r, h);
    var i := LastOf(h, m);
    assert Counts(r, h, i);
    forall j | i < j < |h|
      ensures !Counts(r, h, j)
    {
      assert h[j].fence < h[i].fence;
    }
    ShowsLastThatCounts(r, h, i);
    assert h[i] in h;
    if Update(false, m) in h {
      var k :| 0 <= k < |h| && h[k] == Update(false, m);
    }
  }

  // Fenced updates commute: two interleavings of the same marks leave the same register.
  lemma FencedUpdatesCommute(r: Register, h: seq<Update>, g: seq<Update>)
    requires FencedInOrder(h) && FencedInOrder(g)
    requires forall u :: u in h <==> u in g
    requires forall u :: u in h ==> u.fence != r.fence
    ensures ApplyAll(r, h) == ApplyAll(r, g)
  {
    RecordsHighest(r, h);
    var m := ApplyAll(r, h).fence;
    forall i | 0 <= i < |g|
      ensures g[i].fence <= m
    {
      assert g[i] in h;
    }
    if m == r.fence {
      NothingCounts(r, h);
      NothingCounts(r, g);
    } else {
      var i :| 0 <= i < |h| && h[i].fence == m;
      assert h[i] in g;
      var j :| 0 <= j < |g| && g[j] == h[i];
      FencedOutcome(r, h, m);
      FencedOutcome(r, g, m);
    }
  }

  lemma {:induction false} NothingCounts(r: Register, h: seq<Update>)
    requires forall i :: 0 <= i < |h| ==> 0 < h[i].fence < r.fence
    ensures ApplyAll(r, h) == r
  {
    if h != [] {
      NothingCounts(r, h[..|h| - 1]);
    }
  }
}
