// The resource automaton of HostProtocol against the lifecycle written as a grammar:
//   CREATE_3D TRANSFER* UNREF
//   CREATE_3D ATTACH_BACKING TRANSFER* DETACH_BACKING UNREF
//   RESOURCE_CREATE_BLOB MAP_BLOB TRANSFER* UNMAP_BLOB UNREF
module Lifecycle {
  import opened Wrappers
  import opened Arena
  import opened DriverState
  import opened HostView

  // The commands of the trace that concern one resource id.
  function About(trace: seq<Command>, id: nat): seq<Command> {
    if trace == [] then []
    else
      var front, cmd := About(trace[..|trace| - 1], id), trace[|trace| - 1];
      if ResourceOf(cmd) == Some(id) then front + [cmd] else front
  }

  predicate Transfers(evs: seq<Command>, lo: int, hi: int) {
    forall k :: 0 <= lo <= k < hi <= |evs| ==> evs[k].Transfer?
  }

  predicate PlainLife(evs: seq<Command>) {
    |evs| >= 2 && evs[0].Create3D? && Transfers(evs, 1, |evs| - 1) && evs[|evs| - 1].Unref?
  }

  predicate BackedLife(evs: seq<Command>) {
    && |evs| >= 4 && evs[0].Create3D? && evs[1].AttachBacking? && Transfers(evs, 2, |evs| - 2)
    && evs[|evs| - 2].DetachBacking? && evs[|evs| - 1].Unref?
  }

  predicate BlobLife(evs: seq<Command>) {
    && |evs| >= 4 && evs[0].CreateBlob? && evs[1].MapBlob? && Transfers(evs, 2, |evs| - 2)
    && evs[|evs| - 2].UnmapBlob? && evs[|evs| - 1].Unref?
  }

  predicate Life(evs: seq<Command>) {
    PlainLife(evs) || BackedLife(evs) || BlobLife(evs)
  }

  function HostRun(h: Host, evs: seq<Command>): Host {
    if evs == [] then h else HostMove(HostRun(h, evs[..|evs| - 1]), evs[|evs| - 1])
  }

  lemma {:induction false} HostOfIsRun(trace: seq<Command>, id: nat)
    ensures HostOf(trace, id) == HostRun(Absent, About(trace, id))
  {
    if trace != [] {
      var front, cmd := trace[..|trace| - 1], trace[|trace| - 1];
      HostOfIsRun(front, id);
      if ResourceOf(cmd) == Some(id) {
        assert About(trace, id)[..|About(front, id)|] == About(front, id);
      }
    }
  }

  // What has been seen in each state of the automaton.
  predicate Shape(h: Host, evs: seq<Command>) {
    var n := |evs|;
    match h
    case Absent => n == 0
    case Created => n == 1 && evs[0].Create3D?
    case Plain => n >= 2 && evs[0].Create3D? && Transfers(evs, 1, n)
    case Backed(g) => n >= 2 && evs[0].Create3D? && evs[1].AttachBacking? && evs[1].region == g && Transfers(evs, 2, n)
    case Detached => n >= 3 && evs[0].Create3D? && evs[1].AttachBacking? && Transfers(evs, 2, n - 1)
        && evs[n - 1].DetachBacking?
    case BlobCreated => n == 1 && evs[0].CreateBlob?
    case BlobMapped => n >= 2 && evs[0].CreateBlob? && evs[1].MapBlob? && Transfers(evs, 2, n)
    case BlobUnmapped => n >= 3 && evs[0].CreateBlob? && evs[1].MapBlob? && Transfers(evs, 2, n - 1)
        && evs[n - 1].UnmapBlob?
    case Gone => Life(evs)
    case Violated => true
  }

  lemma {:induction false} RunHasShape(evs: seq<Command>)
    ensures Shape(HostRun(Absent, evs), evs)
  {
    if evs != [] {
      var front := evs[..|evs| - 1];
      RunHasShape(front);
      assert forall k :: 0 <= k < |front| ==> front[k] == evs[k];
    }
  }

  // The part of a life before its closing commands leads to the matching state.
  lemma {:induction false} OpenLife(evs: seq<Command>)
    requires |evs| >= 2
    ensures evs[0].Create3D? && Transfers(evs, 1, |evs|) ==> HostRun(Absent, evs).Plain?
    ensures evs[0].Create3D? && evs[1].AttachBacking? && Transfers(evs, 2, |evs|) ==> HostRun(Absent, evs).Backed?
    ensures evs[0].CreateBlob? && evs[1].MapBlob? && Transfers(evs, 2, |evs|) ==> HostRun(Absent, evs).BlobMapped?
  {
    var front := evs[..|evs| - 1];
    assert forall k :: 0 <= k < |front| ==> front[k] == evs[k];
    if |front| >= 2 {
      OpenLife(front);
    } else {
      assert front[..0] == [];
      assert HostRun(Absent, front) == HostMove(Absent, evs[0]);
    }
  }

  lemma LifeEndsGone(evs: seq<Command>)
    requires Life(evs)
    ensures HostRun(Absent, evs).Gone?
  {
    var n := |evs|;
    var front := evs[..n - 1];
    assert forall k :: 0 <= k < n - 1 ==> front[k] == evs[k];
    if PlainLife(evs) {
      if n == 2 {
        assert front[..0] == [];
        assert HostRun(Absent, front) == HostMove(Absent, evs[0]);
      } else {
        OpenLife(front);
      }
    } else {
      var middle := front[..n - 2];
      assert forall k :: 0 <= k < n - 2 ==> middle[k] == evs[k];
      OpenLife(middle);
    }
  }

  // A resource id has reached its end exactly when its commands form one complete life.
  lemma GoneIffLife(trace: seq<Command>, id: nat)
    ensures HostOf(trace, id).Gone? <==> Life(About(trace, id))
  {
    HostOfIsRun(trace, id);
    RunHasShape(About(trace, id));
    if Life(About(trace, id)) {
      LifeEndsGone(About(trace, id));
    }
  }

  lemma {:induction false} ViolatedForEver(evs: seq<Command>, tail: seq<Command>)
    requires HostRun(Absent, evs).Violated?
    ensures HostRun(Absent, evs + tail).Violated?
  {
    if tail == [] {
      assert evs + tail == evs;
    } else {
      var front := tail[..|tail| - 1];
      ViolatedForEver(evs, front);
      assert (evs + tail)[..|evs + tail| - 1] == evs + front;
    }
  }

  // The commands that would complete a life from each state.
  function Completion(h: Host): seq<Command> {
    match h
    case Absent => [Create3D(0, 0), Unref(0, 0)]
    case Created => [Unref(0, 0)]
    case Plain => [Unref(0, 0)]
    case Backed(_) => [DetachBacking(0), Unref(0, 0)]
    case Detached => [Unref(0, 0)]
    case BlobCreated => [MapBlob(0, 0), UnmapBlob(0, 0), Unref(0, 0)]
    case BlobMapped => [UnmapBlob(0, 0), Unref(0, 0)]
    case BlobUnmapped => [Unref(0, 0)]
    case _ => []
  }

  // The automaton is not violated exactly when the commands are a prefix of some life.
  lemma OkIffPrefixOfLife(trace: seq<Command>, id: nat)
    ensures !HostOf(trace, id).Violated? <==> exists tail :: Life(About(trace, id) + tail)
  {
    var evs := About(trace, id);
    HostOfIsRun(trace, id);
    RunHasShape(evs);
    var h := HostRun(Absent, evs);
    if h.Violated? {
      forall tail
        ensures !Life(evs + tail)
      {
        ViolatedForEver(evs, tail);
        if Life(evs + tail) {
          LifeEndsGone(evs + tail);
        }
      }
    } else {
      CompletionCompletes(h, evs);
      assert Life(evs + Completion(h));
    }
  }

  lemma CompletionCompletes(h: Host, evs: seq<Command>)
    requires Shape(h, evs) && !h.Violated?
    ensures Life(evs + Completion(h))
  {
    var all := evs + Completion(h);
    assert forall k :: 0 <= k < |evs| ==> all[k] == evs[k];
    assert forall k :: |evs| <= k < |all| ==> all[k] == Completion(h)[k - |evs|];
  }
}
