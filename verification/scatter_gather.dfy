// The scatter-gather lists of kernelmode/vgpu/command.c: a buffer is cut into elements of at
// most one page, and the request and the response of a command share one allocation.
module ScatterGather {
  import opened Paging

  const SGLIST_SIZE := 4

  // struct VirtIOBufferDescriptor.
  datatype Element = Element(physAddr: nat, length: nat)

  // A stretch of virtual memory.
  datatype Piece = Piece(start: nat, length: nat)

  function Min(a: nat, b: nat): nat {
    if a < b then a else b
  }

  function Pages(size: nat): nat {
    (size + PAGE_SIZE - 1) / PAGE_SIZE
  }

  // How BuildSGElement cuts a buffer.
  function Pieces(buf: nat, size: nat): seq<Piece>
    decreases size
  {
    if size == 0 then []
    else
      var length := Min(size, PAGE_SIZE);
      [Piece(buf, length)] + Pieces(buf + length, size - length)
  }

  // The pieces follow each other without gap or overlap from `from` to `to`.
  ghost predicate Tiles(ps: seq<Piece>, from: nat, to: nat) {
    && (forall k :: 0 <= k < |ps| ==> 1 <= ps[k].length <= PAGE_SIZE)
    && (forall k :: 0 <= k < |ps| - 1 ==> ps[k].start + ps[k].length == ps[k + 1].start)
    && (if ps == [] then from == to
        else ps[0].start == from && ps[|ps| - 1].start + ps[|ps| - 1].length == to)
  }

  lemma PagesStep(size: nat)
    requires size > 0
    ensures Pages(size) == 1 + Pages(size - Min(size, PAGE_SIZE))
  {
  }

  lemma {:induction false} PieceCount(buf: nat, size: nat)
    ensures |Pieces(buf, size)| == Pages(size)
    decreases size
  {
    if size != 0 {
      hide Pages;
      PagesStep(size);
      PieceCount(buf + Min(size, PAGE_SIZE), size - Min(size, PAGE_SIZE));
    }
  }

  // One element per page of the size, covering the buffer exactly.
  lemma {:induction false} PiecesTile(buf: nat, size: nat)
    ensures |Pieces(buf, size)| == Pages(size)
    ensures Tiles(Pieces(buf, size), buf, buf + size)
    decreases size
  {
    hide Pages;
    PieceCount(buf, size);
    if size != 0 {
      var length := Min(size, PAGE_SIZE);
      var ps, rest := Pieces(buf, size), Pieces(buf + length, size - length);
      PiecesTile(buf + length, size - length);
      assert ps == [Piece(buf, length)] + rest;
      assert forall k :: 1 <= k < |ps| ==> ps[k] == rest[k - 1];
    }
  }

  lemma TilesAppend(a: seq<Piece>, b: seq<Piece>, from: nat, mid: nat, to: nat)
    requires Tiles(a, from, mid) && Tiles(b, mid, to)
    ensures Tiles(a + b, from, to)
  {
    var c := a + b;
    forall k | 0 <= k < |c| - 1
      ensures c[k].start + c[k].length == c[k + 1].start
    {
      if k + 1 < |a| {
        assert c[k] == a[k] && c[k + 1] == a[k + 1];
      } else if k >= |a| {
        assert c[k] == b[k - |a|] && c[k + 1] == b[k + 1 - |a|];
      }
    }
  }

  // The elements of the list that describe these pieces, under the address translation.
  ghost predicate Describes(es: seq<Element>, ps: seq<Piece>, physical: nat -> nat) {
    |es| == |ps| && forall k :: 0 <= k < |ps| ==> es[k] == Element(physical(ps[k].start), ps[k].length)
  }

  // Translation through a page table.
  function Translate(frame: nat -> nat, address: nat): nat {
    frame(address / PAGE_SIZE) * PAGE_SIZE + address % PAGE_SIZE
  }

  predicate ByteAt(e: Element, p: Piece, frame: nat -> nat, o: nat) {
    Translate(frame, p.start + o) == e.physAddr + o
  }

  // Every byte of the piece is where the element says.
  ghost predicate CoversBytes(e: Element, p: Piece, frame: nat -> nat) {
    forall o: nat :: o < p.length ==> ByteAt(e, p, frame, o)
  }

  // The piece lies within a page, or its two pages lie behind each other in memory.
  predicate Contiguous(p: Piece, frame: nat -> nat) {
    var page := p.start / PAGE_SIZE;
    p.start % PAGE_SIZE + p.length <= PAGE_SIZE || frame(page + 1) == frame(page) + 1
  }

  lemma OffsetInPage(p: Piece, o: nat)
    requires o < p.length <= PAGE_SIZE
    ensures var at := p.start % PAGE_SIZE + o;
            && (p.start + o) / PAGE_SIZE == p.start / PAGE_SIZE + (if at < PAGE_SIZE then 0 else 1)
            && (p.start + o) % PAGE_SIZE == if at < PAGE_SIZE then at else at - PAGE_SIZE
  {
    var q, at := p.start / PAGE_SIZE, p.start % PAGE_SIZE + o;
    assert p.start + o == q * PAGE_SIZE + at;
    if at < PAGE_SIZE {
      QuotientIs(p.start + o, q, at);
    } else {
      assert p.start + o == (q + 1) * PAGE_SIZE + (at - PAGE_SIZE);
      QuotientIs(p.start + o, q + 1, at - PAGE_SIZE);
    }
  }

  lemma QuotientIs(x: nat, q: nat, r: nat)
    requires x == q * PAGE_SIZE + r && r < PAGE_SIZE
    ensures x / PAGE_SIZE == q && x % PAGE_SIZE == r
  {
  }

  // An element made from the address of the first byte describes the piece if and only if the
  // piece is contiguous in memory.
  lemma CoversIffContiguous(p: Piece, frame: nat -> nat)
    requires 1 <= p.length <= PAGE_SIZE
    ensures CoversBytes(Element(Translate(frame, p.start), p.length), p, frame) <==> Contiguous(p, frame)
  {
    hide ByteAt, Translate;
    var e := Element(Translate(frame, p.start), p.length);
    forall o: nat | o < p.length
      ensures ByteAt(e, p, frame, o) <==> p.start % PAGE_SIZE + o < PAGE_SIZE || Contiguous(p, frame)
    {
      TranslateAt(p, frame, o);
    }
    if p.start % PAGE_SIZE + p.length > PAGE_SIZE {
      var o: nat := PAGE_SIZE - p.start % PAGE_SIZE;
      assert CoversBytes(e, p, frame) ==> ByteAt(e, p, frame, o);
    }
  }

  lemma TranslateAt(p: Piece, frame: nat -> nat, o: nat)
    requires o < p.length <= PAGE_SIZE
    ensures ByteAt(Element(Translate(frame, p.start), p.length), p, frame, o) <==>
            p.start % PAGE_SIZE + o < PAGE_SIZE || Contiguous(p, frame)
  {
    OffsetInPage(p, o);
  }

  // The list that BuildSGElement makes describes every byte of the buffer if and only if every
  // piece is contiguous. A page-aligned buffer always is; a response that follows its request
  // in the same allocation may have pieces that cross into another page.
  lemma ListCoversIffContiguous(es: seq<Element>, buf: nat, size: nat, frame: nat -> nat)
    requires Describes(es, Pieces(buf, size), address => Translate(frame, address))
    ensures var ps := Pieces(buf, size);
            (forall k :: 0 <= k < |ps| ==> CoversBytes(es[k], ps[k], frame)) <==>
            forall k :: 0 <= k < |ps| ==> Contiguous(ps[k], frame)
    ensures buf % PAGE_SIZE == 0 ==> forall k :: 0 <= k < |es| ==> CoversBytes(es[k], Pieces(buf, size)[k], frame)
  {
    hide CoversBytes, Contiguous, Translate, Pieces;
    var ps := Pieces(buf, size);
    PiecesTile(buf, size);
    forall k: nat | k < |ps|
      ensures CoversBytes(es[k], ps[k], frame) <==> Contiguous(ps[k], frame)
      ensures buf % PAGE_SIZE == 0 ==> Contiguous(ps[k], frame)
    {
      assert es[k] == Element(Translate(frame, ps[k].start), ps[k].length);
      CoversIffContiguous(ps[k], frame);
      PiecesFrom(buf, size, k);
      AlignedContiguous(buf, k, ps[k], frame);
    }
  }

  lemma AlignedContiguous(buf: nat, k: nat, p: Piece, frame: nat -> nat)
    requires p.start == buf + k * PAGE_SIZE && p.length <= PAGE_SIZE
    ensures buf % PAGE_SIZE == 0 ==> Contiguous(p, frame)
  {
    if buf % PAGE_SIZE == 0 {
      QuotientIs(p.start, buf / PAGE_SIZE + k, 0);
    }
  }

  lemma PiecesFrom(buf: nat, size: nat, k: nat)
    requires k < |Pieces(buf, size)|
    ensures var done := k * PAGE_SIZE;
            done < size && Pieces(buf, size)[k] == Piece(buf + done, Min(size - done, PAGE_SIZE))
    decreases size
  {
    if k > 0 {
      PiecesFrom(buf + PAGE_SIZE, size - PAGE_SIZE, k - 1);
    }
  }

  lemma DescribesAppend(a: seq<Element>, b: seq<Element>, ps: seq<Piece>, qs: seq<Piece>, physical: nat -> nat)
    requires Describes(a, ps, physical) && Describes(b, qs, physical)
    ensures Describes(a + b, ps + qs, physical)
  {
  }

  // BuildSGElement on the list that starts at position `off`. The overflow check compares with
  // >, so the loop stores up to maxCount + 1 elements before it gives up. The precondition is
  // that these stores stay inside the list; the result is exact for every size.
  method BuildSGElement(sg: array<Element>, off: nat, maxCount: nat, buf: nat, size: nat, physical: nat -> nat)
    returns (count: nat)
    requires off + Min(Pages(size), maxCount + 1) <= sg.Length
    modifies sg
    ensures count == if Pages(size) <= maxCount + 1 then Pages(size) else 0
    ensures Pages(size) <= maxCount + 1 ==> Describes(sg[off..off + count], Pieces(buf, size), physical)
    ensures forall k :: 0 <= k < sg.Length && !(off <= k < off + Min(Pages(size), maxCount + 1)) ==> sg[k] == old(sg[k])
  {
    PiecesTile(buf, size);
    var n := 0;
    var p, left := buf, size;
    while left != 0
      invariant p == buf + (size - left) && left <= size
      invariant n <= Pages(size) && n <= maxCount + 1
      invariant left == if n < Pages(size) then size - n * PAGE_SIZE else 0
      invariant forall k :: 0 <= k < n ==>
                  sg[off + k] == Element(physical(Pieces(buf, size)[k].start), Pieces(buf, size)[k].length)
      invariant forall k :: 0 <= k < sg.Length && !(off <= k < off + n) ==> sg[k] == old(sg[k])
      decreases left
    {
      if n > maxCount {
        return 0;
      }
      PiecesFrom(buf, size, n);
      var length := Min(left, PAGE_SIZE);
      sg[off + n] := Element(physical(p), length);
      p := p + length;
      left := left - length;
      n := n + 1;
    }
    return n;
  }

  // How the emitters describe a command with a response: both lists lie one behind the other
  // in an array of SGLIST_SIZE elements and together tile the single allocation of the command
  // buffer.
  method DescribeCommand(sg: array<Element>, buf: nat, cmdSize: nat, respSize: nat, physical: nat -> nat)
    returns (outNum: nat, inNum: nat)
    requires sg.Length == SGLIST_SIZE && Pages(cmdSize) + Pages(respSize) <= SGLIST_SIZE
    modifies sg
    ensures outNum == Pages(cmdSize) && inNum == Pages(respSize)
    ensures Describes(sg[..outNum + inNum], Pieces(buf, cmdSize) + Pieces(buf + cmdSize, respSize), physical)
    ensures Tiles(Pieces(buf, cmdSize) + Pieces(buf + cmdSize, respSize), buf, buf + cmdSize + respSize)
  {
    hide Pieces, Tiles, Describes;
    PiecesTile(buf, cmdSize);
    PiecesTile(buf + cmdSize, respSize);
    TilesAppend(Pieces(buf, cmdSize), Pieces(buf + cmdSize, respSize), buf, buf + cmdSize, buf + cmdSize + respSize);
    outNum := BuildSGElement(sg, 0, SGLIST_SIZE, buf, cmdSize, physical);
    assert sg[..outNum] == sg[0..0 + outNum];
    ghost var request := sg[..outNum];
    inNum := BuildSGElement(sg, outNum, SGLIST_SIZE - outNum, buf + cmdSize, respSize, physical);
    assert sg[..outNum] == request;
    assert sg[..outNum + inNum] == request + sg[outNum..outNum + inNum];
    DescribesAppend(request, sg[outNum..outNum + inNum], Pieces(buf, cmdSize), Pieces(buf + cmdSize, respSize), physical);
  }
}
