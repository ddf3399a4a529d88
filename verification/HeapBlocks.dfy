/**
 The heap as a sequence of blocks in address order, and what allocating and freeing do to
 it.  Heap.dfy proves that the linked headers in memory follow these functions.
 */
module HeapBlocks {

  datatype Block = Block(addr: nat, size: nat, free: bool)

  const ALIGN := 8  // portBYTE_ALIGNMENT

  // The blocks cover [lo, hi) without gaps; all boundaries are aligned if lo is.
  ghost predicate Tiles(s: seq<Block>, lo: nat, hi: nat) {
    if s == [] then lo == hi
    else s[0].addr == lo && s[0].size > 0 && s[0].size % ALIGN == 0 && Tiles(s[1..], lo + s[0].size, hi)
  }

  // No two neighbours are both free.
  ghost predicate Coalesced(s: seq<Block>) {
    forall i :: 0 <= i < |s| - 1 ==> !(s[i].free && s[i + 1].free)
  }

  ghost function FreeBytes(s: seq<Block>): nat {
    if s == [] then 0 else (if s[0].free then s[0].size else 0) + FreeBytes(s[1..])
  }

  lemma {:induction false} TilesSplit(a: seq<Block>, b: seq<Block>, lo: nat, hi: nat)
    requires Tiles(a + b, lo, hi)
    ensures var mid := lo + Span(a); Tiles(a, lo, mid) && Tiles(b, mid, hi)
  {
    if a == [] {
      assert a + b == b;
    } else {
      assert (a + b)[1..] == a[1..] + b;
      TilesSplit(a[1..], b, lo + a[0].size, hi);
    }
  }

  lemma {:induction false} TilesJoin(a: seq<Block>, b: seq<Block>, lo: nat, mid: nat, hi: nat)
    requires Tiles(a, lo, mid) && Tiles(b, mid, hi)
    ensures Tiles(a + b, lo, hi)
  {
    if a == [] {
      assert a + b == b;
    } else {
      assert (a + b)[1..] == a[1..] + b;
      TilesJoin(a[1..], b, lo + a[0].size, mid, hi);
    }
  }

  ghost function Span(s: seq<Block>): nat {
    if s == [] then 0 else s[0].size + Span(s[1..])
  }

  lemma {:induction false} TilesSpan(s: seq<Block>, lo: nat, hi: nat)
    requires Tiles(s, lo, hi)
    ensures hi == lo + Span(s) && Span(s) % ALIGN == 0 && FreeBytes(s) <= Span(s)
    ensures s != [] ==> lo < hi
  {
    if s != [] {
      TilesSpan(s[1..], lo + s[0].size, hi);
    }
  }

  // Every block lies within the range, after the blocks in front of it.
  lemma {:induction false} BlockInside(s: seq<Block>, lo: nat, hi: nat, i: nat)
    requires Tiles(s, lo, hi) && i < |s|
    ensures lo <= s[i].addr && s[i].addr + s[i].size <= hi && s[i].size > 0
    ensures lo % ALIGN == 0 ==> s[i].addr % ALIGN == 0
    ensures i + 1 < |s| ==> s[i + 1].addr == s[i].addr + s[i].size
    ensures i + 1 == |s| ==> hi == s[i].addr + s[i].size
  {
    TilesSpan(s[1..], lo + s[0].size, hi);
    if i > 0 {
      BlockInside(s[1..], lo + s[0].size, hi, i - 1);
    }
  }

  lemma {:induction false} FreeBytesJoin(a: seq<Block>, b: seq<Block>)
    ensures FreeBytes(a + b) == FreeBytes(a) + FreeBytes(b)
  {
    if a == [] {
      assert a + b == b;
    } else {
      assert (a + b)[1..] == a[1..] + b;
      FreeBytesJoin(a[1..], b);
    }
  }

  // Tiling, block by block.
  lemma HeadTiles(b: Block, c: seq<Block>, lo: nat, hi: nat)
    ensures Tiles([b] + c, lo, hi) <==>
            b.addr == lo && b.size > 0 && b.size % ALIGN == 0 && Tiles(c, lo + b.size, hi)
    ensures FreeBytes([b] + c) == (if b.free then b.size else 0) + FreeBytes(c)
  {
    assert ([b] + c)[1..] == c;
  }

  lemma OneTiles(b: Block, lo: nat, hi: nat)
    ensures Tiles([b], lo, hi) <==> b.addr == lo && b.size > 0 && b.size % ALIGN == 0 && hi == lo + b.size
    ensures FreeBytes([b]) == if b.free then b.size else 0
  {
    assert [b][1..] == [];
  }

  // ----- Freeing -----------------------------------------------------------------

  // The blocks a and b as one free block.
  function Merge(a: Block, b: Block): Block {
    Block(a.addr, a.size + b.size, true)
  }

  // The blocks in front of b together with b, which is now free.
  function JoinLeft(a: seq<Block>, b: Block): (s: seq<Block>)
    ensures s != [] && s[|s| - 1].free
  {
    if a != [] && a[|a| - 1].free then a[..|a| - 1] + [Merge(a[|a| - 1], b)] else a + [b.(free := true)]
  }

  // The blocks s, whose last one is free, with those behind it.
  function JoinRight(s: seq<Block>, c: seq<Block>): seq<Block>
    requires s != []
  {
    if c != [] && c[0].free then s[..|s| - 1] + [Merge(s[|s| - 1], c[0])] + c[1..] else s + c
  }

  // A block between a and c becomes free and swallows its free neighbours.
  function Coalesce(a: seq<Block>, b: Block, c: seq<Block>): seq<Block> {
    JoinRight(JoinLeft(a, b), c)
  }

  lemma JoinLeftTiles(a: seq<Block>, b: Block, lo: nat, mid: nat)
    requires Tiles(a, lo, mid) && b.addr == mid && b.size > 0 && b.size % ALIGN == 0
    ensures Tiles(JoinLeft(a, b), lo, mid + b.size)
    ensures FreeBytes(JoinLeft(a, b)) == FreeBytes(a) + b.size
  {
    hide Tiles, FreeBytes, Span;
    if a != [] && a[|a| - 1].free {
      var init, last := a[..|a| - 1], a[|a| - 1];
      assert a == init + [last];
      TilesSplit(init, [last], lo, mid);
      FreeBytesJoin(init, [last]);
      OneTiles(last, lo + Span(init), mid);
      OneTiles(Merge(last, b), last.addr, mid + b.size);
      TilesJoin(init, [Merge(last, b)], lo, last.addr, mid + b.size);
      FreeBytesJoin(init, [Merge(last, b)]);
    } else {
      OneTiles(b.(free := true), mid, mid + b.size);
      TilesJoin(a, [b.(free := true)], lo, mid, mid + b.size);
      FreeBytesJoin(a, [b.(free := true)]);
    }
  }

  lemma JoinRightTiles(s: seq<Block>, c: seq<Block>, lo: nat, mid: nat, hi: nat)
    requires s != [] && s[|s| - 1].free && Tiles(s, lo, mid) && Tiles(c, mid, hi)
    ensures Tiles(JoinRight(s, c), lo, hi) && FreeBytes(JoinRight(s, c)) == FreeBytes(s) + FreeBytes(c)
  {
    hide Tiles, FreeBytes, Span;
    if c != [] && c[0].free {
      var init, last, m := s[..|s| - 1], s[|s| - 1], Merge(s[|s| - 1], c[0]);
      assert s == init + [last] && c == [c[0]] + c[1..];
      TilesSplit(init, [last], lo, mid);
      FreeBytesJoin(init, [last]);
      OneTiles(last, lo + Span(init), mid);
      HeadTiles(c[0], c[1..], mid, hi);
      HeadTiles(m, c[1..], last.addr, hi);
      TilesJoin(init, [m] + c[1..], lo, last.addr, hi);
      FreeBytesJoin(init, [m] + c[1..]);
      assert JoinRight(s, c) == init + ([m] + c[1..]);
    } else {
      TilesJoin(s, c, lo, mid, hi);
      FreeBytesJoin(s, c);
    }
  }

  // Freeing keeps the tiling and adds exactly the freed bytes to the free ones.
  lemma CoalesceTiles(a: seq<Block>, b: Block, c: seq<Block>, lo: nat, hi: nat)
    requires Tiles(a + [b] + c, lo, hi) && !b.free
    ensures Tiles(Coalesce(a, b, c), lo, hi)
    ensures FreeBytes(Coalesce(a, b, c)) == FreeBytes(a + [b] + c) + b.size
  {
    var mid := lo + Span(a);
    assert a + [b] + c == a + ([b] + c);
    TilesSplit(a, [b] + c, lo, hi);
    assert ([b] + c)[1..] == c;
    FreeBytesJoin(a, [b] + c);
    JoinLeftTiles(a, b, lo, mid);
    JoinRightTiles(JoinLeft(a, b), c, lo, mid + b.size, hi);
  }

  // The gap rule for a sequence put together from two.
  lemma CoalescedJoin(a: seq<Block>, b: seq<Block>)
    ensures Coalesced(a + b) <==>
            Coalesced(a) && Coalesced(b) && (a != [] && b != [] ==> !(a[|a| - 1].free && b[0].free))
  {
    var s, n := a + b, |a|;
    if Coalesced(s) {
      forall i | 0 <= i < n - 1
        ensures !(a[i].free && a[i + 1].free)
      {
        assert !(s[i].free && s[i + 1].free);
      }
      forall i | 0 <= i < |b| - 1
        ensures !(b[i].free && b[i + 1].free)
      {
        assert !(s[n + i].free && s[n + i + 1].free);
      }
      if a != [] && b != [] {
        assert !(s[n - 1].free && s[n - 1 + 1].free);
      }
    }
  }

  lemma JoinLeftCoalesced(a: seq<Block>, b: Block)
    requires Coalesced(a)
    ensures Coalesced(JoinLeft(a, b))
  {
    CoalescedJoin(a, [b.(free := true)]);
    if a != [] && a[|a| - 1].free {
      var init, last := a[..|a| - 1], a[|a| - 1];
      assert a == init + [last];
      CoalescedJoin(init, [last]);
      CoalescedJoin(init, [Merge(last, b)]);
    }
  }

  lemma JoinRightCoalesced(s: seq<Block>, c: seq<Block>)
    requires s != [] && s[|s| - 1].free && Coalesced(s) && Coalesced(c)
    ensures Coalesced(JoinRight(s, c))
  {
    CoalescedJoin(s, c);
    if c != [] && c[0].free {
      var init, last, m := s[..|s| - 1], s[|s| - 1], Merge(s[|s| - 1], c[0]);
      assert s == init + [last] && c == [c[0]] + c[1..];
      CoalescedJoin(init, [last]);
      CoalescedJoin([c[0]], c[1..]);
      CoalescedJoin(init, [m]);
      CoalescedJoin(init + [m], c[1..]);
    }
  }

  // Freeing leaves no two free neighbours.
  lemma CoalesceCoalesces(a: seq<Block>, b: Block, c: seq<Block>)
    requires Coalesced(a + [b] + c)
    ensures Coalesced(Coalesce(a, b, c))
  {
    CoalescedJoin(a + [b], c);
    CoalescedJoin(a, [b]);
    JoinLeftCoalesced(a, b);
    JoinRightCoalesced(JoinLeft(a, b), c);
  }

  // ----- Allocating ------------------------------------------------------------------

  // The number of blocks in front of the first free one that is large enough.
  function FirstFit(s: seq<Block>, wanted: nat): (i: nat)
    ensures i <= |s|
    ensures forall j :: 0 <= j < i ==> !(s[j].free && s[j].size >= wanted)
    ensures i < |s| ==> s[i].free && s[i].size >= wanted
  {
    if s == [] || (s[0].free && s[0].size >= wanted) then 0 else 1 + FirstFit(s[1..], wanted)
  }

  // A used block of the size wanted, and what is left if that is more than the minimum.
  function Carve(b: Block, wanted: nat, minimum: nat): seq<Block>
    requires wanted <= b.size
  {
    if b.size - wanted > minimum then
      [Block(b.addr, wanted, false), Block(b.addr + wanted, b.size - wanted, true)]
    else [b.(free := false)]
  }

  function Allocate(s: seq<Block>, i: nat, wanted: nat, minimum: nat): seq<Block>
    requires i < |s| && wanted <= s[i].size
  {
    s[..i] + Carve(s[i], wanted, minimum) + s[i + 1..]
  }

  lemma CarveTiles(b: Block, wanted: nat, minimum: nat)
    requires 0 < wanted <= b.size && wanted % ALIGN == 0 && b.size % ALIGN == 0
    ensures var s := Carve(b, wanted, minimum);
            Tiles(s, b.addr, b.addr + b.size) && FreeBytes(s) + s[0].size == b.size
  {
    var s := Carve(b, wanted, minimum);
    if |s| == 2 {
      assert s[1..] == [s[1]] && s[1..][1..] == [];
      assert FreeBytes([s[1]]) == s[1].size;
    } else {
      assert s[1..] == [];
    }
  }

  // Allocating keeps the tiling and takes exactly the block's bytes from the free ones.
  lemma AllocateTiles(s: seq<Block>, i: nat, wanted: nat, minimum: nat, lo: nat, hi: nat)
    requires Tiles(s, lo, hi) && i < |s| && s[i].free
    requires 0 < wanted <= s[i].size && wanted % ALIGN == 0
    ensures var t := Allocate(s, i, wanted, minimum);
            Tiles(t, lo, hi) && FreeBytes(t) + t[i].size == FreeBytes(s)
  {
    hide Tiles, FreeBytes, Span;
    var a, b, c := s[..i], s[i], s[i + 1..];
    var new_ := Carve(b, wanted, minimum);
    assert s == a + ([b] + c);
    TilesSplit(a, [b] + c, lo, hi);
    FreeBytesJoin(a, [b] + c);
    HeadTiles(b, c, lo + Span(a), hi);
    CarveTiles(b, wanted, minimum);
    TilesJoin(new_, c, b.addr, b.addr + b.size, hi);
    TilesJoin(a, new_ + c, lo, b.addr, hi);
    FreeBytesJoin(a, new_ + c);
    FreeBytesJoin(new_, c);
    assert Allocate(s, i, wanted, minimum) == a + (new_ + c);
  }

  lemma AllocateCoalesced(s: seq<Block>, i: nat, wanted: nat, minimum: nat)
    requires Coalesced(s) && i < |s| && s[i].free && wanted <= s[i].size
    ensures Coalesced(Allocate(s, i, wanted, minimum))
  {
    var t := Allocate(s, i, wanted, minimum);
    var d := |t| - |s|;
    forall j | 0 <= j < |t| - 1
      ensures !(t[j].free && t[j + 1].free)
    {
      if j + 1 < i {
        assert !(s[j].free && s[j + 1].free);
      } else if j > i {
        assert !(s[j - d].free && s[j - d + 1].free);
      }
    }
  }

  // The caller gets the front of the free block, not more than the minimum above what it wants.  The
  // rest, if there is one, is a free block larger than the minimum, and no other block changes.
  lemma AllocateIsExact(s: seq<Block>, i: nat, wanted: nat, minimum: nat)
    requires i < |s| && wanted <= s[i].size
    ensures var t := Allocate(s, i, wanted, minimum);
            && i < |t| && t[..i] == s[..i]
            && t[i].addr == s[i].addr && !t[i].free && wanted <= t[i].size <= wanted + minimum
            && if t[i].size == s[i].size then t[i + 1..] == s[i + 1..]
               else |t| == |s| + 1 && t[i + 2..] == s[i + 1..] && t[i + 1].free && t[i + 1].size > minimum
                    && t[i + 1].addr == s[i].addr + t[i].size && t[i].size + t[i + 1].size == s[i].size
  {
    var t := Allocate(s, i, wanted, minimum);
    assert t[..i] == s[..i];
  }

  // A block that fits is never larger than all free bytes together.
  lemma {:induction false} FitIsWithinFreeBytes(s: seq<Block>, i: nat)
    requires i < |s| && s[i].free
    ensures s[i].size <= FreeBytes(s)
  {
    if i > 0 {
      FitIsWithinFreeBytes(s[1..], i - 1);
    }
  }

  // Freeing a block right after it was allocated restores the blocks exactly.
  lemma FreeUndoesAllocate(s: seq<Block>, i: nat, wanted: nat, minimum: nat)
    requires Coalesced(s) && i < |s| && s[i].free && wanted <= s[i].size
    ensures var t := Allocate(s, i, wanted, minimum);
            Coalesce(t[..i], t[i], t[i + 1..]) == s
  {
    var t := Allocate(s, i, wanted, minimum);
    assert t[..i] == s[..i];
    assert i > 0 ==> s[..i][i - 1] == s[i - 1];
    assert i + 1 < |s| ==> !s[i + 1].free;
    if |t| == |s| {
      assert t[i + 1..] == s[i + 1..];
    } else {
      assert t[i + 1..] == [t[i + 1]] + s[i + 1..];
      assert t[i + 1..][1..] == s[i + 1..];
    }
    assert s == s[..i] + [s[i]] + s[i + 1..];
  }

  // Freeing touches no block that is in use.
  lemma CoalesceKeepsUsed(a: seq<Block>, b: Block, c: seq<Block>)
    ensures forall x: Block :: !x.free ==> (x in Coalesce(a, b, c) <==> x in a || x in c)
  {
    forall x: Block | !x.free
      ensures x in JoinLeft(a, b) <==> x in a
      ensures x in Coalesce(a, b, c) <==> x in a || x in c
    {
      JoinLeftKeepsUsed(a, b, x);
      JoinRightKeepsUsed(JoinLeft(a, b), c, x);
    }
  }

  lemma JoinLeftKeepsUsed(a: seq<Block>, b: Block, x: Block)
    requires !x.free
    ensures x in JoinLeft(a, b) <==> x in a
  {
    if a != [] {
      assert a == a[..|a| - 1] + [a[|a| - 1]];
    }
  }

  lemma JoinRightKeepsUsed(s: seq<Block>, c: seq<Block>, x: Block)
    requires s != [] && s[|s| - 1].free && !x.free
    ensures x in JoinRight(s, c) <==> x in s || x in c
  {
    assert s == s[..|s| - 1] + [s[|s| - 1]];
    if c != [] {
      assert c == [c[0]] + c[1..];
    }
  }

  // Of two neighbours one is in use.
  lemma NeighbourInUse(s: seq<Block>)
    requires Coalesced(s) && |s| >= 2
    ensures exists b :: b in s && !b.free
  {
    assert !(s[0].free && s[0 + 1].free);
    assert s[0] in s && s[1] in s;
  }

  // When nothing is allocated any more, one single block is left.
  lemma AllFreeIsOneBlock(s: seq<Block>, lo: nat, hi: nat)
    requires Tiles(s, lo, hi) && Coalesced(s) && lo < hi
    requires forall b :: b in s ==> b.free
    ensures s == [Block(lo, hi - lo, true)]
  {
    if |s| >= 2 {
      NeighbourInUse(s);
    }
    assert s[0] in s;
    assert s[1..] == [];
    assert s == [s[0]];
  }

  // ----- Runs ---------------------------------------------------------------------------

  // A call with the block size it looks for (a multiple of ALIGN, or 0 if the request cannot be
  // served), or with the place of the block it frees.
  datatype Call = Malloc(wanted: nat) | Free(place: nat)

  // The blocks and the counters of successful calls.
  datatype Tally = Tally(blocks: seq<Block>, allocations: nat, frees: nat)

  // What pvPortMalloc and vPortFree do to the blocks (see Heaps.Heap.Malloc and Heaps.Heap.Free).
  function Perform(t: Tally, call: Call, minimum: nat): Tally {
    match call
    case Malloc(wanted) =>
      var i := FirstFit(t.blocks, wanted);
      if wanted == 0 || wanted % ALIGN != 0 || i == |t.blocks| then t
      else Tally(Allocate(t.blocks, i, wanted, minimum), t.allocations + 1, t.frees)
    case Free(place) =>
      if place >= |t.blocks| || t.blocks[place].free then t
      else Tally(Coalesce(t.blocks[..place], t.blocks[place], t.blocks[place + 1..]), t.allocations, t.frees + 1)
  }

  function Run(t: Tally, calls: seq<Call>, minimum: nat): Tally
    decreases |calls|
  {
    if calls == [] then t else Perform(Run(t, calls[..|calls| - 1], minimum), calls[|calls| - 1], minimum)
  }

  ghost function UsedBlocks(s: seq<Block>): nat {
    if s == [] then 0 else (if s[0].free then 0 else 1) + UsedBlocks(s[1..])
  }

  lemma {:induction false} UsedBlocksJoin(a: seq<Block>, b: seq<Block>)
    ensures UsedBlocks(a + b) == UsedBlocks(a) + UsedBlocks(b)
  {
    if a == [] {
      assert a + b == b;
    } else {
      assert (a + b)[1..] == a[1..] + b;
      UsedBlocksJoin(a[1..], b);
    }
  }

  lemma UsedBlock(b: Block)
    ensures UsedBlocks([b]) == if b.free then 0 else 1
  {
    assert [b][1..] == [];
  }

  lemma AllocateUsesOne(s: seq<Block>, i: nat, wanted: nat, minimum: nat)
    requires i < |s| && s[i].free && wanted <= s[i].size
    ensures UsedBlocks(Allocate(s, i, wanted, minimum)) == UsedBlocks(s) + 1
  {
    hide UsedBlocks;
    var a, c, carved := s[..i], s[i + 1..], Carve(s[i], wanted, minimum);
    assert s == a + ([s[i]] + c);
    UsedBlocksJoin(a, [s[i]] + c);
    UsedBlocksJoin([s[i]], c);
    UsedBlock(s[i]);
    assert Allocate(s, i, wanted, minimum) == a + (carved + c);
    UsedBlocksJoin(a, carved + c);
    UsedBlocksJoin(carved, c);
    UsedBlock(carved[0]);
    if |carved| == 2 {
      assert carved == [carved[0]] + [carved[1]];
      UsedBlocksJoin([carved[0]], [carved[1]]);
      UsedBlock(carved[1]);
    } else {
      assert carved == [carved[0]];
    }
  }

  lemma JoinLeftUses(a: seq<Block>, b: Block)
    ensures UsedBlocks(JoinLeft(a, b)) == UsedBlocks(a)
  {
    if a != [] && a[|a| - 1].free {
      var init, last := a[..|a| - 1], a[|a| - 1];
      assert a == init + [last];
      UsedBlocksJoin(init, [last]);
      UsedBlocksJoin(init, [Merge(last, b)]);
      UsedBlock(last);
      UsedBlock(Merge(last, b));
    } else {
      UsedBlocksJoin(a, [b.(free := true)]);
      UsedBlock(b.(free := true));
    }
  }

  lemma JoinRightUses(s: seq<Block>, c: seq<Block>)
    requires s != [] && s[|s| - 1].free
    ensures UsedBlocks(JoinRight(s, c)) == UsedBlocks(s) + UsedBlocks(c)
  {
    if c != [] && c[0].free {
      var init, last := s[..|s| - 1], s[|s| - 1];
      var m := Merge(last, c[0]);
      assert s == init + [last] && c == [c[0]] + c[1..];
      UsedBlocksJoin(init, [last]);
      UsedBlocksJoin(init + [m], c[1..]);
      UsedBlocksJoin(init, [m]);
      UsedBlock(last);
      UsedBlock(m);
    } else {
      UsedBlocksJoin(s, c);
    }
  }

  lemma CoalesceReturnsOne(s: seq<Block>, i: nat)
    requires i < |s| && !s[i].free
    ensures UsedBlocks(Coalesce(s[..i], s[i], s[i + 1..])) + 1 == UsedBlocks(s)
  {
    var a, c := s[..i], s[i + 1..];
    assert s == a + ([s[i]] + c);
    UsedBlocksJoin(a, [s[i]] + c);
    UsedBlocksJoin([s[i]], c);
    UsedBlock(s[i]);
    JoinLeftUses(a, s[i]);
    JoinRightUses(JoinLeft(a, s[i]), c);
  }

  // One call keeps the tiling and the gap rule, and the counters count the used blocks.
  lemma PerformKeeps(t: Tally, call: Call, minimum: nat, lo: nat, hi: nat)
    requires Tiles(t.blocks, lo, hi) && Coalesced(t.blocks)
    requires t.allocations == t.frees + UsedBlocks(t.blocks)
    ensures var t' := Perform(t, call, minimum);
            && Tiles(t'.blocks, lo, hi) && Coalesced(t'.blocks)
            && t'.allocations == t'.frees + UsedBlocks(t'.blocks)
  {
    var s := t.blocks;
    match call
    case Malloc(wanted) =>
      var i := FirstFit(s, wanted);
      if wanted > 0 && wanted % ALIGN == 0 && i < |s| {
        AllocateTiles(s, i, wanted, minimum, lo, hi);
        AllocateCoalesced(s, i, wanted, minimum);
        AllocateUsesOne(s, i, wanted, minimum);
      }
    case Free(place) =>
      if place < |s| && !s[place].free {
        assert s == s[..place] + [s[place]] + s[place + 1..];
        CoalesceTiles(s[..place], s[place], s[place + 1..], lo, hi);
        CoalesceCoalesces(s[..place], s[place], s[place + 1..]);
        CoalesceReturnsOne(s, place);
      }
  }

  lemma {:induction false} RunKeeps(calls: seq<Call>, minimum: nat, lo: nat, hi: nat)
    requires lo < hi && (hi - lo) % ALIGN == 0
    ensures var t := Run(Tally([Block(lo, hi - lo, true)], 0, 0), calls, minimum);
            && Tiles(t.blocks, lo, hi) && Coalesced(t.blocks)
            && t.allocations == t.frees + UsedBlocks(t.blocks)
    decreases |calls|
  {
    var start := Tally([Block(lo, hi - lo, true)], 0, 0);
    if calls == [] {
      assert start.blocks[1..] == [];
      UsedBlock(start.blocks[0]);
    } else {
      RunKeeps(calls[..|calls| - 1], minimum, lo, hi);
      PerformKeeps(Run(start, calls[..|calls| - 1], minimum), calls[|calls| - 1], minimum, lo, hi);
    }
  }

  lemma {:induction false} NoneUsed(s: seq<Block>)
    requires UsedBlocks(s) == 0
    ensures forall b :: b in s ==> b.free
  {
    if s != [] {
      NoneUsed(s[1..]);
      assert forall b :: b in s ==> b == s[0] || b in s[1..];
    }
  }

  // After any run in which as many blocks were freed as were handed out, in any order, the
  // heap is one single free block again.
  lemma EverythingComesBack(calls: seq<Call>, minimum: nat, lo: nat, hi: nat)
    requires lo < hi && (hi - lo) % ALIGN == 0
    ensures var start := [Block(lo, hi - lo, true)];
            var t := Run(Tally(start, 0, 0), calls, minimum);
            t.allocations == t.frees <==> t.blocks == start
  {
    var start := [Block(lo, hi - lo, true)];
    var t := Run(Tally(start, 0, 0), calls, minimum);
    RunKeeps(calls, minimum, lo, hi);
    UsedBlock(start[0]);
    if t.allocations == t.frees {
      NoneUsed(t.blocks);
      AllFreeIsOneBlock(t.blocks, lo, hi);
    }
  }
}
