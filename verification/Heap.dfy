/**
 The allocator: pvPortMalloc, vPortFree and what they are made of.  Sizes are size_t values
 below 2 * topBit, and the top bit of a header's size marks the block as allocated.
 */
module Heaps {
  import opened HeapBlocks
  import opened HeapMemory

  // Where things are placed and how large: configuration of the port.
  datatype Layout = Layout(start: nat, area: nat, total: nat, headerSize: nat, topBit: nat)

  function AlignUp(a: nat): (r: nat)
    ensures r % ALIGN == 0 && a <= r < a + ALIGN
  {
    if a % ALIGN != 0 then a + ALIGN - a % ALIGN else a
  }

  function AlignDown(a: nat): (r: nat)
    ensures r % ALIGN == 0 && r <= a < r + ALIGN
  {
    a - a % ALIGN
  }

  // The first usable address and the place of the end marker.
  function First(y: Layout): nat {
    AlignUp(y.area)
  }

  function End(y: Layout): nat
    requires y.area + y.total >= y.headerSize
  {
    AlignDown(y.area + y.total - y.headerSize)
  }

  // The heap has room for one block, is smaller than half the address space, lies within it,
  // and does not contain the list head.
  ghost predicate LayoutOk(y: Layout) {
    && y.headerSize > 0 && y.headerSize % ALIGN == 0
    && y.area > 0 && y.start != NULL
    && y.total >= y.headerSize + 2 * ALIGN
    && y.area + y.total < 2 * y.topBit && y.total < y.topBit
    && y.headerSize + ALIGN < y.topBit && y.topBit % ALIGN == 0
    && !(First(y) <= y.start <= End(y))
  }

  // The block size that a request leads to; 0 if it cannot be served at all.
  function Adjusted(y: Layout, wanted: nat): (w: nat)
  {
    if wanted == 0 || wanted >= y.topBit then 0 else AlignUp(wanted + y.headerSize)
  }

  function Lower(a: nat, b: nat): nat {
    if a < b then a else b
  }

  // Addition of size_t values, which wraps.
  function SizeSum(y: Layout, a: nat, b: nat): nat
  {
    if a + b < 2 * y.topBit then a + b else a + b - 2 * y.topBit
  }

  // The top bit of a size_t value x; bit is the value of that bit, or 0 before the heap is set up.
  predicate HasBit(x: nat, bit: nat) {
    bit != 0 && x >= bit
  }

  function WithBit(x: nat, bit: nat): nat {
    if HasBit(x, bit) then x else x + bit
  }

  function WithoutBit(x: nat, bit: nat): nat {
    if HasBit(x, bit) then x - bit else x
  }

  ghost predicate HeapOk(m: Memory, s: seq<Block>, y: Layout)
    requires y.area + y.total >= y.headerSize
  {
    var lo, end := First(y), End(y);
    && Tiles(s, lo, end) && Coalesced(s)
    && Linked(m, s, end) && Owned(m, s, y.topBit)
    && HasHeader(m, y.start) && m.next[y.start] == FirstFree(s, end) && m.size[y.start] == 0
    && HasHeader(m, end) && m.next[end] == NULL && m.size[end] == 0
  }

  lemma LayoutRange(y: Layout)
    requires LayoutOk(y)
    ensures 0 < First(y) < End(y) && End(y) - First(y) < y.topBit
    ensures First(y) % ALIGN == 0 && (End(y) - First(y)) % ALIGN == 0
  {
  }

  lemma InitialHeapOk(m: Memory, y: Layout)
    requires LayoutOk(y)
    requires var lo, end := First(y), End(y);
             && HasHeader(m, y.start) && m.next[y.start] == lo && m.size[y.start] == 0
             && HasHeader(m, end) && m.next[end] == NULL && m.size[end] == 0
             && HasHeader(m, lo) && m.next[lo] == end && m.size[lo] == end - lo
    ensures var s := [Block(First(y), End(y) - First(y), true)];
            HeapOk(m, s, y) && FreeBytes(s) == End(y) - First(y)
  {
    LayoutRange(y);
    var s := [Block(First(y), End(y) - First(y), true)];
    assert s[1..] == [];
  }

  // ----- Walking along the free list ----------------------------------------------------

  // The next free block from place k on, if the list does not end there.
  lemma {:induction false} NextFree(m: Memory, s: seq<Block>, k: nat, e: nat) returns (j: nat)
    requires k <= |s| && Linked(m, s, e) && FirstFree(s[k..], e) != e
    ensures k <= j < |s| && s[j].free && s[j].addr == FirstFree(s[k..], e)
    ensures forall i :: k <= i < j ==> !s[i].free
    ensures HasHeader(m, s[j].addr) && m.size[s[j].addr] == s[j].size
    ensures m.next[s[j].addr] == FirstFree(s[j + 1..], e)
    decreases |s| - k
  {
    if s[k..][0].free {
      j := k;
      assert s == s[..k] + s[k..];
      LinkedJoin(m, s[..k], s[k..], e);
      assert s[k..][1..] == s[k + 1..];
    } else {
      assert s[k..][1..] == s[k + 1..];
      j := NextFree(m, s, k + 1, e);
    }
  }

  // Passing the free block at j moves the last free block seen there.
  lemma {:induction false} PassFree(front: nat, s: seq<Block>, k: nat, j: nat)
    requires k <= j < |s| && s[j].free
    ensures LastFree(front, s[..j + 1]) == s[j].addr
  {
    assert s[..j + 1][j] == s[j];
  }

  // Passing used blocks does not.
  lemma {:induction false} PassUsed(front: nat, s: seq<Block>, k: nat, j: nat)
    requires k <= j <= |s| && forall i :: k <= i < j ==> !s[i].free
    ensures LastFree(front, s[..j]) == LastFree(front, s[..k])
    decreases j - k
  {
    if k < j {
      assert s[..j][..j - 1] == s[..j - 1];
      PassUsed(front, s, k, j - 1);
    }
  }

  lemma {:induction false} NoneLeft(s: seq<Block>, k: nat, lo: nat, hi: nat, e: nat)
    requires k <= |s| && Tiles(s, lo, hi) && e >= hi && FirstFree(s[k..], e) == e
    ensures forall i :: k <= i < |s| ==> !s[i].free
    decreases |s| - k
  {
    if k < |s| {
      assert s[k..][1..] == s[k + 1..];
      BlockInside(s, lo, hi, k);
      assert s[k..][0] == s[k];
      NoneLeft(s, k + 1, lo, hi, e);
    }
  }

  class Heap {
    const y: Layout
    var next: map<nat, nat>       // pxNextFreeBlock of every header
    var size: map<nat, nat>       // xBlockSize of every header
    var pxEnd: nat
    var xFreeBytesRemaining: nat
    var xMinimumEverFreeBytesRemaining: nat
    var xNumberOfSuccessfulAllocations: nat
    var xNumberOfSuccessfulFrees: nat
    var xBlockAllocatedBit: nat

    ghost var blocks: seq<Block>

    ghost function View(): Memory
      reads this
    {
      Memory(next, size)
    }

    ghost predicate Valid()
      reads this
    {
      && LayoutOk(y)
      && if pxEnd == NULL then blocks == [] && xBlockAllocatedBit == 0
         else
           && pxEnd == End(y) && xBlockAllocatedBit == y.topBit
           && HeapOk(View(), blocks, y)
           && xFreeBytesRemaining == FreeBytes(blocks)
           && xMinimumEverFreeBytesRemaining <= xFreeBytesRemaining
    }

    // The blocks that an allocation starts from, the heap being set up by the first one.
    ghost function Blocks(): seq<Block>
      requires Valid()
      reads this
    {
      LayoutRange(y);
      if pxEnd == NULL then [Block(First(y), End(y) - First(y), true)] else blocks
    }

    constructor (y: Layout)
      requires LayoutOk(y)
      ensures Valid() && pxEnd == NULL && this.y == y
    {
      this.y := y;
      next, size, pxEnd, xBlockAllocatedBit := map[], map[], NULL, 0;
      xFreeBytesRemaining, xMinimumEverFreeBytesRemaining := 0, 0;
      xNumberOfSuccessfulAllocations, xNumberOfSuccessfulFrees := 0, 0;
      blocks := [];
    }

    // prvHeapInit
    method HeapInit()
      requires Valid() && pxEnd == NULL
      modifies this
      ensures Valid() && pxEnd != NULL && blocks == old(Blocks())
      ensures xNumberOfSuccessfulAllocations == old(xNumberOfSuccessfulAllocations)
      ensures xMinimumEverFreeBytesRemaining == xFreeBytesRemaining
      ensures xNumberOfSuccessfulFrees == old(xNumberOfSuccessfulFrees)
    {
      LayoutRange(y);
      var uxAddress, xTotalHeapSize := y.area, y.total;
      if uxAddress % ALIGN != 0 {
        uxAddress := uxAddress + (ALIGN - 1);
        uxAddress := AlignDown(uxAddress);
        xTotalHeapSize := xTotalHeapSize - (uxAddress - y.area);
      }
      assert uxAddress == First(y) && uxAddress + xTotalHeapSize == y.area + y.total;
      var pucAlignedHeap := uxAddress;
      uxAddress := pucAlignedHeap + xTotalHeapSize;
      uxAddress := uxAddress - y.headerSize;
      uxAddress := AlignDown(uxAddress);
      WriteInitial(pucAlignedHeap, uxAddress);
      blocks := old(Blocks());
      InitialHeapOk(View(), y);
    }

    // The headers and counters of a heap that is one free block from first to end.
    method WriteInitial(first: nat, end: nat)
      requires first < end
      modifies this`next, this`size, this`pxEnd, this`xFreeBytesRemaining
      modifies this`xMinimumEverFreeBytesRemaining, this`xBlockAllocatedBit
      ensures next == old(next)[y.start := first][end := NULL][first := end]
      ensures size == old(size)[y.start := 0][end := 0][first := end - first]
      ensures pxEnd == end && xFreeBytesRemaining == xMinimumEverFreeBytesRemaining == end - first
      ensures xBlockAllocatedBit == y.topBit
    {
      next := next[y.start := first];
      size := size[y.start := 0];
      pxEnd := end;
      size := size[pxEnd := 0];
      next := next[pxEnd := NULL];
      size := size[first := end - first];
      next := next[first := pxEnd];
      xMinimumEverFreeBytesRemaining := size[first];
      xFreeBytesRemaining := size[first];
      xBlockAllocatedBit := y.topBit;
    }

    // prvInsertBlockIntoFreeList: the search for the place
    method FindPlace(pxBlockToInsert: nat, ghost a: seq<Block>, ghost b: Block, ghost c: seq<Block>)
      returns (pxIterator: nat)
      requires y.area + y.total >= y.headerSize
      requires Ready(View(), y.start, a, b, c, First(y), End(y)) && b.addr == pxBlockToInsert
      ensures pxIterator == LastFree(y.start, a)
    {
      ghost var m, e := View(), FirstFree(c, End(y));
      ReadyRanges(m, y.start, a, b, c, First(y), End(y));
      pxIterator := y.start;
      ghost var k := 0;
      assert a[0..] == a && a[..0] == [];
      while next[pxIterator] < pxBlockToInsert
        invariant k <= |a| && pxIterator == LastFree(y.start, a[..k])
        invariant pxIterator in next && next[pxIterator] == FirstFree(a[k..], e)
        decreases |a| - k
      {
        ghost var j := NextFree(m, a, k, e);
        PassFree(y.start, a, k, j);
        pxIterator := next[pxIterator];
        k := j + 1;
      }
      EndOfFront(m, a, k, First(y), b.addr, e);
      PassUsed(y.start, a, k, |a|);
      assert a[..|a|] == a;
    }

    // prvInsertBlockIntoFreeList
    method InsertBlockIntoFreeList(pxBlockToInsert: nat, ghost a: seq<Block>, ghost b: Block, ghost c: seq<Block>)
      requires y.area + y.total >= y.headerSize && pxEnd == End(y)
      requires Ready(View(), y.start, a, b, c, First(y), End(y)) && b.addr == pxBlockToInsert
      modifies this`next, this`size
      ensures var m, n := old(View()), LastFree(y.start, a);
              && HasHeader(m, n) && (m.next[n] != pxEnd ==> HasHeader(m, m.next[n]))
              && View() == Inserted(m, n, pxBlockToInsert, pxEnd)
    {
      InsertedIsCoalesce(View(), y.start, a, b, c, First(y), End(y));
      var pxIterator := FindPlace(pxBlockToInsert, a, b, c);
      ReadyRanges(View(), y.start, a, b, c, First(y), End(y));
      LastFreeRange(y.start, a, First(y), b.addr);
      LinkIn(pxIterator, pxBlockToInsert);
    }

    // Its writes.
    method LinkIn(pxIterator: nat, block: nat)
      requires HasHeader(View(), pxIterator) && block in size && pxIterator != block
      requires next[pxIterator] != pxEnd ==> HasHeader(View(), next[pxIterator])
      requires next[pxIterator] != pxIterator && next[pxIterator] != block
      modifies this`next, this`size
      ensures View() == Inserted(old(View()), pxIterator, block, pxEnd)
    {
      var pxBlockToInsert := block;
      if pxIterator + size[pxIterator] == pxBlockToInsert {
        size := size[pxIterator := size[pxIterator] + size[pxBlockToInsert]];
        pxBlockToInsert := pxIterator;
      }
      if pxBlockToInsert + size[pxBlockToInsert] == next[pxIterator] {
        if next[pxIterator] != pxEnd {
          size := size[pxBlockToInsert := size[pxBlockToInsert] + size[next[pxIterator]]];
          next := next[pxBlockToInsert := next[next[pxIterator]]];
        } else {
          next := next[pxBlockToInsert := pxEnd];
        }
      } else {
        next := next[pxBlockToInsert := next[pxIterator]];
      }
      if pxIterator != pxBlockToInsert {
        next := next[pxIterator := pxBlockToInsert];
      }
    }

    // The search of pvPortMalloc: the first free block that is large enough and the list
    // node in front of it.
    method FindBlock(xWantedSize: nat) returns (pxPreviousBlock: nat, pxBlock: nat)
      requires Valid() && pxEnd != NULL && xWantedSize > 0
      ensures var i := FirstFit(blocks, xWantedSize);
              && pxBlock == (if i < |blocks| then blocks[i].addr else pxEnd)
              && (i < |blocks| ==> pxPreviousBlock == LastFree(y.start, blocks[..i]))
    {
      ghost var m, k := View(), 0;
      pxPreviousBlock := y.start;
      pxBlock := next[y.start];
      SearchStarts(m, blocks, y, xWantedSize);
      while size[pxBlock] < xWantedSize && next[pxBlock] != NULL
        invariant Searched(m, blocks, y, xWantedSize, k, pxPreviousBlock, pxBlock)
        decreases |blocks| - k
      {
        k := SearchStep(m, blocks, y, xWantedSize, k, pxPreviousBlock, pxBlock);
        pxPreviousBlock := pxBlock;
        pxBlock := next[pxBlock];
      }
      SearchEnds(m, blocks, y, xWantedSize, k, pxPreviousBlock, pxBlock);
    }

    // The size of the block to look for, in size_t arithmetic with its two overflow tests.
    method AdjustSize(wantedSize: nat) returns (xWantedSize: nat)
      requires LayoutOk(y) && wantedSize < 2 * y.topBit
      ensures xWantedSize == var w := AlignUp(wantedSize + y.headerSize);
                             if wantedSize == 0 || w >= 2 * y.topBit then 0 else w
    {
      xWantedSize := wantedSize;
      if xWantedSize > 0 && SizeSum(y, xWantedSize, y.headerSize) > xWantedSize {
        xWantedSize := SizeSum(y, xWantedSize, y.headerSize);
        if xWantedSize % ALIGN != 0 {
          if SizeSum(y, xWantedSize, ALIGN - xWantedSize % ALIGN) > xWantedSize {
            xWantedSize := SizeSum(y, xWantedSize, ALIGN - xWantedSize % ALIGN);
          } else {
            xWantedSize := 0;
          }
        }
      } else {
        xWantedSize := 0;
      }
    }

    // Splits the block b: its end goes into the free list.
    method Split(pxBlock: nat, xWantedSize: nat, ghost a: seq<Block>, ghost b: Block, ghost c: seq<Block>)
      requires LayoutOk(y) && pxEnd == End(y) && pxBlock in size && size[pxBlock] == b.size
      requires pxBlock == b.addr && xWantedSize <= b.size
      requires Ready(Halved(View(), b, xWantedSize), y.start, a, FreeHalf(b, xWantedSize), c, First(y), End(y))
      modifies this`next, this`size
      ensures var m, n := Halved(old(View()), b, xWantedSize), LastFree(y.start, a);
              && HasHeader(m, n) && (m.next[n] != pxEnd ==> HasHeader(m, m.next[n]))
              && View() == Inserted(m, n, b.addr + xWantedSize, pxEnd)
    {
      var pxNewBlockLink := pxBlock + xWantedSize;
      size := size[pxNewBlockLink := size[pxBlock] - xWantedSize];
      size := size[pxBlock := xWantedSize];
      InsertBlockIntoFreeList(pxNewBlockLink, a, FreeHalf(b, xWantedSize), c);
    }

    // Takes block i out of the free list and splits it if enough is left.  All but the
    // ownership mark of the block is then in place.
    method TakeOff(pxPreviousBlock: nat, pxBlock: nat, xWantedSize: nat, ghost i: nat)
      requires LayoutOk(y) && pxEnd == End(y) && HeapOk(View(), blocks, y)
      requires i < |blocks| && blocks[i].free && pxBlock == blocks[i].addr
      requires pxPreviousBlock == LastFree(y.start, blocks[..i])
      requires 0 < xWantedSize <= blocks[i].size && xWantedSize % ALIGN == 0
      modifies this`next, this`size
      ensures TakenOff(View(), blocks, y, i, xWantedSize)
    {
      hide HeapOk, Ready, TakenOff, Inserted, LastFree;
      FreeHeader(View(), blocks, y, i);
      ghost var m := View();
      next := next[pxPreviousBlock := next[pxBlock]];
      if size[pxBlock] - xWantedSize > 2 * y.headerSize {
        TakenFront(m, blocks, y, i, xWantedSize);
        Split(pxBlock, xWantedSize, blocks[..i] + [UsedHalf(blocks[i], xWantedSize)], blocks[i], blocks[i + 1..]);
      } else {
        TakenWhole(m, blocks, y, i, xWantedSize);
      }
    }

    // Marks block i as allocated and accounts for it.
    method HandOut(pxBlock: nat, ghost t: seq<Block>, ghost i: nat)
      requires LayoutOk(y) && pxEnd == End(y) && xBlockAllocatedBit == y.topBit
      requires i < |t| && pxBlock == t[i].addr && pxBlock in size && size[pxBlock] == t[i].size
      requires HeapOk(Flagged(View(), pxBlock, size[pxBlock] + y.topBit), t, y)
      requires xFreeBytesRemaining == FreeBytes(t) + t[i].size
      requires xMinimumEverFreeBytesRemaining <= xFreeBytesRemaining
      modifies this
      ensures Valid() && pxEnd != NULL && blocks == t
      ensures xNumberOfSuccessfulAllocations == old(xNumberOfSuccessfulAllocations) + 1
      ensures xFreeBytesRemaining <= old(xFreeBytesRemaining)
      ensures xMinimumEverFreeBytesRemaining == Lower(old(xMinimumEverFreeBytesRemaining), xFreeBytesRemaining)
      ensures xNumberOfSuccessfulFrees == old(xNumberOfSuccessfulFrees)
    {
      LayoutRange(y);
      BlockInside(t, First(y), End(y), i);
      xFreeBytesRemaining := xFreeBytesRemaining - size[pxBlock];
      if xFreeBytesRemaining < xMinimumEverFreeBytesRemaining {
        xMinimumEverFreeBytesRemaining := xFreeBytesRemaining;
      }
      size := size[pxBlock := WithBit(size[pxBlock], xBlockAllocatedBit)];
      next := next[pxBlock := NULL];
      xNumberOfSuccessfulAllocations := xNumberOfSuccessfulAllocations + 1;
      blocks := t;
    }

    // What pvPortMalloc does once it found block i.
    method Take(pxPreviousBlock: nat, pxBlock: nat, xWantedSize: nat, ghost i: nat) returns (pvReturn: nat)
      requires Valid() && pxEnd != NULL
      requires i < |blocks| && blocks[i].free && pxBlock == blocks[i].addr
      requires pxPreviousBlock == LastFree(y.start, blocks[..i])
      requires 0 < xWantedSize <= blocks[i].size && xWantedSize % ALIGN == 0
      modifies this
      ensures Valid() && pxEnd != NULL
      ensures pvReturn == old(blocks[i].addr) + y.headerSize
      ensures blocks == Allocate(old(blocks), i, xWantedSize, 2 * y.headerSize)
      ensures xNumberOfSuccessfulAllocations == old(xNumberOfSuccessfulAllocations) + 1
      ensures xFreeBytesRemaining <= old(xFreeBytesRemaining)
      ensures xMinimumEverFreeBytesRemaining == Lower(old(xMinimumEverFreeBytesRemaining), xFreeBytesRemaining)
      ensures xNumberOfSuccessfulFrees == old(xNumberOfSuccessfulFrees)
    {
      FreeHeader(View(), blocks, y, i);
      AllocateTiles(blocks, i, xWantedSize, 2 * y.headerSize, First(y), End(y));
      pvReturn := next[pxPreviousBlock] + y.headerSize;
      TakeOff(pxPreviousBlock, pxBlock, xWantedSize, i);
      HandOut(pxBlock, Allocate(blocks, i, xWantedSize, 2 * y.headerSize), i);
    }

    // pvPortMalloc.  It fails only if the request is zero or unrepresentable or no single free
    // block fits; otherwise the block is the one at the lowest address that fits.
    method Malloc(wantedSize: nat) returns (pvReturn: nat)
      requires Valid() && wantedSize < 2 * y.topBit
      modifies this
      ensures Valid() && pxEnd != NULL
      ensures var s, w := old(Blocks()), Adjusted(y, wantedSize);
              var i := FirstFit(s, w);
              if w == 0 || i == |s| then
                && pvReturn == NULL && blocks == s
                && xNumberOfSuccessfulAllocations == old(xNumberOfSuccessfulAllocations)
              else
                && pvReturn == s[i].addr + y.headerSize && blocks == Allocate(s, i, w, 2 * y.headerSize)
                && xNumberOfSuccessfulAllocations == old(xNumberOfSuccessfulAllocations) + 1
      ensures xMinimumEverFreeBytesRemaining ==
              if old(pxEnd) == NULL then xFreeBytesRemaining
              else Lower(old(xMinimumEverFreeBytesRemaining), xFreeBytesRemaining)
      ensures xNumberOfSuccessfulFrees == old(xNumberOfSuccessfulFrees)
    {
      hide Allocate, FreeBytes, LastFree;
      pvReturn := NULL;
      if pxEnd == NULL {
        HeapInit();
      }
      if !HasBit(wantedSize, xBlockAllocatedBit) {
        var xWantedSize := AdjustSize(wantedSize);
        assert xWantedSize == Adjusted(y, wantedSize);
        EarlyTestIsRight(blocks, xWantedSize);
        if 0 < xWantedSize <= xFreeBytesRemaining {
          var pxPreviousBlock, pxBlock := FindBlock(xWantedSize);
          FoundOrEnd(blocks, y, FirstFit(blocks, xWantedSize));
          if pxBlock != pxEnd {
            pvReturn := Take(pxPreviousBlock, pxBlock, xWantedSize, FirstFit(blocks, xWantedSize));
          }
        }
      }
    }

    // Puts the block i, whose mark is gone, into the list and accounts for it.
    method TakeBack(pxLink: nat, ghost i: nat)
      requires LayoutOk(y) && pxEnd == End(y) && xBlockAllocatedBit == y.topBit
      requires i < |blocks| && !blocks[i].free && pxLink == blocks[i].addr
      requires CanTakeBack(View(), blocks, y, i)
      requires xFreeBytesRemaining == FreeBytes(blocks) && xMinimumEverFreeBytesRemaining <= xFreeBytesRemaining
      requires Tiles(blocks, First(y), End(y)) && Coalesced(blocks)
      modifies this
      ensures Valid() && pxEnd != NULL
      ensures blocks == Coalesce(old(blocks[..i]), old(blocks[i]), old(blocks[i + 1..]))
      ensures xMinimumEverFreeBytesRemaining == old(xMinimumEverFreeBytesRemaining)
      ensures xNumberOfSuccessfulFrees == old(xNumberOfSuccessfulFrees) + 1
      ensures xNumberOfSuccessfulAllocations == old(xNumberOfSuccessfulAllocations)
    {
      LayoutRange(y);
      ghost var a, b, c := blocks[..i], blocks[i], blocks[i + 1..];
      assert blocks == a + [b] + c;
      CoalesceTiles(a, b, c, First(y), End(y));
      CoalesceCoalesces(a, b, c);
      InsertedHeap(View(), a, b, c, y);
      xFreeBytesRemaining := xFreeBytesRemaining + size[pxLink];
      InsertBlockIntoFreeList(pxLink, a, b, c);
      xNumberOfSuccessfulFrees := xNumberOfSuccessfulFrees + 1;
      blocks := Coalesce(a, b, c);
    }

    // vPortFree of NULL or of the memory of block i.  A block that is free already stays as it is.
    method Free(pv: nat, ghost i: nat)
      requires Valid()
      requires pv != NULL ==> i < |blocks| && pv == blocks[i].addr + y.headerSize
      modifies this
      ensures Valid() && pxEnd == old(pxEnd)
      ensures if pv == NULL || old(blocks[i].free) then
                && blocks == old(blocks) && next == old(next) && size == old(size)
                && xFreeBytesRemaining == old(xFreeBytesRemaining)
                && xNumberOfSuccessfulFrees == old(xNumberOfSuccessfulFrees)
              else
                && blocks == Coalesce(old(blocks[..i]), old(blocks[i]), old(blocks[i + 1..]))
                && xNumberOfSuccessfulFrees == old(xNumberOfSuccessfulFrees) + 1
      ensures xMinimumEverFreeBytesRemaining == old(xMinimumEverFreeBytesRemaining)
      ensures xNumberOfSuccessfulAllocations == old(xNumberOfSuccessfulAllocations)
    {
      var puc := pv;
      if pv != NULL {
        puc := puc - y.headerSize;
        var pxLink := puc;
        LayoutRange(y);
        BlockInside(blocks, First(y), End(y), i);
        HeaderOf(View(), blocks, y, i);
        if HasBit(size[pxLink], xBlockAllocatedBit) {
          if next[pxLink] == NULL {
            MarkRemoved(View(), blocks, y, i);
            size := size[pxLink := WithoutBit(size[pxLink], xBlockAllocatedBit)];
            TakeBack(pxLink, i);
          }
        }
      }
    }
  }

  // The search has passed the first k blocks, none of which fits.
  ghost predicate Searched(m: Memory, s: seq<Block>, y: Layout, wanted: nat, k: nat, previous: nat, block: nat)
  {
    && LayoutOk(y) && HeapOk(m, s, y)
    && k <= |s| && previous == LastFree(y.start, s[..k])
    && block == FirstFree(s[k..], End(y)) && HasHeader(m, block)
    && forall i :: 0 <= i < k ==> !(s[i].free && s[i].size >= wanted)
  }

  lemma OnTheList(m: Memory, s: seq<Block>, y: Layout, k: nat)
    requires LayoutOk(y) && HeapOk(m, s, y) && k <= |s|
    ensures HasHeader(m, FirstFree(s[k..], End(y)))
  {
    if FirstFree(s[k..], End(y)) != End(y) {
      var j := NextFree(m, s, k, End(y));
    }
  }

  lemma SearchStarts(m: Memory, s: seq<Block>, y: Layout, wanted: nat)
    requires LayoutOk(y) && HeapOk(m, s, y)
    ensures Searched(m, s, y, wanted, 0, y.start, m.next[y.start])
  {
    assert s[0..] == s && s[..0] == [];
    OnTheList(m, s, y, 0);
  }

  lemma SearchStep(m: Memory, s: seq<Block>, y: Layout, wanted: nat, k: nat, previous: nat, block: nat)
    returns (k': nat)
    requires Searched(m, s, y, wanted, k, previous, block) && m.size[block] < wanted && m.next[block] != NULL
    ensures k < k' && Searched(m, s, y, wanted, k', block, m.next[block])
  {
    var j := NextFree(m, s, k, End(y));
    PassFree(y.start, s, k, j);
    OnTheList(m, s, y, j + 1);
    k' := j + 1;
  }

  lemma SearchEnds(m: Memory, s: seq<Block>, y: Layout, wanted: nat, k: nat, previous: nat, block: nat)
    requires Searched(m, s, y, wanted, k, previous, block) && (m.size[block] >= wanted || m.next[block] == NULL)
    requires wanted > 0
    ensures var i := FirstFit(s, wanted);
            && block == (if i < |s| then s[i].addr else End(y))
            && (i < |s| ==> previous == LastFree(y.start, s[..i]))
  {
    LayoutRange(y);
    if block == End(y) {
      NoneLeft(s, k, First(y), End(y), End(y));
      NoFit(s, wanted);
    } else {
      var j := NextFree(m, s, k, End(y));
      NextIsNotNull(s, j, First(y), End(y));
      FitIs(s, wanted, j);
      PassUsed(y.start, s, k, j);
    }
  }

  lemma NextIsNotNull(s: seq<Block>, j: nat, lo: nat, end: nat)
    requires Tiles(s, lo, end) && 0 < lo && j < |s|
    ensures FirstFree(s[j + 1..], end) != NULL
  {
    assert s == s[..j + 1] + s[j + 1..];
    TilesSplit(s[..j + 1], s[j + 1..], lo, end);
    TilesSpan(s, lo, end);
    FirstFreeRange(s[j + 1..], lo + Span(s[..j + 1]), end, end);
  }

  lemma FitIs(s: seq<Block>, wanted: nat, j: nat)
    requires j < |s| && s[j].free && s[j].size >= wanted
    requires forall i :: 0 <= i < j ==> !(s[i].free && s[i].size >= wanted)
    ensures FirstFit(s, wanted) == j
  {
    var i := FirstFit(s, wanted);
    assert i < |s| ==> s[i].free && s[i].size >= wanted;
  }

  lemma NoFit(s: seq<Block>, wanted: nat)
    requires forall i :: 0 <= i < |s| ==> !(s[i].free && s[i].size >= wanted)
    ensures FirstFit(s, wanted) == |s|
  {
  }

  // ----- Taking a block off the free list --------------------------------------------------

  // The free block i of s, with what is in front of it and behind it.
  lemma AroundFree(m: Memory, s: seq<Block>, y: Layout, i: nat)
    requires LayoutOk(y) && HeapOk(m, s, y) && i < |s| && s[i].free
    ensures var a, b, c := s[..i], s[i], s[i + 1..];
            var e, n := FirstFree(c, End(y)), LastFree(y.start, a);
            && s == a + ([b] + c)
            && Tiles(a, First(y), b.addr) && Tiles(c, b.addr + b.size, End(y)) && b.size > 0
            && Linked(m, a, b.addr) && Linked(m, c, End(y))
            && HasHeader(m, b.addr) && m.next[b.addr] == e && m.size[b.addr] == b.size
            && HasHeader(m, n) && m.next[n] == b.addr && m.next[y.start] == FirstFree(a, b.addr)
            && (n == y.start || First(y) <= n < b.addr)
            && First(y) <= b.addr && b.addr + b.size <= End(y)
  {
    var a, b, c := s[..i], s[i], s[i + 1..];
    assert s == a + ([b] + c);
    assert ([b] + c)[1..] == c;
    TilesSplit(a, [b] + c, First(y), End(y));
    LinkedJoin(m, a, [b] + c, End(y));
    FirstFreeJoin(a, [b] + c, End(y));
    TilesSpan(c, b.addr + b.size, End(y));
    TilesSpan(a, First(y), b.addr);
    NodeInFront(m, y.start, a, First(y), b.addr, b.addr);
    LastFreeRange(y.start, a, First(y), b.addr);
  }

  // The list without the free block i.
  function Skipped(m: Memory, previous: nat, block: nat): Memory
    requires block in m.next
  {
    m.(next := m.next[previous := m.next[block]])
  }

  lemma SkippedLinks(m: Memory, s: seq<Block>, y: Layout, i: nat)
    requires LayoutOk(y) && HeapOk(m, s, y) && i < |s| && s[i].free && s[i].addr in m.next
    ensures var a, b, c := s[..i], s[i], s[i + 1..];
            var e := FirstFree(c, End(y));
            var m1 := Skipped(m, LastFree(y.start, a), b.addr);
            && Linked(m1, a, e) && Linked(m1, c, End(y))
            && Owned(m1, a, y.topBit) && Owned(m1, c, y.topBit)
            && HasHeader(m1, y.start) && m1.next[y.start] == FirstFree(a, e)
  {
    var a, b, c := s[..i], s[i], s[i + 1..];
    var e, n := FirstFree(c, End(y)), LastFree(y.start, a);
    var m1 := Skipped(m, n, b.addr);
    AroundFree(m, s, y, i);
    Relink(m, a, First(y), b.addr, b.addr, y.start, e);
    LinkedFrame(m, m1, c, b.addr + b.size, End(y), End(y));
    FirstFreeOrLast(a, First(y), b.addr, b.addr, e, y.start);
    OwnedSplit(m, a, b, c, y.topBit);
    UsedInFront(a, First(y), b.addr, y.start);
    OwnedFrame(m, m1, a, y.topBit, n, n);
    UsedBehind(c, b.addr + b.size, End(y), n, n);
    OwnedFrame(m, m1, c, y.topBit, n, n);
  }

  lemma OwnedSplit(m: Memory, a: seq<Block>, b: Block, c: seq<Block>, bit: nat)
    requires Owned(m, a + ([b] + c), bit)
    ensures Owned(m, a, bit) && Owned(m, c, bit)
  {
    var s := a + ([b] + c);
    assert forall i :: 0 <= i < |a| ==> s[i] == a[i];
    assert forall i :: 0 <= i < |c| ==> s[|a| + 1 + i] == c[i];
  }

  lemma OwnedJoin(m: Memory, a: seq<Block>, b: seq<Block>, bit: nat)
    requires Owned(m, a, bit) && Owned(m, b, bit)
    ensures Owned(m, a + b, bit)
  {
  }

  // The header of a block that is handed out.
  function Flagged(m: Memory, block: nat, size: nat): Memory {
    Memory(m.next[block := NULL], m.size[block := size])
  }

  // Writing the header of the block at the boundary disturbs neither side.
  lemma FlaggedLinks(m: Memory, a: seq<Block>, u: Block, c: seq<Block>, y: Layout, ea: nat, lo: nat, mid: nat)
    requires y.area + y.total >= y.headerSize
    requires Tiles(a, lo, u.addr) && mid > u.addr && Tiles(c, mid, End(y)) && !u.free
    requires Linked(m, a, ea) && Linked(m, c, End(y)) && Owned(m, a, y.topBit) && Owned(m, c, y.topBit)
    ensures var m' := Flagged(m, u.addr, u.size + y.topBit);
            && Linked(m', a + [u], ea) && Linked(m', c, End(y))
            && Owned(m', a + [u], y.topBit) && Owned(m', c, y.topBit)
  {
    var m' := Flagged(m, u.addr, u.size + y.topBit);
    LinkedFrame(m, m', a, lo, u.addr, ea);
    LinkedFrame(m, m', c, mid, End(y), End(y));
    assert [u][1..] == [];
    assert FirstFree([], ea) == ea && FirstFree([u], ea) == FirstFree([u][1..], ea);
    LinkedJoin(m', a, [u], ea);
    forall i | 0 <= i < |a| && !a[i].free
      ensures a[i].addr != u.addr
    {
      BlockInside(a, lo, u.addr, i);
    }
    UsedBehind(c, mid, End(y), u.addr, u.addr);
    OwnedFrame(m, m', a, y.topBit, u.addr, u.addr);
    OwnedFrame(m, m', c, y.topBit, u.addr, u.addr);
    OwnedJoin(m', a, [u], y.topBit);
  }

  // Handing out the whole of block i.
  lemma WholeBlock(m: Memory, s: seq<Block>, y: Layout, i: nat)
    requires LayoutOk(y) && HeapOk(m, s, y) && i < |s| && s[i].free && s[i].addr in m.next
    ensures var m1 := Skipped(m, LastFree(y.start, s[..i]), s[i].addr);
            HeapOk(Flagged(m1, s[i].addr, s[i].size + y.topBit), s[..i] + [s[i].(free := false)] + s[i + 1..], y)
  {
    var a, b, c := s[..i], s[i], s[i + 1..];
    var m1 := Skipped(m, LastFree(y.start, a), b.addr);
    AroundFree(m, s, y, i);
    SkippedLinks(m, s, y, i);
    WholeBlockLinks(m1, a, b, c, y);
    WholeBlockShape(s, y, i);
  }

  lemma WholeBlockLinks(m: Memory, a: seq<Block>, b: Block, c: seq<Block>, y: Layout)
    requires y.area + y.total >= y.headerSize
    requires Tiles(a, First(y), b.addr) && Tiles(c, b.addr + b.size, End(y)) && b.size > 0
    requires y.start != b.addr && HasHeader(m, y.start)
    requires var e := FirstFree(c, End(y));
             && Linked(m, a, e) && Linked(m, c, End(y)) && Owned(m, a, y.topBit) && Owned(m, c, y.topBit)
             && m.next[y.start] == FirstFree(a, e)
    ensures var m' := Flagged(m, b.addr, b.size + y.topBit);
            var t := a + [b.(free := false)] + c;
            && Linked(m', t, End(y)) && Owned(m', t, y.topBit)
            && m'.next[y.start] == FirstFree(t, End(y))
  {
    var e, u := FirstFree(c, End(y)), b.(free := false);
    var m' := Flagged(m, b.addr, b.size + y.topBit);
    FlaggedLinks(m, a, u, c, y, e, First(y), b.addr + b.size);
    LinkedJoin(m', a + [u], c, End(y));
    OwnedJoin(m', a + [u], c, y.topBit);
    FirstFreeJoin(a + [u], c, End(y));
    assert [u][1..] == [];
    FirstFreeJoin(a, [u], e);
  }

  lemma WholeBlockShape(s: seq<Block>, y: Layout, i: nat)
    requires LayoutOk(y) && Tiles(s, First(y), End(y)) && Coalesced(s) && i < |s| && s[i].free
    ensures var t := s[..i] + [s[i].(free := false)] + s[i + 1..];
            Tiles(t, First(y), End(y)) && Coalesced(t)
  {
    LayoutRange(y);
    BlockInside(s, First(y), End(y), i);
    BlockSizes(s, First(y), End(y), i);
    AllocateTiles(s, i, s[i].size, 0, First(y), End(y));
    AllocateCoalesced(s, i, s[i].size, 0);
  }

  lemma {:induction false} BlockSizes(s: seq<Block>, lo: nat, hi: nat, i: nat)
    requires Tiles(s, lo, hi) && i < |s|
    ensures s[i].size % ALIGN == 0
  {
    if i > 0 {
      BlockSizes(s[1..], lo + s[0].size, hi, i - 1);
    }
  }

  // ----- Splitting it --------------------------------------------------------------------

  function UsedHalf(b: Block, wanted: nat): Block {
    Block(b.addr, wanted, false)
  }

  // What is left, on its way into the free list.
  function FreeHalf(b: Block, wanted: nat): Block
    requires wanted <= b.size
  {
    Block(b.addr + wanted, b.size - wanted, false)
  }

  function Halved(m: Memory, b: Block, wanted: nat): Memory
    requires wanted <= b.size
  {
    m.(size := m.size[b.addr + wanted := b.size - wanted][b.addr := wanted])
  }

  // After the split, what is left can be put into the list, and it could as well be put
  // there after the header of the other half was finished.
  lemma HalvedReady(m: Memory, a: seq<Block>, b: Block, c: seq<Block>, y: Layout, wanted: nat)
    requires y.area + y.total >= y.headerSize
    requires Tiles(a, First(y), b.addr) && Tiles(c, b.addr + b.size, End(y))
    requires 0 < wanted < b.size && wanted % ALIGN == 0 && b.size % ALIGN == 0
    requires First(y) <= b.addr && b.addr + b.size <= End(y) && !(First(y) <= y.start <= End(y))
    requires HasHeader(m, y.start) && m.size[y.start] == 0 && HasHeader(m, b.addr)
    requires var e := FirstFree(c, End(y));
             && Linked(m, a, e) && Linked(m, c, End(y)) && Owned(m, a, y.topBit) && Owned(m, c, y.topBit)
             && m.next[y.start] == FirstFree(a, e)
    ensures var u, h, m2 := UsedHalf(b, wanted), FreeHalf(b, wanted), Halved(m, b, wanted);
            var m3 := Flagged(m2, b.addr, wanted + y.topBit);
            && Ready(m2, y.start, a + [u], h, c, First(y), End(y))
            && Ready(m3, y.start, a + [u], h, c, First(y), End(y))
            && Owned(m3, a + [u], y.topBit) && Owned(m3, c, y.topBit)
  {
    hide Linked, Owned, Tiles;
    var u, h, m2 := UsedHalf(b, wanted), FreeHalf(b, wanted), Halved(m, b, wanted);
    var e := FirstFree(c, End(y));
    HalvedTiles(a, b, c, First(y), End(y), wanted);
    HalvedLinks(m, a, b, c, y, wanted);
    FlaggedLinks(m2, a, u, c, y, e, First(y), b.addr + b.size);
    UsedEnds(m2, a, u, e);
  }

  lemma HalvedTiles(a: seq<Block>, b: Block, c: seq<Block>, lo: nat, hi: nat, wanted: nat)
    requires Tiles(a, lo, b.addr) && Tiles(c, b.addr + b.size, hi)
    requires 0 < wanted < b.size && wanted % ALIGN == 0 && b.size % ALIGN == 0
    ensures Tiles(a + [UsedHalf(b, wanted)] + [FreeHalf(b, wanted)] + c, lo, hi)
  {
    var u, h := UsedHalf(b, wanted), FreeHalf(b, wanted);
    assert [u][1..] == [] && [h][1..] == [];
    TilesJoin(a, [u], lo, b.addr, h.addr);
    TilesJoin(a + [u], [h], lo, h.addr, b.addr + b.size);
    TilesJoin(a + [u] + [h], c, lo, b.addr + b.size, hi);
  }

  lemma HalvedLinks(m: Memory, a: seq<Block>, b: Block, c: seq<Block>, y: Layout, wanted: nat)
    requires y.area + y.total >= y.headerSize
    requires Tiles(a, First(y), b.addr) && Tiles(c, b.addr + b.size, End(y)) && 0 < wanted < b.size
    requires var e := FirstFree(c, End(y));
             Linked(m, a, e) && Linked(m, c, End(y)) && Owned(m, a, y.topBit) && Owned(m, c, y.topBit)
    ensures var m2 := Halved(m, b, wanted);
            && Linked(m2, a, FirstFree(c, End(y))) && Linked(m2, c, End(y))
            && Owned(m2, a, y.topBit) && Owned(m2, c, y.topBit)
  {
    var e, m2 := FirstFree(c, End(y)), Halved(m, b, wanted);
    LinkedFrame(m, m2, a, First(y), b.addr, e);
    LinkedFrame(m, m2, c, b.addr + b.size, End(y), End(y));
    forall i | 0 <= i < |a| && !a[i].free
      ensures a[i].addr != b.addr && a[i].addr != b.addr + wanted
    {
      BlockInside(a, First(y), b.addr, i);
    }
    UsedBehind(c, b.addr + b.size, End(y), b.addr, b.addr + wanted);
    OwnedFrame(m, m2, a, y.topBit, b.addr, b.addr + wanted);
    OwnedFrame(m, m2, c, y.topBit, b.addr, b.addr + wanted);
  }

  // A used block at the end of a sequence is no link of the chain.
  lemma UsedEnds(m: Memory, a: seq<Block>, u: Block, e: nat)
    requires !u.free && Linked(m, a, e)
    ensures Linked(m, a + [u], e) && FirstFree(a + [u], e) == FirstFree(a, e)
  {
    assert [u][1..] == [];
    assert FirstFree([], e) == e && FirstFree([u], e) == FirstFree([u][1..], e);
    LinkedJoin(m, a, [u], e);
    FirstFreeJoin(a, [u], e);
  }

  lemma UsedIsNotLast(front: nat, a: seq<Block>, u: Block)
    requires !u.free
    ensures LastFree(front, a + [u]) == LastFree(front, a)
  {
    assert (a + [u])[..|a|] == a;
  }

  // Finishing the header of the used half before or after the other half is put in makes
  // no difference.
  lemma FlagCommutes(m: Memory, n: nat, h: nat, end: nat, block: nat, size: nat)
    requires HasHeader(m, n) && h in m.size && (m.next[n] != end ==> HasHeader(m, m.next[n]))
    requires block != n && block != h && block != m.next[n] && n + m.size[n] != h
    ensures var m' := Flagged(m, block, size);
            && HasHeader(m', n) && h in m'.size && (m'.next[n] != end ==> HasHeader(m', m'.next[n]))
            && Inserted(m', n, h, end) == Flagged(Inserted(m, n, h, end), block, size)
    ensures block in m.size ==>
              block in Inserted(m, n, h, end).size && Inserted(m, n, h, end).size[block] == m.size[block]
  {
    var after := m.next[n];
    var right := h + m.size[h] == after && after != end;
    var k := if right then m.size[h] + m.size[after] else m.size[h];
    var p := if right then m.next[after] else after;
    InsertedBehind(m, n, h, end);
    InsertedBehind(Flagged(m, block, size), n, h, end);
    assert m.size[block := size][h := k] == m.size[h := k][block := size];
    assert m.next[block := NULL][h := p][n := h] == m.next[h := p][n := h][block := NULL];
  }

  // The writes when the block does not adjoin the one in front.
  lemma InsertedBehind(m: Memory, n: nat, h: nat, end: nat)
    requires HasHeader(m, n) && h in m.size && (m.next[n] != end ==> HasHeader(m, m.next[n]))
    requires n + m.size[n] != h
    ensures var after := m.next[n];
            var right := h + m.size[h] == after && after != end;
            Inserted(m, n, h, end) ==
            Memory(m.next[h := if right then m.next[after] else after][n := h],
                   m.size[h := if right then m.size[h] + m.size[after] else m.size[h]])
  {
    assert m.size[h := m.size[h]] == m.size;
  }

  // Handing out the front of block i.
  lemma FrontOfBlock(m: Memory, s: seq<Block>, y: Layout, i: nat, wanted: nat, minimum: nat)
    requires LayoutOk(y) && HeapOk(m, s, y) && i < |s| && s[i].free && s[i].addr in m.next
    requires 0 < wanted < s[i].size && wanted % ALIGN == 0 && s[i].size - wanted > minimum
    ensures var a, b, c := s[..i], s[i], s[i + 1..];
            var n := LastFree(y.start, a);
            var m2 := Halved(Skipped(m, n, b.addr), b, wanted);
            var h := FreeHalf(b, wanted);
            && Ready(m2, y.start, a + [UsedHalf(b, wanted)], h, c, First(y), End(y))
            && LastFree(y.start, a + [UsedHalf(b, wanted)]) == n
            && HasHeader(m2, n) && (m2.next[n] != End(y) ==> HasHeader(m2, m2.next[n]))
            && var m3 := Inserted(m2, n, h.addr, End(y));
               && b.addr in m3.size && m3.size[b.addr] == wanted
               && HeapOk(Flagged(m3, b.addr, wanted + y.topBit), Allocate(s, i, wanted, minimum), y)
  {
    var a, b, c := s[..i], s[i], s[i + 1..];
    var n := LastFree(y.start, a);
    var u, h := UsedHalf(b, wanted), FreeHalf(b, wanted);
    var m1 := Skipped(m, n, b.addr);
    var m2 := Halved(m1, b, wanted);
    AroundFree(m, s, y, i);
    SkippedLinks(m, s, y, i);
    BlockSizes(s, First(y), End(y), i);
    HalvedReady(m1, a, b, c, y, wanted);
    UsedIsNotLast(y.start, a, u);
    FrontOfBlockDone(m2, a, b, c, y, wanted);
    FrontOfBlockShape(s, y, i, wanted, minimum);
  }

  lemma FrontOfBlockDone(m: Memory, a: seq<Block>, b: Block, c: seq<Block>, y: Layout, wanted: nat)
    requires y.area + y.total >= y.headerSize && 0 < wanted < b.size && b.addr in m.size && m.size[b.addr] == wanted
    requires LastFree(y.start, a) != b.addr && b.addr != End(y)
    requires HasHeader(m, End(y)) && m.next[End(y)] == NULL && m.size[End(y)] == 0
    requires var u, h := UsedHalf(b, wanted), FreeHalf(b, wanted);
             var m3 := Flagged(m, b.addr, wanted + y.topBit);
             && Ready(m, y.start, a + [u], h, c, First(y), End(y))
             && Ready(m3, y.start, a + [u], h, c, First(y), End(y))
             && Owned(m3, a + [u], y.topBit) && Owned(m3, c, y.topBit)
             && LastFree(y.start, a + [u]) == LastFree(y.start, a)
    ensures var n, h := LastFree(y.start, a), FreeHalf(b, wanted);
            && HasHeader(m, n) && (m.next[n] != End(y) ==> HasHeader(m, m.next[n]))
            && var m' := Inserted(m, n, h.addr, End(y));
               var t := Coalesce(a + [UsedHalf(b, wanted)], h, c);
               var m4 := Flagged(m', b.addr, wanted + y.topBit);
               && b.addr in m'.size && m'.size[b.addr] == wanted
               && Linked(m4, t, End(y)) && Owned(m4, t, y.topBit)
               && HasHeader(m4, y.start) && m4.next[y.start] == FirstFree(t, End(y)) && m4.size[y.start] == 0
               && HasHeader(m4, End(y)) && m4.next[End(y)] == NULL && m4.size[End(y)] == 0
  {
    var u, h, n := UsedHalf(b, wanted), FreeHalf(b, wanted), LastFree(y.start, a);
    var m3 := Flagged(m, b.addr, wanted + y.topBit);
    InFrontOfHalf(m, y.start, a, u, h, c, First(y), End(y));
    FlagCommutes(m, n, h.addr, End(y), b.addr, wanted + y.topBit);
    InsertedHeap(m3, a + [u], h, c, y);
  }

  // The whole heap after a block was put into the list.
  lemma InsertedHeap(m: Memory, a: seq<Block>, b: Block, c: seq<Block>, y: Layout)
    requires y.area + y.total >= y.headerSize
    requires Ready(m, y.start, a, b, c, First(y), End(y))
    requires Owned(m, a, y.topBit) && Owned(m, c, y.topBit)
    requires HasHeader(m, End(y)) && m.next[End(y)] == NULL && m.size[End(y)] == 0
    ensures var n := LastFree(y.start, a);
            && HasHeader(m, n) && (m.next[n] != End(y) ==> HasHeader(m, m.next[n]))
            && var m', t := Inserted(m, n, b.addr, End(y)), Coalesce(a, b, c);
               && Linked(m', t, End(y)) && Owned(m', t, y.topBit)
               && HasHeader(m', y.start) && m'.next[y.start] == FirstFree(t, End(y)) && m'.size[y.start] == 0
               && HasHeader(m', End(y)) && m'.next[End(y)] == NULL && m'.size[End(y)] == 0
  {
    var n := LastFree(y.start, a);
    InsertedIsCoalesce(m, y.start, a, b, c, First(y), End(y));
    InsertedKeepsOwned(m, y.start, a, b, c, First(y), End(y), y.topBit);
    EndUntouched(m, a, b, c, y);
  }

  lemma EndUntouched(m: Memory, a: seq<Block>, b: Block, c: seq<Block>, y: Layout)
    requires y.area + y.total >= y.headerSize
    requires Ready(m, y.start, a, b, c, First(y), End(y)) && HasHeader(m, End(y))
    requires var n := LastFree(y.start, a); HasHeader(m, n) && (m.next[n] != End(y) ==> HasHeader(m, m.next[n]))
    ensures var m' := Inserted(m, LastFree(y.start, a), b.addr, End(y));
            HasHeader(m', End(y)) && m'.next[End(y)] == m.next[End(y)] && m'.size[End(y)] == m.size[End(y)]
  {
    ReadyRanges(m, y.start, a, b, c, First(y), End(y));
    LastFreeRange(y.start, a, First(y), b.addr);
    InsertedTouches(m, LastFree(y.start, a), b.addr, End(y));
  }

  lemma InFrontOfHalf(m: Memory, start: nat, a: seq<Block>, u: Block, h: Block, c: seq<Block>, lo: nat, end: nat)
    requires Ready(m, start, a + [u], h, c, lo, end) && !u.free && u.addr < h.addr
    requires LastFree(start, a + [u]) == LastFree(start, a)
    ensures var n := LastFree(start, a);
            && HasHeader(m, n) && (m.next[n] != end ==> HasHeader(m, m.next[n]))
            && n + m.size[n] != h.addr && u.addr < h.addr < m.next[n] && h.addr < end
  {
    ReadyRanges(m, start, a + [u], h, c, lo, end);
    NodeInFront(m, start, a + [u], lo, h.addr, FirstFree(c, end));
    InsertedIsCoalesce(m, start, a + [u], h, c, lo, end);
  }

  lemma FrontOfBlockShape(s: seq<Block>, y: Layout, i: nat, wanted: nat, minimum: nat)
    requires LayoutOk(y) && Tiles(s, First(y), End(y)) && Coalesced(s) && i < |s| && s[i].free
    requires 0 < wanted < s[i].size && wanted % ALIGN == 0 && s[i].size - wanted > minimum
    ensures var t := Allocate(s, i, wanted, minimum);
            && Tiles(t, First(y), End(y)) && Coalesced(t)
            && t == Coalesce(s[..i] + [UsedHalf(s[i], wanted)], FreeHalf(s[i], wanted), s[i + 1..])
  {
    AllocateTiles(s, i, wanted, minimum, First(y), End(y));
    AllocateCoalesced(s, i, wanted, minimum);
    AllocateIsCoalesce(s, i, wanted, minimum);
  }

  lemma AllocateIsCoalesce(s: seq<Block>, i: nat, wanted: nat, minimum: nat)
    requires Coalesced(s) && i < |s| && s[i].free && wanted < s[i].size && s[i].size - wanted > minimum
    ensures Allocate(s, i, wanted, minimum) ==
            Coalesce(s[..i] + [UsedHalf(s[i], wanted)], FreeHalf(s[i], wanted), s[i + 1..])
  {
    var a, u, h, c := s[..i], UsedHalf(s[i], wanted), FreeHalf(s[i], wanted), s[i + 1..];
    assert c != [] ==> !c[0].free by {
      assert i + 1 < |s| ==> !(s[i].free && s[i + 1].free);
    }
    assert Coalesce(a + [u], h, c) == a + [u] + [h.(free := true)] + c;
    assert a + Carve(s[i], wanted, minimum) + c == a + [u] + [h.(free := true)] + c;
  }

  // The search stops behind the last free block in front of the one to insert.
  lemma EndOfFront(m: Memory, a: seq<Block>, k: nat, lo: nat, hi: nat, e: nat)
    requires Tiles(a, lo, hi) && Linked(m, a, e) && k <= |a| && hi < e && FirstFree(a[k..], e) >= hi
    ensures forall i :: k <= i < |a| ==> !a[i].free
  {
    if FirstFree(a[k..], e) != e {
      var j := NextFree(m, a, k, e);
      BlockInside(a, lo, hi, j);
    }
    NoneLeft(a, k, lo, hi, e);
  }

  // ----- Taking a block, with or without a split --------------------------------------------

  // Only the mark of block i is missing to make m the memory after its allocation.
  ghost predicate TakenOff(m: Memory, s: seq<Block>, y: Layout, i: nat, wanted: nat)
    requires y.area + y.total >= y.headerSize && i < |s| && wanted <= s[i].size
  {
    var t, block := Allocate(s, i, wanted, 2 * y.headerSize), s[i].addr;
    && i < |t| && t[i].addr == block && !t[i].free
    && block in m.size && m.size[block] == t[i].size
    && HeapOk(Flagged(m, block, t[i].size + y.topBit), t, y)
  }

  lemma FreeHeader(m: Memory, s: seq<Block>, y: Layout, i: nat)
    requires LayoutOk(y) && HeapOk(m, s, y) && i < |s| && s[i].free
    ensures HasHeader(m, s[i].addr) && m.size[s[i].addr] == s[i].size
    ensures var n := LastFree(y.start, s[..i]); n in m.next && m.next[n] == s[i].addr
  {
    AroundFree(m, s, y, i);
  }

  lemma TakenWhole(m: Memory, s: seq<Block>, y: Layout, i: nat, wanted: nat)
    requires LayoutOk(y) && HeapOk(m, s, y) && i < |s| && s[i].free && HasHeader(m, s[i].addr)
    requires m.size[s[i].addr] == s[i].size
    requires wanted <= s[i].size && s[i].size - wanted <= 2 * y.headerSize
    ensures TakenOff(Skipped(m, LastFree(y.start, s[..i]), s[i].addr), s, y, i, wanted)
  {
    WholeBlock(m, s, y, i);
  }

  lemma TakenFront(m: Memory, s: seq<Block>, y: Layout, i: nat, wanted: nat)
    requires LayoutOk(y) && HeapOk(m, s, y) && i < |s| && s[i].free && s[i].addr in m.next
    requires 0 < wanted < s[i].size && wanted % ALIGN == 0 && s[i].size - wanted > 2 * y.headerSize
    ensures var a, n := s[..i] + [UsedHalf(s[i], wanted)], LastFree(y.start, s[..i]);
            var m2 := Halved(Skipped(m, n, s[i].addr), s[i], wanted);
            && Ready(m2, y.start, a, FreeHalf(s[i], wanted), s[i + 1..], First(y), End(y))
            && LastFree(y.start, a) == n
            && HasHeader(m2, n) && (m2.next[n] != End(y) ==> HasHeader(m2, m2.next[n]))
            && TakenOff(Inserted(m2, n, s[i].addr + wanted, End(y)), s, y, i, wanted)
  {
    FrontOfBlock(m, s, y, i, wanted, 2 * y.headerSize);
  }

  // ----- The tests of pvPortMalloc and vPortFree ---------------------------------------------

  // When some block fits there are enough free bytes, so the early test rejects nothing.
  lemma EarlyTestIsRight(s: seq<Block>, wanted: nat)
    ensures FirstFit(s, wanted) < |s| ==> wanted <= FreeBytes(s)
  {
    var i := FirstFit(s, wanted);
    if i < |s| {
      FitIsWithinFreeBytes(s, i);
    }
  }

  // A request is served if and only if it can be represented and one free block has room for it and
  // a header.
  lemma ServedIff(s: seq<Block>, y: Layout, wanted: nat)
    requires LayoutOk(y) && Tiles(s, First(y), End(y))
    ensures var w := Adjusted(y, wanted);
            w != 0 && FirstFit(s, w) < |s| <==>
              0 < wanted < y.topBit && exists b :: b in s && b.free && wanted + y.headerSize <= b.size
  {
    hide Tiles, AlignUp;
    var w := Adjusted(y, wanted);
    if w != 0 && FirstFit(s, w) < |s| {
      assert s[FirstFit(s, w)] in s;
    } else if w != 0 {
      forall b | b in s && b.free
        ensures b.size < wanted + y.headerSize
      {
        var i :| 0 <= i < |s| && s[i] == b;
        SizeOfBlock(s, i, First(y), End(y));
        NextMultiple(wanted + y.headerSize, s[i].size);
      }
    }
  }

  // A multiple of the alignment is large enough for a number if it is for the next multiple.
  lemma NextMultiple(a: nat, size: nat)
    requires size % ALIGN == 0 && size < AlignUp(a)
    ensures size < a
  {
  }

  lemma {:induction false} SizeOfBlock(s: seq<Block>, i: nat, lo: nat, hi: nat)
    requires Tiles(s, lo, hi) && i < |s|
    ensures s[i].size % ALIGN == 0
  {
    if i > 0 {
      SizeOfBlock(s[1..], i - 1, lo + s[0].size, hi);
    }
  }

  // Different blocks share no memory.
  lemma {:induction false} BlocksApart(s: seq<Block>, lo: nat, hi: nat, i: nat, j: nat)
    requires Tiles(s, lo, hi) && i < j < |s|
    ensures s[i].addr + s[i].size <= s[j].addr
  {
    if i > 0 {
      BlocksApart(s[1..], lo + s[0].size, hi, i - 1, j - 1);
    } else {
      BlockInside(s[1..], lo + s[0].size, hi, j - 1);
    }
  }

  // What is served is aligned memory of the size asked for, behind its header, in a block that was
  // free and is now in use, that shares nothing with any other block and that wastes less than
  // another header and block would need.
  lemma ServedMemory(s: seq<Block>, y: Layout, wanted: nat)
    requires LayoutOk(y) && Tiles(s, First(y), End(y))
    requires var w := Adjusted(y, wanted); w != 0 && FirstFit(s, w) < |s|
    ensures var i := FirstFit(s, Adjusted(y, wanted));
            var t := Allocate(s, i, Adjusted(y, wanted), 2 * y.headerSize);
            var p := s[i].addr + y.headerSize;
            && i < |t| && s[i].free && !t[i].free && t[i].addr == s[i].addr
            && p % ALIGN == 0 && First(y) <= t[i].addr && p + wanted <= t[i].addr + t[i].size <= End(y)
            && t[i].size < wanted + 3 * y.headerSize + ALIGN
            && (forall j :: 0 <= j < i ==> t[j].addr + t[j].size <= t[i].addr)
            && (forall j :: i < j < |t| ==> t[i].addr + t[i].size <= t[j].addr)
  {
    hide LayoutOk, Allocate, Tiles, FreeBytes, First, AlignUp, FirstFit;
    var w, lo, hi := Adjusted(y, wanted), First(y), End(y);
    var i := FirstFit(s, w);
    var t := Allocate(s, i, w, 2 * y.headerSize);
    HeaderAligned(y);
    AllocateTiles(s, i, w, 2 * y.headerSize, lo, hi);
    AllocateIsExact(s, i, w, 2 * y.headerSize);
    BlockInside(t, lo, hi, i);
    OthersApart(t, lo, hi, i);
  }

  lemma OthersApart(s: seq<Block>, lo: nat, hi: nat, i: nat)
    requires Tiles(s, lo, hi) && i < |s|
    ensures forall j :: 0 <= j < i ==> s[j].addr + s[j].size <= s[i].addr
    ensures forall j :: i < j < |s| ==> s[i].addr + s[i].size <= s[j].addr
  {
    hide Tiles;
    forall j | 0 <= j < i
      ensures s[j].addr + s[j].size <= s[i].addr
    {
      BlocksApart(s, lo, hi, j, i);
    }
    forall j | i < j < |s|
      ensures s[i].addr + s[i].size <= s[j].addr
    {
      BlocksApart(s, lo, hi, i, j);
    }
  }

  lemma HeaderAligned(y: Layout)
    requires LayoutOk(y)
    ensures y.headerSize % ALIGN == 0 && First(y) % ALIGN == 0
  {
  }

  lemma FoundOrEnd(s: seq<Block>, y: Layout, i: nat)
    requires LayoutOk(y) && Tiles(s, First(y), End(y))
    ensures i < |s| ==> s[i].addr != End(y)
  {
    if i < |s| {
      BlockInside(s, First(y), End(y), i);
    }
  }

  // The header of a block tells whether it is in use.
  lemma HeaderOf(m: Memory, s: seq<Block>, y: Layout, i: nat)
    requires LayoutOk(y) && HeapOk(m, s, y) && i < |s|
    ensures HasHeader(m, s[i].addr) && s[i].size < y.topBit
    ensures m.size[s[i].addr] == s[i].size + (if s[i].free then 0 else y.topBit)
    ensures !s[i].free ==> m.next[s[i].addr] == NULL
  {
    LayoutRange(y);
    BlockInside(s, First(y), End(y), i);
    if s[i].free {
      AroundFree(m, s, y, i);
    }
  }

  ghost predicate CanTakeBack(m: Memory, s: seq<Block>, y: Layout, i: nat)
    requires y.area + y.total >= y.headerSize && i < |s|
  {
    && Ready(m, y.start, s[..i], s[i], s[i + 1..], First(y), End(y))
    && Owned(m, s[..i], y.topBit) && Owned(m, s[i + 1..], y.topBit)
    && HasHeader(m, End(y)) && m.next[End(y)] == NULL && m.size[End(y)] == 0
  }

  // Removing the mark from the header of block i changes nothing else.
  lemma MarkRemoved(m: Memory, s: seq<Block>, y: Layout, i: nat)
    requires LayoutOk(y) && HeapOk(m, s, y) && i < |s| && !s[i].free
    ensures CanTakeBack(m.(size := m.size[s[i].addr := s[i].size]), s, y, i)
  {
    var a, b, c := s[..i], s[i], s[i + 1..];
    var m1 := m.(size := m.size[b.addr := b.size]);
    assert s == a + ([b] + c) && s == a + [b] + c;
    assert ([b] + c)[1..] == c;
    TilesSplit(a, [b] + c, First(y), End(y));
    TilesSpan(a, First(y), b.addr);
    TilesSpan(c, b.addr + b.size, End(y));
    LinkedJoin(m, a, [b] + c, End(y));
    FirstFreeJoin(a, [b] + c, End(y));
    MarkRemovedFrame(m, a, b, c, y);
  }

  lemma MarkRemovedFrame(m: Memory, a: seq<Block>, b: Block, c: seq<Block>, y: Layout)
    requires y.area + y.total >= y.headerSize && b.size > 0
    requires Tiles(a, First(y), b.addr) && Tiles(c, b.addr + b.size, End(y))
    requires Linked(m, a, FirstFree(c, End(y))) && Linked(m, c, End(y)) && Owned(m, a + ([b] + c), y.topBit)
    ensures var m1 := m.(size := m.size[b.addr := b.size]);
            && Linked(m1, a, FirstFree(c, End(y))) && Linked(m1, c, End(y))
            && Owned(m1, a, y.topBit) && Owned(m1, c, y.topBit)
  {
    var m1 := m.(size := m.size[b.addr := b.size]);
    LinkedFrame(m, m1, a, First(y), b.addr, FirstFree(c, End(y)));
    LinkedFrame(m, m1, c, b.addr + b.size, End(y), End(y));
    OwnedSplit(m, a, b, c, y.topBit);
    forall i | 0 <= i < |a| && !a[i].free
      ensures a[i].addr != b.addr
    {
      BlockInside(a, First(y), b.addr, i);
    }
    UsedBehind(c, b.addr + b.size, End(y), b.addr, b.addr);
    OwnedFrame(m, m1, a, y.topBit, b.addr, b.addr);
    OwnedFrame(m, m1, c, y.topBit, b.addr, b.addr);
  }
}
