/**
 The headers of the heap blocks in memory: a singly linked list of the free blocks in
 address order, and an ownership bit in the size field of the used ones.
 */
module HeapMemory {
  import opened HeapBlocks

  const NULL: nat := 0

  // The fields pxNextFreeBlock and xBlockSize of all headers.
  datatype Memory = Memory(next: map<nat, nat>, size: map<nat, nat>)

  ghost predicate HasHeader(m: Memory, a: nat) {
    a in m.next && a in m.size
  }

  // The address of the first free block, or e if there is none.
  ghost function FirstFree(s: seq<Block>, e: nat): nat {
    if s == [] then e else if s[0].free then s[0].addr else FirstFree(s[1..], e)
  }

  // The address of the last free block, or the node in front if there is none.
  ghost function LastFree(front: nat, s: seq<Block>): nat {
    if s == [] then front
    else if s[|s| - 1].free then s[|s| - 1].addr else LastFree(front, s[..|s| - 1])
  }

  // Every free block of s has its size in its header and points at the next one, the last at e.
  ghost predicate Linked(m: Memory, s: seq<Block>, e: nat) {
    s != [] ==>
      && Linked(m, s[1..], e)
      && (s[0].free ==> HasHeader(m, s[0].addr)
                        && m.next[s[0].addr] == FirstFree(s[1..], e) && m.size[s[0].addr] == s[0].size)
  }

  // Every used block of s has its size with the ownership bit in its header and no successor.
  ghost predicate Owned(m: Memory, s: seq<Block>, bit: nat) {
    forall i :: 0 <= i < |s| && !s[i].free ==>
      HasHeader(m, s[i].addr) && m.next[s[i].addr] == NULL && m.size[s[i].addr] == s[i].size + bit
  }

  lemma {:induction false} FirstFreeJoin(a: seq<Block>, b: seq<Block>, e: nat)
    ensures FirstFree(a + b, e) == FirstFree(a, FirstFree(b, e))
  {
    if a == [] {
      assert a + b == b;
    } else {
      assert (a + b)[1..] == a[1..] + b;
      FirstFreeJoin(a[1..], b, e);
    }
  }

  lemma {:induction false} LinkedJoin(m: Memory, a: seq<Block>, b: seq<Block>, e: nat)
    ensures Linked(m, a + b, e) <==> Linked(m, a, FirstFree(b, e)) && Linked(m, b, e)
  {
    if a == [] {
      assert a + b == b;
    } else {
      assert (a + b)[1..] == a[1..] + b;
      LinkedJoin(m, a[1..], b, e);
      FirstFreeJoin(a[1..], b, e);
    }
  }

  // The first free block is the end or lies within the range of s.
  lemma {:induction false} FirstFreeRange(s: seq<Block>, lo: nat, hi: nat, e: nat)
    requires Tiles(s, lo, hi)
    ensures FirstFree(s, e) == e || lo <= FirstFree(s, e) < hi
    ensures (exists i :: 0 <= i < |s| && s[i].free) ==> lo <= FirstFree(s, e) < hi
    ensures (forall i :: 0 <= i < |s| ==> !s[i].free) ==> FirstFree(s, e) == e
  {
    if s != [] {
      TilesSpan(s[1..], lo + s[0].size, hi);
      FirstFreeRange(s[1..], lo + s[0].size, hi, e);
      if exists i :: 0 <= i < |s| && s[i].free {
        var i :| 0 <= i < |s| && s[i].free;
        if i > 0 {
          assert s[1..][i - 1].free;
        }
      }
    }
  }

  lemma {:induction false} LastFreeRange(front: nat, s: seq<Block>, lo: nat, hi: nat)
    requires Tiles(s, lo, hi)
    ensures LastFree(front, s) == front || lo <= LastFree(front, s) < hi
    decreases |s|
  {
    if s != [] {
      var init, last := s[..|s| - 1], s[|s| - 1];
      assert s == init + [last];
      TilesSplit(init, [last], lo, hi);
      assert [last][1..] == [];
      LastFreeRange(front, init, lo, lo + Span(init));
    }
  }

  lemma {:induction false} LastFreeJoin(front: nat, a: seq<Block>, b: seq<Block>)
    ensures LastFree(front, a + b) == LastFree(LastFree(front, a), b)
    decreases |b|
  {
    if b == [] {
      assert a + b == a;
    } else {
      assert (a + b)[..|a + b| - 1] == a + b[..|b| - 1];
      LastFreeJoin(front, a, b[..|b| - 1]);
    }
  }

  // Headers outside the range of s do not matter to it.
  lemma {:induction false} LinkedFrame(m: Memory, m': Memory, s: seq<Block>, lo: nat, hi: nat, e: nat)
    requires Tiles(s, lo, hi) && Linked(m, s, e)
    requires forall a :: lo <= a < hi && HasHeader(m, a) ==>
               HasHeader(m', a) && m'.next[a] == m.next[a] && m'.size[a] == m.size[a]
    ensures Linked(m', s, e)
  {
    if s != [] {
      TilesSpan(s[1..], lo + s[0].size, hi);
      LinkedFrame(m, m', s[1..], lo + s[0].size, hi, e);
    }
  }

  // Letting the last free block of s point elsewhere moves the end of the chain there.
  lemma {:induction false} Relink(m: Memory, s: seq<Block>, lo: nat, hi: nat, e: nat, front: nat, e': nat)
    requires Tiles(s, lo, hi) && Linked(m, s, e) && !(lo <= front < hi)
    ensures Linked(m.(next := m.next[LastFree(front, s) := e']), s, e')
    decreases |s|
  {
    if s != [] {
      var init, last := s[..|s| - 1], s[|s| - 1];
      var m' := m.(next := m.next[LastFree(front, s) := e']);
      var mid := lo + Span(init);
      assert s == init + [last];
      TilesSplit(init, [last], lo, hi);
      assert [last][1..] == [];
      LinkedJoin(m, init, [last], e);
      LinkedJoin(m', init, [last], e');
      if last.free {
        LinkedFrame(m, m', init, lo, mid, last.addr);
      } else {
        Relink(m, init, lo, mid, e, front, e');
      }
    }
  }

  // The first free block does not depend on where the chain ends, unless it is the end.
  lemma {:induction false} FirstFreeOrLast(s: seq<Block>, lo: nat, hi: nat, e: nat, e': nat, front: nat)
    requires Tiles(s, lo, hi) && !(lo <= front < hi)
    ensures if LastFree(front, s) == front then FirstFree(s, e) == e && FirstFree(s, e') == e'
            else FirstFree(s, e) == FirstFree(s, e')
    decreases |s|
  {
    if s != [] {
      var init, last := s[..|s| - 1], s[|s| - 1];
      assert s == init + [last];
      TilesSplit(init, [last], lo, hi);
      assert [last][1..] == [];
      FirstFreeJoin(init, [last], e);
      FirstFreeJoin(init, [last], e');
      FirstFreeOrLast(init, lo, lo + Span(init), e, e', front);
      LastFreeRange(front, init, lo, lo + Span(init));
    }
  }

  // The headers of used blocks are not those of free ones.
  lemma {:induction false} UsedIsNotLastFree(s: seq<Block>, lo: nat, hi: nat, front: nat, i: nat)
    requires Tiles(s, lo, hi) && !(lo <= front < hi) && i < |s| && !s[i].free
    ensures s[i].addr != LastFree(front, s)
    decreases |s|
  {
    var init, last := s[..|s| - 1], s[|s| - 1];
    assert s == init + [last];
    TilesSplit(init, [last], lo, hi);
    assert [last][1..] == [];
    LastFreeRange(front, init, lo, lo + Span(init));
    if i < |s| - 1 {
      assert init[i] == s[i];
      BlockInside(init, lo, lo + Span(init), i);
      if !last.free {
        UsedIsNotLastFree(init, lo, lo + Span(init), front, i);
      }
    }
  }

  // ----- Putting a block into the free list -------------------------------------------

  // The writes of prvInsertBlockIntoFreeList once the place behind `cursor` is found.
  function Inserted(m: Memory, cursor: nat, block: nat, end: nat): Memory
    requires HasHeader(m, cursor) && block in m.size
    requires m.next[cursor] != end ==> HasHeader(m, m.next[cursor])
  {
    var after := m.next[cursor];
    var left := cursor + m.size[cursor] == block;
    var target := if left then cursor else block;
    var size1 := if left then m.size[cursor := m.size[cursor] + m.size[block]] else m.size;
    var right := target + size1[target] == after && after != end;
    var size2 := if right then size1[target := size1[target] + size1[after]] else size1;
    var next2 := m.next[target := if right then m.next[after] else after];
    Memory(if left then next2 else next2[cursor := block], size2)
  }

  // The situation in which a block b between a and c is put in: the list holds the free
  // blocks of a and c, and b has its size in its header.
  ghost predicate Ready(m: Memory, start: nat, a: seq<Block>, b: Block, c: seq<Block>, lo: nat, end: nat) {
    && Tiles(a + [b] + c, lo, end) && !b.free
    && !(lo <= start <= end)
    && Linked(m, a, FirstFree(c, end)) && Linked(m, c, end)
    && HasHeader(m, start) && m.size[start] == 0
    && m.next[start] == FirstFree(a, FirstFree(c, end))
    && b.addr in m.size && m.size[b.addr] == b.size
  }

  lemma ReadyRanges(m: Memory, start: nat, a: seq<Block>, b: Block, c: seq<Block>, lo: nat, end: nat)
    requires Ready(m, start, a, b, c, lo, end)
    ensures Tiles(a, lo, b.addr) && b.size > 0 && Tiles(c, b.addr + b.size, end)
    ensures b.addr < FirstFree(c, end) <= end
    ensures lo <= b.addr && b.addr + b.size <= end
  {
    assert a + [b] + c == a + ([b] + c);
    TilesSplit(a, [b] + c, lo, end);
    assert ([b] + c)[1..] == c;
    TilesSpan(a, lo, b.addr);
    TilesSpan(c, b.addr + b.size, end);
    FirstFreeRange(c, b.addr + b.size, end, end);
  }

  // The list node in front of b is the start or the last free block of a, and it points at
  // the first free block behind b.
  lemma {:induction false} NodeInFront(m: Memory, start: nat, s: seq<Block>, lo: nat, hi: nat, e: nat)
    requires Tiles(s, lo, hi) && Linked(m, s, e) && !(lo <= start < hi)
    requires HasHeader(m, start) && m.next[start] == FirstFree(s, e) && m.size[start] == 0
    ensures var n := LastFree(start, s);
            && HasHeader(m, n) && m.next[n] == e
            && (n != start ==> lo <= n && n + m.size[n] <= hi)
            && (n != start && n + m.size[n] == hi <==> s != [] && s[|s| - 1].free)
            && (s != [] && s[|s| - 1].free ==> n == s[|s| - 1].addr && m.size[n] == s[|s| - 1].size)
    decreases |s|
  {
    if s != [] {
      var init, last := s[..|s| - 1], s[|s| - 1];
      var mid := lo + Span(init);
      assert s == init + [last];
      TilesSplit(init, [last], lo, hi);
      TilesSpan(init, lo, mid);
      assert [last][1..] == [];
      LinkedJoin(m, init, [last], e);
      FirstFreeJoin(init, [last], e);
      if !last.free {
        NodeInFront(m, start, init, lo, mid, e);
      }
    }
  }

  // The parts of Coalesce(a, b, c): what stays in front, the grown block, what stays behind.
  function FrontPart(a: seq<Block>): seq<Block> {
    if a != [] && a[|a| - 1].free then a[..|a| - 1] else a
  }

  function BackPart(c: seq<Block>): seq<Block> {
    if c != [] && c[0].free then c[1..] else c
  }

  function Grown(a: seq<Block>, b: Block, c: seq<Block>): Block {
    var g := if a != [] && a[|a| - 1].free then Merge(a[|a| - 1], b) else b.(free := true);
    if c != [] && c[0].free then Merge(g, c[0]) else g
  }

  lemma CoalesceParts(a: seq<Block>, b: Block, c: seq<Block>)
    ensures Coalesce(a, b, c) == FrontPart(a) + ([Grown(a, b, c)] + BackPart(c))
  {
    var s := JoinLeft(a, b);
    assert s == FrontPart(a) + [s[|s| - 1]];
  }

  lemma InsertedRight(m: Memory, start: nat, a: seq<Block>, b: Block, c: seq<Block>, lo: nat, end: nat)
    requires Ready(m, start, a, b, c, lo, end)
    ensures var n := LastFree(start, a);
            && HasHeader(m, n) && (m.next[n] != end ==> HasHeader(m, m.next[n]))
            && var m' := Inserted(m, n, b.addr, end);
               var t := Grown(a, b, c).addr;
               && HasHeader(m', t)
               && m'.next[t] == FirstFree(BackPart(c), end)
               && m'.size[t] == Grown(a, b, c).size
               && Linked(m', BackPart(c), end)
  {
    ReadyRanges(m, start, a, b, c, lo, end);
    NodeInFront(m, start, a, lo, b.addr, FirstFree(c, end));
    FirstFreeRange(c, b.addr + b.size, end, end);
    var n := LastFree(start, a);
    if c != [] {
      TilesSpan(c[1..], c[0].addr + c[0].size, end);
      FirstFreeRange(c[1..], c[0].addr + c[0].size, end, end);
    }
    if FirstFree(c, end) != end {
      FirstFreeHasHeader(m, c, end);
    }
    var m' := Inserted(m, n, b.addr, end);
    LinkedFrame(m, m', BackPart(c), if c != [] && c[0].free then c[0].addr + c[0].size else b.addr + b.size, end, end);
  }

  lemma {:induction false} FirstFreeHasHeader(m: Memory, s: seq<Block>, e: nat)
    requires Linked(m, s, e) && FirstFree(s, e) != e
    ensures HasHeader(m, FirstFree(s, e))
  {
    if !s[0].free {
      FirstFreeHasHeader(m, s[1..], e);
    }
  }

  lemma InsertedLeft(m: Memory, start: nat, a: seq<Block>, b: Block, c: seq<Block>, lo: nat, end: nat)
    requires Ready(m, start, a, b, c, lo, end)
    requires var n := LastFree(start, a); HasHeader(m, n) && (m.next[n] != end ==> HasHeader(m, m.next[n]))
    ensures var m' := Inserted(m, LastFree(start, a), b.addr, end);
            var t := Grown(a, b, c).addr;
            && Linked(m', FrontPart(a), t)
            && HasHeader(m', start) && m'.next[start] == FirstFree(FrontPart(a), t) && m'.size[start] == 0
  {
    var e, n := FirstFree(c, end), LastFree(start, a);
    var m' := Inserted(m, n, b.addr, end);
    ReadyRanges(m, start, a, b, c, lo, end);
    NodeInFront(m, start, a, lo, b.addr, e);
    LastFreeRange(start, a, lo, b.addr);
    if a != [] && a[|a| - 1].free {
      var init, last := a[..|a| - 1], a[|a| - 1];
      assert a == init + [last];
      TilesSplit(init, [last], lo, b.addr);
      assert [last][1..] == [];
      LinkedJoin(m, init, [last], e);
      FirstFreeJoin(init, [last], e);
      LinkedFrame(m, m', init, lo, last.addr, last.addr);
    } else {
      Relink(m, a, lo, b.addr, e, start, b.addr);
      LinkedFrame(m.(next := m.next[n := b.addr]), m', a, lo, b.addr, b.addr);
      FirstFreeOrLast(a, lo, b.addr, e, b.addr, start);
    }
  }

  // The writes of prvInsertBlockIntoFreeList amount to Coalesce.
  lemma InsertedIsCoalesce(m: Memory, start: nat, a: seq<Block>, b: Block, c: seq<Block>, lo: nat, end: nat)
    requires Ready(m, start, a, b, c, lo, end)
    ensures var n := LastFree(start, a);
            && HasHeader(m, n) && m.next[n] == FirstFree(c, end)
            && (m.next[n] != end ==> HasHeader(m, m.next[n]))
            && var m' := Inserted(m, n, b.addr, end);
               var t := Coalesce(a, b, c);
               && Linked(m', t, end)
               && HasHeader(m', start) && m'.next[start] == FirstFree(t, end) && m'.size[start] == 0
  {
    ReadyRanges(m, start, a, b, c, lo, end);
    NodeInFront(m, start, a, lo, b.addr, FirstFree(c, end));
    InsertedRight(m, start, a, b, c, lo, end);
    InsertedLeft(m, start, a, b, c, lo, end);
    CoalesceParts(a, b, c);
    var m' := Inserted(m, LastFree(start, a), b.addr, end);
    var tail := [Grown(a, b, c)] + BackPart(c);
    assert tail[1..] == BackPart(c);
    LinkedJoin(m', FrontPart(a), tail, end);
    FirstFreeJoin(FrontPart(a), tail, end);
  }

  // No other header than these two is touched.
  lemma InsertedTouches(m: Memory, n: nat, block: nat, end: nat)
    requires HasHeader(m, n) && block in m.size && (m.next[n] != end ==> HasHeader(m, m.next[n]))
    ensures var m' := Inserted(m, n, block, end);
            forall a :: HasHeader(m, a) && a != n && a != block ==>
              HasHeader(m', a) && m'.next[a] == m.next[a] && m'.size[a] == m.size[a]
  {
  }

  lemma UsedInFront(a: seq<Block>, lo: nat, hi: nat, start: nat)
    requires Tiles(a, lo, hi) && !(lo <= start < hi)
    ensures forall i :: 0 <= i < |a| && !a[i].free ==> a[i].addr != LastFree(start, a) && a[i].addr != hi
  {
    forall i | 0 <= i < |a| && !a[i].free
      ensures a[i].addr != LastFree(start, a) && a[i].addr != hi
    {
      UsedIsNotLastFree(a, lo, hi, start, i);
      BlockInside(a, lo, hi, i);
    }
  }

  lemma UsedBehind(c: seq<Block>, lo: nat, hi: nat, p: nat, q: nat)
    requires Tiles(c, lo, hi) && !(lo <= p < hi) && !(lo <= q < hi)
    ensures forall i :: 0 <= i < |c| && !c[i].free ==> c[i].addr != p && c[i].addr != q
  {
    forall i | 0 <= i < |c| && !c[i].free
      ensures c[i].addr != p && c[i].addr != q
    {
      BlockInside(c, lo, hi, i);
    }
  }

  // The used blocks keep their headers.
  lemma InsertedKeepsOwned(m: Memory, start: nat, a: seq<Block>, b: Block, c: seq<Block>, lo: nat, end: nat, bit: nat)
    requires Ready(m, start, a, b, c, lo, end) && Owned(m, a, bit) && Owned(m, c, bit)
    requires var n := LastFree(start, a); HasHeader(m, n) && (m.next[n] != end ==> HasHeader(m, m.next[n]))
    ensures Owned(Inserted(m, LastFree(start, a), b.addr, end), Coalesce(a, b, c), bit)
  {
    var n := LastFree(start, a);
    var m' := Inserted(m, n, b.addr, end);
    ReadyRanges(m, start, a, b, c, lo, end);
    LastFreeRange(start, a, lo, b.addr);
    UsedInFront(a, lo, b.addr, start);
    UsedBehind(c, b.addr + b.size, end, n, b.addr);
    InsertedTouches(m, n, b.addr, end);
    OwnedFrame(m, m', a, bit, n, b.addr);
    OwnedFrame(m, m', c, bit, n, b.addr);
    CoalesceParts(a, b, c);
    OwnedParts(m', a, c, Grown(a, b, c), bit);
  }

  lemma OwnedFrame(m: Memory, m': Memory, s: seq<Block>, bit: nat, p: nat, q: nat)
    requires Owned(m, s, bit)
    requires forall i :: 0 <= i < |s| && !s[i].free ==> s[i].addr != p && s[i].addr != q
    requires forall a :: HasHeader(m, a) && a != p && a != q ==>
               HasHeader(m', a) && m'.next[a] == m.next[a] && m'.size[a] == m.size[a]
    ensures Owned(m', s, bit)
  {
  }

  lemma OwnedParts(m: Memory, a: seq<Block>, c: seq<Block>, g: Block, bit: nat)
    requires Owned(m, a, bit) && Owned(m, c, bit) && g.free
    ensures Owned(m, FrontPart(a) + ([g] + BackPart(c)), bit)
  {
    var t := FrontPart(a) + ([g] + BackPart(c));
    var k := |FrontPart(a)|;
    forall i | 0 <= i < |t| && !t[i].free
      ensures HasHeader(m, t[i].addr) && m.next[t[i].addr] == NULL && m.size[t[i].addr] == t[i].size + bit
    {
      if i < k {
        assert t[i] == a[i];
      } else {
        assert t[i] == c[i - k - 1 + (|c| - |BackPart(c)|)];
      }
    }
  }
}
