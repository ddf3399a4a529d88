/**
 Event groups with 32-bit ticks.  The event list item of a waiting task holds the bits it
 waits for and, in the top byte, how it waits; once it is woken it holds the bits it was
 woken with.
 */
module EventGroups {
  import opened KernelList
  import opened Rings

  type Task = nat

  // A word of bits as the set of the positions that are 1: `|` is +, `&` is *, and
  // clearing bits is -.
  type Bits = set<nat>

  const CLEAR_EVENTS_ON_EXIT: nat := 24       // 0x01000000
  const UNBLOCKED_DUE_TO_BIT_SET: nat := 25   // 0x02000000
  const WAIT_FOR_ALL: nat := 26               // 0x04000000
  const ITEM_VALUE_IN_USE: nat := 31          // 0x80000000
  const CONTROL_BYTES: Bits := {24, 25, 26, 27, 28, 29, 30, 31}

  // prvTestWaitCondition
  predicate WaitConditionMet(bits: Bits, mask: Bits, all: bool) {
    if all then bits * mask == mask else bits * mask != {}
  }

  // The value stored for a task that starts to wait.
  function WaitValue(mask: Bits, clearOnExit: bool, all: bool): Bits {
    mask + (if clearOnExit then {CLEAR_EVENTS_ON_EXIT} else {}) + (if all then {WAIT_FOR_ALL} else {})
         + {ITEM_VALUE_IN_USE}
  }

  // The value stored for a task that is woken.
  function WokenValue(bits: Bits): Bits {
    bits + {UNBLOCKED_DUE_TO_BIT_SET} + {ITEM_VALUE_IN_USE}
  }

  function MaskOf(value: Bits): Bits {
    value - CONTROL_BYTES
  }

  // The stored value gives back what was asked for.
  lemma WaitValueRoundTrip(mask: Bits, clearOnExit: bool, all: bool)
    requires mask !! CONTROL_BYTES
    ensures var v := WaitValue(mask, clearOnExit, all);
            && MaskOf(v) == mask && (WAIT_FOR_ALL in v) == all && (CLEAR_EVENTS_ON_EXIT in v) == clearOnExit
            && UNBLOCKED_DUE_TO_BIT_SET !in v
  {
  }

  // Event bits survive being stored for a woken task.
  lemma WokenValueRoundTrip(bits: Bits)
    requires bits !! CONTROL_BYTES
    ensures MaskOf(WokenValue(bits)) == bits && UNBLOCKED_DUE_TO_BIT_SET in WokenValue(bits)
  {
  }

  // ----- The group as a value ----------------------------------------------------

  // value is the xItemValue of each task's event list item.
  datatype Group = Group(bits: Bits, waiting: seq<Task>, value: map<Task, Bits>)

  predicate Satisfied(g: Group, bits: Bits, t: Task)
    requires t in g.value
  {
    WaitConditionMet(bits, MaskOf(g.value[t]), WAIT_FOR_ALL in g.value[t])
  }

  ghost predicate Typed(g: Group) {
    forall t :: t in g.waiting ==> t in g.value
  }

  // The waiters that stay, in order.
  function Kept(tasks: seq<Task>, g: Group, bits: Bits): seq<Task>
    requires forall t :: t in tasks ==> t in g.value
  {
    if tasks == [] then []
    else (if Satisfied(g, bits, tasks[0]) then [] else [tasks[0]]) + Kept(tasks[1..], g, bits)
  }

  // All bits that a woken waiter asked to have cleared.
  function ToClear(tasks: seq<Task>, g: Group, bits: Bits): Bits
    requires forall t :: t in tasks ==> t in g.value
  {
    if tasks == [] then {}
    else
      var v := g.value[tasks[0]];
      (if Satisfied(g, bits, tasks[0]) && CLEAR_EVENTS_ON_EXIT in v then MaskOf(v) else {})
      + ToClear(tasks[1..], g, bits)
  }

  // The list item values after the satisfied waiters were woken.
  function Woken(g: Group, bits: Bits): map<Task, Bits>
    requires Typed(g)
  {
    map t | t in g.value :: if t in g.waiting && Satisfied(g, bits, t)
                            then WokenValue(bits)
                            else g.value[t]
  }

  // xEventGroupSetBits
  function AfterSetBits(g: Group, set_: Bits): Group
    requires Typed(g)
  {
    var bits := g.bits + set_;
    Group(bits - ToClear(g.waiting, g, bits), Kept(g.waiting, g, bits), Woken(g, bits))
  }

  // xEventGroupClearBits
  function AfterClearBits(g: Group, clear: Bits): Group {
    g.(bits := g.bits - clear)
  }

  // What a call does before it may have to block: the value it returns, or None if it
  // goes on the list.
  datatype Answer = Returns(bits: Bits) | Blocks

  // xEventGroupWaitBits up to the point where the scheduler is resumed
  function AfterWaitBits(g: Group, t: Task, mask: Bits, clearOnExit: bool, all: bool, mayBlock: bool): (Group, Answer) {
    if WaitConditionMet(g.bits, mask, all) then
      (if clearOnExit then AfterClearBits(g, mask) else g, Returns(g.bits))
    else if !mayBlock then (g, Returns(g.bits))
    else (Enlisted(g, t, WaitValue(mask, clearOnExit, all)), Blocks)
  }

  // xEventGroupSync up to the point where the scheduler is resumed
  function AfterSync(g: Group, t: Task, set_: Bits, mask: Bits, mayBlock: bool): (Group, Answer)
    requires Typed(g)
  {
    var g' := AfterSetBits(g, set_);
    if (g.bits + set_) * mask == mask then (AfterClearBits(g', mask), Returns(g.bits + set_))
    else if !mayBlock then (g', Returns(g'.bits))
    else (Enlisted(g', t, WaitValue(mask, true, true)), Blocks)
  }

  // vTaskPlaceOnUnorderedEventList
  function Enlisted(g: Group, t: Task, v: Bits): Group {
    g.(waiting := g.waiting + [t], value := g.value[t := v])
  }

  // The wait of t ends without its bits: it leaves the list, its value stays.
  function AfterExpire(g: Group, t: Task): Group {
    g.(waiting := Without(g.waiting, t))
  }

  // What a task does when it runs again after blocking: the value it returns, and its
  // list item gets back its normal value.
  function AfterFinish(g: Group, t: Task, mask: Bits, clearOnExit: bool, all: bool, normal: Bits): (Group, Bits)
    requires t in g.value
  {
    var v := g.value[t];
    var g' := g.(value := g.value[t := normal]);
    if UNBLOCKED_DUE_TO_BIT_SET in v then (g', MaskOf(v))
    else if WaitConditionMet(g.bits, mask, all) && clearOnExit then (AfterClearBits(g', mask), MaskOf(g.bits))
    else (g', MaskOf(g.bits))
  }

  // ----- The group as an object ----------------------------------------------------

  // The group with its list of waiters among the linked lists of the kernel.  A task stands for its
  // event list item there; the values of those items, which order nothing on this list, are kept
  // apart as words of bits.
  class EventGroup {
    const memory: ListMemory
    const xTasksWaitingForBits: Addr
    var uxEventBits: Bits
    var xItemValue: map<Task, Bits>

    ghost predicate Valid()
      reads this, memory
    {
      && memory.Valid() && xTasksWaitingForBits in memory.lists && memory.lists[xTasksWaitingForBits].pos == 0
      && Typed(View())
    }

    ghost function View(): Group
      requires xTasksWaitingForBits in memory.lists
      reads this, memory
    {
      Group(uxEventBits, memory.lists[xTasksWaitingForBits].items, xItemValue)
    }

    // No other list of the kernel changes.
    twostate predicate OthersSame()
      reads this, memory
    {
      && xTasksWaitingForBits in memory.lists
      && memory.lists == old(memory.lists)[xTasksWaitingForBits := memory.lists[xTasksWaitingForBits]]
    }

    // Items that are on no list stay so.
    twostate predicate LooseStay()
      reads memory
    {
      forall x :: old(memory.Loose(x)) ==> memory.Loose(x)
    }

    // xEventGroupCreate
    constructor (memory: ListMemory, list: Addr)
      requires memory.Valid() && list != NULL && list !in memory.lists && list !in memory.container
      modifies memory
      ensures Valid() && View() == Group({}, [], map[])
      ensures this.memory == memory && xTasksWaitingForBits == list
      ensures memory.lists == old(memory.lists)[list := Ring([], 0)]
    {
      this.memory, xTasksWaitingForBits := memory, list;
      uxEventBits, xItemValue := {}, map[];
      new;
      memory.InitialiseList(list);
    }

    lemma ListedWaiters()
      requires Valid()
      ensures Distinct(View().waiting) && xTasksWaitingForBits != NULL
      ensures forall t :: t in View().waiting <==> t in memory.container && memory.container[t] == xTasksWaitingForBits
      ensures forall t :: t in View().waiting ==> t in memory.value && memory.value[t] <= memory.maxDelay
    {
      var r := memory.lists[xTasksWaitingForBits];
      assert ListOk(memory.View(), xTasksWaitingForBits, r, memory.maxDelay);
      ListFacts(memory.View(), xTasksWaitingForBits, r, memory.maxDelay);
    }

    // uxListRemove of an event list item
    method TakeOff(t: Task)
      requires Valid() && t in View().waiting
      modifies memory
      ensures Valid() && View() == AfterExpire(old(View()), t) && OthersSame() && LooseStay()
    {
      hide Represents;
      ghost var r := memory.lists[xTasksWaitingForBits];
      ListedWaiters();
      var _ := memory.Remove(t);
      WithoutAt(r.items, t);
    }

    // xEventGroupSetBits
    method SetBits(uxBitsToSet: Bits) returns (r: Bits)
      requires Valid() && uxBitsToSet !! CONTROL_BYTES
      modifies this, memory
      ensures Valid() && View() == AfterSetBits(old(View()), uxBitsToSet) && r == uxEventBits
      ensures OthersSame() && LooseStay()
    {
      hide Represents;
      ghost var g := View();
      uxEventBits := uxEventBits + uxBitsToSet;
      var uxBitsToClear := WakeSatisfied(View());
      SameWaiters(g, g.(bits := g.bits + uxBitsToSet), uxEventBits);
      uxEventBits := uxEventBits - uxBitsToClear;
      r := uxEventBits;
    }

    // Its walk along the linked list: the satisfied waiters are taken off on the way, so the link to
    // the next one is read before.
    method WakeSatisfied(ghost g: Group) returns (uxBitsToClear: Bits)
      requires Valid() && g == View()
      modifies this`xItemValue, memory
      ensures Valid() && View() == Group(g.bits, Kept(g.waiting, g, g.bits), Woken(g, g.bits))
      ensures OthersSame() && LooseStay()
      ensures uxBitsToClear == ToClear(g.waiting, g, g.bits)
    {
      hide Walked, Kept, Woken, ToClear, Represents, ListOk;
      uxBitsToClear := {};
      ghost var i, n := 0, 0;
      var pxListEnd := xTasksWaitingForBits;
      FirstWaiter();
      WalkStarts(g, uxEventBits);
      var pxListItem := memory.next[pxListEnd];
      while pxListItem != pxListEnd
        invariant Valid() && uxEventBits == g.bits && i <= |View().waiting|
        invariant pxListItem == NodeAt(pxListEnd, View().waiting, i + 1)
        invariant Walked(g, g.bits, n, i, uxBitsToClear, View()) && OthersSame() && LooseStay()
        decreases |g.waiting| - n
      {
        NextWaiter(i);
        WalkStep(g, g.bits, n, i, uxBitsToClear, View());
        var pxNext := memory.next[pxListItem];
        var xMatchFound, mask := MatchFound(xItemValue[pxListItem], uxEventBits);
        if xMatchFound {
          uxBitsToClear := uxBitsToClear + mask;
          RemoveFromUnorderedEventList(pxListItem, i);
        } else {
          i := i + 1;
        }
        n := n + 1;
        pxListItem := pxNext;
      }
      NextWaiter(i);
      WalkEnds(g, g.bits, n, i, uxBitsToClear, View());
    }

    lemma FirstWaiter()
      requires Valid()
      ensures Distinct(View().waiting) && xTasksWaitingForBits in memory.next
      ensures memory.next[xTasksWaitingForBits] == NodeAt(xTasksWaitingForBits, View().waiting, 1)
    {
      var r := memory.lists[xTasksWaitingForBits];
      ListFacts(memory.View(), xTasksWaitingForBits, r, memory.maxDelay);
      NextNode(memory.View(), xTasksWaitingForBits, r, memory.maxDelay, 0);
    }

    // The node behind place i is a waiter with its own link, unless the list ends there.
    lemma NextWaiter(i: nat)
      requires Valid() && i <= |View().waiting|
      ensures var x := NodeAt(xTasksWaitingForBits, View().waiting, i + 1);
              && (x == xTasksWaitingForBits <==> i == |View().waiting|)
              && (i < |View().waiting| ==>
                    && x == View().waiting[i] && x in memory.next
                    && memory.next[x] == NodeAt(xTasksWaitingForBits, View().waiting, i + 2))
    {
      var r := memory.lists[xTasksWaitingForBits];
      ListFacts(memory.View(), xTasksWaitingForBits, r, memory.maxDelay);
      if i < |r.items| {
        NextNode(memory.View(), xTasksWaitingForBits, r, memory.maxDelay, i + 1);
      }
    }

    // vTaskRemoveFromUnorderedEventList, as far as the event list is concerned; the task is the i-th
    // waiter, and the one behind it takes that place.
    method RemoveFromUnorderedEventList(t: Task, ghost i: nat)
      requires Valid() && i < |View().waiting| && t == View().waiting[i]
      modifies this`xItemValue, memory
      ensures Valid() && OthersSame() && LooseStay()
      ensures var g := old(View());
              && View() == Group(g.bits, g.waiting[..i] + g.waiting[i + 1..], g.value[t := WokenValue(g.bits)])
              && NodeAt(xTasksWaitingForBits, View().waiting, i + 1) == NodeAt(xTasksWaitingForBits, g.waiting, i + 2)
    {
      hide Represents;
      ghost var ws := View().waiting;
      ListedWaiters();
      TakeOff(t);
      WithoutAt(ws, t);
      assert IndexOf(ws, t) == i;
      NodesAfterRemove(xTasksWaitingForBits, ws, i);
      xItemValue := xItemValue[t := WokenValue(uxEventBits)];
    }

    // xEventGroupClearBits
    method ClearBits(uxBitsToClear: Bits) returns (r: Bits)
      requires Valid() && uxBitsToClear !! CONTROL_BYTES
      modifies this`uxEventBits
      ensures Valid() && View() == AfterClearBits(old(View()), uxBitsToClear) && r == old(uxEventBits)
    {
      r := uxEventBits;
      uxEventBits := uxEventBits - uxBitsToClear;
    }

    // xEventGroupWaitBits, called by the running task t, up to where it may have to block
    method WaitBits(t: Task, mask: Bits, xClearOnExit: bool, xWaitForAllBits: bool, mayBlock: bool)
      returns (a: Answer)
      requires Valid() && memory.Loose(t) && mask !! CONTROL_BYTES && mask != {}
      modifies this, memory
      ensures Valid() && OthersSame()
      ensures (View(), a) == AfterWaitBits(old(View()), t, mask, xClearOnExit, xWaitForAllBits, mayBlock)
    {
      hide Represents;
      var uxCurrentEventBits := uxEventBits;
      if WaitConditionMet(uxCurrentEventBits, mask, xWaitForAllBits) {
        a := Returns(uxCurrentEventBits);
        if xClearOnExit {
          uxEventBits := uxEventBits - mask;
        }
      } else if !mayBlock {
        a := Returns(uxCurrentEventBits);
      } else {
        var uxControlBits := {};
        if xClearOnExit {
          uxControlBits := uxControlBits + {CLEAR_EVENTS_ON_EXIT};
        }
        if xWaitForAllBits {
          uxControlBits := uxControlBits + {WAIT_FOR_ALL};
        }
        PlaceOnUnorderedEventList(t, mask + uxControlBits);
        assert xItemValue[t] == WaitValue(mask, xClearOnExit, xWaitForAllBits);
        a := Blocks;
      }
    }

    // vTaskPlaceOnUnorderedEventList, as far as the event list is concerned
    method PlaceOnUnorderedEventList(t: Task, itemValue: Bits)
      requires Valid() && memory.Loose(t)
      modifies this`xItemValue, memory
      ensures Valid() && View() == Enlisted(old(View()), t, itemValue + {ITEM_VALUE_IN_USE}) && OthersSame()
    {
      hide Represents;
      ghost var r := memory.lists[xTasksWaitingForBits];
      memory.InsertEnd(xTasksWaitingForBits, t);
      assert memory.lists[xTasksWaitingForBits].items == r.items + [t];
      xItemValue := xItemValue[t := itemValue + {ITEM_VALUE_IN_USE}];
    }

    // xEventGroupSync, called by the running task t, up to where it may have to block
    method Sync(t: Task, uxBitsToSet: Bits, mask: Bits, mayBlock: bool) returns (a: Answer)
      requires Valid() && memory.Loose(t)
      requires uxBitsToSet !! CONTROL_BYTES && mask !! CONTROL_BYTES && mask != {}
      modifies this, memory
      ensures Valid() && OthersSame()
      ensures (View(), a) == AfterSync(old(View()), t, uxBitsToSet, mask, mayBlock)
    {
      hide Represents, AfterSetBits;
      var uxOriginalBitValue := uxEventBits;
      var _ := SetBits(uxBitsToSet);
      if (uxOriginalBitValue + uxBitsToSet) * mask == mask {
        a := Returns(uxOriginalBitValue + uxBitsToSet);
        uxEventBits := uxEventBits - mask;
      } else if mayBlock {
        PlaceOnUnorderedEventList(t, mask + {CLEAR_EVENTS_ON_EXIT} + {WAIT_FOR_ALL});
        a := Blocks;
      } else {
        a := Returns(uxEventBits);
      }
    }

    // The wait of t times out: xTaskIncrementTick takes it off the event list if it is still on it.
    method Expire(t: Task)
      requires Valid() && t in memory.container && memory.container[t] in {NULL, xTasksWaitingForBits}
      modifies memory
      ensures Valid() && View() == AfterExpire(old(View()), t) && OthersSame()
    {
      ListedWaiters();
      if memory.container[t] != NULL {
        TakeOff(t);
      }
    }

    // The rest of both calls, once the task t runs again; normal is the value its list item
    // gets back for its priority.
    method Finish(t: Task, mask: Bits, clearOnExit: bool, all: bool, normal: Bits) returns (r: Bits)
      requires Valid() && t in xItemValue
      modifies this`xItemValue, this`uxEventBits
      ensures Valid() && (View(), r) == AfterFinish(old(View()), t, mask, clearOnExit, all, normal)
    {
      r := xItemValue[t];
      xItemValue := xItemValue[t := normal];
      if UNBLOCKED_DUE_TO_BIT_SET !in r {
        r := uxEventBits;
        if WaitConditionMet(r, mask, all) {
          if clearOnExit {
            uxEventBits := uxEventBits - mask;
          }
        }
      }
      r := r - CONTROL_BYTES;
    }
  }

  // Waking depends on the waiters and the bits they are tested against.
  lemma {:induction false} SameTests(tasks: seq<Task>, g: Group, h: Group, bits: Bits)
    requires g.value == h.value && forall t :: t in tasks ==> t in g.value
    ensures Kept(tasks, g, bits) == Kept(tasks, h, bits) && ToClear(tasks, g, bits) == ToClear(tasks, h, bits)
  {
    if tasks != [] {
      SameTests(tasks[1..], g, h, bits);
    }
  }

  lemma SameWaiters(g: Group, h: Group, bits: Bits)
    requires g.waiting == h.waiting && g.value == h.value && Typed(g)
    ensures Kept(g.waiting, g, bits) == Kept(h.waiting, h, bits)
    ensures ToClear(g.waiting, g, bits) == ToClear(h.waiting, h, bits)
    ensures Woken(g, bits) == Woken(h, bits)
  {
    SameTests(g.waiting, g, h, bits);
  }

  // The test that the walk makes of one waiter, with the bits to clear if it is woken.
  method MatchFound(itemValue: Bits, uxEventBits: Bits) returns (xMatchFound: bool, uxBitsToClear: Bits)
    ensures xMatchFound == WaitConditionMet(uxEventBits, MaskOf(itemValue), WAIT_FOR_ALL in itemValue)
    ensures uxBitsToClear == if CLEAR_EVENTS_ON_EXIT in itemValue then MaskOf(itemValue) else {}
  {
    var uxControlBits := itemValue * CONTROL_BYTES;
    var uxBitsWaitedFor := itemValue - CONTROL_BYTES;
    xMatchFound, uxBitsToClear := false, {};
    assert uxBitsWaitedFor * uxEventBits == uxEventBits * uxBitsWaitedFor;
    if WAIT_FOR_ALL !in uxControlBits {
      if uxBitsWaitedFor * uxEventBits != {} {
        xMatchFound := true;
      }
    } else if uxBitsWaitedFor * uxEventBits == uxBitsWaitedFor {
      xMatchFound := true;
    }
    if CLEAR_EVENTS_ON_EXIT in uxControlBits {
      uxBitsToClear := uxBitsWaitedFor;
    }
  }

  // The walk has passed the first n waiters and stands at place i of what is left of the list.
  ghost predicate WalkedList(g: Group, bits: Bits, n: nat, i: nat, list: seq<Task>) {
    && Typed(g) && Distinct(g.waiting)
    && n <= |g.waiting| && i <= |list|
    && list[i..] == g.waiting[n..]
    && list[..i] + Kept(g.waiting[n..], g, bits) == Kept(g.waiting, g, bits)
  }

  ghost predicate WalkedClear(g: Group, bits: Bits, n: nat, clear: Bits)
    requires Typed(g) && n <= |g.waiting|
  {
    clear + ToClear(g.waiting[n..], g, bits) == ToClear(g.waiting, g, bits)
  }

  ghost predicate WalkedValue(g: Group, bits: Bits, n: nat, value: map<Task, Bits>)
    requires Typed(g) && n <= |g.waiting|
  {
    && value.Keys == g.value.Keys
    && forall t :: t in g.value ==> value[t] == if t in g.waiting[..n] then Woken(g, bits)[t] else g.value[t]
  }

  lemma WalkListStep(g: Group, bits: Bits, n: nat, i: nat, list: seq<Task>)
    requires WalkedList(g, bits, n, i, list) && i < |list|
    ensures n < |g.waiting| && list[i] == g.waiting[n]
    ensures if Satisfied(g, bits, list[i]) then WalkedList(g, bits, n + 1, i, list[..i] + list[i + 1..])
            else WalkedList(g, bits, n + 1, i + 1, list)
  {
    var t := list[i];
    assert list[i..][0] == g.waiting[n..][0];
    assert g.waiting[n..][1..] == g.waiting[n + 1..];
    assert list[i + 1..] == list[i..][1..];
    if Satisfied(g, bits, t) {
      assert (list[..i] + list[i + 1..])[i..] == list[i + 1..];
      assert (list[..i] + list[i + 1..])[..i] == list[..i];
    } else {
      assert list[..i + 1] == list[..i] + [t];
    }
  }

  lemma WalkClearStep(g: Group, bits: Bits, n: nat, clear: Bits)
    requires Typed(g) && n < |g.waiting| && WalkedClear(g, bits, n, clear)
    ensures var v := g.value[g.waiting[n]];
            if Satisfied(g, bits, g.waiting[n])
            then WalkedClear(g, bits, n + 1, clear + if CLEAR_EVENTS_ON_EXIT in v then MaskOf(v) else {})
            else WalkedClear(g, bits, n + 1, clear)
  {
    assert g.waiting[n..][1..] == g.waiting[n + 1..];
  }

  lemma WalkValueStep(g: Group, bits: Bits, n: nat, value: map<Task, Bits>)
    requires Typed(g) && Distinct(g.waiting) && n < |g.waiting| && WalkedValue(g, bits, n, value)
    ensures var t := g.waiting[n];
            && value[t] == g.value[t]
            && WalkedValue(g, bits, n + 1,
                           if Satisfied(g, bits, t)
                           then value[t := WokenValue(bits)] else value)
  {
    assert g.waiting[..n + 1] == g.waiting[..n] + [g.waiting[n]];
    assert g.waiting[n] !in g.waiting[..n];
  }

  ghost predicate Walked(g: Group, bits: Bits, n: nat, i: nat, clear: Bits, now: Group) {
    && WalkedList(g, bits, n, i, now.waiting)
    && WalkedClear(g, bits, n, clear)
    && WalkedValue(g, bits, n, now.value)
  }

  lemma WalkStarts(g: Group, bits: Bits)
    requires Typed(g) && Distinct(g.waiting)
    ensures Walked(g, bits, 0, 0, {}, g.(bits := bits))
  {
    assert g.waiting[0..] == g.waiting;
  }

  lemma WalkStep(g: Group, bits: Bits, n: nat, i: nat, clear: Bits, now: Group)
    requires Walked(g, bits, n, i, clear, now) && i < |now.waiting|
    ensures var t := now.waiting[i];
            && n < |g.waiting| && t in g.value && t in now.value && now.value[t] == g.value[t]
            && var v := g.value[t];
               if WaitConditionMet(bits, MaskOf(v), WAIT_FOR_ALL in v) then
                 Walked(g, bits, n + 1, i, clear + (if CLEAR_EVENTS_ON_EXIT in v then MaskOf(v) else {}),
                        Group(now.bits, now.waiting[..i] + now.waiting[i + 1..], now.value[t := WokenValue(bits)]))
               else Walked(g, bits, n + 1, i + 1, clear, now)
  {
    WalkListStep(g, bits, n, i, now.waiting);
    WalkClearStep(g, bits, n, clear);
    WalkValueStep(g, bits, n, now.value);
  }

  lemma WalkEnds(g: Group, bits: Bits, n: nat, i: nat, clear: Bits, now: Group)
    requires Walked(g, bits, n, i, clear, now) && i == |now.waiting|
    ensures now.waiting == Kept(g.waiting, g, bits) && clear == ToClear(g.waiting, g, bits)
    ensures now.value == Woken(g, bits)
  {
    assert g.waiting[n..] == [];
    assert g.waiting[..n] == g.waiting;
    assert now.waiting[..i] == now.waiting;
  }

  // ----- Setting bits wakes exactly the right tasks -----------------------------------

  lemma {:induction false} KeptExactly(tasks: seq<Task>, g: Group, bits: Bits)
    requires forall t :: t in tasks ==> t in g.value
    ensures forall t :: t in Kept(tasks, g, bits) <==> t in tasks && !Satisfied(g, bits, t)
    ensures Distinct(tasks) ==> Distinct(Kept(tasks, g, bits))
  {
    if tasks != [] {
      KeptExactly(tasks[1..], g, bits);
      assert tasks == [tasks[0]] + tasks[1..];
    }
  }

  // The waiters that stay keep their order: those of the first part of the list stay in
  // front of those of the second.
  lemma {:induction false} KeptInOrder(a: seq<Task>, b: seq<Task>, g: Group, bits: Bits)
    requires forall t :: t in a + b ==> t in g.value
    ensures (forall t :: t in a ==> t in g.value) && (forall t :: t in b ==> t in g.value)
    ensures Kept(a + b, g, bits) == Kept(a, g, bits) + Kept(b, g, bits)
  {
    assert forall t :: t in a || t in b ==> t in a + b;
    if a == [] {
      assert a + b == b;
    } else {
      assert (a + b)[1..] == a[1..] + b;
      KeptInOrder(a[1..], b, g, bits);
    }
  }

  lemma {:induction false} ToClearExactly(tasks: seq<Task>, g: Group, bits: Bits, b: nat)
    requires forall t :: t in tasks ==> t in g.value
    ensures b in ToClear(tasks, g, bits) <==>
            exists t :: t in tasks && Satisfied(g, bits, t)
                        && CLEAR_EVENTS_ON_EXIT in g.value[t] && b in MaskOf(g.value[t])
  {
    if tasks != [] {
      ToClearExactly(tasks[1..], g, bits, b);
      assert tasks == [tasks[0]] + tasks[1..];
    }
  }

  // xEventGroupSetBits wakes exactly the waiters whose condition holds on the old bits with
  // the new ones, gives each of them that value, leaves the others listed with theirs, and
  // clears exactly the bits that woken clear-on-exit waiters waited for.
  lemma SetBitsIsExact(g: Group, set_: Bits, t: Task, b: nat)
    requires Typed(g)
    ensures var g', bits := AfterSetBits(g, set_), g.bits + set_;
            && (t in g.waiting && Satisfied(g, bits, t) ==> t !in g'.waiting && g'.value[t] == WokenValue(bits))
            && (t in g.waiting && !Satisfied(g, bits, t) ==> t in g'.waiting && g'.value[t] == g.value[t])
            && (t !in g.waiting ==> t !in g'.waiting && (t in g.value ==> g'.value[t] == g.value[t]))
            && (b in g'.bits <==>
                  b in bits && !exists w :: w in g.waiting && Satisfied(g, bits, w)
                                            && CLEAR_EVENTS_ON_EXIT in g.value[w] && b in MaskOf(g.value[w]))
  {
    var bits := g.bits + set_;
    KeptExactly(g.waiting, g, bits);
    ToClearExactly(g.waiting, g, bits, b);
  }

  // ----- No satisfied waiter in any reachable state ---------------------------------

  ghost predicate Quiet(g: Group) {
    && Typed(g) && Distinct(g.waiting) && g.bits !! CONTROL_BYTES
    && forall t :: t in g.waiting ==>
         && !Satisfied(g, g.bits, t) && MaskOf(g.value[t]) != {} && UNBLOCKED_DUE_TO_BIT_SET !in g.value[t]
  }

  datatype Op =
    | SetOp(bits: Bits)
    | ClearOp(bits: Bits)
    | WaitOp(t: Task, mask: Bits, clearOnExit: bool, all: bool, mayBlock: bool)
    | SyncOp(t: Task, bits: Bits, mask: Bits, mayBlock: bool)
    | ExpireOp(t: Task)
    | FinishOp(t: Task, mask: Bits, clearOnExit: bool, all: bool, normal: Bits)

  // What the calls assert of their arguments, and that a caller is not itself waiting.
  ghost predicate Allowed(g: Group, op: Op) {
    match op
    case SetOp(bits) => bits !! CONTROL_BYTES
    case ClearOp(bits) => bits !! CONTROL_BYTES
    case WaitOp(t, mask, _, _, _) => t !in g.waiting && mask !! CONTROL_BYTES && mask != {}
    case SyncOp(t, bits, mask, _) => t !in g.waiting && bits !! CONTROL_BYTES && mask !! CONTROL_BYTES && mask != {}
    case ExpireOp(t) => t in g.waiting
    case FinishOp(t, mask, _, _, _) => t !in g.waiting && t in g.value && mask !! CONTROL_BYTES
  }

  ghost function After(g: Group, op: Op): Group
    requires Quiet(g) && Allowed(g, op)
  {
    match op
    case SetOp(bits) => AfterSetBits(g, bits)
    case ClearOp(bits) => AfterClearBits(g, bits)
    case WaitOp(t, mask, clearOnExit, all, mayBlock) => AfterWaitBits(g, t, mask, clearOnExit, all, mayBlock).0
    case SyncOp(t, bits, mask, mayBlock) => AfterSync(g, t, bits, mask, mayBlock).0
    case ExpireOp(t) => AfterExpire(g, t)
    case FinishOp(t, mask, clearOnExit, all, normal) => AfterFinish(g, t, mask, clearOnExit, all, normal).0
  }

  // Fewer bits satisfy nobody new.
  lemma ClearingIsQuiet(g: Group, clear: Bits)
    requires Quiet(g)
    ensures Quiet(AfterClearBits(g, clear))
  {
    var g' := AfterClearBits(g, clear);
    forall t | t in g.waiting
      ensures !Satisfied(g', g'.bits, t)
    {
      FewerBits(g.bits, clear, MaskOf(g.value[t]), WAIT_FOR_ALL in g.value[t]);
    }
  }

  lemma FewerBits(bits: Bits, clear: Bits, mask: Bits, all: bool)
    ensures WaitConditionMet(bits - clear, mask, all) ==> WaitConditionMet(bits, mask, all)
  {
    if WaitConditionMet(bits - clear, mask, all) {
      assert (bits - clear) * mask <= bits * mask;
    }
  }

  lemma SettingIsQuiet(g: Group, set_: Bits)
    requires Quiet(g) && set_ !! CONTROL_BYTES
    ensures Quiet(AfterSetBits(g, set_))
  {
    var bits := g.bits + set_;
    KeptExactly(g.waiting, g, bits);
    var woken := Group(bits, Kept(g.waiting, g, bits), Woken(g, bits));
    assert Quiet(woken);
    ClearingIsQuiet(woken, ToClear(g.waiting, g, bits));
  }

  lemma EnlistingIsQuiet(g: Group, t: Task, mask: Bits, clearOnExit: bool, all: bool)
    requires Quiet(g) && t !in g.waiting && mask !! CONTROL_BYTES && mask != {}
    requires !WaitConditionMet(g.bits, mask, all)
    ensures Quiet(Enlisted(g, t, WaitValue(mask, clearOnExit, all)))
  {
    WaitValueRoundTrip(mask, clearOnExit, all);
  }

  // No operation leaves a waiter blocked whose condition the current bits satisfy.
  lemma EveryOpIsQuiet(g: Group, op: Op)
    requires Quiet(g) && Allowed(g, op)
    ensures Quiet(After(g, op))
  {
    match op
    case SetOp(bits) => SettingIsQuiet(g, bits);
    case ClearOp(bits) => ClearingIsQuiet(g, bits);
    case WaitOp(t, mask, clearOnExit, all, mayBlock) =>
      ClearingIsQuiet(g, mask);
      if !WaitConditionMet(g.bits, mask, all) {
        EnlistingIsQuiet(g, t, mask, clearOnExit, all);
      }
    case SyncOp(t, bits, mask, mayBlock) => SyncIsQuiet(g, t, bits, mask, mayBlock);
    case ExpireOp(t) => WithoutExactly(g.waiting, t);
    case FinishOp(t, mask, _, _, normal) => ClearingIsQuiet(g.(value := g.value[t := normal]), mask);
  }

  lemma SyncIsQuiet(g: Group, t: Task, bits: Bits, mask: Bits, mayBlock: bool)
    requires Quiet(g) && Allowed(g, SyncOp(t, bits, mask, mayBlock))
    ensures Quiet(AfterSync(g, t, bits, mask, mayBlock).0)
  {
    var g' := AfterSetBits(g, bits);
    SettingIsQuiet(g, bits);
    ClearingIsQuiet(g', mask);
    KeptExactly(g.waiting, g, g.bits + bits);
    FewerBits(g.bits + bits, ToClear(g.waiting, g, g.bits + bits), mask, true);
    if (g.bits + bits) * mask != mask {
      EnlistingIsQuiet(g', t, mask, true, true);
    }
  }

  ghost predicate Reachable(g: Group, ops: seq<Op>, h: Group)
    requires Quiet(g)
    decreases |ops|
  {
    if ops == [] then g == h
    else
      && Allowed(g, ops[0])
      && var g' := After(g, ops[0]);
         Quiet(g') ==> Reachable(g', ops[1..], h)
  }

  // In every reachable state no blocked waiter's condition is satisfied by the current bits.
  lemma {:induction false} NoSatisfiedWaiter(g: Group, ops: seq<Op>, h: Group)
    requires Quiet(g) && Reachable(g, ops, h)
    ensures Quiet(h)
    decreases |ops|
  {
    if ops != [] {
      EveryOpIsQuiet(g, ops[0]);
      NoSatisfiedWaiter(After(g, ops[0]), ops[1..], h);
    }
  }

  // No control bit leaks into the value that either call returns.
  lemma NoControlBitReturned(g: Group, op: Op)
    requires Quiet(g) && Allowed(g, op)
    ensures op.WaitOp? ==>
              var a := AfterWaitBits(g, op.t, op.mask, op.clearOnExit, op.all, op.mayBlock).1;
              a.Returns? ==> a.bits !! CONTROL_BYTES
    ensures op.SyncOp? ==>
              var a := AfterSync(g, op.t, op.bits, op.mask, op.mayBlock).1;
              a.Returns? ==> a.bits !! CONTROL_BYTES
    ensures op.FinishOp? ==>
              AfterFinish(g, op.t, op.mask, op.clearOnExit, op.all, op.normal).1 !! CONTROL_BYTES
  {
    if op.SyncOp? {
      SettingIsQuiet(g, op.bits);
    }
  }

  // ----- Waiting for bits, from the call to the return ---------------------------------------------

  // prvTestWaitCondition bit by bit
  lemma WaitConditionMeans(bits: Bits, mask: Bits, all: bool)
    ensures WaitConditionMet(bits, mask, all) <==>
            if all then forall b :: b in mask ==> b in bits else exists b :: b in mask && b in bits
  {
    if all {
      assert bits * mask == mask <==> mask <= bits;
    } else {
      assert forall b :: b in bits * mask <==> b in mask && b in bits;
    }
  }

  lemma ClearBitsIsExact(g: Group, clear: Bits, b: nat)
    ensures var g' := AfterClearBits(g, clear);
            && (b in g'.bits <==> b in g.bits && b !in clear)
            && g'.waiting == g.waiting && g'.value == g.value
  {
  }

  // A call of xEventGroupWaitBits that returns at once: because its condition holds, or because it
  // may not block.  It returns the bits as they were, and takes away exactly the mask if it is to
  // clear what it waited for and got it.
  lemma WaitReturnsAtOnce(g: Group, t: Task, mask: Bits, clearOnExit: bool, all: bool, mayBlock: bool, b: nat)
    ensures var (g', a) := AfterWaitBits(g, t, mask, clearOnExit, all, mayBlock);
            && (a.Returns? <==> WaitConditionMet(g.bits, mask, all) || !mayBlock)
            && (a.Returns? ==>
                  && a.bits == g.bits && g'.waiting == g.waiting && g'.value == g.value
                  && (b in g'.bits <==>
                        b in g.bits && !(b in mask && clearOnExit && WaitConditionMet(g.bits, mask, all))))
            && (a.Blocks? ==> g'.bits == g.bits && g'.waiting == g.waiting + [t])
  {
  }

  // The same for xEventGroupSync, which sets its bits first.
  lemma SyncReturnsAtOnce(g: Group, t: Task, set_: Bits, mask: Bits, mayBlock: bool, b: nat)
    requires Typed(g)
    ensures var (g', a) := AfterSync(g, t, set_, mask, mayBlock);
            var g1 := AfterSetBits(g, set_);
            var complete := WaitConditionMet(g.bits + set_, mask, true);
            && (a.Returns? <==> complete || !mayBlock)
            && (a.Returns? ==> a.bits == (if complete then g.bits + set_ else g1.bits) && g'.waiting == g1.waiting)
            && (a.Blocks? ==> g'.waiting == g1.waiting + [t])
            && (b in g'.bits <==> b in g1.bits && !(complete && b in mask))
  {
  }

  // t is on the list with this condition.
  ghost predicate Enrolled(g: Group, t: Task, mask: Bits, clearOnExit: bool, all: bool) {
    t in g.waiting && t in g.value && g.value[t] == WaitValue(mask, clearOnExit, all)
  }

  // The operation sets bits that, with those there are, meet the condition.
  predicate Meets(g: Group, op: Op, mask: Bits, all: bool) {
    (op.SetOp? || op.SyncOp?) && WaitConditionMet(g.bits + op.bits, mask, all)
  }

  // A task waits until its condition is met or its time is up.
  lemma StaysEnrolled(g: Group, op: Op, w: Task, mask: Bits, clearOnExit: bool, all: bool)
    requires Quiet(g) && Allowed(g, op) && Enrolled(g, w, mask, clearOnExit, all) && mask !! CONTROL_BYTES
    requires !Meets(g, op, mask, all) && op != ExpireOp(w)
    ensures Enrolled(After(g, op), w, mask, clearOnExit, all)
  {
    WaitValueRoundTrip(mask, clearOnExit, all);
    match op
    case SetOp(bits) => KeptExactly(g.waiting, g, g.bits + bits);
    case SyncOp(_, bits, _, _) => KeptExactly(g.waiting, g, g.bits + bits);
    case ExpireOp(t) => WithoutExactly(g.waiting, t);
    case _ =>
  }

  // No operation of the run meets the condition of t or ends its time.
  ghost predicate Unmet(g: Group, ops: seq<Op>, h: Group, t: Task, mask: Bits, all: bool)
    requires Quiet(g)
    decreases |ops|
  {
    if ops == [] then g == h
    else
      && Allowed(g, ops[0]) && !Meets(g, ops[0], mask, all) && ops[0] != ExpireOp(t)
      && var g' := After(g, ops[0]);
         Quiet(g') ==> Unmet(g', ops[1..], h, t, mask, all)
  }

  lemma {:induction false} EnrolledUntilMet(g: Group, ops: seq<Op>, h: Group, t: Task, mask: Bits, clearOnExit: bool,
                                            all: bool)
    requires Quiet(g) && Unmet(g, ops, h, t, mask, all) && mask !! CONTROL_BYTES
    requires Enrolled(g, t, mask, clearOnExit, all)
    ensures Quiet(h) && Enrolled(h, t, mask, clearOnExit, all)
    decreases |ops|
  {
    hide Quiet, Allowed, Meets, Enrolled, After;
    if ops != [] {
      EveryOpIsQuiet(g, ops[0]);
      StaysEnrolled(g, ops[0], t, mask, clearOnExit, all);
      EnrolledUntilMet(After(g, ops[0]), ops[1..], h, t, mask, clearOnExit, all);
    }
  }

  // w has been woken with these bits and has not run since.
  ghost predicate Released(g: Group, w: Task, bits: Bits) {
    w !in g.waiting && w in g.value && g.value[w] == WokenValue(bits)
  }

  // The operation that meets the condition of a waiter wakes it with the bits that did, and takes
  // its mask away if it is to be cleared.
  lemma MeetingReleases(g: Group, op: Op, w: Task, mask: Bits, clearOnExit: bool, all: bool)
    requires Quiet(g) && Allowed(g, op) && Enrolled(g, w, mask, clearOnExit, all) && mask !! CONTROL_BYTES
    requires Meets(g, op, mask, all)
    ensures Released(After(g, op), w, g.bits + op.bits)
    ensures clearOnExit ==> After(g, op).bits !! mask
  {
    WaitValueRoundTrip(mask, clearOnExit, all);
    KeptExactly(g.waiting, g, g.bits + op.bits);
    forall b
      ensures b in ToClear(g.waiting, g, g.bits + op.bits) <==>
              exists t :: t in g.waiting && Satisfied(g, g.bits + op.bits, t)
                          && CLEAR_EVENTS_ON_EXIT in g.value[t] && b in MaskOf(g.value[t])
    {
      ToClearExactly(g.waiting, g, g.bits + op.bits, b);
    }
  }

  // xEventGroupWaitBits from end to end.  A call that blocks leaves t waiting over any operations
  // that do not meet its condition; the first that does wakes it, with the mask taken away if t
  // asked for that; and whenever t runs again it returns the bits that met its condition, whatever
  // happened to the group since, and changes the bits no more.
  lemma WaitBitsEndToEnd(g: Group, t: Task, mask: Bits, clearOnExit: bool, all: bool, ops: seq<Op>, h: Group, op: Op,
                         later: seq<Op>, end: Group, normal: Bits)
    requires Quiet(g) && Allowed(g, WaitOp(t, mask, clearOnExit, all, true)) && !WaitConditionMet(g.bits, mask, all)
    requires Quiet(After(g, WaitOp(t, mask, clearOnExit, all, true))) ==>
               Unmet(After(g, WaitOp(t, mask, clearOnExit, all, true)), ops, h, t, mask, all)
    requires Quiet(h) ==>
               && Allowed(h, op) && Meets(h, op, mask, all)
               && (Quiet(After(h, op)) ==> Reachable(After(h, op), later, end))
    requires forall o :: o in later ==> !CalledBy(o, t)
    ensures Quiet(h) && t in h.waiting && t !in After(h, op).waiting
    ensures clearOnExit ==> After(h, op).bits !! mask
    ensures t in end.value
    ensures AfterFinish(end, t, mask, clearOnExit, all, normal) ==
              (end.(value := end.value[t := normal]), h.bits + op.bits)
  {
    hide Unmet, Reachable, Quiet, After, Kept, Woken, ToClear;
    var g0 := After(g, WaitOp(t, mask, clearOnExit, all, true));
    EveryOpIsQuiet(g, WaitOp(t, mask, clearOnExit, all, true));
    WaiterEnrolls(g, t, mask, clearOnExit, all);
    EnrolledUntilMet(g0, ops, h, t, mask, clearOnExit, all);
    EveryOpIsQuiet(h, op);
    MeetingReleases(h, op, t, mask, clearOnExit, all);
    ReleasedUntilRun(After(h, op), later, end, t, h.bits + op.bits);
    BitsAreFree(h, op);
    WokenValueRoundTrip(h.bits + op.bits);
  }

  lemma WaiterEnrolls(g: Group, t: Task, mask: Bits, clearOnExit: bool, all: bool)
    requires Quiet(g) && Allowed(g, WaitOp(t, mask, clearOnExit, all, true)) && !WaitConditionMet(g.bits, mask, all)
    ensures Enrolled(After(g, WaitOp(t, mask, clearOnExit, all, true)), t, mask, clearOnExit, all)
  {
  }

  lemma BitsAreFree(g: Group, op: Op)
    requires Quiet(g) && Allowed(g, op) && (op.SetOp? || op.SyncOp?)
    ensures g.bits + op.bits !! CONTROL_BYTES
  {
  }

  // A task whose time is up returns the bits there are when it runs again, and takes its mask away
  // only if they meet its condition by then and it asked for that.
  lemma WaitTimesOut(g: Group, t: Task, mask: Bits, clearOnExit: bool, all: bool, later: seq<Op>, end: Group,
                     normal: Bits, b: nat)
    requires Quiet(g) && Enrolled(g, t, mask, clearOnExit, all) && mask !! CONTROL_BYTES
    requires Quiet(After(g, ExpireOp(t))) ==> Reachable(After(g, ExpireOp(t)), later, end)
    requires forall o :: o in later ==> !CalledBy(o, t)
    ensures t in end.value
    ensures var (g', r) := AfterFinish(end, t, mask, clearOnExit, all, normal);
            && r == end.bits && g'.waiting == end.waiting
            && (b in g'.bits <==> b in end.bits && !(b in mask && clearOnExit && WaitConditionMet(end.bits, mask, all)))
  {
    hide Reachable, After;
    var g1 := After(g, ExpireOp(t));
    EveryOpIsQuiet(g, ExpireOp(t));
    ExpiredKeepsValue(g, t);
    ValueUntilRun(g1, later, end, t, WaitValue(mask, clearOnExit, all));
    WaitValueRoundTrip(mask, clearOnExit, all);
  }

  lemma ExpiredKeepsValue(g: Group, t: Task)
    requires Quiet(g) && t in g.waiting
    ensures t !in After(g, ExpireOp(t)).waiting && After(g, ExpireOp(t)).value == g.value
  {
    WithoutExactly(g.waiting, t);
  }

  // The task that an operation is a call of.
  predicate CalledBy(op: Op, w: Task) {
    (op.WaitOp? || op.SyncOp? || op.FinishOp?) && op.t == w
  }

  // The item of a task that is on no list keeps its value until the task runs.
  lemma StaysValue(g: Group, op: Op, w: Task, v: Bits)
    requires Quiet(g) && Allowed(g, op) && w !in g.waiting && w in g.value && g.value[w] == v && !CalledBy(op, w)
    ensures w !in After(g, op).waiting && w in After(g, op).value && After(g, op).value[w] == v
  {
    match op
    case SetOp(b) => KeptExactly(g.waiting, g, g.bits + b);
    case SyncOp(_, b, _, _) => KeptExactly(g.waiting, g, g.bits + b);
    case ExpireOp(t) => WithoutExactly(g.waiting, t);
    case _ =>
  }

  lemma {:induction false} ValueUntilRun(g: Group, ops: seq<Op>, h: Group, w: Task, v: Bits)
    requires Quiet(g) && Reachable(g, ops, h) && w !in g.waiting && w in g.value && g.value[w] == v
    requires forall op :: op in ops ==> !CalledBy(op, w)
    ensures Quiet(h) && w !in h.waiting && w in h.value && h.value[w] == v
    decreases |ops|
  {
    hide Quiet, Allowed, After, CalledBy;
    if ops != [] {
      EveryOpIsQuiet(g, ops[0]);
      StaysValue(g, ops[0], w, v);
      ValueUntilRun(After(g, ops[0]), ops[1..], h, w, v);
    }
  }

  lemma ReleasedUntilRun(g: Group, ops: seq<Op>, h: Group, w: Task, bits: Bits)
    requires Quiet(g) && Reachable(g, ops, h) && Released(g, w, bits)
    requires forall op :: op in ops ==> !CalledBy(op, w)
    ensures Quiet(h) && Released(h, w, bits)
  {
    ValueUntilRun(g, ops, h, w, WokenValue(bits));
  }

  // ----- Rendezvous --------------------------------------------------------------------

  // t is blocked in a rendezvous on mask.
  ghost predicate Gathered(g: Group, t: Task, mask: Bits) {
    Enrolled(g, t, mask, true, true)
  }

  // The operation sets the last bits of the mask that were missing.
  predicate Completes(g: Group, op: Op, mask: Bits) {
    Meets(g, op, mask, true)
  }

  // The call of xEventGroupSync that does not complete the mask joins.
  lemma CallerGathers(g: Group, t: Task, bits: Bits, mask: Bits)
    requires Quiet(g) && Allowed(g, SyncOp(t, bits, mask, true)) && !Completes(g, SyncOp(t, bits, mask, true), mask)
    ensures Gathered(After(g, SyncOp(t, bits, mask, true)), t, mask)
  {
  }

  // The tasks that call xEventGroupSync on mask and block, from g on to h, whatever else happens
  // to the group: nothing completes the mask and nobody's time is up.
  ghost predicate Meeting(g: Group, callers: set<Task>, ops: seq<Op>, h: Group, all: set<Task>, mask: Bits)
    requires Quiet(g)
    decreases |ops|
  {
    if ops == [] then g == h && all == callers
    else
      && Allowed(g, ops[0]) && !Completes(g, ops[0], mask) && !(ops[0].ExpireOp? && ops[0].t in callers)
      && var g' := After(g, ops[0]);
         Quiet(g') ==> Meeting(g', callers + Joining(ops[0], mask), ops[1..], h, all, mask)
  }

  function Joining(op: Op, mask: Bits): set<Task> {
    if op.SyncOp? && op.mask == mask && op.mayBlock then {op.t} else {}
  }

  lemma {:induction false} AllGather(g: Group, callers: set<Task>, ops: seq<Op>, h: Group, all: set<Task>, mask: Bits)
    requires Quiet(g) && Meeting(g, callers, ops, h, all, mask) && mask !! CONTROL_BYTES
    requires forall w :: w in callers ==> Gathered(g, w, mask)
    ensures Quiet(h) && forall w :: w in all ==> Gathered(h, w, mask)
    decreases |ops|
  {
    hide Quiet, Allowed, Meets, Enrolled, After;
    if ops != [] {
      var op := ops[0];
      var g' := After(g, op);
      EveryOpIsQuiet(g, op);
      forall w | w in callers + Joining(op, mask)
        ensures Gathered(g', w, mask)
      {
        if w in callers {
          StaysEnrolled(g, op, w, mask, true, true);
        } else {
          CallerGathers(g, op.t, op.bits, mask);
        }
      }
      AllGather(g', callers + Joining(op, mask), ops[1..], h, all, mask);
    }
  }

  // The call that completes the mask releases everyone gathered, with the value that it
  // returns itself, and leaves the mask clear.
  lemma SyncReleases(g: Group, t: Task, bits: Bits, mask: Bits, w: Task)
    requires Quiet(g) && Allowed(g, SyncOp(t, bits, mask, true)) && (g.bits + bits) * mask == mask
    ensures var (g', a) := AfterSync(g, t, bits, mask, true);
            && a == Returns(g.bits + bits) && g'.bits !! mask
            && (Gathered(g, w, mask) ==> Released(g', w, g.bits + bits))
  {
    WaitValueRoundTrip(mask, true, true);
    KeptExactly(g.waiting, g, g.bits + bits);
  }

  // Rendezvous agreement: any number of tasks call xEventGroupSync with one mask, between other
  // operations on the group, and nobody's time is up before the last caller completes the mask.
  // Then each of them, whenever it runs again and whatever happened to the group meanwhile,
  // returns the value that the last one returns, which holds the whole mask and no control bit;
  // and the last call leaves the mask clear.
  lemma RendezvousAgreement(g: Group, ops: seq<Op>, h: Group, all: set<Task>, mask: Bits, last: Task, bits: Bits,
                            later: seq<Op>, w: Task, end: Group, normal: Bits)
    requires Quiet(g) && Meeting(g, {}, ops, h, all, mask)
    requires last !in h.waiting && bits !! CONTROL_BYTES && mask !! CONTROL_BYTES && mask != {}
    requires mask <= h.bits + bits && w in all
    requires Quiet(h) && Quiet(AfterSync(h, last, bits, mask, true).0) ==>
               Reachable(AfterSync(h, last, bits, mask, true).0, later, end)
    requires forall op :: op in later ==> !CalledBy(op, w)
    ensures Quiet(h)
    ensures var (g', a) := AfterSync(h, last, bits, mask, true);
            && a.Returns? && mask <= a.bits && a.bits !! CONTROL_BYTES && g'.bits !! mask
            && w in end.value && AfterFinish(end, w, mask, true, true, normal).1 == a.bits
  {
    hide Meeting, Reachable, Kept, Woken, ToClear;
    AllGather(g, {}, ops, h, all, mask);
    assert (h.bits + bits) * mask == mask;
    SyncIsQuiet(h, last, bits, mask, true);
    SyncReleases(h, last, bits, mask, w);
    ReleasedUntilRun(AfterSync(h, last, bits, mask, true).0, later, end, w, h.bits + bits);
    WokenValueRoundTrip(h.bits + bits);
  }
}
