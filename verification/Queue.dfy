/**
 The storage of a queue: uxLength slots of uxItemSize bytes, used as a ring that grows at
 either end.  A semaphore is a queue whose items have no bytes.
 */
module Queues {
  import opened Messages

  // uxLength and uxItemSize; the tail pointer is at length * itemSize.
  datatype Shape = Shape(length: nat, itemSize: nat)

  // The bytes between pcHead and pcTail, pcWriteTo and pcReadFrom as offsets from pcHead, and
  // uxMessagesWaiting.
  datatype Store = Store(cells: seq<Byte>, writeTo: int, readFrom: int, waiting: nat)

  datatype Position = Back | Front | Overwrite

  type Item = seq<Byte>

  // ----- Slots --------------------------------------------------------------------

  // The slot that is k places behind the one that follows slot r.
  function Place(r: nat, k: nat, length: nat): (p: nat)
    requires r < length && k <= length
    ensures p < length
  {
    var first := if r + 1 == length then 0 else r + 1;
    if first + k < length then first + k else first + k - length
  }

  lemma PlaceIsModular(r: nat, k: nat, length: nat)
    requires r < length && k <= length
    ensures Place(r, k, length) == (r + 1 + k) % length
  {
    var first := if r + 1 == length then 0 else r + 1;
    Reduce(first + k, length);
    if r + 1 == length {
      Reduce(length + k, length);
      assert (length + k) % length == k % length;
      Reduce(k, length);
    }
  }

  lemma Reduce(x: nat, n: nat)
    requires 0 < n && x < 2 * n + 1
    ensures x < n ==> x % n == x
    ensures n <= x ==> x % n == (x - n) % n
    ensures n <= x < 2 * n ==> x % n == x - n
  {
    if n <= x {
      assert x % n == (x - n + n) % n == (x - n) % n;
    }
  }

  function Offset(slot: nat, itemSize: nat): nat {
    slot * itemSize
  }

  lemma OffsetOrder(i: nat, j: nat, itemSize: nat)
    requires i < j
    ensures Offset(i, itemSize) + itemSize == Offset(i + 1, itemSize) <= Offset(j, itemSize)
  {
  }

  function ItemAt(cells: seq<Byte>, slot: nat, itemSize: nat): (item: Item)
    requires Offset(slot, itemSize) + itemSize <= |cells|
    ensures |item| == itemSize
  {
    cells[Offset(slot, itemSize)..Offset(slot, itemSize) + itemSize]
  }

  // memcpy of data to offset p
  function Overlay(cells: seq<Byte>, p: nat, data: seq<Byte>): (s: seq<Byte>)
    requires p + |data| <= |cells|
    ensures |s| == |cells|
  {
    cells[..p] + data + cells[p + |data|..]
  }

  lemma OverlaidSlot(cells: seq<Byte>, c: Shape, j: nat, item: Item, k: nat)
    requires |cells| == Offset(c.length, c.itemSize) && |item| == c.itemSize && j < c.length && k < c.length
    ensures Offset(j, c.itemSize) + c.itemSize <= |cells| && Offset(k, c.itemSize) + c.itemSize <= |cells|
    ensures var s := Overlay(cells, Offset(j, c.itemSize), item);
            ItemAt(s, k, c.itemSize) == if k == j then item else ItemAt(cells, k, c.itemSize)
  {
    OffsetOrder(j, c.length, c.itemSize);
    OffsetOrder(k, c.length, c.itemSize);
    if k < j {
      OffsetOrder(k, j, c.itemSize);
    } else if j < k {
      OffsetOrder(j, k, c.itemSize);
    }
  }

  // ----- What the pointers represent -------------------------------------------------

  // The queue holds the items, oldest first, in the slots that follow slot r, where the last
  // read took place; the slot behind the newest item is the next one written.
  ghost predicate Represents(q: Store, c: Shape, r: nat, items: seq<Item>) {
    && r < c.length && |items| == q.waiting <= c.length
    && |q.cells| == Offset(c.length, c.itemSize)
    && q.readFrom == Offset(r, c.itemSize)
    && q.writeTo == Offset(Place(r, q.waiting, c.length), c.itemSize)
    && forall k :: 0 <= k < |items| ==> Holds(q.cells, c, Place(r, k, c.length), items[k])
  }

  ghost predicate Holds(cells: seq<Byte>, c: Shape, slot: nat, item: Item) {
    Offset(slot, c.itemSize) + c.itemSize <= |cells| && ItemAt(cells, slot, c.itemSize) == item
  }

  // The slot that is written next is the one (read slot + 1 + count) mod length.
  lemma WriteSlot(q: Store, c: Shape, r: nat, items: seq<Item>)
    requires Represents(q, c, r, items)
    ensures q.writeTo == Offset((r + 1 + q.waiting) % c.length, c.itemSize)
    ensures 0 <= q.writeTo && q.writeTo + c.itemSize <= |q.cells|
    ensures 0 <= q.readFrom && q.readFrom + c.itemSize <= |q.cells|
  {
    PlaceIsModular(r, q.waiting, c.length);
    OffsetOrder(Place(r, q.waiting, c.length), c.length, c.itemSize);
    OffsetOrder(r, c.length, c.itemSize);
  }

  // A queue that holds an item twice at one slot holds one item.
  lemma SamePlace(r: nat, i: nat, k: nat, length: nat)
    requires r < length && i < length && k < length && i != k
    ensures Place(r, i, length) != Place(r, k, length)
  {
  }

  // ----- prvCopyDataToQueue -------------------------------------------------------------

  // One slot on from the pointer p, or one slot back.
  function Forward(p: int, c: Shape): int {
    var q := p + c.itemSize;
    if q >= Offset(c.length, c.itemSize) then 0 else q
  }

  function Backward(p: int, c: Shape): int {
    var q := p - c.itemSize;
    if q < 0 then Offset(c.length, c.itemSize) - c.itemSize else q
  }

  function CopyTo(q: Store, c: Shape, item: Item, position: Position): Store
    requires 0 <= q.writeTo && q.writeTo + |item| <= |q.cells|
    requires 0 <= q.readFrom && q.readFrom + |item| <= |q.cells|
  {
    if c.itemSize == 0 then
      q.(waiting := q.waiting + 1)
    else if position == Back then
      Store(Overlay(q.cells, q.writeTo, item), Forward(q.writeTo, c), q.readFrom, q.waiting + 1)
    else
      var waiting := if position == Overwrite && q.waiting > 0 then q.waiting - 1 else q.waiting;
      Store(Overlay(q.cells, q.readFrom, item), q.writeTo, Backward(q.readFrom, c), waiting + 1)
  }

  lemma ForwardSlot(slot: nat, c: Shape)
    requires slot < c.length && c.itemSize > 0
    ensures Forward(Offset(slot, c.itemSize), c) ==
            Offset(if slot + 1 == c.length then 0 else slot + 1, c.itemSize)
  {
    OffsetOrder(slot, c.length, c.itemSize);
    if slot + 1 < c.length {
      OffsetOrder(slot + 1, c.length, c.itemSize);
    }
  }

  lemma BackwardSlot(slot: nat, c: Shape)
    requires slot < c.length && c.itemSize > 0
    ensures Backward(Offset(slot, c.itemSize), c) ==
            Offset(if slot == 0 then c.length - 1 else slot - 1, c.itemSize)
  {
    OffsetOrder(c.length - 1, c.length, c.itemSize);
    if slot > 0 {
      OffsetOrder(slot - 1, slot, c.itemSize);
    }
  }

  // The slot of the last read after an item was put in front of the one at r.
  function BackSlot(r: nat, length: nat): (s: nat)
    requires r < length
    ensures s < length
  {
    if r == 0 then length - 1 else r - 1
  }

  // An item put at the back.
  lemma SendsToBack(q: Store, c: Shape, r: nat, items: seq<Item>, item: Item)
    requires Represents(q, c, r, items) && |item| == c.itemSize && q.waiting < c.length
    requires 0 <= q.writeTo && q.writeTo + |item| <= |q.cells|
    requires 0 <= q.readFrom && q.readFrom + |item| <= |q.cells|
    ensures Represents(CopyTo(q, c, item, Back), c, r, items + [item])
  {
    var w := Place(r, q.waiting, c.length);
    var q' := CopyTo(q, c, item, Back);
    if c.itemSize > 0 {
      ForwardSlot(w, c);
      forall k | 0 <= k <= |items|
        ensures Holds(q'.cells, c, Place(r, k, c.length), (items + [item])[k])
      {
        OverlaidSlot(q.cells, c, w, item, Place(r, k, c.length));
        if k < |items| {
          assert Holds(q.cells, c, Place(r, k, c.length), items[k]);
          SamePlace(r, k, |items|, c.length);
        }
      }
    } else {
      forall k | 0 <= k <= |items|
        ensures Holds(q'.cells, c, Place(r, k, c.length), (items + [item])[k])
      {
        OffsetOrder(Place(r, k, c.length), c.length, c.itemSize);
        assert k < |items| ==> Holds(q.cells, c, Place(r, k, c.length), items[k]);
      }
    }
  }

  // An item put in front of the oldest one.
  lemma SendsToFront(q: Store, c: Shape, r: nat, items: seq<Item>, item: Item)
    requires Represents(q, c, r, items) && |item| == c.itemSize && q.waiting < c.length
    requires 0 <= q.writeTo && q.writeTo + |item| <= |q.cells|
    requires 0 <= q.readFrom && q.readFrom + |item| <= |q.cells|
    ensures Represents(CopyTo(q, c, item, Front), c, if c.itemSize == 0 then r else BackSlot(r, c.length),
                       [item] + items)
  {
    if c.itemSize == 0 {
      AllSlotsAlike(q, c, r, items, item);
    } else {
      var q', r' := CopyTo(q, c, item, Front), BackSlot(r, c.length);
      BackwardSlot(r, c);
      FrontPlace(r, q.waiting + 1, c.length);
      forall k | 0 <= k <= |items|
        ensures Holds(q'.cells, c, Place(r', k, c.length), ([item] + items)[k])
      {
        FrontPlace(r, k, c.length);
        OverlaidSlot(q.cells, c, r, item, Place(r', k, c.length));
        assert k > 0 ==> Holds(q.cells, c, Place(r, k - 1, c.length), items[k - 1]);
      }
    }
  }

  // Seen from one slot further back, every place is one further on.
  lemma FrontPlace(r: nat, k: nat, length: nat)
    requires r < length && k <= length
    ensures k == 0 ==> Place(BackSlot(r, length), k, length) == r
    ensures k > 0 ==> Place(BackSlot(r, length), k, length) == Place(r, k - 1, length)
    ensures 0 < k < length ==> Place(r, k - 1, length) != r
  {
  }

  // Items without bytes are only counted.
  lemma AllSlotsAlike(q: Store, c: Shape, r: nat, items: seq<Item>, item: Item)
    requires Represents(q, c, r, items) && c.itemSize == 0 && item == [] && q.waiting < c.length
    ensures Represents(q.(waiting := q.waiting + 1), c, r, [item] + items)
  {
    forall k | 0 <= k <= |items|
      ensures Holds(q.cells, c, Place(r, k, c.length), ([item] + items)[k])
    {
      OffsetOrder(Place(r, k, c.length), c.length, c.itemSize);
      assert k > 0 ==> Holds(q.cells, c, Place(r, k - 1, c.length), items[k - 1]);
    }
  }

  // The only item of a queue of length one, replaced.
  lemma Overwrites(q: Store, c: Shape, r: nat, items: seq<Item>, item: Item)
    requires Represents(q, c, r, items) && |item| == c.itemSize > 0 && c.length == 1
    requires 0 <= q.writeTo && q.writeTo + |item| <= |q.cells|
    requires 0 <= q.readFrom && q.readFrom + |item| <= |q.cells|
    ensures Represents(CopyTo(q, c, item, Overwrite), c, 0, [item])
  {
    BackwardSlot(r, c);
    OverlaidSlot(q.cells, c, 0, item, 0);
  }

  // The count stays within the length except when an item without bytes is overwritten:
  // prvCopyDataToQueue looks at the item size first and then always adds one.
  lemma StaysWithinLength(q: Store, c: Shape, r: nat, items: seq<Item>, item: Item, position: Position)
    requires Represents(q, c, r, items) && |item| == c.itemSize
    requires 0 <= q.writeTo && q.writeTo + |item| <= |q.cells|
    requires 0 <= q.readFrom && q.readFrom + |item| <= |q.cells|
    requires q.waiting < c.length || position == Overwrite
    requires position == Overwrite ==> c.length == 1
    ensures CopyTo(q, c, item, position).waiting <= c.length <==>
            !(position == Overwrite && c.itemSize == 0 && q.waiting == c.length)
  {
  }

  // A full binary semaphore that is "overwritten" counts two.
  lemma OverwrittenSemaphore()
    ensures var q, c := Store([], 0, 0, 1), Shape(1, 0);
            Represents(q, c, 0, [[]]) && CopyTo(q, c, [], Overwrite).waiting == 2
  {
    assert Place(0, 1, 1) == 0;
    assert Offset(1, 0) == 0 && Offset(0, 0) == 0;
    assert Holds([], Shape(1, 0), 0, []);
  }

  // ----- prvCopyDataFromQueue, and peeking ---------------------------------------------------

  function CopyFrom(q: Store, c: Shape): Store {
    if c.itemSize == 0 then q else q.(readFrom := Forward(q.readFrom, c))
  }

  // What memcpy then takes from the read position.
  function Taken(q: Store, c: Shape): (item: Item)
    requires 0 <= q.readFrom && q.readFrom + c.itemSize <= |q.cells|
  {
    q.cells[q.readFrom..q.readFrom + c.itemSize]
  }

  // Reading moves to the slot of the oldest item, which is what is read.
  lemma ReadsOldest(q: Store, c: Shape, r: nat, items: seq<Item>)
    requires Represents(q, c, r, items) && items != []
    ensures var q1 := CopyFrom(q, c);
            && 0 <= q1.readFrom && q1.readFrom + c.itemSize <= |q1.cells|
            && Taken(q1, c) == items[0]
  {
    var r' := Place(r, 0, c.length);
    assert Holds(q.cells, c, r', items[0]);
    OffsetOrder(r', c.length, c.itemSize);
    if c.itemSize > 0 {
      ForwardSlot(r, c);
    }
  }

  // With the count lowered as well, the oldest item is gone.
  lemma ReceiveRemoves(q: Store, c: Shape, r: nat, items: seq<Item>)
    requires Represents(q, c, r, items) && items != []
    ensures Represents(CopyFrom(q, c).(waiting := q.waiting - 1), c,
                       if c.itemSize == 0 then r else Place(r, 0, c.length), items[1..])
  {
    var q' := CopyFrom(q, c).(waiting := q.waiting - 1);
    if c.itemSize > 0 {
      var r' := Place(r, 0, c.length);
      ForwardSlot(r, c);
      NextPlace(r, q.waiting, c.length);
      forall k | 0 <= k < |items| - 1
        ensures Holds(q'.cells, c, Place(r', k, c.length), items[1..][k])
      {
        NextPlace(r, k + 1, c.length);
        assert Holds(q.cells, c, Place(r, k + 1, c.length), items[k + 1]);
      }
    } else {
      forall k | 0 <= k < |items| - 1
        ensures Holds(q'.cells, c, Place(r, k, c.length), items[1..][k])
      {
        assert Holds(q.cells, c, Place(r, k + 1, c.length), items[k + 1]);
        OffsetOrder(Place(r, k, c.length), c.length, c.itemSize);
      }
    }
  }

  lemma NextPlace(r: nat, k: nat, length: nat)
    requires r < length && 0 < k <= length
    ensures Place(Place(r, 0, length), k - 1, length) == Place(r, k, length)
  {
  }

  // ----- xQueueGenericReset --------------------------------------------------------------------

  function Cleared(q: Store, c: Shape): Store
    requires c.length > 0
  {
    Store(q.cells, 0, Offset(c.length - 1, c.itemSize), 0)
  }

  lemma ResetEmpties(q: Store, c: Shape)
    requires c.length > 0 && |q.cells| == Offset(c.length, c.itemSize)
    ensures Represents(Cleared(q, c), c, c.length - 1, [])
  {
  }

  // ----- Whole runs -------------------------------------------------------------------------------

  datatype Call = Send(item: Item, position: Position) | Receive | Peek | Reset

  datatype Answer = Nothing | Passed | Failed | Got(item: Item)

  // What the call may be given: items of the right size, and overwriting only in queues of length
  // one (a requirement of the source).
  predicate Allowed(call: Call, c: Shape) {
    call.Send? ==> |call.item| == c.itemSize && (call.position == Overwrite ==> c.length == 1)
  }

  // The one call that goes wrong: a full queue of items without bytes is overwritten.
  predicate Miscounts(call: Call, c: Shape, waiting: nat) {
    call.Send? && call.position == Overwrite && c.itemSize == 0 && waiting == c.length
  }

  // One call that does not wait, on the storage; an out-of-range pointer would make it fail.
  function Perform(q: Store, c: Shape, call: Call): (Store, Answer)
    requires c.length > 0
  {
    match call
    case Send(item, position) =>
      if q.waiting < c.length || position == Overwrite then
        if 0 <= q.writeTo && q.writeTo + |item| <= |q.cells| && 0 <= q.readFrom && q.readFrom + |item| <= |q.cells|
        then (CopyTo(q, c, item, position), Passed) else (q, Nothing)
      else (q, Failed)
    case Receive =>
      var q1 := CopyFrom(q, c);
      if q.waiting > 0 then
        if 0 <= q1.readFrom && q1.readFrom + c.itemSize <= |q1.cells|
        then (q1.(waiting := q.waiting - 1), Got(Taken(q1, c))) else (q, Nothing)
      else (q, Failed)
    case Peek =>
      var q1 := CopyFrom(q, c);
      if q.waiting > 0 then
        if 0 <= q1.readFrom && q1.readFrom + c.itemSize <= |q1.cells|
        then (q1.(readFrom := q.readFrom), Got(Taken(q1, c))) else (q, Nothing)
      else (q, Failed)
    case Reset => (Cleared(q, c), Passed)
  }

  // The same call on a double-ended queue.
  function Deque(items: seq<Item>, length: nat, call: Call): (seq<Item>, Answer) {
    match call
    case Send(item, Back) => if |items| < length then (items + [item], Passed) else (items, Failed)
    case Send(item, Front) => if |items| < length then ([item] + items, Passed) else (items, Failed)
    case Send(item, Overwrite) => ([item], Passed)
    case Receive => if items == [] then (items, Failed) else (items[1..], Got(items[0]))
    case Peek => if items == [] then (items, Failed) else (items, Got(items[0]))
    case Reset => ([], Passed)
  }

  // The read slot after the call.
  function SlotAfter(q: Store, c: Shape, r: nat, call: Call): (s: nat)
    requires r < c.length
    ensures s < c.length
  {
    match call
    case Reset => c.length - 1
    case Peek => r
    case Receive => if c.itemSize == 0 || q.waiting == 0 then r else Place(r, 0, c.length)
    case Send(_, Back) => r
    case Send(_, Front) => if c.itemSize == 0 || q.waiting == c.length then r else BackSlot(r, c.length)
    case Send(_, Overwrite) => 0
  }

  lemma CallRefines(q: Store, c: Shape, r: nat, items: seq<Item>, call: Call)
    requires Represents(q, c, r, items) && Allowed(call, c) && !Miscounts(call, c, |items|)
    ensures var (q', answer) := Perform(q, c, call);
            var (items', expected) := Deque(items, c.length, call);
            answer == expected && Represents(q', c, SlotAfter(q, c, r, call), items')
  {
    WriteSlot(q, c, r, items);
    match call
    case Send(item, Back) =>
      if q.waiting < c.length {
        SendsToBack(q, c, r, items, item);
      }
    case Send(item, Front) =>
      if q.waiting < c.length {
        SendsToFront(q, c, r, items, item);
      }
    case Send(item, Overwrite) =>
      if c.itemSize > 0 {
        Overwrites(q, c, r, items, item);
      } else {
        AllSlotsAlike(q, c, r, items, item);
      }
    case Receive =>
      if items != [] {
        ReadsOldest(q, c, r, items);
        ReceiveRemoves(q, c, r, items);
      }
    case Peek =>
      if items != [] {
        ReadsOldest(q, c, r, items);
      }
    case Reset =>
      ResetEmpties(q, c);
  }

  function Run(q: Store, c: Shape, calls: seq<Call>): (Store, seq<Answer>)
    requires c.length > 0
    decreases |calls|
  {
    if calls == [] then (q, [])
    else
      var (q1, answer) := Perform(q, c, calls[0]);
      var (q2, answers) := Run(q1, c, calls[1..]);
      (q2, [answer] + answers)
  }

  function DequeRun(items: seq<Item>, length: nat, calls: seq<Call>): (seq<Item>, seq<Answer>)
    decreases |calls|
  {
    if calls == [] then (items, [])
    else
      var (items1, answer) := Deque(items, length, calls[0]);
      var (items2, answers) := DequeRun(items1, length, calls[1..]);
      (items2, [answer] + answers)
  }

  // A call is the one on a double-ended queue unless it is the one that miscounts.
  lemma CallRefinesIff(q: Store, c: Shape, r: nat, items: seq<Item>, call: Call)
    requires Represents(q, c, r, items) && Allowed(call, c)
    ensures var (q', answer) := Perform(q, c, call);
            var (items', expected) := Deque(items, c.length, call);
            (answer == expected && exists r' :: Represents(q', c, r', items')) <==> !Miscounts(call, c, |items|)
  {
    if Miscounts(call, c, |items|) {
      WriteSlot(q, c, r, items);
      StaysWithinLength(q, c, r, items, call.item, call.position);
    } else {
      CallRefines(q, c, r, items, call);
    }
  }

  // No call of the run miscounts at its turn.
  predicate NeverMiscounts(items: seq<Item>, c: Shape, calls: seq<Call>)
    decreases |calls|
  {
    calls != [] ==>
      !Miscounts(calls[0], c, |items|) && NeverMiscounts(Deque(items, c.length, calls[0]).0, c, calls[1..])
  }

  // Over every such run the storage answers exactly as a double-ended queue does.
  lemma {:induction false} RunRefinesDeque(q: Store, c: Shape, r: nat, items: seq<Item>, calls: seq<Call>)
    requires Represents(q, c, r, items) && forall call :: call in calls ==> Allowed(call, c)
    requires NeverMiscounts(items, c, calls)
    ensures var (q', answers) := Run(q, c, calls);
            var (items', expected) := DequeRun(items, c.length, calls);
            answers == expected && exists r' :: Represents(q', c, r', items')
    decreases |calls|
  {
    if calls != [] {
      CallRefines(q, c, r, items, calls[0]);
      var (q1, _) := Perform(q, c, calls[0]);
      var (items1, _) := Deque(items, c.length, calls[0]);
      RunRefinesDeque(q1, c, SlotAfter(q, c, r, calls[0]), items1, calls[1..]);
    }
  }

  // ----- The queue in memory ------------------------------------------------------------------------

  class Queue {
    const uxLength: nat
    const uxItemSize: nat
    const storage: array<Byte>
    var pcWriteTo: int
    var pcReadFrom: int
    var uxMessagesWaiting: nat

    ghost var slot: nat           // the slot of the last read
    ghost var items: seq<Item>    // what is in the queue, oldest first

    function TheShape(): Shape {
      Shape(uxLength, uxItemSize)
    }

    ghost function View(): Store
      reads this, storage
    {
      Store(storage[..], pcWriteTo, pcReadFrom, uxMessagesWaiting)
    }

    ghost predicate Valid()
      reads this, storage
    {
      uxLength > 0 && Represents(View(), TheShape(), slot, items)
    }

    // xQueueGenericCreate without the allocation: uxQueueLength must not be 0.
    constructor (uxQueueLength: nat, uxItemSize: nat)
      requires uxQueueLength > 0
      ensures Valid() && items == [] && uxLength == uxQueueLength && this.uxItemSize == uxItemSize && fresh(storage)
    {
      uxLength := uxQueueLength;
      this.uxItemSize := uxItemSize;
      storage := new Byte[Offset(uxQueueLength, uxItemSize)];
      uxMessagesWaiting, pcWriteTo, pcReadFrom := 0, 0, Offset(uxQueueLength - 1, uxItemSize);
      slot, items := uxQueueLength - 1, [];
      new;
      ResetEmpties(View(), TheShape());
    }

    // xQueueGenericReset, without the wait lists
    method Reset()
      requires Valid()
      modifies this
      ensures Valid() && items == []
    {
      uxMessagesWaiting := 0;
      pcWriteTo := 0;
      pcReadFrom := Offset(uxLength - 1, uxItemSize);
      slot, items := uxLength - 1, [];
      ResetEmpties(View(), TheShape());
    }

    method CopyIn(p: nat, data: seq<Byte>)
      requires p + |data| <= storage.Length
      modifies storage
      ensures storage[..] == Overlay(old(storage[..]), p, data)
    {
      forall i | 0 <= i < |data| {
        storage[p + i] := data[i];
      }
    }

    // prvCopyDataToQueue: its writes
    method CopyDataToQueue(item: Item, xPosition: Position)
      requires |item| == uxItemSize
      requires 0 <= pcWriteTo && pcWriteTo + |item| <= storage.Length
      requires 0 <= pcReadFrom && pcReadFrom + |item| <= storage.Length
      modifies this`pcWriteTo, this`pcReadFrom, this`uxMessagesWaiting, storage
      ensures View() == CopyTo(old(View()), TheShape(), item, xPosition)
    {
      var waiting := uxMessagesWaiting;
      if uxItemSize == 0 {
      } else if xPosition == Back {
        CopyIn(pcWriteTo, item);
        pcWriteTo := pcWriteTo + uxItemSize;
        if pcWriteTo >= Offset(uxLength, uxItemSize) {
          pcWriteTo := 0;
        }
      } else {
        CopyIn(pcReadFrom, item);
        pcReadFrom := pcReadFrom - uxItemSize;
        if pcReadFrom < 0 {
          pcReadFrom := Offset(uxLength, uxItemSize) - uxItemSize;
        }
        if xPosition == Overwrite {
          if waiting > 0 {
            waiting := waiting - 1;
          }
        }
      }
      uxMessagesWaiting := waiting + 1;
    }

    // prvCopyDataFromQueue
    method CopyDataFromQueue() returns (buffer: Item)
      requires var q := CopyFrom(View(), TheShape()); 0 <= q.readFrom && q.readFrom + uxItemSize <= storage.Length
      modifies this`pcReadFrom
      ensures View() == CopyFrom(old(View()), TheShape())
      ensures 0 <= pcReadFrom && pcReadFrom + uxItemSize <= storage.Length
      ensures buffer == Taken(View(), TheShape())
    {
      buffer := [];
      if uxItemSize != 0 {
        pcReadFrom := pcReadFrom + uxItemSize;
        if pcReadFrom >= Offset(uxLength, uxItemSize) {
          pcReadFrom := 0;
        }
        buffer := storage[pcReadFrom..pcReadFrom + uxItemSize];
      }
    }

    // xQueueGenericSend without waiting
    method Send(item: Item, xCopyPosition: Position) returns (passed: bool)
      requires Valid() && Allowed(Call.Send(item, xCopyPosition), TheShape())
      modifies this, storage
      ensures Valid() <==> !Miscounts(Call.Send(item, xCopyPosition), TheShape(), |old(items)|)
      ensures var (items', answer) := Deque(old(items), uxLength, Call.Send(item, xCopyPosition));
              items == items' && passed == answer.Passed?
      ensures uxMessagesWaiting == if Valid() then |items| else uxLength + 1
    {
      ghost var q, call := View(), Call.Send(item, xCopyPosition);
      if !Miscounts(call, TheShape(), |items|) {
        CallRefines(q, TheShape(), slot, items, call);
      }
      WriteSlot(q, TheShape(), slot, items);
      passed := uxMessagesWaiting < uxLength || xCopyPosition == Overwrite;
      if passed {
        CopyDataToQueue(item, xCopyPosition);
      }
      items, slot := Deque(items, uxLength, call).0, SlotAfter(q, TheShape(), slot, call);
    }

    // xQueueReceive without waiting
    method Receive() returns (passed: bool, buffer: Item)
      requires Valid()
      modifies this
      ensures Valid()
      ensures if old(items) == [] then !passed && items == []
              else passed && buffer == old(items)[0] && items == old(items)[1..]
    {
      ghost var q := View();
      CallRefines(q, TheShape(), slot, items, Call.Receive);
      passed, buffer := uxMessagesWaiting > 0, [];
      if passed {
        ReadsOldest(q, TheShape(), slot, items);
        buffer := CopyDataFromQueue();
        uxMessagesWaiting := uxMessagesWaiting - 1;
      }
      items, slot := Deque(items, uxLength, Call.Receive).0, SlotAfter(q, TheShape(), slot, Call.Receive);
    }

    // xQueuePeek without waiting: the read position is put back.
    method Peek() returns (passed: bool, buffer: Item)
      requires Valid()
      modifies this`pcReadFrom
      ensures Valid()
      ensures if items == [] then !passed else passed && buffer == items[0]
    {
      passed, buffer := uxMessagesWaiting > 0, [];
      if passed {
        ReadsOldest(View(), TheShape(), slot, items);
        var pcOriginalReadPosition := pcReadFrom;
        buffer := CopyDataFromQueue();
        pcReadFrom := pcOriginalReadPosition;
      }
    }
  }
}
