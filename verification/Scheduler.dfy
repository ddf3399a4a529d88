/**
 The scheduler's data as a value and what its functions do to it: ready lists by priority, two
 delayed lists that change roles when the tick counter wraps, tasks held back while the
 scheduler is suspended, and ticks made up for afterwards.
 */
module Schedulers {
  import opened Rings
  import opened TaskLists

  // Where a task's event item is.
  datatype EventPlace = NoEvent | OnEventList | OnPending

  // M is the number of values of TickType_t and priorities is configMAX_PRIORITIES.
  datatype Config = Config(M: nat, priorities: nat)

  ghost predicate ConfigOk(c: Config) {
    c.M > 1 && c.priorities > 0
  }

  datatype Kernel = Kernel(
    lists: Lists,
    priority: map<Task, nat>,
    event: map<Task, EventPlace>,
    pending: seq<Task>,        // xPendingReadyList
    first: bool,               // whether pxDelayedTaskList is xDelayedTaskList1
    tick: nat,                 // xTickCount
    overflows: nat,            // xNumOfOverflows
    pended: nat,               // xPendedTicks
    nextUnblock: nat,          // xNextTaskUnblockTime
    top: nat,                  // uxTopReadyPriority
    current: Task,             // pxCurrentTCB
    count: nat,                // uxCurrentNumberOfTasks
    depth: nat,                // uxSchedulerSuspended
    yieldPending: bool)        // xYieldPending

  predicate IsList(l: ListId, c: Config) {
    l.Ready? ==> l.priority < c.priorities
  }

  function DelayedId(k: Kernel): ListId {
    if k.first then DelayOne else DelayTwo
  }

  function OverflowId(k: Kernel): ListId {
    if k.first then DelayTwo else DelayOne
  }

  function DelayedItems(k: Kernel): seq<Task> {
    Items(k.lists, DelayedId(k))
  }

  function Place(k: Kernel, t: Task): Container {
    ContainerOf(k.lists, t)
  }

  function PriorityOf(k: Kernel, t: Task): nat {
    if t in k.priority then k.priority[t] else 0
  }

  function EventOf(k: Kernel, t: Task): EventPlace {
    if t in k.event then k.event[t] else NoEvent
  }

  // ----- The invariant ---------------------------------------------------------------------

  // Every task is on exactly one list, except the tasks in hand, which are on none.
  ghost predicate Listed(k: Kernel, hand: set<Task>, c: Config) {
    && Consistent(k.lists) && (forall l :: l in k.lists.rings <==> IsList(l, c))
    && k.priority.Keys == k.lists.container.Keys == k.event.Keys
    && (forall t :: t in k.priority ==> k.priority[t] < c.priorities)
    && (forall t :: t in k.lists.container ==> (k.lists.container[t] == Nowhere <==> t in hand))
    && k.top < c.priorities
  }

  // A ready task is on the list of its priority, which is no higher than the recorded one.
  ghost predicate ReadyRight(k: Kernel) {
    forall t :: Place(k, t).In? && Place(k, t).list.Ready? ==>
      Place(k, t).list.priority == PriorityOf(k, t) <= k.top
  }

  predicate Blocked(k: Kernel, t: Task) {
    Place(k, t) == In(DelayOne) || Place(k, t) == In(DelayTwo) || Place(k, t) == In(SuspendedList)
  }

  // Only blocked tasks wait for events; those that an event freed while the scheduler was
  // suspended are pending.
  ghost predicate EventsRight(k: Kernel, hand: set<Task>) {
    && Distinct(k.pending)
    && (forall t :: t in k.pending <==> EventOf(k, t) == OnPending)
    && (forall t :: EventOf(k, t) != NoEvent && t !in hand ==> Blocked(k, t))
  }

  ghost predicate DelaysSorted(k: Kernel, c: Config) {
    && InOrder(k.lists, DelayOne) && InOrder(k.lists, DelayTwo)
    && (forall t :: ValueOf(k.lists.value, t) < c.M)
  }

  ghost predicate Sound(k: Kernel, hand: set<Task>, c: Config) {
    && ConfigOk(c) && Listed(k, hand, c) && ReadyRight(k) && EventsRight(k, hand) && DelaysSorted(k, c)
    && k.count == |k.priority| && k.current in k.priority
  }

  // Nothing on the current delayed list is due before the next tick, or before
  // xNextTaskUnblockTime.
  ghost predicate OnTime(k: Kernel, c: Config) {
    && k.tick < c.M && k.nextUnblock < c.M
    && forall t :: t in DelayedItems(k) ==> NotYetDue(k, ValueOf(k.lists.value, t), c)
  }

  predicate NotYetDue(k: Kernel, v: nat, c: Config) {
    k.tick <= v && k.nextUnblock <= v && (v == k.tick ==> k.tick + 1 < c.M)
  }

  // Work is put off only while the scheduler is suspended.
  ghost predicate NothingPutOff(k: Kernel) {
    k.depth == 0 ==> k.pending == [] && k.pended == 0
  }

  // What holds between any two functions.
  ghost predicate Good(k: Kernel, c: Config) {
    Sound(k, {}, c) && OnTime(k, c) && NothingPutOff(k)
  }

  // ----- Pieces ------------------------------------------------------------------------

  // uxListRemove
  function TakenOff(k: Kernel, t: Task): Kernel {
    k.(lists := Unlink(k.lists, t))
  }

  // Removing the event item from whatever list it is on
  function WithoutEvent(k: Kernel, t: Task): Kernel {
    k.(event := k.event[t := NoEvent], pending := Without(k.pending, t))
  }

  // prvAddTaskToReadyList
  function AddedToReady(k: Kernel, t: Task): Kernel {
    var p := PriorityOf(k, t);
    k.(top := if p > k.top then p else k.top, lists := LinkEnd(k.lists, Ready(p), t))
  }

  // The end of a list that is neither a ready list nor a delayed one.
  function Parked(k: Kernel, t: Task, l: ListId): Kernel {
    k.(lists := LinkEnd(k.lists, l, t))
  }

  // Onto a delayed list, with the wake time as value
  function Delayed(k: Kernel, t: Task, wake: nat): Kernel {
    var x := k.lists.(value := k.lists.value[t := wake]);
    if wake < k.tick then k.(lists := LinkSorted(x, OverflowId(k), t))
    else
      k.(lists := LinkSorted(x, DelayedId(k), t), nextUnblock := if wake < k.nextUnblock then wake else k.nextUnblock)
  }

  // portMAX_DELAY
  function MaxDelay(c: Config): nat {
    if c.M > 0 then c.M - 1 else 0
  }

  // prvResetNextTaskUnblockTime
  function ResetUnblock(k: Kernel, c: Config): Kernel {
    var delayed := DelayedItems(k);
    k.(nextUnblock := if delayed == [] then MaxDelay(c) else ValueOf(k.lists.value, delayed[0]))
  }

  // ----- What the pieces keep ----------------------------------------------------------------

  // A task's state item moves to container to, and nothing else about tasks changes.
  ghost predicate Moves(k: Kernel, k': Kernel, t: Task, to: Container) {
    && t in k.priority && t in k.lists.container
    && k'.lists.container == k.lists.container[t := to]
    && k'.priority == k.priority && k'.event == k.event && k'.pending == k.pending
    && k'.count == k.count && k'.current == k.current && k.top <= k'.top
  }

  lemma MovedListed(k: Kernel, k': Kernel, hand: set<Task>, hand': set<Task>, t: Task, to: Container, c: Config)
    requires Listed(k, hand, c) && Moves(k, k', t, to)
    requires Consistent(k'.lists) && k'.lists.rings.Keys == k.lists.rings.Keys && k'.top < c.priorities
    requires (to == Nowhere <==> t in hand') && forall u :: u != t ==> (u in hand' <==> u in hand)
    ensures Listed(k', hand', c)
  {
    hide Consistent;
  }

  lemma MovedReady(k: Kernel, k': Kernel, t: Task, to: Container)
    requires ReadyRight(k) && Moves(k, k', t, to)
    requires to.In? && to.list.Ready? ==> to.list.priority == k.priority[t] <= k'.top
    ensures ReadyRight(k')
  {
    forall u | Place(k', u).In? && Place(k', u).list.Ready?
      ensures Place(k', u).list.priority == PriorityOf(k', u) <= k'.top
    {
      assert u != t ==> Place(k, u) == Place(k', u);
    }
  }

  lemma MovedEvents(k: Kernel, k': Kernel, hand: set<Task>, hand': set<Task>, t: Task, to: Container)
    requires EventsRight(k, hand) && Moves(k, k', t, to)
    requires EventOf(k, t) == NoEvent || t in hand'
             || to == In(DelayOne) || to == In(DelayTwo) || to == In(SuspendedList)
    requires forall u :: u != t ==> (u in hand' <==> u in hand)
    ensures EventsRight(k', hand')
  {
    hide Distinct;
    forall u
      ensures EventOf(k', u) == EventOf(k, u)
      ensures EventOf(k', u) != NoEvent && u !in hand' ==> Blocked(k', u)
    {
      assert u != t ==> Place(k', u) == Place(k, u);
    }
  }

  lemma TakenOffSound(k: Kernel, hand: set<Task>, t: Task, c: Config)
    requires Sound(k, hand, c) && t in k.priority && t !in hand
    ensures Sound(TakenOff(k, t), hand + {t}, c)
    ensures TakenOff(k, t).lists.container == k.lists.container[t := Nowhere]
    ensures TakenOff(k, t).lists.value == k.lists.value
  {
    hide InOrder, ReadyRight, EventsRight, Consistent, Unlink;
    UnlinkKeeps(k.lists, t);
    UnlinkInOrder(k.lists, t, DelayOne);
    UnlinkInOrder(k.lists, t, DelayTwo);
    MovedListed(k, TakenOff(k, t), hand, hand + {t}, t, Nowhere, c);
    MovedReady(k, TakenOff(k, t), t, Nowhere);
    MovedEvents(k, TakenOff(k, t), hand, hand + {t}, t, Nowhere);
  }

  lemma TakenOffOnTime(k: Kernel, hand: set<Task>, t: Task, c: Config)
    requires Sound(k, hand, c) && t in k.priority && t !in hand && OnTime(k, c)
    ensures OnTime(TakenOff(k, t), c)
  {
    hide InOrder, ReadyRight, EventsRight, Consistent, Unlink;
    UnlinkKeeps(k.lists, t);
    UnlinkedStay(k.lists, t, DelayedId(k));
  }

  lemma UnlinkedStay(x: Lists, t: Task, l: ListId)
    requires Consistent(x) && ContainerOf(x, t).In?
    ensures forall u :: u in Items(Unlink(x, t), l) ==> u in Items(x, l)
  {
    hide Unlink;
    UnlinkKeeps(x, t);
    forall u | u in Items(Unlink(x, t), l)
      ensures u in Items(x, l)
    {
      assert ContainerOf(Unlink(x, t), u) == In(l);
    }
  }

  lemma WithoutEventSound(k: Kernel, hand: set<Task>, t: Task, c: Config)
    requires Sound(k, hand, c) && t in k.priority
    ensures Sound(WithoutEvent(k, t), hand, c)
  {
    hide Consistent, EventsRight, ReadyRight, DelaysSorted;
    var k' := WithoutEvent(k, t);
    WithoutEventEvents(k, hand, t);
    assert ReadyRight(k') by {
      SameReady(k, k');
    }
    assert DelaysSorted(k', c) by {
      SameDelays(k, k', c);
    }
  }

  lemma SameReady(k: Kernel, k': Kernel)
    requires ReadyRight(k) && k'.lists == k.lists && k'.priority == k.priority && k'.top == k.top
    ensures ReadyRight(k')
  {
    forall u | Place(k', u).In? && Place(k', u).list.Ready?
      ensures Place(k', u).list.priority == PriorityOf(k', u) <= k'.top
    {
      assert Place(k', u) == Place(k, u);
    }
  }

  lemma SameDelays(k: Kernel, k': Kernel, c: Config)
    requires DelaysSorted(k, c) && k'.lists == k.lists
    ensures DelaysSorted(k', c)
  {
  }

  lemma WithoutEventEvents(k: Kernel, hand: set<Task>, t: Task)
    requires EventsRight(k, hand)
    ensures EventsRight(WithoutEvent(k, t), hand)
  {
    hide Distinct;
    var k' := WithoutEvent(k, t);
    WithoutExactly(k.pending, t);
    forall u
      ensures EventOf(k', u) == if u == t then NoEvent else EventOf(k, u)
      ensures Blocked(k', u) <==> Blocked(k, u)
    {
    }
  }

  lemma AddedToReadySound(k: Kernel, hand: set<Task>, t: Task, c: Config)
    requires Sound(k, hand + {t}, c) && t !in hand && t in k.priority && EventOf(k, t) == NoEvent
    ensures var k' := AddedToReady(k, t);
            && Sound(k', hand, c) && k'.lists.value == k.lists.value
            && k'.lists.container == k.lists.container[t := In(Ready(k.priority[t]))]
            && k'.lists.rings[DelayOne] == k.lists.rings[DelayOne]
            && k'.lists.rings[DelayTwo] == k.lists.rings[DelayTwo]
            && Items(k'.lists, DelayOne) == Items(k.lists, DelayOne)
            && Items(k'.lists, DelayTwo) == Items(k.lists, DelayTwo)
  {
    hide InOrder, ReadyRight, EventsRight, Consistent, LinkEnd;
    var l := Ready(k.priority[t]);
    var k' := AddedToReady(k, t);
    LinkEndKeeps(k.lists, l, t);
    SameRing(k.lists, k'.lists, DelayOne);
    SameRing(k.lists, k'.lists, DelayTwo);
    MovedListed(k, k', hand + {t}, hand, t, In(l), c);
    MovedReady(k, k', t, In(l));
    MovedEvents(k, k', hand + {t}, hand, t, In(l));
  }

  lemma SameRing(x: Lists, y: Lists, m: ListId)
    requires InOrder(x, m) && y.value == x.value && m in y.rings && y.rings[m] == x.rings[m]
    ensures InOrder(y, m)
  {
    assert Items(y, m) == Items(x, m);
  }

  lemma ParkedSound(k: Kernel, hand: set<Task>, t: Task, l: ListId, c: Config)
    requires Sound(k, hand + {t}, c) && t !in hand && t in k.priority
    requires l == SuspendedList || (l == Termination && EventOf(k, t) == NoEvent)
    ensures var k' := Parked(k, t, l);
            && Sound(k', hand, c) && k'.lists.value == k.lists.value
            && k'.lists.container == k.lists.container[t := In(l)]
            && k'.lists.rings[DelayOne] == k.lists.rings[DelayOne]
            && k'.lists.rings[DelayTwo] == k.lists.rings[DelayTwo]
  {
    hide InOrder, ReadyRight, EventsRight, Consistent, LinkEnd;
    var k' := Parked(k, t, l);
    LinkEndKeeps(k.lists, l, t);
    SameRing(k.lists, k'.lists, DelayOne);
    SameRing(k.lists, k'.lists, DelayTwo);
    MovedListed(k, k', hand + {t}, hand, t, In(l), c);
    MovedReady(k, k', t, In(l));
    MovedEvents(k, k', hand + {t}, hand, t, In(l));
  }

  // What happens on other lists does not matter to the delayed ones.
  lemma StillOnTime(k: Kernel, k': Kernel, c: Config)
    requires OnTime(k, c) && k'.first == k.first && k'.tick == k.tick && k'.nextUnblock == k.nextUnblock
    requires k'.lists.value == k.lists.value && DelayedId(k) in k.lists.rings && DelayedId(k) in k'.lists.rings
    requires k'.lists.rings[DelayedId(k)] == k.lists.rings[DelayedId(k)]
    ensures OnTime(k', c)
  {
    assert DelayedItems(k') == DelayedItems(k);
  }

  lemma DelayedSound(k: Kernel, hand: set<Task>, t: Task, wake: nat, c: Config)
    requires Sound(k, hand + {t}, c) && t !in hand && t in k.priority && wake < c.M
    ensures var k' := Delayed(k, t, wake);
            && Sound(k', hand, c) && k'.lists.value == k.lists.value[t := wake]
            && k'.lists.container == k.lists.container[t := In(if wake < k.tick then OverflowId(k) else DelayedId(k))]
  {
    hide InOrder, ReadyRight, EventsRight, Consistent, LinkSorted;
    var x := k.lists.(value := k.lists.value[t := wake]);
    var l := if wake < k.tick then OverflowId(k) else DelayedId(k);
    var k' := Delayed(k, t, wake);
    SetValueKeeps(k.lists, t, wake);
    LinkSortedKeeps(x, l, t);
    SameRing(x, k'.lists, if l == DelayOne then DelayTwo else DelayOne);
    assert DelaysSorted(k', c) by {
      forall u
        ensures ValueOf(k'.lists.value, u) < c.M
      {
        assert u != t ==> ValueOf(k'.lists.value, u) == ValueOf(k.lists.value, u);
      }
    }
    MovedListed(k, k', hand + {t}, hand, t, In(l), c);
    MovedReady(k, k', t, In(l));
    MovedEvents(k, k', hand + {t}, hand, t, In(l));
  }

  lemma DelayedOnTime(k: Kernel, hand: set<Task>, t: Task, wake: nat, c: Config)
    requires Sound(k, hand + {t}, c) && t !in hand && t in k.priority && wake < c.M && OnTime(k, c)
    requires wake == k.tick ==> k.tick + 1 < c.M
    ensures OnTime(Delayed(k, t, wake), c)
  {
    hide Sound, Delayed;
    var k' := Delayed(k, t, wake);
    DelayedSound(k, hand, t, wake, c);
    DelayedFields(k, t, wake);
    forall u | u in DelayedItems(k')
      ensures NotYetDue(k', ValueOf(k'.lists.value, u), c)
    {
      OnItsList(k', hand, DelayedId(k), u, c);
      if u != t {
        OnItsList(k, hand + {t}, DelayedId(k), u, c);
        assert NotYetDue(k, ValueOf(k.lists.value, u), c);
      }
    }
  }

  lemma DelayedFields(k: Kernel, t: Task, wake: nat)
    ensures var k' := Delayed(k, t, wake);
            && k'.first == k.first && k'.tick == k.tick && k'.nextUnblock <= k.nextUnblock
            && k'.nextUnblock == (if k.tick <= wake < k.nextUnblock then wake else k.nextUnblock)
            && k'.depth == k.depth && k'.pending == k.pending && k'.pended == k.pended
  {
  }

  lemma OnItsList(k: Kernel, hand: set<Task>, l: ListId, t: Task, c: Config)
    requires Sound(k, hand, c)
    ensures t in Items(k.lists, l) <==> Place(k, t) == In(l)
  {
    hide ReadyRight, EventsRight, DelaysSorted, Ok;
  }

  // The head of a sorted list has the least value.
  lemma HeadIsFirst(x: Lists, l: ListId)
    requires InOrder(x, l)
    ensures Items(x, l) != [] ==>
              forall t :: t in Items(x, l) ==> ValueOf(x.value, Items(x, l)[0]) <= ValueOf(x.value, t)
  {
    var s := Items(x, l);
    forall t | t in s
      ensures ValueOf(x.value, s[0]) <= ValueOf(x.value, t)
    {
      var i :| 0 <= i < |s| && s[i] == t;
      assert i > 0 ==> Keys(x.value, s)[0] <= Keys(x.value, s)[i];
    }
  }

  // The next time to look at the current delayed list is the least wake time on it.
  lemma ResetUnblockGood(k: Kernel, c: Config)
    requires Good(k, c)
    ensures Good(ResetUnblock(k, c), c)
    ensures var n := ResetUnblock(k, c).nextUnblock;
            && (forall t :: t in DelayedItems(k) ==> n <= ValueOf(k.lists.value, t))
            && (if DelayedItems(k) == [] then n == MaxDelay(c)
                else exists t :: t in DelayedItems(k) && ValueOf(k.lists.value, t) == n)
  {
    hide Consistent;
    SameSound(k, ResetUnblock(k, c), {}, c);
    HeadIsFirst(k.lists, DelayedId(k));
  }

  // Soundness is about tasks and lists only.
  lemma SameSound(k: Kernel, k': Kernel, hand: set<Task>, c: Config)
    requires Sound(k, hand, c)
    requires k'.lists == k.lists && k'.priority == k.priority && k'.event == k.event && k'.pending == k.pending
    requires k'.top == k.top && k'.count == k.count && k'.current in k.priority
    ensures Sound(k', hand, c)
  {
    hide Consistent, ReadyRight, EventsRight, DelaysSorted;
    SameReady(k, k');
    SameDelays(k, k', c);
    assert EventsRight(k', hand) by {
      SameEvents(k, k', hand);
    }
  }

  lemma SameEvents(k: Kernel, k': Kernel, hand: set<Task>)
    requires EventsRight(k, hand) && k'.lists == k.lists && k'.event == k.event && k'.pending == k.pending
    ensures EventsRight(k', hand)
  {
    forall u
      ensures EventOf(k', u) == EventOf(k, u) && (Blocked(k', u) <==> Blocked(k, u))
    {
    }
  }

  // ----- Blocking ------------------------------------------------------------------------------

  // How a wait is asked for: whether the task waits for an event, for how many ticks, and
  // whether the largest number of them means for ever.
  datatype Wait = Wait(event: bool, ticks: nat, canBlockIndefinitely: bool)

  predicate ForEver(w: Wait, c: Config) {
    w.ticks == MaxDelay(c) && w.canBlockIndefinitely
  }

  function Wake(k: Kernel, w: Wait, c: Config): nat {
    if k.tick + w.ticks < c.M then k.tick + w.ticks else k.tick + w.ticks - c.M
  }

  // A task that can run blocks for less than a turn of the counter; a wait of no ticks is only
  // asked for when the counter is not about to wrap.
  ghost predicate CanBlock(k: Kernel, w: Wait, c: Config) {
    && EventOf(k, k.current) == NoEvent && w.ticks < c.M
    && (w.ticks == 0 ==> k.tick + 1 < c.M)
  }

  // prvAddCurrentTaskToDelayedList, for vTaskDelay or (with the event item on an event list)
  // for vTaskPlaceOnEventList
  function Block(k: Kernel, w: Wait, c: Config): Kernel {
    var k1 := TakenOff(k, k.current);
    var k2 := if w.event then k1.(event := k1.event[k1.current := OnEventList]) else k1;
    if ForEver(w, c) then Parked(k2, k2.current, SuspendedList) else Delayed(k2, k2.current, Wake(k2, w, c))
  }

  lemma EventSetSound(k: Kernel, hand: set<Task>, t: Task, c: Config)
    requires Sound(k, hand, c) && t in hand && t in k.priority && EventOf(k, t) == NoEvent
    ensures Sound(k.(event := k.event[t := OnEventList]), hand, c)
  {
    hide Consistent, ReadyRight, DelaysSorted, Distinct;
    var k' := k.(event := k.event[t := OnEventList]);
    SameReady(k, k');
    SameDelays(k, k', c);
    forall u
      ensures EventOf(k', u) == if u == t then OnEventList else EventOf(k, u)
      ensures Blocked(k', u) <==> Blocked(k, u)
    {
    }
  }

  lemma BlockGood(k: Kernel, w: Wait, c: Config)
    requires Good(k, c) && CanBlock(k, w, c)
    ensures Good(Block(k, w, c), c)
    ensures Block(k, w, c).lists.container == k.lists.container[k.current := In(
              if ForEver(w, c) then SuspendedList else if Wake(k, w, c) < k.tick then OverflowId(k) else DelayedId(k))]
    ensures !ForEver(w, c) ==> Block(k, w, c).lists.value == k.lists.value[k.current := Wake(k, w, c)]
  {
    hide Sound, OnTime, Delayed, Parked;
    var t := k.current;
    CurrentIsTask(k, {}, c);
    TakenOffSound(k, {}, t, c);
    TakenOffOnTime(k, {}, t, c);
    var k1 := TakenOff(k, t);
    var k2 := if w.event then k1.(event := k1.event[t := OnEventList]) else k1;
    assert {} + {t} == {t};
    if w.event {
      EventSetSound(k1, {t}, t, c);
    }
    assert OnTime(k2, c) by { StillOnTimeFields(k1, k2, c); }
    if ForEver(w, c) {
      ParkedSound(k2, {}, t, SuspendedList, c);
      ParkedOnTime(k2, {}, t, SuspendedList, c);
      ParkedFields(k2, t, SuspendedList);
    } else {
      WakeInRange(k2, w, c);
      DelayedSound(k2, {}, t, Wake(k2, w, c), c);
      DelayedOnTime(k2, {}, t, Wake(k2, w, c), c);
      DelayedFields(k2, t, Wake(k2, w, c));
    }
  }

  lemma WakeInRange(k: Kernel, w: Wait, c: Config)
    requires OnTime(k, c) && w.ticks < c.M
    ensures Wake(k, w, c) < c.M && (Wake(k, w, c) == k.tick ==> w.ticks == 0)
  {
  }

  lemma CurrentIsTask(k: Kernel, hand: set<Task>, c: Config)
    requires Sound(k, hand, c)
    ensures k.current in k.priority && k.count == |k.priority| && ConfigOk(c)
    ensures k.priority.Keys == k.event.Keys == k.lists.container.Keys
  {
    hide Consistent, ReadyRight, DelaysSorted, EventsRight;
  }

  lemma StillOnTimeFields(k: Kernel, k': Kernel, c: Config)
    requires OnTime(k, c) && k'.lists == k.lists && k'.first == k.first
    requires k'.tick == k.tick && k'.nextUnblock <= k.nextUnblock
    ensures OnTime(k', c)
  {
    assert DelayedItems(k') == DelayedItems(k);
  }

  lemma ParkedFields(k: Kernel, t: Task, l: ListId)
    ensures Parked(k, t, l).depth == k.depth && Parked(k, t, l).pending == k.pending
    ensures Parked(k, t, l).pended == k.pended
  {
  }

  lemma ParkedOnTime(k: Kernel, hand: set<Task>, t: Task, l: ListId, c: Config)
    requires Sound(k, hand + {t}, c) && t !in hand && t in k.priority && OnTime(k, c)
    requires l == SuspendedList || (l == Termination && EventOf(k, t) == NoEvent)
    ensures OnTime(Parked(k, t, l), c)
  {
    hide Consistent, ReadyRight, EventsRight, InOrder, LinkEnd, OnTime;
    ParkedSound(k, hand, t, l, c);
    StillOnTime(k, Parked(k, t, l), c);
  }

  // ----- The tick: xTaskIncrementTick --------------------------------------------------------

  // How many tasks at the head of a list have values that the counter has reached.
  function DueCount(value: map<Task, nat>, s: seq<Task>, tick: nat): (n: nat)
    ensures n <= |s|
    ensures forall i :: 0 <= i < n ==> ValueOf(value, s[i]) <= tick
    ensures n < |s| ==> tick < ValueOf(value, s[n])
  {
    if s == [] || tick < ValueOf(value, s[0]) then 0 else 1 + DueCount(value, s[1..], tick)
  }

  // A task whose time is up is made ready; it no longer waits for an event either.
  function Unblocked(k: Kernel, t: Task): Kernel {
    AddedToReady(WithoutEvent(TakenOff(k, t), t), t)
  }

  function UnblockedAll(k: Kernel, s: seq<Task>): Kernel
    decreases |s|
  {
    if s == [] then k else UnblockedAll(Unblocked(k, s[0]), s[1..])
  }

  // The tasks that the loop over the delayed list finds to be due.
  function DueTasks(k: Kernel): seq<Task> {
    DelayedItems(k)[..DueCount(k.lists.value, DelayedItems(k), k.tick)]
  }

  // That loop, with the next unblock time it leaves behind
  function UnblockDue(k: Kernel, c: Config): Kernel {
    ResetUnblock(UnblockedAll(k, DueTasks(k)), c)
  }

  // taskSWITCH_DELAYED_LISTS
  function SwitchedLists(k: Kernel, c: Config): Kernel {
    ResetUnblock(k.(first := !k.first, overflows := k.overflows + 1), c)
  }

  // The counter moves on.
  function Ticked(k: Kernel, c: Config): Kernel {
    if k.tick + 1 == c.M then SwitchedLists(k.(tick := 0), c) else k.(tick := k.tick + 1)
  }

  // xTaskIncrementTick while the scheduler is not suspended
  function TickProcessed(k: Kernel, c: Config): Kernel {
    var k1 := Ticked(k, c);
    if k1.tick >= k1.nextUnblock then UnblockDue(k1, c) else k1
  }

  // Whether some of the tasks are at least as important as the current one.
  predicate AnyAsHigh(k: Kernel, s: seq<Task>) {
    exists i :: 0 <= i < |s| && PriorityOf(k, s[i]) >= PriorityOf(k, k.current)
  }

  function ReadyItems(k: Kernel, p: nat): seq<Task> {
    Items(k.lists, Ready(p))
  }

  // Whether that tick asks for a context switch.
  predicate TickSwitches(k: Kernel, c: Config) {
    var k1, k2 := Ticked(k, c), TickProcessed(k, c);
    || (k1.tick >= k1.nextUnblock && AnyAsHigh(k1, DueTasks(k1)))
    || |ReadyItems(k2, PriorityOf(k2, k2.current))| > 1
    || k.yieldPending
  }

  function IncrementTick(k: Kernel, c: Config): Kernel {
    if k.depth == 0 then TickProcessed(k, c) else k.(pended := k.pended + 1)
  }

  // Making tasks ready, one after the other

  lemma UnblockedSound(k: Kernel, t: Task, c: Config)
    requires Sound(k, {}, c) && t in k.priority
    ensures Sound(Unblocked(k, t), {}, c)
    ensures Unblocked(k, t).lists.container == k.lists.container[t := In(Ready(k.priority[t]))]
    ensures Unblocked(k, t).lists.value == k.lists.value
  {
    hide Sound, AddedToReady, TakenOff;
    CurrentIsTask(k, {}, c);
    TakenOffSound(k, {}, t, c);
    TakenOffFields(k, t);
    var k1 := TakenOff(k, t);
    assert {} + {t} == {t};
    CurrentIsTask(k1, {t}, c);
    WithoutEventSound(k1, {t}, t, c);
    AddedToReadySound(WithoutEvent(k1, t), {}, t, c);
    assert k.lists.container[t := Nowhere][t := In(Ready(k.priority[t]))]
        == k.lists.container[t := In(Ready(k.priority[t]))];
  }

  // The fields that moving state items leaves alone.
  ghost predicate SameRest(k: Kernel, k': Kernel) {
    && k'.priority == k.priority && k'.first == k.first && k'.tick == k.tick && k'.overflows == k.overflows
    && k'.pended == k.pended && k'.nextUnblock == k.nextUnblock && k'.current == k.current && k'.count == k.count
    && k'.depth == k.depth && k'.yieldPending == k.yieldPending
  }

  lemma TakenOffFields(k: Kernel, t: Task)
    ensures SameRest(k, TakenOff(k, t)) && TakenOff(k, t).event == k.event && TakenOff(k, t).pending == k.pending
  {
  }

  lemma UnblockedFields(k: Kernel, t: Task)
    ensures SameRest(k, Unblocked(k, t)) && Unblocked(k, t).pending == Without(k.pending, t)
    ensures Unblocked(k, t).event == k.event[t := NoEvent]
  {
  }

  lemma {:induction false} UnblockedAllSound(k: Kernel, s: seq<Task>, c: Config)
    requires Sound(k, {}, c) && forall t :: t in s ==> t in k.priority
    ensures var k' := UnblockedAll(k, s);
            && Sound(k', {}, c) && SameRest(k, k') && k'.lists.value == k.lists.value
            && (forall u :: Place(k', u) == if u in s then In(Ready(PriorityOf(k, u))) else Place(k, u))
            && (forall u :: EventOf(k', u) == if u in s then NoEvent else EventOf(k, u))
            && (k.pending == [] ==> k'.pending == [])
    decreases |s|
  {
    hide Sound, Unblocked;
    if s != [] {
      var k1 := Unblocked(k, s[0]);
      UnblockedSound(k, s[0], c);
      UnblockedFields(k, s[0]);
      UnblockedAllSound(k1, s[1..], c);
      assert s == [s[0]] + s[1..];
      forall u
        ensures Place(UnblockedAll(k, s), u) == if u in s then In(Ready(PriorityOf(k, u))) else Place(k, u)
      {
        assert Place(k1, u) == if u == s[0] then In(Ready(PriorityOf(k, u))) else Place(k, u);
      }
    }
  }

  // No value of a sorted list is smaller than the counter behind the place where one is not.
  lemma NotDueBehind(x: Lists, l: ListId, tick: nat, t: Task)
    requires InOrder(x, l) && t in Items(x, l)
    ensures var s := Items(x, l);
            t in s[..DueCount(x.value, s, tick)] || tick < ValueOf(x.value, t)
  {
    var s := Items(x, l);
    var n := DueCount(x.value, s, tick);
    var i :| 0 <= i < |s| && s[i] == t;
    if i < n {
      assert s[..n][i] == t;
    } else {
      assert i > n ==> Keys(x.value, s)[n] <= Keys(x.value, s)[i];
    }
  }

  // When the delayed lists are about to be switched the current one is empty, so the assertion
  // in taskSWITCH_DELAYED_LISTS never fires.
  lemma EmptyWhenSwitched(k: Kernel, c: Config)
    requires Sound(k, {}, c) && OnTime(k, c) && k.tick + 1 == c.M
    ensures DelayedItems(k) == []
  {
    hide Sound;
    if DelayedItems(k) != [] {
      var t := DelayedItems(k)[0];
      assert NotYetDue(k, ValueOf(k.lists.value, t), c);
      ValueInRange(k, t, c);
    }
  }

  lemma ValueInRange(k: Kernel, t: Task, c: Config)
    requires Sound(k, {}, c)
    ensures ValueOf(k.lists.value, t) < c.M
  {
    hide ReadyRight, EventsRight, Listed;
  }

  // Good, apart from work that was put off.
  ghost predicate Steady(k: Kernel, c: Config) {
    Sound(k, {}, c) && OnTime(k, c)
  }

  // After the counter moved on: some tasks may be due now.
  ghost predicate Moved(k: Kernel, c: Config) {
    && Sound(k, {}, c) && k.tick < c.M && k.nextUnblock < c.M
    && forall t :: t in DelayedItems(k) ==> k.nextUnblock <= ValueOf(k.lists.value, t)
  }

  lemma OverflowSorted(k: Kernel, c: Config)
    requires Sound(k, {}, c)
    ensures InOrder(k.lists, DelayedId(k)) && InOrder(k.lists, OverflowId(k)) && c.M > 1
    ensures forall t :: ValueOf(k.lists.value, t) < c.M
  {
    hide Listed, ReadyRight, EventsRight;
  }

  lemma ResetUnblockRight(k: Kernel, c: Config)
    requires InOrder(k.lists, DelayedId(k)) && c.M > 1 && forall t :: ValueOf(k.lists.value, t) < c.M
    ensures var n := ResetUnblock(k, c).nextUnblock;
            n < c.M && forall t :: t in DelayedItems(k) ==> n <= ValueOf(k.lists.value, t)
  {
    HeadIsFirst(k.lists, DelayedId(k));
  }

  lemma TickedMoved(k: Kernel, c: Config)
    requires Steady(k, c)
    ensures Moved(Ticked(k, c), c)
    ensures Ticked(k, c).tick == (if k.tick + 1 == c.M then 0 else k.tick + 1)
    ensures Ticked(k, c).lists == k.lists && Ticked(k, c).event == k.event && Ticked(k, c).priority == k.priority
  {
    hide Sound, InOrder;
    var k1 := Ticked(k, c);
    CurrentIsTask(k, {}, c);
    SameSound(k, k1, {}, c);
    OverflowSorted(k, c);
    if k.tick + 1 == c.M {
      ResetUnblockRight(k.(tick := 0, first := !k.first, overflows := k.overflows + 1), c);
    }
  }

  // The loop over the delayed list finds the tasks whose time has come, and would find none if it
  // is skipped.
  lemma DueExactly(k: Kernel, c: Config)
    requires Moved(k, c)
    ensures forall t :: t in DueTasks(k) <==> Due(k, t)
    ensures forall t :: Due(k, t) ==> t in k.priority && k.tick >= k.nextUnblock
  {
    hide Sound, InOrder;
    var s := DueTasks(k);
    OverflowSorted(k, c);
    forall t | t in s
      ensures t in k.priority && Due(k, t)
    {
      assert t in DelayedItems(k);
      ListedIsTask(k, DelayedId(k), t, c);
      var i :| 0 <= i < |s| && s[i] == t;
      OnItsList(k, {}, DelayedId(k), t, c);
    }
    forall t | Due(k, t)
      ensures t in s
    {
      OnItsList(k, {}, DelayedId(k), t, c);
      NotDueBehind(k.lists, DelayedId(k), k.tick, t);
    }
  }

  lemma UnblockDueSteady(k: Kernel, c: Config)
    requires Moved(k, c)
    ensures var k' := UnblockDue(k, c);
            && Steady(k', c) && k'.lists.value == k.lists.value && k'.priority == k.priority
            && k'.tick == k.tick && k'.first == k.first
            && (forall u :: Place(k', u) == if Due(k, u) then In(Ready(PriorityOf(k, u))) else Place(k, u))
            && (forall u :: EventOf(k', u) == if Due(k, u) then NoEvent else EventOf(k, u))
  {
    hide Sound, InOrder, UnblockedAll, DueTasks, Due;
    var s := DueTasks(k);
    DueExactly(k, c);
    UnblockedAllSound(k, s, c);
    RestIsLater(k, UnblockedAll(k, s), s, c);
  }

  // A task on the delayed list whose time has come
  predicate Due(k: Kernel, t: Task) {
    Place(k, t) == In(DelayedId(k)) && ValueOf(k.lists.value, t) <= k.tick
  }

  lemma ListedIsTask(k: Kernel, l: ListId, t: Task, c: Config)
    requires Sound(k, {}, c) && t in Items(k.lists, l)
    ensures t in k.priority
  {
    hide ReadyRight, EventsRight, DelaysSorted;
    assert ContainerOf(k.lists, t) == In(l);
  }

  lemma RestIsLater(k: Kernel, k1: Kernel, s: seq<Task>, c: Config)
    requires Moved(k, c) && Sound(k1, {}, c) && SameRest(k, k1) && k1.lists.value == k.lists.value
    requires forall u :: u in s <==> Due(k, u)
    requires forall u :: Place(k1, u) == if u in s then In(Ready(PriorityOf(k, u))) else Place(k, u)
    ensures Steady(ResetUnblock(k1, c), c)
  {
    hide Sound, InOrder;
    var k2 := ResetUnblock(k1, c);
    CurrentIsTask(k1, {}, c);
    SameSound(k1, k2, {}, c);
    OverflowSorted(k1, c);
    ResetUnblockRight(k1, c);
    forall t | t in DelayedItems(k2)
      ensures NotYetDue(k2, ValueOf(k2.lists.value, t), c)
    {
      OnItsList(k1, {}, DelayedId(k1), t, c);
      assert Place(k1, t) == In(DelayedId(k));
      assert !Due(k, t);
    }
  }

  // A processed tick makes ready exactly the tasks that are due on the list that is the current
  // one afterwards, and leaves every other task where it is.
  lemma TickEffect(k: Kernel, c: Config)
    requires Steady(k, c)
    ensures var k1, k' := Ticked(k, c), TickProcessed(k, c);
            && Steady(k', c) && k'.tick == k1.tick && k'.lists.value == k.lists.value && k'.priority == k.priority
            && k'.first == k1.first
            && (forall u :: Place(k', u) == if Due(k1, u) then In(Ready(PriorityOf(k, u))) else Place(k, u))
            && (forall u :: EventOf(k', u) == if Due(k1, u) then NoEvent else EventOf(k, u))
  {
    hide Sound, InOrder, UnblockDue, Ticked;
    var k1 := Ticked(k, c);
    TickedMoved(k, c);
    if k1.tick >= k1.nextUnblock {
      UnblockDueSteady(k1, c);
    } else {
      forall u
        ensures !Due(k1, u)
      {
        OnItsList(k1, {}, DelayedId(k1), u, c);
      }
    }
  }

  // ----- Suspending and resuming the scheduler ---------------------------------------------------

  // vTaskSuspendAll
  function SuspendAll(k: Kernel): Kernel {
    k.(depth := k.depth + 1)
  }

  // xTaskResumeAll: the pending tasks become ready
  function PendingMoved(k: Kernel, c: Config): Kernel {
    var k1 := UnblockedAll(k, k.pending).(yieldPending := k.yieldPending || AnyAsHigh(k, k.pending));
    if k.pending == [] then k1 else ResetUnblock(k1, c)
  }

  // xTaskResumeAll: the ticks put off are processed
  function Replayed(k: Kernel, n: nat, c: Config): Kernel
    decreases n
  {
    if n == 0 then k
    else Replayed(TickProcessed(k, c).(yieldPending := k.yieldPending || TickSwitches(k, c)), n - 1, c)
  }

  function ResumeAll(k: Kernel, c: Config): Kernel {
    if k.depth > 1 || k.count == 0 then k.(depth := if k.depth > 0 then k.depth - 1 else 0)
    else Replayed(PendingMoved(k.(depth := 0), c), k.pended, c).(pended := 0)
  }

  lemma PendingMovedSteady(k: Kernel, c: Config)
    requires Steady(k, c)
    ensures var k' := PendingMoved(k, c);
            && Steady(k', c) && k'.pending == [] && k'.depth == k.depth && k'.tick == k.tick
            && k'.pended == k.pended && k'.count == k.count
  {
    hide Sound, UnblockedAll;
    var s := k.pending;
    PendingAreTasks(k, c);
    UnblockedAllSound(k, s, c);
    var k1 := UnblockedAll(k, s);
    var k2 := k1.(yieldPending := k.yieldPending || AnyAsHigh(k, s));
    CurrentIsTask(k1, {}, c);
    SameSound(k1, k2, {}, c);
    NonePending(k1, c);
    FewerOnTime(k, k1, s, c);
    if s != [] {
      SteadyReset(k2, c);
    }
  }

  lemma PendingAreTasks(k: Kernel, c: Config)
    requires Sound(k, {}, c)
    ensures forall t :: t in k.pending ==> t in k.priority
    ensures forall t :: t in k.pending <==> EventOf(k, t) == OnPending
  {
    hide ReadyRight, DelaysSorted, Consistent, Distinct;
  }

  lemma NonePending(k: Kernel, c: Config)
    requires Sound(k, {}, c) && forall t :: EventOf(k, t) != OnPending
    ensures k.pending == []
  {
    hide ReadyRight, DelaysSorted, Consistent, Distinct;
    if k.pending != [] {
      HasMember(k.pending);
    }
  }

  lemma HasMember(s: seq<Task>)
    requires s != []
    ensures exists t :: t in s
  {
    assert s[0] in s;
  }

  // With tasks gone from it, the delayed list stays on time.
  lemma FewerOnTime(k: Kernel, k': Kernel, s: seq<Task>, c: Config)
    requires Steady(k, c) && Sound(k', {}, c) && SameRest(k, k') && k'.lists.value == k.lists.value
    requires forall u :: Place(k', u) == if u in s then In(Ready(PriorityOf(k, u))) else Place(k, u)
    ensures Steady(k', c)
  {
    hide Sound;
    forall t | t in DelayedItems(k')
      ensures NotYetDue(k', ValueOf(k'.lists.value, t), c)
    {
      OnItsList(k', {}, DelayedId(k), t, c);
      OnItsList(k, {}, DelayedId(k), t, c);
      assert t in DelayedItems(k) && NotYetDue(k, ValueOf(k.lists.value, t), c);
    }
  }

  lemma SteadyReset(k: Kernel, c: Config)
    requires Steady(k, c)
    ensures Steady(ResetUnblock(k, c), c)
  {
    hide Sound, InOrder;
    var k' := ResetUnblock(k, c);
    CurrentIsTask(k, {}, c);
    SameSound(k, k', {}, c);
    OverflowSorted(k, c);
    ResetUnblockRight(k, c);
    forall t | t in DelayedItems(k')
      ensures NotYetDue(k', ValueOf(k'.lists.value, t), c)
    {
      assert t in DelayedItems(k) && NotYetDue(k, ValueOf(k.lists.value, t), c);
    }
  }

  lemma SteadyYield(k: Kernel, y: bool, c: Config)
    requires Steady(k, c)
    ensures Steady(k.(yieldPending := y), c)
  {
    hide Sound;
    CurrentIsTask(k, {}, c);
    SameSound(k, k.(yieldPending := y), {}, c);
    StillOnTimeFields(k, k.(yieldPending := y), c);
  }

  lemma TickFields(k: Kernel, c: Config)
    ensures var k' := TickProcessed(k, c);
            k'.depth == k.depth && k'.pended == k.pended && k'.yieldPending == k.yieldPending && k'.current == k.current
            && k'.count == k.count && k'.priority == k.priority
  {
    hide UnblockedAll, DueTasks;
    var k1 := Ticked(k, c);
    UnblockedAllFields(k1, DueTasks(k1));
  }

  lemma {:induction false} UnblockedAllFields(k: Kernel, s: seq<Task>)
    ensures SameRest(k, UnblockedAll(k, s))
    ensures k.pending == [] ==> UnblockedAll(k, s).pending == []
    decreases |s|
  {
    hide Unblocked;
    if s != [] {
      UnblockedFields(k, s[0]);
      UnblockedAllFields(Unblocked(k, s[0]), s[1..]);
    }
  }

  lemma TickPending(k: Kernel, c: Config)
    ensures k.pending == [] ==> TickProcessed(k, c).pending == []
  {
    hide UnblockedAll, DueTasks;
    UnblockedAllFields(Ticked(k, c), DueTasks(Ticked(k, c)));
  }

  lemma {:induction false} ReplayedSteady(k: Kernel, n: nat, c: Config)
    requires Steady(k, c) && k.pending == []
    ensures var k' := Replayed(k, n, c);
            && Steady(k', c) && k'.pending == [] && k'.depth == k.depth
            && k'.current == k.current && k'.priority == k.priority
    decreases n
  {
    hide Steady, TickProcessed, TickSwitches;
    if n > 0 {
      var k1 := TickProcessed(k, c);
      TickEffect(k, c);
      TickFields(k, c);
      TickPending(k, c);
      SteadyYield(k1, k.yieldPending || TickSwitches(k, c), c);
      ReplayedSteady(k1.(yieldPending := k.yieldPending || TickSwitches(k, c)), n - 1, c);
    }
  }

  lemma GoodIs(k: Kernel, c: Config)
    ensures Good(k, c) <==> Steady(k, c) && NothingPutOff(k)
  {
    hide Sound, OnTime;
  }

  // Soundness does not depend on the nesting depth or on the number of ticks put off.
  lemma SteadyFields(k: Kernel, depth: nat, pended: nat, c: Config)
    requires Steady(k, c)
    ensures Steady(k.(depth := depth, pended := pended), c)
  {
    hide Sound;
    CurrentIsTask(k, {}, c);
    SameSound(k, k.(depth := depth, pended := pended), {}, c);
    StillOnTimeFields(k, k.(depth := depth, pended := pended), c);
  }

  lemma IncrementTickGood(k: Kernel, c: Config)
    requires Good(k, c)
    ensures Good(IncrementTick(k, c), c)
  {
    hide Good, Steady, TickProcessed;
    GoodIs(k, c);
    GoodIs(IncrementTick(k, c), c);
    if k.depth == 0 {
      TickEffect(k, c);
      TickFields(k, c);
      TickPending(k, c);
    } else {
      SteadyFields(k, k.depth, k.pended + 1, c);
      assert k.(depth := k.depth, pended := k.pended + 1) == k.(pended := k.pended + 1);
    }
  }

  lemma SuspendAllGood(k: Kernel, c: Config)
    requires Good(k, c)
    ensures Good(SuspendAll(k), c)
  {
    hide Good, Steady;
    GoodIs(k, c);
    GoodIs(SuspendAll(k), c);
    SteadyFields(k, k.depth + 1, k.pended, c);
    assert k.(depth := k.depth + 1, pended := k.pended) == SuspendAll(k);
  }

  lemma ResumeAllGood(k: Kernel, c: Config)
    requires Good(k, c) && k.depth > 0
    ensures Good(ResumeAll(k, c), c)
  {
    hide Good, Steady, PendingMoved, Replayed;
    GoodIs(k, c);
    GoodIs(ResumeAll(k, c), c);
    CountsCurrent(k, c);
    if k.depth > 1 {
      SteadyFields(k, k.depth - 1, k.pended, c);
      assert k.(depth := k.depth - 1, pended := k.pended) == ResumeAll(k, c);
    } else {
      SteadyFields(k, 0, k.pended, c);
      assert k.(depth := 0, pended := k.pended) == k.(depth := 0);
      PendingMovedSteady(k.(depth := 0), c);
      var k1 := PendingMoved(k.(depth := 0), c);
      ReplayedSteady(k1, k.pended, c);
      var k2 := Replayed(k1, k.pended, c);
      SteadyFields(k2, k2.depth, 0, c);
      assert k2.(depth := k2.depth, pended := 0) == k2.(pended := 0);
    }
  }

  lemma CountsCurrent(k: Kernel, c: Config)
    requires Good(k, c)
    ensures k.count > 0
  {
    CurrentIsTask(k, {}, c);
    assert k.priority.Keys != {};
  }
}
