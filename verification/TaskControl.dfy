/**
 The functions that choose, wake, suspend, create and delete tasks, and what they keep.
 */
module TaskControl {
  import opened Rings
  import opened TaskLists
  import opened Schedulers

  // ----- Choosing the task to run: vTaskSwitchContext -----------------------------------

  // The loop of taskSELECT_HIGHEST_PRIORITY_TASK
  function HighestReady(k: Kernel, p: nat): (q: nat)
    ensures q <= p && forall r :: q < r <= p ==> ReadyItems(k, r) == []
    ensures ReadyItems(k, q) != [] || q == 0
  {
    if ReadyItems(k, p) != [] || p == 0 then p else HighestReady(k, p - 1)
  }

  // listGET_OWNER_OF_NEXT_ENTRY
  function NextEntry(k: Kernel, p: nat): Kernel {
    var l := Ready(p);
    if ReadyItems(k, p) == [] then k
    else
      var r := Advance(k.lists.rings[l]);
      var next := if 0 < r.pos <= |r.items| then Selected(r) else k.current;
      k.(lists := k.lists.(rings := k.lists.rings[l := r]), current := next)
  }

  function SwitchContext(k: Kernel): Kernel {
    if k.depth > 0 then k.(yieldPending := true)
    else
      var p := HighestReady(k, k.top);
      NextEntry(k.(yieldPending := false), p).(top := p)
  }

  predicate IsReady(k: Kernel, t: Task) {
    t in k.priority && Place(k, t) == In(Ready(k.priority[t]))
  }

  // Moving the index of a ring on changes no item.
  lemma AdvanceSound(k: Kernel, p: nat, c: Config)
    requires Sound(k, {}, c) && ReadyItems(k, p) != []
    ensures var x := k.lists.(rings := k.lists.rings[Ready(p) := Advance(k.lists.rings[Ready(p)])]);
            Sound(k.(lists := x), {}, c) && forall l :: Items(x, l) == Items(k.lists, l)
  {
    hide Sorted, Distinct, ReadyRight, EventsRight;
    var x := k.lists.(rings := k.lists.rings[Ready(p) := Advance(k.lists.rings[Ready(p)])]);
    var k' := k.(lists := x);
    assert forall l :: Items(x, l) == Items(k.lists, l);
    assert forall t :: Place(k', t) == Place(k, t);
    SameConsistent(k.lists, x);
    PlacesDecide(k, k', {});
  }

  lemma SameConsistent(x: Lists, y: Lists)
    requires Consistent(x) && y.container == x.container && y.value == x.value && y.rings.Keys == x.rings.Keys
    requires forall l :: Items(y, l) == Items(x, l)
    requires forall l :: l in y.rings ==> Ok(y.rings[l])
    ensures Consistent(y)
  {
    hide Distinct, Ok;
    assert forall t :: ContainerOf(y, t) == ContainerOf(x, t);
  }

  // Where the tasks are decides about the ready lists and the events.
  lemma PlacesDecide(k: Kernel, k': Kernel, hand: set<Task>)
    requires ReadyRight(k) && EventsRight(k, hand)
    requires forall t :: Place(k', t) == Place(k, t)
    requires k'.priority == k.priority && k'.event == k.event && k'.pending == k.pending && k'.top == k.top
    ensures ReadyRight(k') && EventsRight(k', hand)
  {
    hide Distinct;
    forall t
      ensures EventOf(k', t) == EventOf(k, t) && PriorityOf(k', t) == PriorityOf(k, t)
      ensures Blocked(k', t) <==> Blocked(k, t)
    {
    }
  }

  lemma NextEntrySound(k: Kernel, p: nat, c: Config)
    requires Sound(k, {}, c) && ReadyItems(k, p) != []
    ensures var k' := NextEntry(k, p);
            && Sound(k', {}, c) && k'.current in ReadyItems(k, p)
            && (forall l :: Items(k'.lists, l) == Items(k.lists, l)) && k'.lists.value == k.lists.value
            && (forall t :: Place(k', t) == Place(k, t)) && k'.priority == k.priority && k'.top == k.top
    ensures NextEntry(k, p) == k.(lists := NextEntry(k, p).lists, current := NextEntry(k, p).current)
  {
    hide Sound;
    AdvanceSound(k, p, c);
    var r := Advance(k.lists.rings[Ready(p)]);
    assert r.pos <= |r.items| by {
      RingOk(k, Ready(p), c);
    }
    var x := k.lists.(rings := k.lists.rings[Ready(p) := r]);
    ListedIsTask(k, Ready(p), Selected(r), c);
    var k1 := k.(lists := x);
    SameSound(k1, k1.(current := Selected(r)), {}, c);
  }

  lemma RingOk(k: Kernel, l: ListId, c: Config)
    requires Sound(k, {}, c) && l in k.lists.rings
    ensures Ok(k.lists.rings[l])
  {
    hide ReadyRight, EventsRight, DelaysSorted, Distinct;
  }

  // Lowering the recorded priority to that of the most important ready task
  lemma TopLowered(k: Kernel, p: nat, c: Config)
    requires Sound(k, {}, c) && p <= k.top && forall r :: p < r <= k.top ==> ReadyItems(k, r) == []
    ensures Sound(k.(top := p), {}, c)
    ensures forall t :: IsReady(k, t) ==> k.priority[t] <= p
  {
    hide Consistent, DelaysSorted, EventsRight;
    var k' := k.(top := p);
    forall t | Place(k, t).In? && Place(k, t).list.Ready?
      ensures PriorityOf(k, t) <= p
    {
      OnItsList(k, {}, Place(k, t).list, t, c);
      assert t in ReadyItems(k, PriorityOf(k, t));
    }
    forall t
      ensures Place(k', t) == Place(k, t) && PriorityOf(k', t) == PriorityOf(k, t)
    {
    }
    assert EventsRight(k', {}) by {
      SameEvents(k, k', {});
    }
    assert DelaysSorted(k', c) by {
      SameDelays(k, k', c);
    }
  }

  // With some task ready the selection ends at a list that is not empty.
  lemma SomethingToSelect(k: Kernel, idle: Task, c: Config)
    requires Sound(k, {}, c) && IsReady(k, idle)
    ensures ReadyItems(k, HighestReady(k, k.top)) != []
  {
    hide Consistent, DelaysSorted, EventsRight;
    OnItsList(k, {}, Ready(k.priority[idle]), idle, c);
    assert idle in ReadyItems(k, k.priority[idle]);
    assert Place(k, idle).In? && Place(k, idle).list.Ready?;
  }

  // vTaskSwitchContext leaves a ready task running that no ready task exceeds, provided that
  // some task, such as the idle task, is ready; while the scheduler is suspended it only makes
  // a note.
  lemma SwitchContextRight(k: Kernel, idle: Task, c: Config)
    requires Good(k, c) && IsReady(k, idle)
    ensures var k' := SwitchContext(k);
            && Good(k', c)
            && (k.depth > 0 ==> k' == k.(yieldPending := true))
            && (k.depth == 0 ==> IsReady(k', k'.current) && !k'.yieldPending
                                 && forall t :: IsReady(k', t) ==> k'.priority[t] <= k'.priority[k'.current])
            && (forall t :: Place(k', t) == Place(k, t)) && k'.priority == k.priority
  {
    hide Sound, NextEntry, OnTime;
    CurrentIsTask(k, {}, c);
    if k.depth > 0 {
      SameSound(k, k.(yieldPending := true), {}, c);
      StillOnTimeFields(k, k.(yieldPending := true), c);
    } else {
      var k1 := k.(yieldPending := false);
      var p := HighestReady(k, k.top);
      SomethingToSelect(k, idle, c);
      SameSound(k, k1, {}, c);
      assert HighestReady(k1, k1.top) == p by { SameHighest(k, k1, k.top); }
      NextEntrySound(k1, p, c);
      var k2 := NextEntry(k1, p);
      assert forall r :: ReadyItems(k2, r) == ReadyItems(k, r);
      TopLowered(k2, p, c);
      var k3 := k2.(top := p);
      assert forall t :: Place(k3, t) == Place(k2, t) == Place(k, t);
      assert SwitchContext(k) == k3;
      OnItsList(k, {}, Ready(p), k2.current, c);
      ReadyHasPriority(k, k2.current, p, c);
      OnTimeFields(k, k3, c);
    }
  }

  lemma {:induction false} SameHighest(k: Kernel, k': Kernel, p: nat)
    requires k'.lists == k.lists
    ensures HighestReady(k', p) == HighestReady(k, p)
  {
    if p > 0 {
      SameHighest(k, k', p - 1);
    }
  }

  lemma ReadyHasPriority(k: Kernel, t: Task, p: nat, c: Config)
    requires Sound(k, {}, c) && Place(k, t) == In(Ready(p))
    ensures t in k.priority && k.priority[t] == p
  {
    hide DelaysSorted, EventsRight, Ok;
  }

  lemma OnTimeFields(k: Kernel, k': Kernel, c: Config)
    requires OnTime(k, c) && (forall l :: Items(k'.lists, l) == Items(k.lists, l)) && k'.lists.value == k.lists.value
    requires k'.first == k.first && k'.tick == k.tick && k'.nextUnblock == k.nextUnblock
    ensures OnTime(k', c)
  {
    assert DelayedItems(k') == DelayedItems(k);
    forall t | t in DelayedItems(k')
      ensures NotYetDue(k', ValueOf(k'.lists.value, t), c)
    {
      assert NotYetDue(k, ValueOf(k.lists.value, t), c);
    }
  }

  // ----- Waking a task: xTaskRemoveFromEventList -----------------------------------------------

  function YieldIfHigher(k: Kernel, t: Task): Kernel {
    k.(yieldPending := k.yieldPending || PriorityOf(k, t) > PriorityOf(k, k.current))
  }

  // The task, which is the first of some event list, is made ready or pending.
  function RemoveFromEventList(k: Kernel, t: Task): Kernel {
    var k1 := WithoutEvent(k, t);
    var k2 := if k.depth == 0 then AddedToReady(TakenOff(k1, t), t)
              else k1.(event := k1.event[t := OnPending], pending := k1.pending + [t]);
    YieldIfHigher(k2, t)
  }

  // vTaskRemoveFromUnorderedEventList, with the scheduler suspended
  function RemoveFromUnorderedEventList(k: Kernel, t: Task): Kernel {
    YieldIfHigher(AddedToReady(TakenOff(WithoutEvent(k, t), t), t), t)
  }

  lemma MadeReady(k: Kernel, t: Task, c: Config)
    requires Good(k, c) && t in k.priority
    ensures var k' := AddedToReady(TakenOff(WithoutEvent(k, t), t), t);
            && Good(k', c) && k'.lists.container == k.lists.container[t := In(Ready(k.priority[t]))]
            && k'.lists.value == k.lists.value && SameRest(k, k')
  {
    hide Sound, OnTime, AddedToReady, TakenOff, WithoutEvent;
    CurrentIsTask(k, {}, c);
    WithoutEventFields(k, t);
    WithoutEventSound(k, {}, t, c);
    var k1 := WithoutEvent(k, t);
    CurrentIsTask(k1, {}, c);
    StillOnTimeFields(k, k1, c);
    TakenOffSound(k1, {}, t, c);
    TakenOffOnTime(k1, {}, t, c);
    TakenOffFields(k1, t);
    var k2 := TakenOff(k1, t);
    assert {} + {t} == {t};
    AddedToReadySound(k2, {}, t, c);
    AddedToReadyFields(k2, t);
    AddedToReadyOnTime(k2, t, c);
    assert k.lists.container[t := Nowhere][t := In(Ready(k.priority[t]))]
        == k.lists.container[t := In(Ready(k.priority[t]))];
    if k.depth == 0 {
      assert k1.pending == [];
    }
  }

  lemma WithoutEventFields(k: Kernel, t: Task)
    ensures SameRest(k, WithoutEvent(k, t)) && WithoutEvent(k, t).lists == k.lists && WithoutEvent(k, t).top == k.top
    ensures WithoutEvent(k, t).event == k.event[t := NoEvent]
    ensures WithoutEvent(k, t).pending == Without(k.pending, t)
    ensures k.pending == [] ==> WithoutEvent(k, t).pending == []
  {
  }

  lemma AddedToReadyFields(k: Kernel, t: Task)
    ensures SameRest(k, AddedToReady(k, t))
    ensures AddedToReady(k, t).pending == k.pending && AddedToReady(k, t).event == k.event
  {
  }

  lemma AddedToReadyOnTime(k: Kernel, t: Task, c: Config)
    requires Sound(k, {t}, c) && OnTime(k, c) && t in k.priority && EventOf(k, t) == NoEvent
    ensures OnTime(AddedToReady(k, t), c)
  {
    hide Consistent, ReadyRight, EventsRight, InOrder, LinkEnd, OnTime;
    assert {} + {t} == {t};
    AddedToReadySound(k, {}, t, c);
    StillOnTime(k, AddedToReady(k, t), c);
  }

  lemma YieldGood(k: Kernel, t: Task, c: Config)
    requires Good(k, c)
    ensures Good(YieldIfHigher(k, t), c)
  {
    hide Sound, OnTime;
    CurrentIsTask(k, {}, c);
    SameSound(k, YieldIfHigher(k, t), {}, c);
    StillOnTimeFields(k, YieldIfHigher(k, t), c);
  }

  lemma MadePending(k: Kernel, t: Task, c: Config)
    requires Good(k, c) && t in k.priority && EventOf(k, t) == OnEventList && k.depth > 0
    ensures var k1 := WithoutEvent(k, t);
            Good(k1.(event := k1.event[t := OnPending], pending := k1.pending + [t]), c)
  {
    hide Listed, OnTime, DelaysSorted, Distinct;
    var k1 := WithoutEvent(k, t);
    var k' := k1.(event := k1.event[t := OnPending], pending := k1.pending + [t]);
    PendingEvents(k, k1, k', t);
    SameReady(k, k');
    SameDelays(k, k', c);
    assert Listed(k', {}, c) by { ListedFrame(k, k', {}, c); }
    StillOnTimeFields(k, k', c);
  }

  lemma ListedFrame(k: Kernel, k': Kernel, hand: set<Task>, c: Config)
    requires Listed(k, hand, c) && k'.lists == k.lists && k'.priority == k.priority && k'.top == k.top
    requires k'.event.Keys == k.event.Keys
    ensures Listed(k', hand, c)
  {
    hide Consistent;
  }

  lemma PendingEvents(k: Kernel, k1: Kernel, k': Kernel, t: Task)
    requires EventsRight(k, {}) && EventOf(k, t) == OnEventList && t in k.event && k1 == WithoutEvent(k, t)
    requires k' == k1.(event := k1.event[t := OnPending], pending := k1.pending + [t])
    ensures EventsRight(k', {}) && k'.event.Keys == k.event.Keys
  {
    WithoutExactly(k.pending, t);
    assert t !in k.pending;
    forall u
      ensures EventOf(k', u) == if u == t then OnPending else EventOf(k, u)
      ensures Blocked(k', u) <==> Blocked(k, u)
      ensures u in k'.pending <==> u in k.pending || u == t
    {
    }
  }

  lemma RemoveFromEventListEvents(k: Kernel, t: Task)
    ensures forall u :: EventOf(RemoveFromEventList(k, t), u) ==
                        if u != t then EventOf(k, u) else if k.depth == 0 then NoEvent else OnPending
    ensures RemoveFromEventList(k, t).priority == k.priority
  {
    hide Unlink, LinkEnd;
  }

  lemma RemoveFromEventListGood(k: Kernel, t: Task, c: Config)
    requires Good(k, c) && t in k.priority && EventOf(k, t) == OnEventList
    ensures Good(RemoveFromEventList(k, t), c)
    ensures forall u :: u != t || k.depth > 0 ==> Place(RemoveFromEventList(k, t), u) == Place(k, u)
    ensures k.depth == 0 ==> Place(RemoveFromEventList(k, t), t) == In(Ready(k.priority[t]))
    ensures forall u :: EventOf(RemoveFromEventList(k, t), u) ==
                        if u != t then EventOf(k, u) else if k.depth == 0 then NoEvent else OnPending
  {
    hide Good, AddedToReady, TakenOff;
    RemoveFromEventListEvents(k, t);
    WithoutEventFields(k, t);
    if k.depth == 0 {
      MadeReady(k, t, c);
      YieldGood(AddedToReady(TakenOff(WithoutEvent(k, t), t), t), t, c);
    } else {
      MadePending(k, t, c);
      var k1 := WithoutEvent(k, t);
      YieldGood(k1.(event := k1.event[t := OnPending], pending := k1.pending + [t]), t, c);
    }
  }

  lemma RemoveFromUnorderedEventListGood(k: Kernel, t: Task, c: Config)
    requires Good(k, c) && t in k.priority
    ensures Good(RemoveFromUnorderedEventList(k, t), c)
    ensures forall u :: u != t ==> Place(RemoveFromUnorderedEventList(k, t), u) == Place(k, u)
    ensures Place(RemoveFromUnorderedEventList(k, t), t) == In(Ready(k.priority[t]))
    ensures forall u :: EventOf(RemoveFromUnorderedEventList(k, t), u) == if u == t then NoEvent else EventOf(k, u)
  {
    hide Good, AddedToReady, TakenOff, WithoutEvent;
    UnorderedEvents(k, t);
    MadeReady(k, t, c);
    YieldGood(AddedToReady(TakenOff(WithoutEvent(k, t), t), t), t, c);
  }

  lemma UnorderedEvents(k: Kernel, t: Task)
    ensures forall u :: EventOf(RemoveFromUnorderedEventList(k, t), u) == if u == t then NoEvent else EventOf(k, u)
  {
    hide Unlink, LinkEnd;
  }

  // ----- Suspending and resuming a task -----------------------------------------------------------

  // vTaskSuspend
  function Suspend(k: Kernel, t: Task, c: Config): Kernel {
    ResetUnblock(Parked(WithoutEvent(TakenOff(k, t), t), t, SuspendedList), c)
  }

  // prvTaskIsTaskSuspended: in the suspended list, and not there to wait for an event for ever
  predicate IsSuspended(k: Kernel, t: Task) {
    Place(k, t) == In(SuspendedList) && EventOf(k, t) == NoEvent
  }

  // vTaskResume
  function Resume(k: Kernel, t: Task): Kernel {
    if t != k.current && IsSuspended(k, t) then AddedToReady(TakenOff(k, t), t) else k
  }

  // Off its list, and no longer waiting for an event
  lemma TakenAway(k: Kernel, t: Task, c: Config)
    requires Good(k, c) && t in k.priority
    ensures var k' := WithoutEvent(TakenOff(k, t), t);
            && Sound(k', {t}, c) && OnTime(k', c) && EventOf(k', t) == NoEvent && SameRest(k, k')
            && k'.lists.container == k.lists.container[t := Nowhere] && k'.lists.value == k.lists.value
            && (k.pending == [] ==> k'.pending == [])
  {
    hide Sound, OnTime, TakenOff, WithoutEvent;
    var k1 := TakenOff(k, t);
    assert {} + {t} == {t};
    TakenOffSound(k, {}, t, c);
    TakenOffOnTime(k, {}, t, c);
    TakenOffFields(k, t);
    CurrentIsTask(k1, {t}, c);
    WithoutEventSound(k1, {t}, t, c);
    WithoutEventFields(k1, t);
    StillOnTimeFields(k1, WithoutEvent(k1, t), c);
  }

  lemma SuspendFields(k: Kernel, t: Task, c: Config)
    ensures forall u :: EventOf(Suspend(k, t, c), u) == if u == t then NoEvent else EventOf(k, u)
    ensures Suspend(k, t, c).priority == k.priority
  {
    hide Unlink, LinkEnd;
  }

  lemma SuspendGood(k: Kernel, t: Task, c: Config)
    requires Good(k, c) && t in k.priority
    ensures Good(Suspend(k, t, c), c)
    ensures forall u :: Place(Suspend(k, t, c), u) == if u == t then In(SuspendedList) else Place(k, u)
    ensures forall u :: EventOf(Suspend(k, t, c), u) == if u == t then NoEvent else EventOf(k, u)
    ensures Suspend(k, t, c).priority == k.priority
  {
    hide Sound, OnTime, TakenOff, WithoutEvent, Parked;
    SuspendFields(k, t, c);
    TakenAway(k, t, c);
    var k1 := WithoutEvent(TakenOff(k, t), t);
    assert {} + {t} == {t};
    ParkedSound(k1, {}, t, SuspendedList, c);
    ParkedOnTime(k1, {}, t, SuspendedList, c);
    ParkedFields(k1, t, SuspendedList);
    ResetUnblockGood(Parked(k1, t, SuspendedList), c);
  }

  lemma ResumeGood(k: Kernel, t: Task, c: Config)
    requires Good(k, c)
    ensures Good(Resume(k, t), c)
    ensures forall u :: Place(Resume(k, t), u) ==
                        if u == t && t != k.current && IsSuspended(k, t) then In(Ready(PriorityOf(k, t)))
                        else Place(k, u)
    ensures Resume(k, t).event == k.event && Resume(k, t).priority == k.priority
  {
    hide Sound, OnTime, TakenOff, AddedToReady;
    if t != k.current && IsSuspended(k, t) {
      CurrentIsTask(k, {}, c);
      TakenOffSound(k, {}, t, c);
      TakenOffOnTime(k, {}, t, c);
      TakenOffFields(k, t);
      var k1 := TakenOff(k, t);
      assert {} + {t} == {t};
      AddedToReadySound(k1, {}, t, c);
      AddedToReadyFields(k1, t);
      AddedToReadyOnTime(k1, t, c);
    }
  }

  // ----- Creating and deleting tasks --------------------------------------------------------------

  // prvAddNewTaskToReadyList, with the scheduler running
  function Create(k: Kernel, t: Task, priority: nat): Kernel {
    var k1 := k.(lists := Lists(k.lists.rings, k.lists.container[t := Nowhere], k.lists.value[t := 0]),
                 priority := k.priority[t := priority], event := k.event[t := NoEvent], count := k.count + 1);
    AddedToReady(k1, t)
  }

  // A task that is on no list is forgotten.
  function Forgotten(k: Kernel, t: Task): Kernel {
    k.(lists := Lists(k.lists.rings, k.lists.container - {t}, k.lists.value - {t}),
       priority := k.priority - {t}, event := k.event - {t}, count := if k.count > 0 then k.count - 1 else 0)
  }

  // vTaskDelete: a task that deletes itself is left to the idle task.
  function Delete(k: Kernel, t: Task, c: Config): Kernel {
    var k1 := WithoutEvent(TakenOff(k, t), t);
    if t == k.current then Parked(k1, t, Termination) else ResetUnblock(Forgotten(k1, t), c)
  }

  // prvCheckTasksWaitingTermination, for one task
  function CleanUp(k: Kernel): Kernel {
    var s := Items(k.lists, Termination);
    if s == [] then k else Forgotten(TakenOff(k, s[0]), s[0])
  }

  lemma NewTaskSound(k: Kernel, t: Task, priority: nat, c: Config)
    requires Good(k, c) && t !in k.priority && priority < c.priorities
    ensures var k1 := k.(lists := Lists(k.lists.rings, k.lists.container[t := Nowhere], k.lists.value[t := 0]),
                         priority := k.priority[t := priority], event := k.event[t := NoEvent], count := k.count + 1);
            Sound(k1, {t}, c) && OnTime(k1, c)
  {
    hide Consistent, InOrder, OnTime, ReadyRight, EventsRight, Listed, DelaysSorted;
    var x := Lists(k.lists.rings, k.lists.container[t := Nowhere], k.lists.value[t := 0]);
    var k1 := k.(lists := x, priority := k.priority[t := priority], event := k.event[t := NoEvent],
                 count := k.count + 1);
    CurrentIsTask(k, {}, c);
    SoundIsConsistent(k, {}, c);
    assert ContainerOf(k.lists, t) == Nowhere;
    BareTask(k.lists, x, t);
    assert k1.priority.Keys == k.priority.Keys + {t};
    SameReadyPlaces(k, k1);
    SameEventPlaces(k, k1, {}, {t});
    OnTimeValues(k, k1, c);
    assert Listed(k1, {t}, c) by { NewTaskListed(k, k1, t, priority, c); }
    assert DelaysSorted(k1, c) by { BareDelays(k, k1, t, c); }
  }

  lemma NewTaskListed(k: Kernel, k1: Kernel, t: Task, priority: nat, c: Config)
    requires Listed(k, {}, c) && t !in k.priority && priority < c.priorities && Consistent(k1.lists)
    requires k1.lists.rings == k.lists.rings && k1.lists.container == k.lists.container[t := Nowhere]
    requires k1.priority == k.priority[t := priority] && k1.event == k.event[t := NoEvent] && k1.top == k.top
    ensures Listed(k1, {t}, c)
  {
    hide Consistent;
  }

  lemma BareDelays(k: Kernel, k1: Kernel, t: Task, c: Config)
    requires DelaysSorted(k, c) && c.M > 0
    requires forall l :: InOrder(k.lists, l) ==> InOrder(k1.lists, l)
    requires forall u :: u != t ==> ValueOf(k1.lists.value, u) == ValueOf(k.lists.value, u)
    requires ValueOf(k1.lists.value, t) == 0
    ensures DelaysSorted(k1, c)
  {
    hide InOrder;
    forall u
      ensures ValueOf(k1.lists.value, u) < c.M
    {
      assert u != t ==> ValueOf(k1.lists.value, u) == ValueOf(k.lists.value, u);
    }
  }

  // A task that is on no list appears or disappears.
  lemma BareTask(x: Lists, y: Lists, t: Task)
    requires Consistent(x) && ContainerOf(x, t) == Nowhere && y.rings == x.rings && y.container.Keys == y.value.Keys
    requires forall u :: ContainerOf(y, u) == ContainerOf(x, u)
    requires forall u :: u != t ==> ValueOf(y.value, u) == ValueOf(x.value, u)
    ensures Consistent(y)
    ensures forall l :: Items(y, l) == Items(x, l)
    ensures forall l, u :: u in Items(x, l) ==> u != t
    ensures forall l :: InOrder(x, l) ==> InOrder(y, l)
  {
    hide Distinct, Ok;
    assert forall l :: Items(y, l) == Items(x, l);
    forall l, u | u in Items(x, l)
      ensures u != t
    {
      assert ContainerOf(x, u) == In(l);
    }
    forall l | InOrder(x, l)
      ensures InOrder(y, l)
    {
      assert forall i :: 0 <= i < |Items(x, l)| ==> Items(x, l)[i] in Items(x, l);
      assert Keys(y.value, Items(y, l)) == Keys(x.value, Items(x, l));
    }
  }

  lemma SameReadyPlaces(k: Kernel, k': Kernel)
    requires ReadyRight(k) && k.top <= k'.top
    requires forall u :: Place(k', u) == Place(k, u)
    requires forall u :: Place(k, u) != Nowhere ==> PriorityOf(k', u) == PriorityOf(k, u)
    ensures ReadyRight(k')
  {
  }

  lemma SameEventPlaces(k: Kernel, k': Kernel, hand: set<Task>, hand': set<Task>)
    requires EventsRight(k, hand) && k'.pending == k.pending && hand <= hand'
    requires forall u :: Place(k', u) == Place(k, u) && EventOf(k', u) == EventOf(k, u)
    ensures EventsRight(k', hand')
  {
    assert forall u :: Blocked(k', u) <==> Blocked(k, u);
  }

  lemma OnTimeValues(k: Kernel, k': Kernel, c: Config)
    requires OnTime(k, c) && DelayedItems(k') == DelayedItems(k)
    requires forall u :: u in DelayedItems(k) ==> ValueOf(k'.lists.value, u) == ValueOf(k.lists.value, u)
    requires k'.tick == k.tick && k'.nextUnblock == k.nextUnblock
    ensures OnTime(k', c)
  {
    forall t | t in DelayedItems(k')
      ensures NotYetDue(k', ValueOf(k'.lists.value, t), c)
    {
      assert NotYetDue(k, ValueOf(k.lists.value, t), c);
    }
  }

  lemma CreateGood(k: Kernel, t: Task, priority: nat, c: Config)
    requires Good(k, c) && t !in k.priority && priority < c.priorities
    ensures Good(Create(k, t, priority), c)
    ensures forall u :: Place(Create(k, t, priority), u) == if u == t then In(Ready(priority)) else Place(k, u)
    ensures Create(k, t, priority).priority == k.priority[t := priority]
    ensures EventOf(Create(k, t, priority), t) == NoEvent
  {
    hide Sound, OnTime, AddedToReady;
    var k1 := k.(lists := Lists(k.lists.rings, k.lists.container[t := Nowhere], k.lists.value[t := 0]),
                 priority := k.priority[t := priority], event := k.event[t := NoEvent], count := k.count + 1);
    NewTaskSound(k, t, priority, c);
    assert {} + {t} == {t};
    AddedToReadySound(k1, {}, t, c);
    AddedToReadyOnTime(k1, t, c);
    AddedToReadyFields(k1, t);
  }

  lemma ForgottenSound(k: Kernel, t: Task, c: Config)
    requires Sound(k, {t}, c) && t in k.priority && t != k.current && EventOf(k, t) == NoEvent && OnTime(k, c)
    ensures Sound(Forgotten(k, t), {}, c) && OnTime(Forgotten(k, t), c)
    ensures forall u :: Place(Forgotten(k, t), u) == Place(k, u)
  {
    hide Consistent, InOrder, OnTime, ReadyRight, EventsRight, Listed, DelaysSorted;
    var k1 := Forgotten(k, t);
    CurrentIsTask(k, {t}, c);
    SoundIsConsistent(k, {t}, c);
    assert ContainerOf(k.lists, t) == Nowhere by { InHandNowhere(k, t, c); }
    BareTask(k.lists, k1.lists, t);
    assert |k.priority.Keys - {t}| == |k.priority| - 1;
    assert k1.priority.Keys == k.priority.Keys - {t};
    SameReadyPlaces(k, k1);
    EventsLetGo(k, k1, t);
    OnTimeValues(k, k1, c);
    assert Listed(k1, {}, c) by { ForgottenListed(k, k1, t, c); }
    assert DelaysSorted(k1, c) by { BareDelays(k, k1, t, c); }
  }

  lemma InHandNowhere(k: Kernel, t: Task, c: Config)
    requires Listed(k, {t}, c)
    ensures ContainerOf(k.lists, t) == Nowhere
  {
    hide Consistent;
  }

  lemma ForgottenListed(k: Kernel, k1: Kernel, t: Task, c: Config)
    requires Listed(k, {t}, c) && Consistent(k1.lists)
    requires k1.lists.rings == k.lists.rings && k1.lists.container == k.lists.container - {t}
    requires k1.priority == k.priority - {t} && k1.event == k.event - {t} && k1.top == k.top
    ensures Listed(k1, {}, c)
  {
    hide Consistent;
  }

  lemma SoundIsConsistent(k: Kernel, hand: set<Task>, c: Config)
    requires Sound(k, hand, c)
    ensures Consistent(k.lists) && k.lists.container.Keys == k.lists.value.Keys
  {
    hide ReadyRight, EventsRight, DelaysSorted, Ok;
  }

  lemma EventsLetGo(k: Kernel, k': Kernel, t: Task)
    requires EventsRight(k, {t}) && k'.pending == k.pending && EventOf(k, t) == NoEvent
    requires forall u :: Place(k', u) == Place(k, u) && EventOf(k', u) == EventOf(k, u)
    ensures EventsRight(k', {})
  {
    assert forall u :: Blocked(k', u) <==> Blocked(k, u);
  }

  lemma DeleteFields(k: Kernel, t: Task, c: Config)
    ensures Delete(k, t, c).priority == if t == k.current then k.priority else k.priority - {t}
    ensures forall u :: EventOf(Delete(k, t, c), u) == if u == t then NoEvent else EventOf(k, u)
  {
    hide Unlink, LinkEnd;
  }

  lemma DeleteGood(k: Kernel, t: Task, c: Config)
    requires Good(k, c) && t in k.priority
    ensures Good(Delete(k, t, c), c)
    ensures forall u :: Place(Delete(k, t, c), u) ==
                        if u != t then Place(k, u) else if t == k.current then In(Termination) else Nowhere
    ensures Delete(k, t, c).priority == if t == k.current then k.priority else k.priority - {t}
    ensures forall u :: EventOf(Delete(k, t, c), u) == if u == t then NoEvent else EventOf(k, u)
  {
    hide Sound, OnTime, TakenOff, WithoutEvent, Parked, Forgotten;
    DeleteFields(k, t, c);
    TakenAway(k, t, c);
    var k1 := WithoutEvent(TakenOff(k, t), t);
    assert {} + {t} == {t};
    if t == k.current {
      ParkedSound(k1, {}, t, Termination, c);
      ParkedOnTime(k1, {}, t, Termination, c);
      ParkedFields(k1, t, Termination);
    } else {
      ForgottenSound(k1, t, c);
      ForgottenFields(k1, t);
      ResetUnblockGood(Forgotten(k1, t), c);
      assert forall u :: Place(ResetUnblock(Forgotten(k1, t), c), u) == Place(Forgotten(k1, t), u);
    }
  }

  lemma ForgottenFields(k: Kernel, t: Task)
    ensures Forgotten(k, t).depth == k.depth && Forgotten(k, t).pending == k.pending
    ensures Forgotten(k, t).pended == k.pended
  {
  }

  lemma CleanUpFields(k: Kernel, c: Config)
    requires k.count > 0 && Items(k.lists, Termination) != []
    ensures CleanUp(k).count == k.count - 1 && CleanUp(k).priority == k.priority - {Items(k.lists, Termination)[0]}
  {
    hide Unlink;
  }

  lemma CleanUpGood(k: Kernel, c: Config)
    requires Good(k, c) && Place(k, k.current) != In(Termination)
    ensures Good(CleanUp(k), c)
    ensures forall u :: Place(k, u) != In(Termination) ==> Place(CleanUp(k), u) == Place(k, u)
    ensures Items(k.lists, Termination) != [] ==>
              CleanUp(k).count == k.count - 1 && CleanUp(k).priority == k.priority - {Items(k.lists, Termination)[0]}
  {
    hide Sound, OnTime, TakenOff, Forgotten;
    var s := Items(k.lists, Termination);
    if s != [] {
      CountsCurrent(k, c);
      CleanUpFields(k, c);
      var t := s[0];
      ListedIsTask(k, Termination, t, c);
      OnItsList(k, {}, Termination, t, c);
      DeadWaitsForNothing(k, t, c);
      TakenOffSound(k, {}, t, c);
      TakenOffOnTime(k, {}, t, c);
      TakenOffFields(k, t);
      assert {} + {t} == {t};
      ForgottenSound(TakenOff(k, t), t, c);
      ForgottenFields(TakenOff(k, t), t);
    }
  }

  lemma DeadWaitsForNothing(k: Kernel, t: Task, c: Config)
    requires Sound(k, {}, c) && Place(k, t) == In(Termination)
    ensures EventOf(k, t) == NoEvent
  {
    hide Listed, ReadyRight, DelaysSorted, Distinct;
  }

  // ----- Changing a priority -----------------------------------------------------------------------

  // A task's uxPriority changes; if it is ready it moves to the end of the list of the new
  // priority.  vTaskPrioritySet, and also the inheritance functions, do this.
  function ChangePriority(k: Kernel, t: Task, priority: nat): Kernel {
    if Place(k, t) == In(Ready(PriorityOf(k, t))) then
      AddedToReady(TakenOff(k, t).(priority := k.priority[t := priority]), t)
    else k.(priority := k.priority[t := priority])
  }

  lemma PriorityInHand(k: Kernel, hand: set<Task>, t: Task, priority: nat, c: Config)
    requires Sound(k, hand, c) && t in k.priority && priority < c.priorities
    requires !(Place(k, t).In? && Place(k, t).list.Ready?)
    ensures Sound(k.(priority := k.priority[t := priority]), hand, c)
  {
    hide Consistent, EventsRight, DelaysSorted;
    var k' := k.(priority := k.priority[t := priority]);
    forall u
      ensures Place(k', u) == Place(k, u) && (u != t ==> PriorityOf(k', u) == PriorityOf(k, u))
    {
    }
    assert EventsRight(k', hand) by { SameEvents(k, k', hand); }
    assert DelaysSorted(k', c) by { SameDelays(k, k', c); }
    assert k'.priority.Keys == k.priority.Keys;
    assert |k'.priority| == |k.priority|;
  }

  lemma ChangePriorityGood(k: Kernel, t: Task, priority: nat, c: Config)
    requires Good(k, c) && t in k.priority && priority < c.priorities
    ensures Good(ChangePriority(k, t, priority), c)
    ensures ChangePriority(k, t, priority).priority == k.priority[t := priority]
    ensures forall u :: EventOf(ChangePriority(k, t, priority), u) == EventOf(k, u)
    ensures forall u :: u != t ==> Place(ChangePriority(k, t, priority), u) == Place(k, u)
    ensures IsReady(ChangePriority(k, t, priority), t) <==> IsReady(k, t)
  {
    hide Sound, OnTime, TakenOff, AddedToReady;
    if Place(k, t) == In(Ready(PriorityOf(k, t))) {
      ReadyWaitsForNothing(k, t, c);
      TakenOffSound(k, {}, t, c);
      TakenOffOnTime(k, {}, t, c);
      TakenOffFields(k, t);
      var k1 := TakenOff(k, t);
      var k2 := k1.(priority := k.priority[t := priority]);
      assert {} + {t} == {t};
      PriorityInHand(k1, {t}, t, priority, c);
      StillOnTimeFields(k1, k2, c);
      AddedToReadySound(k2, {}, t, c);
      AddedToReadyOnTime(k2, t, c);
      AddedToReadyFields(k2, t);
    } else {
      ReadyHasItsPriority(k, t, c);
      PriorityInHand(k, {}, t, priority, c);
      StillOnTimeFields(k, k.(priority := k.priority[t := priority]), c);
    }
  }

  lemma ReadyHasItsPriority(k: Kernel, t: Task, c: Config)
    requires Sound(k, {}, c)
    ensures Place(k, t).In? && Place(k, t).list.Ready? ==> Place(k, t) == In(Ready(PriorityOf(k, t)))
  {
    hide DelaysSorted, EventsRight, Listed;
  }

  lemma ReadyWaitsForNothing(k: Kernel, t: Task, c: Config)
    requires Sound(k, {}, c) && Place(k, t).In? && Place(k, t).list.Ready?
    ensures EventOf(k, t) == NoEvent
  {
    hide Listed, ReadyRight, DelaysSorted, Distinct;
  }
}
