/**
 The scheduler in place: the variables of tasks.c and the functions that update them, proved
 against the functions on values.
 */
module TaskSchedulers {
  import opened Rings
  import opened TaskLists
  import opened Schedulers
  import opened TaskControl

  // ----- Loops over lists, one task at a time ------------------------------------------

  lemma {:induction false} OneMoreUnblocked(k: Kernel, s: seq<Task>, n: nat)
    requires n < |s|
    ensures UnblockedAll(k, s[..n + 1]) == Unblocked(UnblockedAll(k, s[..n]), s[n])
    decreases n
  {
    hide Unblocked;
    if n == 0 {
      assert s[..1] == [s[0]] && s[..0] == [];
      assert [s[0]][1..] == [];
      assert UnblockedAll(k, [s[0]]) == UnblockedAll(Unblocked(k, s[0]), [s[0]][1..]);
    } else {
      assert s[..n + 1][1..] == s[1..][..n] && s[..n][1..] == s[1..][..n - 1];
      OneMoreUnblocked(Unblocked(k, s[0]), s[1..], n - 1);
    }
  }

  // After the first n tasks of the delayed list were unblocked the rest of it is left.
  lemma {:induction false} RestOfDelayed(k: Kernel, n: nat, c: Config)
    requires Sound(k, {}, c) && n <= |DelayedItems(k)|
    ensures var k' := UnblockedAll(k, DelayedItems(k)[..n]);
            && Sound(k', {}, c) && DelayedItems(k') == DelayedItems(k)[n..] && SameRest(k, k')
            && k'.lists.value == k.lists.value
    decreases n
  {
    hide Sound, Unblocked, SameRest;
    var s := DelayedItems(k);
    forall t | t in s[..n]
      ensures t in k.priority
    {
      assert t in s;
      ListedIsTask(k, DelayedId(k), t, c);
    }
    UnblockedAllSound(k, s[..n], c);
    if n > 0 {
      OneMoreUnblocked(k, s, n - 1);
      RestOfDelayed(k, n - 1, c);
      HeadUnblocked(UnblockedAll(k, s[..n - 1]), c);
      SameRestIds(k, UnblockedAll(k, s[..n - 1]));
      SameRestIds(k, UnblockedAll(k, s[..n]));
      assert s[n - 1..][0] == s[n - 1] && s[n - 1..][1..] == s[n..];
    }
  }

  lemma SameRestIds(k: Kernel, k': Kernel)
    requires SameRest(k, k')
    ensures DelayedId(k') == DelayedId(k)
  {
  }

  lemma HeadUnblocked(k: Kernel, c: Config)
    requires Sound(k, {}, c) && DelayedItems(k) != []
    ensures var t := DelayedItems(k)[0];
            Items(Unblocked(k, t).lists, DelayedId(k)) == DelayedItems(k)[1..]
  {
    hide Sound, AddedToReady;
    var s := DelayedItems(k);
    var t := s[0];
    ListedIsTask(k, DelayedId(k), t, c);
    OnItsList(k, {}, DelayedId(k), t, c);
    TakenOffSound(k, {}, t, c);
    var k1 := TakenOff(k, t);
    assert {} + {t} == {t};
    CurrentIsTask(k1, {t}, c);
    WithoutEventSound(k1, {t}, t, c);
    WithoutEventFields(k1, t);
    AddedToReadySound(WithoutEvent(k1, t), {}, t, c);
    assert IndexOf(s, t) == 0;
    assert s[..0] + s[1..] == s[1..];
  }

  lemma OneMoreAsHigh(k: Kernel, s: seq<Task>, n: nat)
    requires n < |s|
    ensures AnyAsHigh(k, s[..n + 1]) <==> AnyAsHigh(k, s[..n]) || PriorityOf(k, s[n]) >= PriorityOf(k, k.current)
  {
    var a, b := s[..n], s[..n + 1];
    assert forall i :: 0 <= i < n ==> a[i] == b[i];
    assert b[n] == s[n];
  }

  lemma NoneAsHighYet(k: Kernel, s: seq<Task>)
    ensures !AnyAsHigh(k, s[..0])
  {
  }

  // After the first n pending tasks were moved the others are still pending.
  lemma {:induction false} RestOfPending(k: Kernel, n: nat)
    requires n <= |k.pending|
    ensures UnblockedAll(k, k.pending[..n]).pending == k.pending[n..]
    decreases n
  {
    hide Unblocked;
    var s := k.pending;
    if n > 0 {
      OneMoreUnblocked(k, s, n - 1);
      RestOfPending(k, n - 1);
      UnblockedFields(UnblockedAll(k, s[..n - 1]), s[n - 1]);
      assert s[n - 1..][0] == s[n - 1] && s[n - 1..][1..] == s[n..];
    }
  }

  // How far the loop over the delayed list has come.
  ghost predicate Unblocking(k: Kernel, n: nat, k': Kernel, switched: bool, c: Config) {
    && Sound(k, {}, c) && n <= DueCount(k.lists.value, DelayedItems(k), k.tick) <= |DelayedItems(k)|
    && k' == UnblockedAll(k, DelayedItems(k)[..n])
    && switched == AnyAsHigh(k, DelayedItems(k)[..n])
  }

  lemma UnblockingStarts(k: Kernel, c: Config)
    requires Sound(k, {}, c)
    ensures Unblocking(k, 0, k, false, c)
  {
    assert DelayedItems(k)[..0] == [];
  }

  lemma UnblockingSees(k: Kernel, n: nat, k': Kernel, switched: bool, c: Config)
    requires Unblocking(k, n, k', switched, c)
    ensures DelayedItems(k') == DelayedItems(k)[n..] && k'.tick == k.tick && k'.lists.value == k.lists.value
    ensures Sound(k', {}, c) && k'.current == k.current && k'.priority == k.priority
    ensures n < DueCount(k.lists.value, DelayedItems(k), k.tick) <==>
            DelayedItems(k') != [] && ValueOf(k'.lists.value, DelayedItems(k')[0]) <= k'.tick
  {
    hide Sound, AnyAsHigh, UnblockedAll;
    RestOfDelayed(k, n, c);
    var s := DelayedItems(k);
    assert n < |s| ==> s[n..][0] == s[n];
  }

  lemma UnblockingGoesOn(k: Kernel, n: nat, k': Kernel, switched: bool, c: Config)
    requires Unblocking(k, n, k', switched, c) && n < DueCount(k.lists.value, DelayedItems(k), k.tick)
    ensures DelayedItems(k') != []
    ensures var t := DelayedItems(k')[0];
            Unblocking(k, n + 1, Unblocked(k', t), switched || PriorityOf(k', t) >= PriorityOf(k', k'.current), c)
  {
    hide Sound, Unblocked;
    UnblockingSees(k, n, k', switched, c);
    OneMoreUnblocked(k, DelayedItems(k), n);
    OneMoreAsHigh(k, DelayedItems(k), n);
  }

  lemma UnblockingEnds(k: Kernel, n: nat, k': Kernel, switched: bool, c: Config)
    requires Unblocking(k, n, k', switched, c) && n == DueCount(k.lists.value, DelayedItems(k), k.tick)
    ensures k' == UnblockedAll(k, DueTasks(k)) && switched == AnyAsHigh(k, DueTasks(k))
  {
  }

  lemma NoneUnblocked(k: Kernel)
    ensures UnblockedAll(k, []) == k && SameRest(k, k)
  {
  }

  lemma YieldAside(k: Kernel, t: Task, y: bool)
    ensures Unblocked(k.(yieldPending := y), t) == Unblocked(k, t).(yieldPending := y)
  {
  }

  lemma ReplayNone(k: Kernel, c: Config)
    ensures Replayed(k, 0, c) == k
  {
  }

  lemma ReplayOne(k: Kernel, n: nat, c: Config)
    requires n > 0
    ensures Replayed(k, n, c) ==
            Replayed(TickProcessed(k, c).(yieldPending := k.yieldPending || TickSwitches(k, c)), n - 1, c)
  {
  }

  lemma YieldCleared(k: Kernel, idle: Task, c: Config)
    requires Good(k, c) && IsReady(k, idle)
    ensures var k1 := k.(yieldPending := false);
            && Sound(k1, {}, c) && IsReady(k1, idle)
            && (k.depth == 0 ==>
                  var p := HighestReady(k1, k1.top);
                  TaskControl.SwitchContext(k) == NextEntry(k1, p).(top := p))
  {
    hide Sound, OnTime, NextEntry;
    CurrentIsTask(k, {}, c);
    SameSound(k, k.(yieldPending := false), {}, c);
    SameHighest(k, k.(yieldPending := false), k.top);
  }

  lemma SuspendedIsTask(k: Kernel, t: Task, c: Config)
    requires Good(k, c) && Place(k, t) == In(SuspendedList)
    ensures t in k.priority
  {
    hide ReadyRight, EventsRight, DelaysSorted, OnTime, Consistent;
  }

  lemma ConfigOfGood(k: Kernel, c: Config)
    requires Good(k, c)
    ensures ConfigOk(c)
  {
  }

  // It does not matter that the event item is placed before the state item is moved.
  lemma EventFirst(k: Kernel, ticks: nat, c: Config)
    ensures Block(k.(event := k.event[k.current := OnEventList]), Wait(false, ticks, true), c) ==
            Block(k, Wait(true, ticks, true), c)
  {
  }

  // ----- The variables of tasks.c ------------------------------------------------------------------

  class TaskScheduler {
    const c: Config
    var lists: Lists
    var priority: map<Task, nat>
    var event: map<Task, EventPlace>
    var xPendingReadyList: seq<Task>
    var delayedIsFirst: bool
    var xTickCount: nat
    var xNumOfOverflows: nat
    var xPendedTicks: nat
    var xNextTaskUnblockTime: nat
    var uxTopReadyPriority: nat
    var pxCurrentTCB: Task
    var uxCurrentNumberOfTasks: nat
    var uxSchedulerSuspended: nat
    var xYieldPending: bool

    ghost function View(): Kernel
      reads this
    {
      Kernel(lists, priority, event, xPendingReadyList, delayedIsFirst, xTickCount, xNumOfOverflows, xPendedTicks,
             xNextTaskUnblockTime, uxTopReadyPriority, pxCurrentTCB, uxCurrentNumberOfTasks, uxSchedulerSuspended,
             xYieldPending)
    }

    ghost predicate Valid()
      reads this
    {
      Good(View(), c)
    }

    function DelayedList(): ListId
      reads this
    {
      if delayedIsFirst then DelayOne else DelayTwo
    }

    // prvAddTaskToReadyList
    method AddTaskToReadyList(t: Task)
      requires t in priority
      modifies this`lists, this`uxTopReadyPriority
      ensures View() == AddedToReady(old(View()), t)
    {
      if priority[t] > uxTopReadyPriority {
        uxTopReadyPriority := priority[t];
      }
      lists := LinkEnd(lists, Ready(priority[t]), t);
    }

    // prvResetNextTaskUnblockTime
    method ResetNextTaskUnblockTime()
      modifies this`xNextTaskUnblockTime
      ensures View() == ResetUnblock(old(View()), c)
    {
      var delayed := Items(lists, DelayedList());
      if delayed == [] {
        xNextTaskUnblockTime := MaxDelay(c);
      } else {
        xNextTaskUnblockTime := ValueOf(lists.value, delayed[0]);
      }
    }

    // Taking a task's event item off the list it is on, if it is on one
    method RemoveEventItem(t: Task)
      modifies this`event, this`xPendingReadyList
      ensures View() == WithoutEvent(old(View()), t)
    {
      event := event[t := NoEvent];
      xPendingReadyList := Without(xPendingReadyList, t);
    }

    // prvAddCurrentTaskToDelayedList
    method AddCurrentTaskToDelayedList(xTicksToWait: nat, xCanBlockIndefinitely: bool)
      requires ConfigOk(c)
      modifies this`lists, this`xNextTaskUnblockTime
      ensures View() == Block(old(View()), Wait(false, xTicksToWait, xCanBlockIndefinitely), c)
    {
      hide Unlink, LinkEnd, LinkSorted, Items;
      var xConstTickCount := xTickCount;
      lists := Unlink(lists, pxCurrentTCB);
      if xTicksToWait == MaxDelay(c) && xCanBlockIndefinitely {
        lists := LinkEnd(lists, SuspendedList, pxCurrentTCB);
      } else {
        var xTimeToWake := if xConstTickCount + xTicksToWait < c.M then xConstTickCount + xTicksToWait
                           else xConstTickCount + xTicksToWait - c.M;
        lists := lists.(value := lists.value[pxCurrentTCB := xTimeToWake]);
        if xTimeToWake < xConstTickCount {
          lists := LinkSorted(lists, if delayedIsFirst then DelayTwo else DelayOne, pxCurrentTCB);
        } else {
          lists := LinkSorted(lists, DelayedList(), pxCurrentTCB);
          if xTimeToWake < xNextTaskUnblockTime {
            xNextTaskUnblockTime := xTimeToWake;
          }
        }
      }
    }

    // taskSWITCH_DELAYED_LISTS; the list it finds empty is the current one.
    method SwitchDelayedLists()
      requires Items(lists, DelayedList()) == []
      modifies this`delayedIsFirst, this`xNumOfOverflows, this`xNextTaskUnblockTime
      ensures View() == SwitchedLists(old(View()), c)
    {
      delayedIsFirst := !delayedIsFirst;
      xNumOfOverflows := xNumOfOverflows + 1;
      ResetNextTaskUnblockTime();
    }

    // Taking the task at the head of the delayed list to its ready list
    method UnblockHead(t: Task)
      requires t in priority
      modifies this`lists, this`event, this`xPendingReadyList, this`uxTopReadyPriority
      ensures View() == Unblocked(old(View()), t)
    {
      lists := Unlink(lists, t);
      RemoveEventItem(t);
      AddTaskToReadyList(t);
    }

    // The loop of xTaskIncrementTick over the delayed list
    method UnblockExpired() returns (xSwitchRequired: bool)
      requires Sound(View(), {}, c)
      modifies this
      ensures View() == UnblockDue(old(View()), c)
      ensures xSwitchRequired == AnyAsHigh(old(View()), DueTasks(old(View())))
    {
      hide Sound, Unblocking, UnblockedAll, Unblocked, AnyAsHigh;
      ghost var k, n := View(), 0;
      xSwitchRequired := false;
      UnblockingStarts(k, c);
      while true
        invariant Unblocking(k, n, View(), xSwitchRequired, c)
        decreases |DelayedItems(k)| - n
      {
        UnblockingSees(k, n, View(), xSwitchRequired, c);
        UnblockingBound(k, n, View(), xSwitchRequired, c);
        if Items(lists, DelayedList()) == [] {
          UnblockingEnds(k, n, View(), xSwitchRequired, c);
          xNextTaskUnblockTime := MaxDelay(c);
          assert View() == UnblockDue(k, c);
          break;
        }
        var t := Items(lists, DelayedList())[0];
        var xItemValue := ValueOf(lists.value, t);
        if xTickCount < xItemValue {
          UnblockingEnds(k, n, View(), xSwitchRequired, c);
          xNextTaskUnblockTime := xItemValue;
          assert View() == UnblockDue(k, c);
          break;
        }
        UnblockOne(k, n, xSwitchRequired, t);
        if PriorityOfTask(t) >= PriorityOfTask(pxCurrentTCB) {
          xSwitchRequired := true;
        }
        n := n + 1;
      }
    }

    // One round of that loop
    method UnblockOne(ghost k: Kernel, ghost n: nat, ghost switched: bool, t: Task)
      requires Unblocking(k, n, View(), switched, c) && n < DueCount(k.lists.value, DelayedItems(k), k.tick)
      requires DelayedItems(View()) != [] && t == DelayedItems(View())[0]
      modifies this`lists, this`event, this`xPendingReadyList, this`uxTopReadyPriority
      ensures Unblocking(k, n + 1, View(), switched || PriorityOf(View(), t) >= PriorityOf(View(), pxCurrentTCB), c)
    {
      hide Sound, Unblocking, UnblockedAll, Unblocked, AnyAsHigh;
      ghost var k1 := View();
      UnblockingSees(k, n, k1, switched, c);
      UnblockingGoesOn(k, n, k1, switched, c);
      ListedIsTask(k1, DelayedId(k1), t, c);
      UnblockHead(t);
      UnblockedFields(k1, t);
    }

    // xTaskIncrementTick
    method IncrementTick() returns (xSwitchRequired: bool)
      requires Steady(View(), c)
      modifies this
      ensures View() == Schedulers.IncrementTick(old(View()), c)
      ensures xSwitchRequired == (old(uxSchedulerSuspended) == 0 && TickSwitches(old(View()), c))
    {
      hide Steady, TickProcessed, TickSwitches;
      xSwitchRequired := false;
      if uxSchedulerSuspended == 0 {
        xSwitchRequired := ProcessTick();
      } else {
        xPendedTicks := xPendedTicks + 1;
      }
    }

    method ProcessTick() returns (xSwitchRequired: bool)
      requires Steady(View(), c)
      modifies this
      ensures View() == TickProcessed(old(View()), c)
      ensures xSwitchRequired == TickSwitches(old(View()), c)
    {
      hide Steady, UnblockDue, AnyAsHigh, DueTasks, Items;
      ghost var k := View();
      TickedMoved(k, c);
      MoveTickOn();
      ghost var k1 := View();
      xSwitchRequired := false;
      if xTickCount >= xNextTaskUnblockTime {
        xSwitchRequired := UnblockExpired();
      }
      TickFields(k, c);
      if |Items(lists, Ready(PriorityOfTask(pxCurrentTCB)))| > 1 {
        xSwitchRequired := true;
      }
      if xYieldPending {
        xSwitchRequired := true;
      }
    }

    // The counter, and the delayed lists if it wraps
    method MoveTickOn()
      requires Steady(View(), c)
      modifies this`xTickCount, this`delayedIsFirst, this`xNumOfOverflows, this`xNextTaskUnblockTime
      ensures View() == Ticked(old(View()), c)
    {
      hide Sound, Items;
      if xTickCount + 1 == c.M {
        EmptyWhenSwitched(View(), c);
      }
      var xConstTickCount := if xTickCount + 1 < c.M then xTickCount + 1 else 0;
      assert xTickCount + 1 <= c.M;
      ghost var wraps := xTickCount + 1 == c.M;
      xTickCount := xConstTickCount;
      if xConstTickCount == 0 {
        SwitchDelayedLists();
      }
    }

    // vTaskSuspendAll
    method SuspendAll()
      modifies this`uxSchedulerSuspended
      ensures View() == Schedulers.SuspendAll(old(View()))
    {
      uxSchedulerSuspended := uxSchedulerSuspended + 1;
    }

    // xTaskResumeAll; the yield it performs is left to the caller.
    method ResumeAll() returns (xAlreadyYielded: bool)
      requires Valid() && uxSchedulerSuspended > 0
      modifies this
      ensures Valid() && View() == Schedulers.ResumeAll(old(View()), c)
      ensures xAlreadyYielded == (uxSchedulerSuspended == 0 && xYieldPending)
    {
      hide Good, Steady, PendingMoved, Replayed;
      ghost var k := View();
      ResumeAllGood(k, c);
      GoodIs(k, c);
      CountsCurrent(k, c);
      xAlreadyYielded := false;
      uxSchedulerSuspended := uxSchedulerSuspended - 1;
      if uxSchedulerSuspended == 0 {
        if uxCurrentNumberOfTasks > 0 {
          SteadyFields(k, 0, k.pended, c);
          assert k.(depth := 0, pended := k.pended) == View();
          PendingMovedSteady(View(), c);
          MovePendingTasks();
          ReplayPendedTicks();
          if xYieldPending {
            xAlreadyYielded := true;
          }
        }
      }
    }

    // Its loop over the pending tasks
    method MovePendingTasks()
      requires Steady(View(), c)
      modifies this
      ensures View() == PendingMoved(old(View()), c)
    {
      hide Sound, UnblockedAll, Unblocked, AnyAsHigh;
      ghost var k, n := View(), 0;
      var moved := false;
      PendingAreTasks(k, c);
      assert k.pending[..0] == [];
      NoneUnblocked(k);
      NoneAsHighYet(k, k.pending);
      while xPendingReadyList != []
        invariant 0 <= n <= |k.pending| && xPendingReadyList == k.pending[n..] && moved == (n > 0)
        invariant View() == UnblockedAll(k, k.pending[..n]).(
                    yieldPending := k.yieldPending || AnyAsHigh(k, k.pending[..n]))
        invariant SameRest(k, UnblockedAll(k, k.pending[..n]))
        decreases |k.pending| - n
      {
        var t := xPendingReadyList[0];
        assert t == k.pending[n] && t in k.pending;
        OneMoreUnblocked(k, k.pending, n);
        OneMoreAsHigh(k, k.pending, n);
        RestOfPending(k, n + 1);
        UnblockedFields(UnblockedAll(k, k.pending[..n]), t);
        YieldAside(UnblockedAll(k, k.pending[..n]), t, xYieldPending);
        UnblockHead(t);
        if PriorityOfTask(t) >= PriorityOfTask(pxCurrentTCB) {
          xYieldPending := true;
        }
        moved := true;
        n := n + 1;
      }
      assert k.pending[..n] == k.pending;
      if moved {
        ResetNextTaskUnblockTime();
      }
    }

    // Its loop over the ticks put off
    method ReplayPendedTicks()
      requires Steady(View(), c) && xPendingReadyList == [] && uxSchedulerSuspended == 0
      modifies this
      ensures View() == Replayed(old(View()), old(xPendedTicks), c).(pended := 0) && uxSchedulerSuspended == 0
    {
      hide Steady, TickProcessed, TickSwitches, Replayed;
      var xPendedCounts := xPendedTicks;
      ghost var k, total := View(), xPendedTicks;
      ReplayNone(k, c);
      while xPendedCounts > 0
        invariant Steady(View(), c) && xPendingReadyList == [] && uxSchedulerSuspended == 0
        invariant xPendedCounts <= total && Replayed(View(), xPendedCounts, c) == Replayed(k, total, c)
        decreases xPendedCounts
      {
        ghost var k1 := View();
        ReplayOne(k1, xPendedCounts, c);
        TickEffect(k1, c);
        TickPending(k1, c);
        TickFields(k1, c);
        SteadyYield(TickProcessed(k1, c), k1.yieldPending || TickSwitches(k1, c), c);
        var switchRequired := IncrementTick();
        if switchRequired {
          xYieldPending := true;
        }
        xPendedCounts := xPendedCounts - 1;
      }
      ReplayNone(View(), c);
      xPendedTicks := 0;
    }

    // vTaskSwitchContext
    method SwitchContext(ghost idle: Task)
      requires Valid() && IsReady(View(), idle)
      modifies this
      ensures Valid() && View() == TaskControl.SwitchContext(old(View()))
    {
      hide Good, NextEntry, HighestReady, IsReady;
      SwitchContextRight(View(), idle, c);
      if uxSchedulerSuspended != 0 {
        xYieldPending := true;
      } else {
        ghost var k := View();
        xYieldPending := false;
        YieldCleared(k, idle, c);
        SelectHighestPriorityTask(idle);
      }
    }

    // taskSELECT_HIGHEST_PRIORITY_TASK
    method SelectHighestPriorityTask(ghost idle: Task)
      requires Sound(View(), {}, c) && IsReady(View(), idle)
      modifies this
      ensures var k := old(View());
              var p := HighestReady(k, k.top);
              View() == NextEntry(k, p).(top := p)
    {
      hide Sound;
      ghost var k := View();
      SomethingToSelect(k, idle, c);
      var uxTopPriority: nat := uxTopReadyPriority;
      while Items(lists, Ready(uxTopPriority)) == []
        invariant uxTopPriority <= k.top && View() == k
        invariant HighestReady(k, k.top) == HighestReady(k, uxTopPriority)
        decreases uxTopPriority
      {
        uxTopPriority := uxTopPriority - 1;
      }
      var l := Ready(uxTopPriority);
      var r := Advance(lists.rings[l]);
      lists := lists.(rings := lists.rings[l := r]);
      if 0 < r.pos <= |r.items| {
        pxCurrentTCB := Selected(r);
      }
      uxTopReadyPriority := uxTopPriority;
    }

    // xTaskRemoveFromEventList, for the first task of the event list
    method RemoveFromEventList(t: Task) returns (xReturn: bool)
      requires Valid() && t in priority && EventOf(View(), t) == OnEventList
      modifies this
      ensures Valid() && View() == TaskControl.RemoveFromEventList(old(View()), t)
      ensures xReturn == (PriorityOf(View(), t) > PriorityOf(View(), pxCurrentTCB))
    {
      hide WithoutEvent, Good, Unlink, LinkEnd, Place;
      assert Good(TaskControl.RemoveFromEventList(View(), t), c) by { RemoveFromEventListGood(View(), t, c); }
      RemoveEventItem(t);
      if uxSchedulerSuspended == 0 {
        lists := Unlink(lists, t);
        AddTaskToReadyList(t);
      } else {
        event := event[t := OnPending];
        xPendingReadyList := xPendingReadyList + [t];
      }
      if PriorityOfTask(t) > PriorityOfTask(pxCurrentTCB) {
        xReturn := true;
        xYieldPending := true;
      } else {
        xReturn := false;
      }
    }

    // vTaskRemoveFromUnorderedEventList
    method RemoveFromUnorderedEventList(t: Task)
      requires Valid() && t in priority && uxSchedulerSuspended != 0
      modifies this
      ensures Valid() && View() == TaskControl.RemoveFromUnorderedEventList(old(View()), t)
    {
      hide Good;
      RemoveFromUnorderedEventListGood(View(), t, c);
      RemoveEventItem(t);
      lists := Unlink(lists, t);
      AddTaskToReadyList(t);
      if PriorityOfTask(t) > PriorityOfTask(pxCurrentTCB) {
        xYieldPending := true;
      }
    }

    // vTaskSuspend
    method Suspend(t: Task)
      requires Valid() && t in priority
      modifies this
      ensures Valid() && View() == TaskControl.Suspend(old(View()), t, c)
    {
      hide Good;
      SuspendGood(View(), t, c);
      lists := Unlink(lists, t);
      RemoveEventItem(t);
      lists := LinkEnd(lists, SuspendedList, t);
      ResetNextTaskUnblockTime();
    }

    // vTaskResume
    method Resume(t: Task) returns (yieldRequired: bool)
      requires Valid()
      modifies this
      ensures Valid() && View() == TaskControl.Resume(old(View()), t)
      ensures yieldRequired == (t != pxCurrentTCB && IsSuspended(old(View()), t)
                        && PriorityOf(View(), t) >= PriorityOf(View(), pxCurrentTCB))
    {
      hide Good;
      ResumeGood(View(), t, c);
      yieldRequired := false;
      if t != pxCurrentTCB {
        if ContainerOf(lists, t) == In(SuspendedList) && (t !in event || event[t] == NoEvent) {
          SuspendedIsTask(View(), t, c);
          lists := Unlink(lists, t);
          AddTaskToReadyList(t);
          yieldRequired := PriorityOfTask(t) >= PriorityOfTask(pxCurrentTCB);
        }
      }
    }

    // What vTaskPrioritySet and the inheritance functions do to uxPriority and the ready lists
    method UsePriority(t: Task, uxNewPriority: nat)
      requires Valid() && t in priority && uxNewPriority < c.priorities
      modifies this
      ensures Valid() && View() == ChangePriority(old(View()), t, uxNewPriority)
    {
      hide Good;
      ChangePriorityGood(View(), t, uxNewPriority, c);
      var uxPriorityUsedOnEntry := priority[t];
      priority := priority[t := uxNewPriority];
      if ContainerOf(lists, t) == In(Ready(uxPriorityUsedOnEntry)) {
        lists := Unlink(lists, t);
        AddTaskToReadyList(t);
      }
    }

    // vTaskDelete
    method Delete(t: Task)
      requires Valid() && t in priority
      modifies this
      ensures Valid() && View() == TaskControl.Delete(old(View()), t, c)
    {
      hide WithoutEvent, Good, Unlink, LinkEnd, ResetUnblock;
      ghost var k := View();
      CountsCurrent(k, c);
      lists := Unlink(lists, t);
      RemoveEventItem(t);
      ghost var k1 := View();
      assert k1 == WithoutEvent(TakenOff(k, t), t);
      WithoutEventFields(TakenOff(k, t), t);
      if t == pxCurrentTCB {
        lists := LinkEnd(lists, Termination, t);
      } else {
        uxCurrentNumberOfTasks := uxCurrentNumberOfTasks - 1;
        lists := Lists(lists.rings, lists.container - {t}, lists.value - {t});
        priority, event := priority - {t}, event - {t};
        assert View() == Forgotten(k1, t);
        ResetNextTaskUnblockTime();
      }
      DeleteGood(k, t, c);
    }

    // vTaskPlaceOnEventList, as far as the task lists go: the event item first
    method PlaceOnEventList(xTicksToWait: nat)
      requires Valid() && CanBlock(View(), Wait(true, xTicksToWait, true), c)
      modifies this
      ensures Valid() && View() == Block(old(View()), Wait(true, xTicksToWait, true), c)
    {
      hide Good, Parked, Delayed, TakenOff;
      BlockGood(View(), Wait(true, xTicksToWait, true), c);
      ConfigOfGood(View(), c);
      EventFirst(View(), xTicksToWait, c);
      event := event[pxCurrentTCB := OnEventList];
      AddCurrentTaskToDelayedList(xTicksToWait, true);
    }

    function PriorityOfTask(t: Task): nat
      reads this
    {
      if t in priority then priority[t] else 0
    }
  }

  lemma UnblockingBound(k: Kernel, n: nat, k': Kernel, switched: bool, c: Config)
    requires Unblocking(k, n, k', switched, c)
    ensures n <= DueCount(k.lists.value, DelayedItems(k), k.tick) <= |DelayedItems(k)|
  {
  }
}
