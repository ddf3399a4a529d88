/**
 Mutexes and inheritance in place: the priorities in use belong to the scheduler, whose ready
 lists follow them.
 */
module Mutexes {
  import opened Inheritance
  import opened Rings
  import S = Schedulers
  import C = TaskControl
  import R = TickReplay
  import L = TaskLists
  import Runs = TaskRuns
  import TaskSchedulers

  // The kernel after task t was given priority p, if it was.
  function Reprioritised(k: S.Kernel, moved: bool, t: Task, p: nat): S.Kernel {
    if moved then C.ChangePriority(k, t, p) else k
  }

  function HolderOf(s: State, m: Mutex): Task {
    if m in s.holder then s.holder[m] else 0
  }

  // The kernel after task t made h inherit its priority
  function AfterInherit(k: S.Kernel, s: State, t: Task, h: Task): S.Kernel {
    Reprioritised(k, PriorityOf(s, h) < PriorityOf(s, t), h, PriorityOf(s, t))
  }

  // after t started to wait for mutex m
  function AfterWait(k: S.Kernel, s: State, t: Task, m: Mutex, w: S.Wait, c: S.Config): S.Kernel {
    if m in s.holder then S.Block(AfterInherit(k, s, t, s.holder[m]), w, c) else k
  }

  // after h was lowered because a wait had timed out
  function AfterDisinherit(k: S.Kernel, s: State, h: Task, highest: nat): S.Kernel {
    var use := PriorityToUse(s, h, highest);
    Reprioritised(k, PriorityOf(s, h) != use && HeldBy(s, h) == 1, h, use)
  }

  // and after t gave mutex m and the first waiter was woken.
  function AfterGive(k: S.Kernel, s: State, t: Task, m: Mutex): S.Kernel {
    var k1 := Reprioritised(k, Disinherit(s, t).1, t, BaseOf(s, t));
    if WaitersOf(s, m) == [] then k1 else C.RemoveFromEventList(k1, WaitersOf(s, m)[0])
  }

  // Whether giving asks for a context switch: a woken waiter decides alone.
  function GiveYields(s: State, t: Task, m: Mutex): bool {
    var s', back := Disinherit(s, t).0, Disinherit(s, t).1;
    if WaitersOf(s, m) == [] then back else PriorityOf(s', WaitersOf(s, m)[0]) > PriorityOf(s', t)
  }

  lemma ReprioritisedFields(k: S.Kernel, t: Task, p: nat)
    ensures var k' := C.ChangePriority(k, t, p);
            k'.priority == k.priority[t := p] && k'.current == k.current && k'.event == k.event && k'.depth == k.depth
  {
  }

  lemma FreedFields(k: S.Kernel, t: Task)
    ensures var k' := C.RemoveFromEventList(k, t); k'.priority == k.priority && k'.current == k.current
  {
  }

  lemma BlockFields(k: S.Kernel, w: S.Wait, c: S.Config)
    ensures S.Block(k, w, c).priority == k.priority && S.Block(k, w, c).current == k.current
  {
  }

  lemma StillCanBlock(k: S.Kernel, t: Task, p: nat, w: S.Wait, c: S.Config)
    requires S.CanBlock(k, w, c)
    ensures S.CanBlock(C.ChangePriority(k, t, p), w, c)
  {
  }

  lemma SameUse(priority: map<Task, nat>, t: Task)
    requires t in priority
    ensures priority[t := priority[t]] == priority
  {
  }

  // The priority a task runs at after its base was set: an inherited one stays.
  function UsedAfter(s: State, t: Task, priority: nat): nat {
    if PriorityOf(s, t) == BaseOf(s, t) then Clamped(s, priority) else PriorityOf(s, t)
  }

  // The scheduler after vTaskPrioritySet.  A ready task goes to the end of its list also when its
  // priority in use stays.
  function AfterPrioritySet(k: S.Kernel, s: State, t: Task, priority: nat): S.Kernel {
    Reprioritised(k, Clamped(s, priority) != BaseOf(s, t), t, UsedAfter(s, t, priority))
  }

  // Whether vTaskPrioritySet asks for a context switch
  function PrioritySetYields(k: S.Kernel, s: State, t: Task, priority: nat): bool {
    var q, base := Clamped(s, priority), BaseOf(s, t);
    if q > base then t != k.current && q >= S.PriorityOf(k, k.current) else q < base && t == k.current
  }

  // ----- The running task after a change of priorities ------------------------------------------------

  // Another priority makes no task ready and takes none off.
  lemma SameReady(k: S.Kernel, t: Task, p: nat, c: S.Config)
    requires S.Good(k, c) && t in k.priority && p < c.priorities
    ensures var k' := C.ChangePriority(k, t, p);
            && S.Good(k', c) && k'.priority == k.priority[t := p] && k'.current == k.current
            && k'.event == k.event && k'.depth == k.depth
            && forall u :: C.IsReady(k', u) <==> C.IsReady(k, u)
  {
    hide S.Good, C.ChangePriority;
    ReprioritisedFields(k, t, p);
    C.ChangePriorityGood(k, t, p, c);
  }

  // After vTaskPrioritySet asked for no switch, the running task is still the highest.
  lemma PrioritySetKeepsHighest(k: S.Kernel, s: State, t: Task, priority: nat, c: S.Config)
    requires S.Good(k, c) && R.RunsHighest(k) && t in k.priority
    requires s.priority == k.priority && s.limit == c.priorities
    requires BaseOf(s, t) <= PriorityOf(s, t) < s.limit && !PrioritySetYields(k, s, t, priority)
    ensures R.RunsHighest(AfterPrioritySet(k, s, t, priority))
  {
    hide S.Good, C.ChangePriority;
    SameReady(k, t, UsedAfter(s, t, priority), c);
  }

  // After a mutex was given without a switch, the running task is still the highest exactly if it
  // did not fall below a ready task: the request of the disinheritance is lost when a waiter is
  // woken.
  lemma GiveKeepsHighestIff(k: S.Kernel, s: State, m: Mutex, c: S.Config)
    requires S.Good(k, c) && R.RunsHighest(k) && k.depth == 0
    requires s.priority == k.priority && s.limit == c.priorities && BaseOf(s, k.current) < s.limit
    requires WaitersOf(s, m) != [] ==>
               WaitersOf(s, m)[0] in k.priority && S.EventOf(k, WaitersOf(s, m)[0]) == S.OnEventList
    requires !GiveYields(s, k.current, m)
    ensures R.RunsHighest(AfterGive(k, s, k.current, m)) <==>
            (Disinherit(s, k.current).1 ==>
               forall u :: C.IsReady(k, u) && u != k.current ==> PriorityOf(s, u) <= BaseOf(s, k.current))
  {
    hide S.Good, C.ChangePriority, C.RemoveFromEventList;
    var t, ws := k.current, WaitersOf(s, m);
    if ws != [] {
      var k1 := Reprioritised(k, Disinherit(s, t).1, t, BaseOf(s, t));
      SameReady(k, t, BaseOf(s, t), c);
      WokenReady(k1, ws[0], c);
    }
  }

  lemma WokenReady(k: S.Kernel, w: Task, c: S.Config)
    requires S.Good(k, c) && k.depth == 0 && w in k.priority && S.EventOf(k, w) == S.OnEventList
    ensures var k' := C.RemoveFromEventList(k, w);
            && k'.priority == k.priority && k'.current == k.current
            && forall u :: C.IsReady(k', u) <==> C.IsReady(k, u) || u == w
  {
    hide S.Good, S.AddedToReady, S.TakenOff;
    C.MadeReady(k, w, c);
    FreedFields(k, w);
  }

  // Giving asks for a switch exactly if the woken task is now above the giver or, when no task is
  // woken, if the giver lost a priority.
  lemma GiveAsksExactly(s: State, t: Task, m: Mutex)
    requires Inv(s) && Possible(s, GiveIt(t, m))
    ensures var s', ws := Give(s, t, m), WaitersOf(s, m);
            GiveYields(s, t, m) <==>
              if ws == [] then PriorityOf(s', t) < PriorityOf(s, t) else PriorityOf(s', t) < PriorityOf(s', ws[0])
  {
    hide Give, Disinherit, CountsRight, ItemsRight, WaitersRight;
    GiveIsExact(s, t, m);
    GivePriorities(s, t, m);
    assert BaseOf(s, t) <= PriorityOf(s, t);
  }

  lemma GivePriorities(s: State, t: Task, m: Mutex)
    ensures Give(s, t, m).priority == Disinherit(s, t).0.priority
  {
    hide RankOf;
  }

  // The scheduler has the priorities that the mutexes give, and the woken task becomes ready.
  lemma GiveWakesFirst(k: S.Kernel, s: State, m: Mutex, c: S.Config)
    requires S.Good(k, c) && k.depth == 0 && k.current in k.priority
    requires s.priority == k.priority && s.limit == c.priorities && BaseOf(s, k.current) < s.limit
    requires WaitersOf(s, m) != [] ==>
               WaitersOf(s, m)[0] in k.priority && S.EventOf(k, WaitersOf(s, m)[0]) == S.OnEventList
    ensures var k', ws := AfterGive(k, s, k.current, m), WaitersOf(s, m);
            && S.Good(k', c) && k'.priority == Give(s, k.current, m).priority && k'.current == k.current
            && forall u :: C.IsReady(k', u) <==> C.IsReady(k, u) || (ws != [] && u == ws[0])
  {
    hide S.Good, C.ChangePriority, C.RemoveFromEventList, Give;
    var t, ws := k.current, WaitersOf(s, m);
    GivePriorities(s, t, m);
    var k1 := Reprioritised(k, Disinherit(s, t).1, t, BaseOf(s, t));
    SameReady(k, t, BaseOf(s, t), c);
    if ws != [] {
      WokenReady(k1, ws[0], c);
      C.RemoveFromEventListGood(k1, ws[0], c);
    }
  }

  // A task that waits is no longer ready, and nothing else changes but the holder's priority.
  lemma WaitBlocks(k: S.Kernel, s: State, m: Mutex, w: S.Wait, c: S.Config)
    requires S.Good(k, c) && S.CanBlock(k, w, c) && s.priority == k.priority && m in s.holder
    requires s.holder[m] in k.priority && PriorityOf(s, k.current) < c.priorities && s.holder[m] != k.current
    ensures var k' := AfterWait(k, s, k.current, m, w, c);
            && S.Good(k', c) && k'.priority == Wait(s, k.current, m).priority && k'.current == k.current
            && forall u :: C.IsReady(k', u) <==> C.IsReady(k, u) && u != k.current
  {
    hide S.Good, C.ChangePriority, S.Block, S.CanBlock;
    var h := s.holder[m];
    var k1 := AfterInherit(k, s, k.current, h);
    SameReady(k, h, PriorityOf(s, k.current), c);
    StillCanBlock(k, h, PriorityOf(s, k.current), w, c);
    S.BlockGood(k1, w, c);
    BlockFields(k1, w, c);
  }

  // Lowering a holder after a time-out makes no task ready and takes none off.
  lemma GiveUpFollowed(k: S.Kernel, s: State, m: Mutex, c: S.Config)
    requires S.Good(k, c) && Inv(s) && s.priority == k.priority && s.limit == c.priorities && m in s.holder
    ensures var k' := AfterDisinherit(k, s, s.holder[m], HighestWaiting(s, m));
            && S.Good(k', c) && k'.priority == GiveUp(s, m).priority && k'.current == k.current
            && forall u :: C.IsReady(k', u) <==> C.IsReady(k, u)
  {
    hide S.Good, C.ChangePriority, HighestWaiting, ItemsRight, PrioritiesRight, WaitersRight, RankOf;
    HighestInRange(s, s.holder[m], m);
    SameReady(k, s.holder[m], PriorityToUse(s, s.holder[m], HighestWaiting(s, m)), c);
  }

  // Setting a priority asks for a switch exactly if the base of the running task goes down or that
  // of another one goes up, to the running task's priority or beyond.  What is not inherited is the
  // priority in use.
  lemma PrioritySetAsksExactly(k: S.Kernel, s: State, t: Task, priority: nat)
    requires s.priority == k.priority && t in s.priority
    ensures var s', cur := SetPriority(s, t, priority), k.current;
            && (PrioritySetYields(k, s, t, priority) <==>
                  if t == cur then BaseOf(s', t) < BaseOf(s, t)
                  else BaseOf(s', t) > BaseOf(s, t) && BaseOf(s', t) >= PriorityOf(s, cur))
            && (BaseOf(s, t) == PriorityOf(s, t) ==> BaseOf(s', t) == PriorityOf(s', t))
  {
    hide RankOf;
  }

  // The scheduler has the priority that was set, and the same tasks are ready.
  lemma PrioritySetFollowed(k: S.Kernel, s: State, t: Task, priority: nat, c: S.Config)
    requires S.Good(k, c) && t in k.priority && s.priority == k.priority && s.limit == c.priorities
    requires PriorityOf(s, t) < s.limit
    ensures var k' := AfterPrioritySet(k, s, t, priority);
            && S.Good(k', c) && k'.priority == SetPriority(s, t, priority).priority && k'.current == k.current
            && forall u :: C.IsReady(k', u) <==> C.IsReady(k, u)
  {
    hide S.Good, C.ChangePriority, RankOf;
    SameReady(k, t, UsedAfter(s, t, priority), c);
    SameUse(k.priority, t);
  }

  // Task 0 runs at an inherited 5 with base 1, task 1 is ready at 3, and task 2 waits for the mutex
  // at 1.
  function LateGiver(): S.Kernel {
    var c := S.Config(16, 6);
    S.Kernel(L.Lists(map l | l in Runs.ListIds(c) ::
                       if l == L.Ready(5) then Ring([0], 0) else if l == L.Ready(3) then Ring([1], 0)
                       else if l == L.SuspendedList then Ring([2], 0) else Ring([], 0),
                     map[0 := L.In(L.Ready(5)), 1 := L.In(L.Ready(3)), 2 := L.In(L.SuspendedList)],
                     map[0 := 0, 1 := 0, 2 := 0]),
             map[0 := 5, 1 := 3, 2 := 1], map[0 := S.NoEvent, 1 := S.NoEvent, 2 := S.OnEventList], [], true, 0, 0, 0,
             15, 5, 0, 3, 0, false)
  }

  function LateMutex(): State {
    State(6, map[0 := 5, 1 := 3, 2 := 1], map[0 := 1, 1 := 3, 2 := 1], map[0 := 1, 1 := 0, 2 := 0],
          map[0 := Rank(1), 1 := Rank(3), 2 := Rank(5)], map[10 := 0], map[10 := [2]])
  }

  lemma LateGiverLists()
    ensures L.Consistent(LateGiver().lists)
  {
    hide Runs.ListIds;
    var x := LateGiver().lists;
    assert forall l :: l in x.rings ==> Ok(x.rings[l]);
    forall l, t
      ensures t in L.Items(x, l) <==> L.ContainerOf(x, t) == L.In(l)
    {
      LateGiverItem(l, t);
    }
  }

  lemma LateGiverItem(l: L.ListId, t: Task)
    ensures t in L.Items(LateGiver().lists, l) <==> L.ContainerOf(LateGiver().lists, t) == L.In(l)
  {
    hide Runs.ListIds;
  }

  lemma LateGiverListed()
    ensures S.Listed(LateGiver(), {}, S.Config(16, 6))
  {
    hide L.Consistent;
    LateGiverLists();
  }

  lemma LateGiverDelays()
    ensures S.DelaysSorted(LateGiver(), S.Config(16, 6)) && S.OnTime(LateGiver(), S.Config(16, 6))
  {
    var k := LateGiver();
    assert L.Items(k.lists, L.DelayOne) == L.Items(k.lists, L.DelayTwo) == [];
    assert L.InOrder(k.lists, L.DelayOne) && L.InOrder(k.lists, L.DelayTwo);
  }

  lemma LateGiverTasks()
    ensures S.EventsRight(LateGiver(), {}) && S.ReadyRight(LateGiver()) && R.RunsHighest(LateGiver())
  {
  }

  lemma LateGiverGood()
    ensures S.Good(LateGiver(), S.Config(16, 6)) && R.RunsHighest(LateGiver())
  {
    hide S.Listed, S.DelaysSorted, S.OnTime, S.EventsRight, S.ReadyRight, R.RunsHighest;
    LateGiverListed();
    LateGiverDelays();
    LateGiverTasks();
  }

  lemma LateMutexCounts()
    ensures CountsRight(LateMutex()) && ItemsRight(LateMutex())
  {
    var s := LateMutex();
    assert Owned(s, 0) == {10};
    assert forall t :: t != 0 ==> Owned(s, t) == {};
  }

  lemma LateMutexRight()
    ensures Inv(LateMutex())
  {
    hide CountsRight, ItemsRight, Owned;
    LateMutexCounts();
  }

  // It gives the mutex and goes on running below task 1.
  lemma GiveForgetsYield()
    ensures var k, s, c := LateGiver(), LateMutex(), S.Config(16, 6);
            && S.Good(k, c) && R.RunsHighest(k) && Inv(s)
            && !GiveYields(s, 0, 10) && !R.RunsHighest(AfterGive(k, s, 0, 10))
  {
    hide S.Good, R.RunsHighest, Inv, AfterGive;
    LateGiverGood();
    LateMutexRight();
    LateGiverReady();
    GiveKeepsHighestIff(LateGiver(), LateMutex(), 10, S.Config(16, 6));
  }

  lemma LateGiverReady()
    ensures var k := LateGiver();
            C.IsReady(k, 1) && k.current == 0 && k.depth == 0 && S.EventOf(k, 2) == S.OnEventList
            && k.priority == LateMutex().priority && 2 in k.priority
  {
  }

  // ----- In place ---------------------------------------------------------------------------------------

  // The task control blocks and mutexes, as far as inheritance uses them.
  class MutexTasks {
    const scheduler: TaskSchedulers.TaskScheduler
    var uxBasePriority: map<Task, nat>
    var uxMutexesHeld: map<Task, nat>
    var xEventListItem: map<Task, Item>
    var xMutexHolder: map<Mutex, Task>
    var xTasksWaitingToReceive: map<Mutex, seq<Task>>

    ghost function View(): State
      reads this, scheduler
    {
      State(scheduler.c.priorities, scheduler.priority, uxBasePriority, uxMutexesHeld, xEventListItem, xMutexHolder,
            xTasksWaitingToReceive)
    }

    // Tasks as prvInitialiseNewTask leaves them, and no mutex
    constructor (scheduler: TaskSchedulers.TaskScheduler)
      ensures this.scheduler == scheduler && View() == Initial(scheduler.c.priorities, scheduler.priority)
    {
      this.scheduler := scheduler;
      uxBasePriority := scheduler.priority;
      uxMutexesHeld := map t | t in scheduler.priority :: 0;
      xEventListItem := map t | t in scheduler.priority :: RankOf(scheduler.c.priorities, scheduler.priority[t]);
      xMutexHolder, xTasksWaitingToReceive := map[], map[];
    }

    // What is there for every task
    ghost predicate Known(t: Task)
      reads this, scheduler
    {
      && t in scheduler.priority && t in uxBasePriority && t in uxMutexesHeld && t in xEventListItem
      && scheduler.priority[t] < scheduler.c.priorities && uxBasePriority[t] < scheduler.c.priorities
    }

    // The mutex branch of xQueueSemaphoreTake: pvTaskIncrementMutexHeldCount and the new holder
    method TakeMutex(m: Mutex)
      requires Known(scheduler.pxCurrentTCB)
      modifies this`uxMutexesHeld, this`xMutexHolder
      ensures View() == Take(old(View()), scheduler.pxCurrentTCB, m)
    {
      var t := scheduler.pxCurrentTCB;
      uxMutexesHeld := uxMutexesHeld[t := uxMutexesHeld[t] + 1];
      xMutexHolder := xMutexHolder[m := t];
    }

    // listSET_LIST_ITEM_VALUE of the event item, unless it is being used for something else
    method SetItemValue(t: Task, uxNewPriority: nat)
      requires t in xEventListItem && uxNewPriority < scheduler.c.priorities
      modifies this`xEventListItem
      ensures View() == Written(old(View()), t, uxNewPriority)
    {
      if xEventListItem[t] != InUse {
        xEventListItem := xEventListItem[t := Rank(scheduler.c.priorities - uxNewPriority)];
      }
    }

    // Another uxPriority, and the move to the ready list that goes with it
    method UsePriority(t: Task, uxNewPriority: nat)
      requires scheduler.Valid() && t in scheduler.priority && uxNewPriority < scheduler.c.priorities
      modifies scheduler
      ensures scheduler.Valid() && scheduler.View() == C.ChangePriority(old(scheduler.View()), t, uxNewPriority)
      ensures scheduler.priority == old(scheduler.priority)[t := uxNewPriority]
      ensures scheduler.pxCurrentTCB == old(scheduler.pxCurrentTCB)
    {
      ReprioritisedFields(scheduler.View(), t, uxNewPriority);
      scheduler.UsePriority(t, uxNewPriority);
    }

    // xTaskPriorityInherit
    method PriorityInherit(pxMutexHolder: Task) returns (xReturn: bool)
      requires scheduler.Valid() && Known(scheduler.pxCurrentTCB) && Known(pxMutexHolder)
      modifies this`xEventListItem, scheduler
      ensures scheduler.Valid() && scheduler.pxCurrentTCB == old(scheduler.pxCurrentTCB)
      ensures (View(), xReturn) == Inherit(old(View()), scheduler.pxCurrentTCB, pxMutexHolder)
      ensures scheduler.View() == old(AfterInherit(scheduler.View(), View(), scheduler.pxCurrentTCB, pxMutexHolder))
    {
      hide S.Good, C.ChangePriority;
      var uxPriority := scheduler.priority[scheduler.pxCurrentTCB];
      xReturn := false;
      if scheduler.priority[pxMutexHolder] < uxPriority {
        SetItemValue(pxMutexHolder, uxPriority);
        UsePriority(pxMutexHolder, uxPriority);
        xReturn := true;
      } else {
        if uxBasePriority[pxMutexHolder] < uxPriority {
          xReturn := true;
        }
      }
    }

    // The running task may block on a mutex that another one holds.
    ghost predicate MayWait(m: Mutex, w: S.Wait)
      reads this, scheduler
    {
      && Known(scheduler.pxCurrentTCB) && S.CanBlock(scheduler.View(), w, scheduler.c)
      && m in xMutexHolder && Known(xMutexHolder[m]) && xMutexHolder[m] != scheduler.pxCurrentTCB
      && m in xTasksWaitingToReceive && forall t :: t in xTasksWaitingToReceive[m] ==> t in xEventListItem
    }

    // The branch of xQueueSemaphoreTake that waits: inheritance, then vTaskPlaceOnEventList, whose
    // vListInsert searches the place by item value.
    method WaitForMutex(m: Mutex, xTicksToWait: nat) returns (xInheritanceOccurred: bool)
      requires scheduler.Valid() && MayWait(m, S.Wait(true, xTicksToWait, true))
      modifies this`xEventListItem, this`xTasksWaitingToReceive, scheduler
      ensures scheduler.Valid() && scheduler.pxCurrentTCB == old(scheduler.pxCurrentTCB)
      ensures View() == Wait(old(View()), scheduler.pxCurrentTCB, m)
      ensures xInheritanceOccurred == Inherit(old(View()), scheduler.pxCurrentTCB, HolderOf(View(), m)).1
      ensures scheduler.View() == old(AfterWait(scheduler.View(), View(), scheduler.pxCurrentTCB, m,
                                                S.Wait(true, xTicksToWait, true), scheduler.c))
    {
      hide S.Good, C.ChangePriority, S.Block;
      var t := scheduler.pxCurrentTCB;
      ReprioritisedFields(scheduler.View(), xMutexHolder[m], PriorityOf(View(), t));
      StillCanBlock(scheduler.View(), xMutexHolder[m], PriorityOf(View(), t), S.Wait(true, xTicksToWait, true),
                    scheduler.c);
      xInheritanceOccurred := PriorityInherit(xMutexHolder[m]);
      var ws := xTasksWaitingToReceive[m];
      var k := FindPlace(ws, t);
      xTasksWaitingToReceive := xTasksWaitingToReceive[m := ws[..k] + [t] + ws[k..]];
      BlockFields(scheduler.View(), S.Wait(true, xTicksToWait, true), scheduler.c);
      scheduler.PlaceOnEventList(xTicksToWait);
    }

    // Behind every task whose item value is not larger.
    method FindPlace(ws: seq<Task>, t: Task) returns (k: nat)
      requires t in xEventListItem && forall w :: w in ws ==> w in xEventListItem
      ensures k == SortedPlace(Keys(View(), ws), KeyOf(View(), t))
    {
      k := 0;
      ghost var keys := Keys(View(), ws);
      while k < |ws| && ItemValue(ws[k]) <= ItemValue(t)
        invariant k <= |ws| && forall i :: 0 <= i < k ==> keys[i] <= KeyOf(View(), t)
      {
        k := k + 1;
      }
      PlaceIsUnique(keys, KeyOf(View(), t), k);
    }

    function ItemValue(t: Task): (v: nat)
      requires t in xEventListItem
      reads this, scheduler
      ensures v == KeyOf(View(), t)
    {
      match xEventListItem[t]
      case Rank(v) => v
      case InUse => scheduler.c.priorities + 1
    }

    // xTaskPriorityDisinherit of the running task
    method PriorityDisinherit() returns (xReturn: bool)
      requires scheduler.Valid() && Known(scheduler.pxCurrentTCB) && uxMutexesHeld[scheduler.pxCurrentTCB] > 0
      modifies this`uxMutexesHeld, this`xEventListItem, scheduler
      ensures scheduler.Valid() && scheduler.pxCurrentTCB == old(scheduler.pxCurrentTCB)
      ensures (View(), xReturn) == Disinherit(old(View()), scheduler.pxCurrentTCB)
      ensures scheduler.View() ==
              Reprioritised(old(scheduler.View()), xReturn, scheduler.pxCurrentTCB,
                            uxBasePriority[scheduler.pxCurrentTCB])
    {
      hide S.Good, C.ChangePriority;
      var pxTCB := scheduler.pxCurrentTCB;
      xReturn := false;
      uxMutexesHeld := uxMutexesHeld[pxTCB := uxMutexesHeld[pxTCB] - 1];
      if scheduler.priority[pxTCB] != uxBasePriority[pxTCB] {
        if uxMutexesHeld[pxTCB] == 0 {
          UsePriority(pxTCB, uxBasePriority[pxTCB]);
          xEventListItem := xEventListItem[pxTCB := Rank(scheduler.c.priorities - uxBasePriority[pxTCB])];
          xReturn := true;
        }
      }
    }

    // prvGetDisinheritPriorityAfterTimeout
    method GetDisinheritPriorityAfterTimeout(m: Mutex) returns (uxHighestPriorityOfWaitingTasks: nat)
      requires m in xTasksWaitingToReceive
      requires xTasksWaitingToReceive[m] != [] ==>
                 var w := xTasksWaitingToReceive[m][0];
                 w in xEventListItem && ItemValue(w) <= scheduler.c.priorities
      ensures uxHighestPriorityOfWaitingTasks == HighestWaiting(View(), m)
    {
      if |xTasksWaitingToReceive[m]| > 0 {
        uxHighestPriorityOfWaitingTasks := scheduler.c.priorities - ItemValue(xTasksWaitingToReceive[m][0]);
      } else {
        uxHighestPriorityOfWaitingTasks := 0;
      }
    }

    // vTaskPriorityDisinheritAfterTimeout
    method PriorityDisinheritAfterTimeout(pxTCB: Task, uxHighestPriorityWaitingTask: nat)
      requires scheduler.Valid() && Known(pxTCB) && uxHighestPriorityWaitingTask < scheduler.c.priorities
      modifies this`xEventListItem, scheduler
      ensures scheduler.Valid() && View() == DisinheritAfterTimeout(old(View()), pxTCB, uxHighestPriorityWaitingTask)
      ensures scheduler.View() == old(AfterDisinherit(scheduler.View(), View(), pxTCB, uxHighestPriorityWaitingTask))
    {
      hide S.Good, C.ChangePriority;
      var uxPriorityToUse: nat;
      if uxBasePriority[pxTCB] < uxHighestPriorityWaitingTask {
        uxPriorityToUse := uxHighestPriorityWaitingTask;
      } else {
        uxPriorityToUse := uxBasePriority[pxTCB];
      }
      if scheduler.priority[pxTCB] != uxPriorityToUse {
        if uxMutexesHeld[pxTCB] == 1 {
          SetItemValue(pxTCB, uxPriorityToUse);
          UsePriority(pxTCB, uxPriorityToUse);
        }
      }
    }

    // The mutex branch of xQueueGenericSend: a waiter that is woken decides alone whether to yield.
    method GiveMutex(m: Mutex) returns (yieldNow: bool)
      requires scheduler.Valid() && Known(scheduler.pxCurrentTCB) && uxMutexesHeld[scheduler.pxCurrentTCB] > 0
      requires m in xMutexHolder && xMutexHolder[m] == scheduler.pxCurrentTCB && m in xTasksWaitingToReceive
      requires xTasksWaitingToReceive[m] != [] ==>
                 var w := xTasksWaitingToReceive[m][0];
                 w in scheduler.priority && S.EventOf(scheduler.View(), w) == S.OnEventList
      modifies this, scheduler
      ensures scheduler.Valid() && scheduler.pxCurrentTCB == old(scheduler.pxCurrentTCB)
      ensures View() == Give(old(View()), scheduler.pxCurrentTCB, m)
      ensures scheduler.View() == old(AfterGive(scheduler.View(), View(), scheduler.pxCurrentTCB, m))
      ensures yieldNow == GiveYields(old(View()), scheduler.pxCurrentTCB, m)
    {
      hide S.Good, C.ChangePriority, C.RemoveFromEventList;
      ReprioritisedFields(scheduler.View(), scheduler.pxCurrentTCB, uxBasePriority[scheduler.pxCurrentTCB]);
      var xYieldRequired := PriorityDisinherit();
      xMutexHolder := xMutexHolder - {m};
      if xTasksWaitingToReceive[m] != [] {
        var w := xTasksWaitingToReceive[m][0];
        xTasksWaitingToReceive := xTasksWaitingToReceive[m := xTasksWaitingToReceive[m][1..]];
        FreedFields(scheduler.View(), w);
        yieldNow := scheduler.RemoveFromEventList(w);
      } else {
        yieldNow := xYieldRequired;
      }
    }

    // vTaskPrioritySet
    method PrioritySet(pxTCB: Task, priority: nat) returns (xYieldRequired: bool)
      requires scheduler.Valid() && Known(pxTCB) && Known(scheduler.pxCurrentTCB)
      modifies this`uxBasePriority, this`xEventListItem, scheduler
      ensures scheduler.Valid() && View() == SetPriority(old(View()), pxTCB, priority)
      ensures scheduler.View() == AfterPrioritySet(old(scheduler.View()), old(View()), pxTCB, priority)
      ensures xYieldRequired == PrioritySetYields(old(scheduler.View()), old(View()), pxTCB, priority)
    {
      hide S.Good, C.ChangePriority;
      xYieldRequired := false;
      var uxNewPriority := priority;
      if uxNewPriority >= scheduler.c.priorities {
        uxNewPriority := scheduler.c.priorities - 1;
      }
      var uxCurrentBasePriority := uxBasePriority[pxTCB];
      if uxCurrentBasePriority != uxNewPriority {
        if uxNewPriority > uxCurrentBasePriority {
          if pxTCB != scheduler.pxCurrentTCB {
            if uxNewPriority >= scheduler.priority[scheduler.pxCurrentTCB] {
              xYieldRequired := true;
            }
          }
        } else if pxTCB == scheduler.pxCurrentTCB {
          xYieldRequired := true;
        }
        var uxPriority := scheduler.priority[pxTCB];
        if uxBasePriority[pxTCB] == scheduler.priority[pxTCB] {
          uxPriority := uxNewPriority;
        }
        uxBasePriority := uxBasePriority[pxTCB := uxNewPriority];
        SetItemValue(pxTCB, uxNewPriority);
        SameUse(scheduler.priority, pxTCB);
        UsePriority(pxTCB, uxPriority);
      }
    }
  }
}
