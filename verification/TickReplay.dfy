/**
 Suspending the scheduler does not make ticks slip: the ticks made up for when it is resumed
 lead where they would have led at once.
 */
module TickReplay {
  import Rings
  import opened TaskLists
  import opened Schedulers
  import opened TaskControl
  import opened TaskRuns

  // Two kernels that agree on everything but the order within the ready lists, the running
  // task, the recorded top priority and what is put off.
  ghost predicate Same(k: Kernel, k': Kernel) {
    && k'.lists.container == k.lists.container && k'.lists.value == k.lists.value
    && Items(k'.lists, DelayOne) == Items(k.lists, DelayOne) && Items(k'.lists, DelayTwo) == Items(k.lists, DelayTwo)
    && k'.priority == k.priority && k'.event == k.event && k'.first == k.first && k'.count == k.count
    && k'.tick == k.tick && k'.overflows == k.overflows && k'.nextUnblock == k.nextUnblock
  }

  // So they have the same tasks ready at every priority.
  lemma SameReadySets(k: Kernel, k': Kernel, p: nat, t: Task, c: Config)
    requires Steady(k, c) && Steady(k', c) && Same(k, k')
    ensures t in ReadyItems(k', p) <==> t in ReadyItems(k, p)
  {
    hide Sound, OnTime;
    OnItsList(k, {}, Ready(p), t, c);
    OnItsList(k', {}, Ready(p), t, c);
  }

  // ----- The same tick on both --------------------------------------------------------------

  lemma UnblockedItems(k: Kernel, t: Task, l: ListId, c: Config)
    requires Sound(k, {}, c) && t in k.priority && (l == DelayOne || l == DelayTwo)
    ensures Items(Unblocked(k, t).lists, l) ==
            if Place(k, t) == In(l) then Rings.Without(Items(k.lists, l), t) else Items(k.lists, l)
  {
    hide Sound, AddedToReady, WithoutEvent, Rings.IndexOf, Rings.Without, UnblockedAll;
    TakenOffSound(k, {}, t, c);
    var k1 := TakenOff(k, t);
    assert {} + {t} == {t};
    CurrentIsTask(k1, {t}, c);
    WithoutEventSound(k1, {t}, t, c);
    WithoutEventFields(k1, t);
    AddedToReadySound(WithoutEvent(k1, t), {}, t, c);
    var k2 := AddedToReady(WithoutEvent(k1, t), t);
    OnItsList(k, {}, l, t, c);
    if t in Items(k.lists, l) {
      Rings.WithoutAt(Items(k.lists, l), t);
    }
  }

  lemma {:induction false} UnblockedAllSame(k: Kernel, k': Kernel, s: seq<Task>, c: Config)
    requires Sound(k, {}, c) && Sound(k', {}, c) && Same(k, k') && forall t :: t in s ==> t in k.priority
    ensures Same(UnblockedAll(k, s), UnblockedAll(k', s))
    decreases |s|
  {
    hide Sound, Unblocked;
    if s != [] {
      var t := s[0];
      UnblockedSound(k, t, c);
      UnblockedSound(k', t, c);
      UnblockedFields(k, t);
      UnblockedFields(k', t);
      UnblockedItems(k, t, DelayOne, c);
      UnblockedItems(k, t, DelayTwo, c);
      UnblockedItems(k', t, DelayOne, c);
      UnblockedItems(k', t, DelayTwo, c);
      UnblockedAllSame(Unblocked(k, t), Unblocked(k', t), s[1..], c);
    }
  }

  lemma TickedSame(k: Kernel, k': Kernel, c: Config)
    requires Same(k, k')
    ensures Same(Ticked(k, c), Ticked(k', c))
  {
    hide ContainerOf, ValueOf;
  }

  lemma TickSame(k: Kernel, k': Kernel, c: Config)
    requires Steady(k, c) && Steady(k', c) && Same(k, k')
    ensures Same(TickProcessed(k, c), TickProcessed(k', c))
  {
    hide Sound, Ticked, UnblockedAll;
    var k1, k1' := Ticked(k, c), Ticked(k', c);
    TickedSame(k, k', c);
    TickedMoved(k, c);
    TickedMoved(k', c);
    assert DueTasks(k1) == DueTasks(k1');
    if k1.tick >= k1.nextUnblock {
      DueAreTasks(k1, c);
      UnblockedAllSame(k1, k1', DueTasks(k1), c);
    }
  }

  lemma DueAreTasks(k: Kernel, c: Config)
    requires Sound(k, {}, c)
    ensures forall t :: t in DueTasks(k) ==> t in k.priority
  {
    hide Sound;
    forall t | t in DueTasks(k)
      ensures t in k.priority
    {
      assert t in DelayedItems(k);
      ListedIsTask(k, DelayedId(k), t, c);
    }
  }

  lemma SwitchSame(k: Kernel, idle: Task, c: Config)
    requires Good(k, c) && IsReady(k, idle)
    ensures Same(k, SwitchContext(k))
  {
    hide Sound, OnTime, NextEntry;
    if k.depth == 0 {
      var k1 := k.(yieldPending := false);
      var p := HighestReady(k, k.top);
      SomethingToSelect(k, idle, c);
      CurrentIsTask(k, {}, c);
      SameSound(k, k1, {}, c);
      SameHighest(k, k1, k.top);
      NextEntrySound(k1, p, c);
      NextEntryContainers(k1, p);
    }
  }

  lemma NextEntryContainers(k: Kernel, p: nat)
    ensures NextEntry(k, p).lists.container == k.lists.container
  {
  }

  // ----- Ticks at once and ticks put off ---------------------------------------------------------

  // Interrupts and context switches
  predicate TicksOnly(events: seq<Event>) {
    forall e :: e in events ==> e == TickInterrupt || e == Switch
  }

  lemma TicksOnlyAfter(events: seq<Event>)
    requires TicksOnly(events) && events != []
    ensures TicksOnly(events[1..]) && (events[0] == TickInterrupt || events[0] == Switch)
  {
    assert events[0] in events;
    forall e | e in events[1..]
      ensures e in events
    {
    }
  }

  // Ticks processed at once, with any context switches between them, lead to the same as the
  // loop that replays them.
  lemma {:induction false} AtOnce(k: Kernel, r: Kernel, events: seq<Event>, k': Kernel, idle: Task, c: Config)
    requires Good(k, c) && IsReady(k, idle) && k.depth == 0 && TicksOnly(events)
    requires Steady(r, c) && r.pending == [] && Same(k, r)
    requires Reaches(k, events, k', idle, c)
    ensures Same(k', Replayed(r, Interrupts(events), c)) && Good(k', c) && k'.depth == 0
    decreases |events|
  {
    hide Good, Steady, Step, TickProcessed, TickSwitches, SwitchContext;
    if events != [] {
      var e := events[0];
      var k1 := Step(k, e, c);
      TicksOnlyAfter(events);
      StepGood(k, e, idle, c);
      IdleStaysReady(k, e, idle, c);
      if e == Switch {
        SwitchIs(k, c);
        SwitchSame(k, idle, c);
        assert Same(k1, r);
        AtOnce(k1, r, events[1..], k', idle, c);
      } else {
        var r1 := TickProcessed(r, c).(yieldPending := r.yieldPending || TickSwitches(r, c));
        InterruptIs(k, c);
        SteadyOfGood(k, c);
        TickSame(k, r, c);
        TickFields(k, c);
        TickEffect(r, c);
        TickPending(r, c);
        SteadyYield(TickProcessed(r, c), r.yieldPending || TickSwitches(r, c), c);
        AtOnce(k1, r1, events[1..], k', idle, c);
      }
    }
  }

  lemma SwitchIs(k: Kernel, c: Config)
    ensures Step(k, Switch, c) == SwitchContext(k) && SwitchContext(k).depth == k.depth
  {
  }

  // While the scheduler is suspended ticks are only counted and switches only noted.
  lemma {:induction false} PutOff(k: Kernel, events: seq<Event>, k': Kernel, idle: Task, c: Config)
    requires k.depth > 0 && TicksOnly(events) && Reaches(k, events, k', idle, c)
    ensures k' == k.(pended := k.pended + Interrupts(events), yieldPending := k'.yieldPending)
    decreases |events|
  {
    if events != [] {
      TicksOnlyAfter(events);
      PutOff(Step(k, events[0], c), events[1..], k', idle, c);
    }
  }

  // Any number of ticks while the scheduler is suspended, made up for by resuming it, lead to
  // the same as that many ticks without suspension: tick count, overflows, delayed lists and the
  // sets of ready tasks.
  lemma ReplayIsExact(k: Kernel, putOff: seq<Event>, k1: Kernel, atOnce: seq<Event>, k2: Kernel, idle: Task, c: Config)
    requires Good(k, c) && IsReady(k, idle) && k.depth == 0
    requires TicksOnly(putOff) && Reaches(SuspendAll(k), putOff, k1, idle, c)
    requires TicksOnly(atOnce) && Reaches(k, atOnce, k2, idle, c) && Interrupts(atOnce) == Interrupts(putOff)
    ensures Same(k2, ResumeAll(k1, c))
    ensures ResumeAll(k1, c).depth == 0 && ResumeAll(k1, c).pended == 0
    ensures forall p: nat, t :: t in ReadyItems(ResumeAll(k1, c), p) <==> t in ReadyItems(k2, p)
  {
    hide Good, Steady, PendingMoved, Replayed;
    var n := Interrupts(putOff);
    PutOff(SuspendAll(k), putOff, k1, idle, c);
    GoodIs(k, c);
    SteadyYield(k, k1.yieldPending, c);
    SteadyFields(k.(yieldPending := k1.yieldPending), 0, n, c);
    var r := k.(yieldPending := k1.yieldPending, depth := 0, pended := n);
    assert r == k1.(depth := 0) && Steady(r, c);
    NothingMoved(r, c);
    AtOnce(k, r, atOnce, k2, idle, c);
    CountsCurrent(k, c);
    ReplayedSteady(r, n, c);
    assert ResumeAll(k1, c) == Replayed(r, n, c).(pended := 0);
    SameSets(k2, Replayed(r, n, c), c);
  }

  lemma NothingMoved(k: Kernel, c: Config)
    requires k.pending == []
    ensures PendingMoved(k, c) == k
  {
  }

  lemma SameSets(k: Kernel, k': Kernel, c: Config)
    requires Good(k, c) && Steady(k', c) && Same(k, k')
    ensures forall p: nat, t :: t in ReadyItems(k'.(pended := 0), p) <==> t in ReadyItems(k, p)
  {
    hide Steady, Same;
    GoodIs(k, c);
    forall p: nat, t
      ensures t in ReadyItems(k', p) <==> t in ReadyItems(k, p)
    {
      SameReadySets(k, k', p, t, c);
    }
  }

  // ----- The running task is still the most important one ------------------------------------------

  // The current task is ready and no ready task exceeds it.
  ghost predicate RunsHighest(k: Kernel) {
    IsReady(k, k.current) && forall t :: IsReady(k, t) ==> k.priority[t] <= k.priority[k.current]
  }

  // Tasks that become ready are harmless if none is as high as the current one.
  lemma NoneAsHigh(k: Kernel, k': Kernel, s: seq<Task>)
    requires RunsHighest(k) && k'.priority == k.priority && k'.current == k.current && !AnyAsHigh(k, s)
    requires forall u :: u in s ==> u in k.priority
    requires forall u :: Place(k', u) == if u in s then In(Ready(PriorityOf(k, u))) else Place(k, u)
    ensures RunsHighest(k')
  {
    forall t | IsReady(k', t)
      ensures k.priority[t] <= k.priority[k.current]
    {
      if t in s {
        var i :| 0 <= i < |s| && s[i] == t;
        assert PriorityOf(k, s[i]) < PriorityOf(k, k.current);
      } else {
        assert IsReady(k, t);
      }
    }
  }

  // If a tick does not ask for a context switch none is needed.
  lemma TickKeepsHighest(k: Kernel, c: Config)
    requires Steady(k, c) && RunsHighest(k) && !TickSwitches(k, c)
    ensures RunsHighest(TickProcessed(k, c))
  {
    hide Sound, RunsHighest, AnyAsHigh, UnblockedAll, Ticked, DueTasks;
    var k1 := Ticked(k, c);
    TickedMoved(k, c);
    TickFields(k, c);
    TickedHighest(k, c);
    if k1.tick >= k1.nextUnblock {
      var s := DueTasks(k1);
      DueAreTasks(k1, c);
      UnblockedAllSound(k1, s, c);
      NoneAsHigh(k1, UnblockedAll(k1, s), s);
      ResetHighest(UnblockedAll(k1, s), c);
    }
  }

  lemma TickedHighest(k: Kernel, c: Config)
    requires RunsHighest(k)
    ensures RunsHighest(Ticked(k, c))
  {
    var k1 := Ticked(k, c);
    assert forall t :: IsReady(k1, t) <==> IsReady(k, t);
  }

  lemma ResetHighest(k: Kernel, c: Config)
    requires RunsHighest(k)
    ensures RunsHighest(ResetUnblock(k, c))
  {
    assert forall t :: IsReady(ResetUnblock(k, c), t) <==> IsReady(k, t);
  }

  lemma FieldsHighest(k: Kernel, k': Kernel)
    requires RunsHighest(k) && k'.lists == k.lists && k'.priority == k.priority && k'.current == k.current
    ensures RunsHighest(k')
  {
    assert forall t :: IsReady(k', t) <==> IsReady(k, t);
  }

  lemma {:induction false} ReplayKeepsHighest(k: Kernel, n: nat, c: Config)
    requires Steady(k, c) && k.pending == [] && RunsHighest(k) && !Replayed(k, n, c).yieldPending
    ensures RunsHighest(Replayed(k, n, c)) && !k.yieldPending
    decreases n
  {
    hide Steady, RunsHighest, TickProcessed, TickSwitches;
    if n > 0 {
      var k1 := TickProcessed(k, c);
      var y := k.yieldPending || TickSwitches(k, c);
      TickEffect(k, c);
      TickPending(k, c);
      SteadyYield(k1, y, c);
      YieldSticks(k1.(yieldPending := y), n - 1, c);
      TickKeepsHighest(k, c);
      FieldsHighest(k1, k1.(yieldPending := y));
      ReplayKeepsHighest(k1.(yieldPending := y), n - 1, c);
    }
  }

  lemma {:induction false} YieldSticks(k: Kernel, n: nat, c: Config)
    ensures k.yieldPending ==> Replayed(k, n, c).yieldPending
    decreases n
  {
    hide TickProcessed, TickSwitches;
    if n > 0 {
      YieldSticks(TickProcessed(k, c).(yieldPending := k.yieldPending || TickSwitches(k, c)), n - 1, c);
    }
  }

  // If resuming the scheduler leaves no yield pending, the running task need not be switched,
  // whatever became ready meanwhile.
  lemma ResumeKeepsHighest(k: Kernel, c: Config)
    requires Good(k, c) && k.depth == 1 && RunsHighest(k) && !ResumeAll(k, c).yieldPending
    ensures RunsHighest(ResumeAll(k, c))
  {
    hide Steady, RunsHighest, PendingMoved, Replayed;
    GoodIs(k, c);
    CountsCurrent(k, c);
    var k0 := k.(depth := 0);
    SteadyFields(k, 0, k.pended, c);
    assert k.(depth := 0, pended := k.pended) == k0;
    FieldsHighest(k, k0);
    PendingMovedSteady(k0, c);
    var k1 := PendingMoved(k0, c);
    YieldSticks(k1, k.pended, c);
    PendingKeepsHighest(k0, c);
    ReplayKeepsHighest(k1, k.pended, c);
    FieldsHighest(Replayed(k1, k.pended, c), ResumeAll(k, c));
  }

  lemma PendingKeepsHighest(k: Kernel, c: Config)
    requires Steady(k, c) && RunsHighest(k) && !PendingMoved(k, c).yieldPending
    ensures RunsHighest(PendingMoved(k, c))
  {
    hide Sound, RunsHighest, AnyAsHigh, UnblockedAll;
    var s := k.pending;
    PendingAreTasks(k, c);
    UnblockedAllSound(k, s, c);
    NoneAsHigh(k, UnblockedAll(k, s), s);
    FieldsHighest(UnblockedAll(k, s), PendingMoved(k, c));
  }

  // If freeing a task from an event list leaves no yield pending, the running task is still the
  // most important one.
  lemma FreeKeepsHighest(k: Kernel, t: Task, c: Config)
    requires Good(k, c) && k.depth == 0 && RunsHighest(k)
    requires t in k.priority && EventOf(k, t) == OnEventList && !RemoveFromEventList(k, t).yieldPending
    ensures RunsHighest(RemoveFromEventList(k, t))
  {
    hide Good, RunsHighest, AddedToReady, TakenOff, WithoutEvent;
    var k1 := AddedToReady(TakenOff(WithoutEvent(k, t), t), t);
    MadeReady(k, t, c);
    OneMoreReady(k, k1, t);
    FieldsHighest(k1, RemoveFromEventList(k, t));
  }

  lemma OneMoreReady(k: Kernel, k': Kernel, t: Task)
    requires RunsHighest(k) && k'.priority == k.priority && k'.current == k.current && t in k.priority
    requires k'.lists.container == k.lists.container[t := In(Ready(k.priority[t]))]
    requires k.priority[t] <= PriorityOf(k, k.current)
    ensures RunsHighest(k')
  {
    forall u | IsReady(k', u)
      ensures k.priority[u] <= k.priority[k.current]
    {
      assert u != t ==> IsReady(k, u);
    }
  }

  // ----- When a context switch is asked for --------------------------------------------------------

  // A task that was not ready and is.
  predicate BecameReady(k: Kernel, k': Kernel, t: Task) {
    IsReady(k', t) && !IsReady(k, t)
  }

  // One that became ready is at least as important as the running task.
  ghost predicate Challenged(k: Kernel, k': Kernel) {
    exists t :: BecameReady(k, k', t) && PriorityOf(k, t) >= PriorityOf(k, k.current)
  }

  predicate ReadyAt(k: Kernel, t: Task, p: nat) {
    IsReady(k, t) && PriorityOf(k, t) == p
  }

  // The priority of the running task is shared.
  ghost predicate Shared(k: Kernel) {
    exists t, u :: t != u && ReadyAt(k, t, PriorityOf(k, k.current)) && ReadyAt(k, u, PriorityOf(k, k.current))
  }

  // A processed tick asks for a switch exactly if a yield was pending, if the priority of the
  // running task is shared (time slicing), or if it made a task ready that is as important.
  lemma TickAsksExactly(k: Kernel, c: Config)
    requires Steady(k, c)
    ensures TickSwitches(k, c) <==> k.yieldPending || Shared(TickProcessed(k, c)) || Challenged(k, TickProcessed(k, c))
  {
    hide Sound, OnTime, AnyAsHigh, TickProcessed, Ticked, DueTasks, Shared, Challenged;
    var k1, k2 := Ticked(k, c), TickProcessed(k, c);
    TickEffect(k, c);
    TickFields(k, c);
    TickedMoved(k, c);
    SharedIsLength(k2, c);
    DueChallenge(k, c);
  }

  lemma SharedIsLength(k: Kernel, c: Config)
    requires Steady(k, c)
    ensures Shared(k) <==> |ReadyItems(k, PriorityOf(k, k.current))| > 1
  {
    hide Steady;
    var p := PriorityOf(k, k.current);
    var s := ReadyItems(k, p);
    ReadyItemsAre(k, p, c);
    if |s| > 1 {
      assert s[0] in s && s[1] in s;
      assert ReadyAt(k, s[0], p) && ReadyAt(k, s[1], p);
    }
  }

  // The ready list of a priority holds exactly the ready tasks of that priority, each once.
  lemma ReadyItemsAre(k: Kernel, p: nat, c: Config)
    requires Steady(k, c)
    ensures Rings.Distinct(ReadyItems(k, p)) && forall t :: t in ReadyItems(k, p) <==> ReadyAt(k, t, p)
  {
    hide Sound, OnTime, Rings.Distinct;
    if Ready(p) in k.lists.rings {
      RingOk(k, Ready(p), c);
      OkIsDistinct(k.lists.rings[Ready(p)]);
    } else {
      assert Rings.Distinct<Task>([]) by {
        NoneDistinct();
      }
    }
    forall t
      ensures t in ReadyItems(k, p) <==> ReadyAt(k, t, p)
    {
      OnItsList(k, {}, Ready(p), t, c);
      if t in ReadyItems(k, p) {
        ListedIsTask(k, Ready(p), t, c);
        ReadyHasItsPriority(k, t, c);
      }
    }
  }

  lemma NoneDistinct()
    ensures Rings.Distinct<Task>([])
  {
  }

  // The tasks that a tick makes ready are those found due.
  lemma DueChallenge(k: Kernel, c: Config)
    requires Steady(k, c)
    ensures var k1 := Ticked(k, c);
            Challenged(k, TickProcessed(k, c)) <==> k1.tick >= k1.nextUnblock && AnyAsHigh(k1, DueTasks(k1))
  {
    hide Sound, OnTime, TickProcessed, Ticked, DueTasks, Moved, Steady;
    var k1, k2 := Ticked(k, c), TickProcessed(k, c);
    TickEffect(k, c);
    TickedMoved(k, c);
    DueExactly(k1, c);
    TickedCurrent(k, c);
    forall t
      ensures BecameReady(k, k2, t) <==> t in DueTasks(k1)
    {
      assert Due(k1, t) ==> Place(k, t) != In(Ready(PriorityOf(k, t)));
    }
    AsHighMember(k1, DueTasks(k1));
  }

  lemma TickedCurrent(k: Kernel, c: Config)
    ensures Ticked(k, c).current == k.current && Ticked(k, c).priority == k.priority
    ensures forall t :: Place(Ticked(k, c), t) == Place(k, t)
  {
  }

  lemma AsHighMember(k: Kernel, s: seq<Task>)
    ensures AnyAsHigh(k, s) <==> exists t :: t in s && PriorityOf(k, t) >= PriorityOf(k, k.current)
  {
    if t :| t in s && PriorityOf(k, t) >= PriorityOf(k, k.current) {
      var i :| 0 <= i < |s| && s[i] == t;
    }
    if i :| 0 <= i < |s| && PriorityOf(k, s[i]) >= PriorityOf(k, k.current) {
      assert s[i] in s;
    }
  }

  // Ready tasks stay ready, and nothing else that decides about a switch changes.
  ghost predicate Grows(k: Kernel, k': Kernel) {
    && k'.priority == k.priority && k'.current == k.current
    && forall t :: IsReady(k, t) ==> IsReady(k', t)
  }

  lemma GrowsTwice(k: Kernel, k1: Kernel, k2: Kernel)
    requires Grows(k, k1) && Grows(k1, k2)
    ensures Grows(k, k2) && (Shared(k1) ==> Shared(k2))
    ensures Challenged(k, k2) <==> Challenged(k, k1) || Challenged(k1, k2)
  {
    if Shared(k1) {
      var p := PriorityOf(k1, k1.current);
      var t, u :| t != u && ReadyAt(k1, t, p) && ReadyAt(k1, u, p);
      assert PriorityOf(k2, k2.current) == p && ReadyAt(k2, t, p) && ReadyAt(k2, u, p);
    }
    forall t | BecameReady(k, k2, t)
      ensures BecameReady(k, k1, t) || BecameReady(k1, k2, t)
      ensures PriorityOf(k1, t) == PriorityOf(k, t) && PriorityOf(k1, k1.current) == PriorityOf(k, k.current)
    {
    }
    forall t | BecameReady(k, k1, t) || BecameReady(k1, k2, t)
      ensures BecameReady(k, k2, t)
      ensures PriorityOf(k1, t) == PriorityOf(k, t) && PriorityOf(k1, k1.current) == PriorityOf(k, k.current)
    {
    }
  }

  lemma TickGrows(k: Kernel, c: Config)
    requires Steady(k, c)
    ensures Grows(k, TickProcessed(k, c))
  {
    hide Steady, TickProcessed;
    TickEffect(k, c);
    TickFields(k, c);
  }

  // Only the lists, the priorities and the running task matter to these.
  lemma FieldsApart(k: Kernel, k1: Kernel, k2: Kernel)
    requires k1.lists == k.lists && k1.priority == k.priority && k1.current == k.current
    ensures Grows(k1, k2) <==> Grows(k, k2)
    ensures Grows(k2, k1) <==> Grows(k2, k)
    ensures Challenged(k1, k2) <==> Challenged(k, k2)
    ensures Challenged(k2, k1) <==> Challenged(k2, k)
    ensures Shared(k1) <==> Shared(k)
  {
    assert forall t :: IsReady(k1, t) <==> IsReady(k, t);
    assert forall t :: BecameReady(k1, k2, t) <==> BecameReady(k, k2, t);
    assert forall t :: BecameReady(k2, k1, t) <==> BecameReady(k2, k, t);
    assert forall t :: PriorityOf(k1, t) == PriorityOf(k, t);
    if Shared(k) {
      SharedFields(k, k1);
    }
    if Shared(k1) {
      SharedFields(k1, k);
    }
  }

  lemma SharedFields(k: Kernel, k1: Kernel)
    requires k1.lists == k.lists && k1.priority == k.priority && k1.current == k.current && Shared(k)
    ensures Shared(k1)
  {
    var p := PriorityOf(k, k.current);
    var t, u :| t != u && ReadyAt(k, t, p) && ReadyAt(k, u, p);
    assert PriorityOf(k1, k1.current) == p;
    assert ReadyAt(k1, t, p) && ReadyAt(k1, u, p);
  }

  lemma {:induction false} ReplayAsksExactly(k: Kernel, n: nat, c: Config)
    requires Steady(k, c) && k.pending == []
    ensures var r := Replayed(k, n, c);
            Grows(k, r) && (r.yieldPending <==> k.yieldPending || Challenged(k, r) || (n > 0 && Shared(r)))
    decreases n
  {
    hide Steady, TickProcessed, TickSwitches, Grows, Challenged, Shared;
    if n > 0 {
      var k1, r := TickProcessed(k, c), Replayed(k, n, c);
      var y := k.yieldPending || TickSwitches(k, c);
      TickEffect(k, c);
      TickPending(k, c);
      TickAsksExactly(k, c);
      TickGrows(k, c);
      SteadyYield(k1, y, c);
      ReplayAsksExactly(k1.(yieldPending := y), n - 1, c);
      FieldsApart(k1, k1.(yieldPending := y), r);
      FieldsApart(k1, k1.(yieldPending := y), k);
      GrowsTwice(k, k1, r);
      if n == 1 {
        assert r == k1.(yieldPending := y);
      }
    } else {
      NothingGrows(k);
    }
  }

  lemma NothingGrows(k: Kernel)
    ensures Grows(k, k) && !Challenged(k, k)
  {
  }

  lemma PendingAsksExactly(k: Kernel, c: Config)
    requires Steady(k, c)
    ensures var k' := PendingMoved(k, c);
            Grows(k, k') && (k'.yieldPending <==> k.yieldPending || Challenged(k, k'))
  {
    hide Sound, OnTime, UnblockedAll;
    var k' := PendingMoved(k, c);
    PendingAreTasks(k, c);
    UnblockedAllSound(k, k.pending, c);
    forall t
      ensures BecameReady(k, k', t) <==> t in k.pending
    {
      if t in k.pending {
        PendingIsBlocked(k, t, c);
      }
    }
    AsHighMember(k, k.pending);
  }

  lemma PendingIsBlocked(k: Kernel, t: Task, c: Config)
    requires Sound(k, {}, c) && t in k.pending
    ensures !IsReady(k, t)
  {
    hide Listed, ReadyRight, DelaysSorted, Rings.Distinct;
    assert EventOf(k, t) == OnPending;
  }

  // Resuming the scheduler leaves a switch asked for exactly if one was, if a task that is as
  // important as the running one became ready, freed by an event meanwhile or due in a tick made
  // up for, or if ticks were made up for and the priority of the running task is shared.
  lemma ResumeAsksExactly(k: Kernel, c: Config)
    requires Good(k, c) && k.depth == 1
    ensures var k' := ResumeAll(k, c);
            k'.yieldPending <==> k.yieldPending || Challenged(k, k') || (k.pended > 0 && Shared(k'))
  {
    hide Steady, PendingMoved, Replayed, Grows, Challenged, Shared;
    GoodIs(k, c);
    CountsCurrent(k, c);
    var k0 := k.(depth := 0);
    SteadyFields(k, 0, k.pended, c);
    assert k.(depth := 0, pended := k.pended) == k0;
    PendingMovedSteady(k0, c);
    var k1 := PendingMoved(k0, c);
    var k2 := Replayed(k1, k.pended, c);
    PendingAsksExactly(k0, c);
    ReplayAsksExactly(k1, k.pended, c);
    GrowsTwice(k0, k1, k2);
    FieldsApart(k, k0, ResumeAll(k, c));
    FieldsApart(k2, ResumeAll(k, c), k0);
  }

  // Resuming makes the tasks ready that events freed meanwhile, and if no tick was put off it makes
  // no other one ready and takes none off.
  lemma ResumeMovesExactly(k: Kernel, c: Config)
    requires Good(k, c) && k.depth == 1
    ensures var k' := ResumeAll(k, c);
            && k'.depth == 0 && k'.pending == [] && k'.pended == 0 && k'.priority == k.priority
            && (forall t :: t in k.pending ==> IsReady(k', t))
            && (k.pended == 0 ==>
                  k'.tick == k.tick &&
                  forall t :: Place(k', t) == if t in k.pending then In(Ready(PriorityOf(k, t))) else Place(k, t))
  {
    hide Sound, OnTime, UnblockedAll, Replayed;
    GoodIs(k, c);
    CountsCurrent(k, c);
    ResumeAllGood(k, c);
    var k0 := k.(depth := 0);
    SteadyFields(k, 0, k.pended, c);
    assert k.(depth := 0, pended := k.pended) == k0;
    PendingMovedSteady(k0, c);
    PendingAreTasks(k0, c);
    UnblockedAllSound(k0, k0.pending, c);
    var k1 := PendingMoved(k0, c);
    assert forall t :: t in k.pending ==> IsReady(k1, t);
    ReplayAsksExactly(k1, k.pended, c);
    ReplayFields(k1, k.pended, c);
  }

  lemma {:induction false} ReplayFields(k: Kernel, n: nat, c: Config)
    ensures Replayed(k, n, c).depth == k.depth && (n == 0 ==> Replayed(k, n, c) == k)
    decreases n
  {
    hide TickProcessed, TickSwitches;
    if n > 0 {
      TickFields(k, c);
      ReplayFields(TickProcessed(k, c).(yieldPending := k.yieldPending || TickSwitches(k, c)), n - 1, c);
    }
  }

  // Freeing a task from an event list, with the running task the most important one, asks for a
  // switch exactly if it is that no longer.
  lemma FreeAsksExactly(k: Kernel, t: Task, c: Config)
    requires Good(k, c) && RunsHighest(k) && !k.yieldPending && t in k.priority && EventOf(k, t) == OnEventList
    ensures k.depth == 0 ==>
              (RemoveFromEventList(k, t).yieldPending <==> !RunsHighest(RemoveFromEventList(k, t)))
    ensures k.depth > 0 ==>
              (RemoveFromEventList(k, t).yieldPending <==> PriorityOf(k, t) > PriorityOf(k, k.current))
    ensures RemoveFromUnorderedEventList(k, t).yieldPending <==> !RunsHighest(RemoveFromUnorderedEventList(k, t))
  {
    hide Good, AddedToReady, TakenOff, WithoutEvent;
    var k1 := AddedToReady(TakenOff(WithoutEvent(k, t), t), t);
    MadeReady(k, t, c);
    WithoutEventFields(k, t);
    assert IsReady(k1, t);
    assert forall u :: IsReady(k1, u) <==> IsReady(k, u) || u == t;
    var k2 := RemoveFromUnorderedEventList(k, t);
    assert forall u :: IsReady(k2, u) <==> IsReady(k1, u);
  }
}
