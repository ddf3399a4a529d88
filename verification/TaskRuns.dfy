/**
 Whole runs of the scheduler: tasks calling its functions, tick interrupts, and interrupts and
 tasks that free other tasks, in any order.
 */
module TaskRuns {
  import opened Clock
  import opened Rings
  import opened TaskLists
  import opened Schedulers
  import opened TaskControl

  datatype Event =
    | TickInterrupt                        // xTaskIncrementTick
    | Lock                                 // vTaskSuspendAll
    | Unlock                               // xTaskResumeAll
    | Switch                               // vTaskSwitchContext
    | WaitFor(wait: Wait)                  // vTaskDelay, vTaskPlaceOnEventList and its variants
    | Free(task: Task)                     // xTaskRemoveFromEventList
    | FreeUnordered(task: Task)            // vTaskRemoveFromUnorderedEventList
    | SuspendTask(task: Task)              // vTaskSuspend
    | ResumeTask(task: Task)               // vTaskResume
    | DeleteTask(task: Task)               // vTaskDelete
    | CreateTask(task: Task, priority: nat)
    | SetPriority(task: Task, priority: nat)
    | CollectDead                          // prvCheckTasksWaitingTermination

  predicate Alive(k: Kernel, t: Task) {
    t in k.priority && Place(k, t) != In(Termination)
  }

  // What the functions ask of their callers; the idle task never leaves its ready list.
  ghost predicate Enabled(k: Kernel, e: Event, idle: Task, c: Config) {
    match e
    case TickInterrupt => true
    case Lock => true
    case Unlock => k.depth > 0
    case Switch => true
    case WaitFor(w) => CanBlock(k, w, c) && k.current != idle && Alive(k, k.current)
    case Free(t) => t in k.priority && EventOf(k, t) == OnEventList
    case FreeUnordered(t) => t in k.priority && EventOf(k, t) == OnEventList && k.depth > 0
    case SuspendTask(t) => Alive(k, t) && t != idle && (t == k.current ==> k.depth == 0)
    case ResumeTask(t) => true
    case DeleteTask(t) => Alive(k, t) && t != idle && (t == k.current ==> k.depth == 0)
    case CreateTask(t, p) => t !in k.priority && p < c.priorities
    case SetPriority(t, p) => t in k.priority && p < c.priorities
    case CollectDead => Alive(k, k.current)
  }

  function Step(k: Kernel, e: Event, c: Config): Kernel {
    match e
    case TickInterrupt => IncrementTick(k, c)
    case Lock => SuspendAll(k)
    case Unlock => ResumeAll(k, c)
    case Switch => SwitchContext(k)
    case WaitFor(w) => Block(k, w, c)
    case Free(t) => RemoveFromEventList(k, t)
    case FreeUnordered(t) => RemoveFromUnorderedEventList(k, t)
    case SuspendTask(t) => Suspend(k, t, c)
    case ResumeTask(t) => Resume(k, t)
    case DeleteTask(t) => Delete(k, t, c)
    case CreateTask(t, p) => Create(k, t, p)
    case SetPriority(t, p) => ChangePriority(k, t, p)
    case CollectDead => CleanUp(k)
  }

  // ----- The partition of the tasks among the lists ---------------------------------------

  lemma StepGood(k: Kernel, e: Event, idle: Task, c: Config)
    requires Good(k, c) && IsReady(k, idle) && Enabled(k, e, idle, c)
    ensures Good(Step(k, e, c), c)
  {
    hide Good;
    CurrentOfGood(k, c);
    match e
    case TickInterrupt => IncrementTickGood(k, c);
    case Lock => SuspendAllGood(k, c);
    case Unlock => ResumeAllGood(k, c);
    case Switch => SwitchContextRight(k, idle, c);
    case WaitFor(w) => BlockGood(k, w, c);
    case Free(t) => RemoveFromEventListGood(k, t, c);
    case FreeUnordered(t) => RemoveFromUnorderedEventListGood(k, t, c);
    case SuspendTask(t) => SuspendGood(k, t, c);
    case ResumeTask(t) => ResumeGood(k, t, c);
    case DeleteTask(t) => DeleteGood(k, t, c);
    case CreateTask(t, p) => CreateGood(k, t, p, c);
    case SetPriority(t, p) => ChangePriorityGood(k, t, p, c);
    case CollectDead => CleanUpGood(k, c);
  }

  lemma CurrentOfGood(k: Kernel, c: Config)
    requires Good(k, c)
    ensures k.current in k.priority
  {
    CurrentIsTask(k, {}, c);
  }

  // The task that an event is about.
  predicate About(k: Kernel, e: Event, t: Task) {
    match e
    case WaitFor(_) => t == k.current
    case Free(u) => t == u
    case FreeUnordered(u) => t == u
    case SuspendTask(u) => t == u
    case ResumeTask(u) => t == u && t != k.current && IsSuspended(k, t)
    case DeleteTask(u) => t == u
    case CreateTask(u, _) => t == u
    case SetPriority(u, _) => t == u
    case CollectDead => Place(k, t) == In(Termination)
    case _ => false
  }

  // A task stays where it is, or is made ready because its time is up or it was pending.
  ghost predicate Stays(k: Kernel, k': Kernel, t: Task) {
    && t in k'.priority && k'.priority[t] == PriorityOf(k, t)
    && (Place(k', t) == Place(k, t) || Place(k', t) == In(Ready(PriorityOf(k, t))))
  }

  lemma StaysTwice(k: Kernel, k1: Kernel, k2: Kernel, t: Task)
    requires Stays(k, k1, t) && Stays(k1, k2, t)
    ensures Stays(k, k2, t)
  {
  }

  lemma TickStays(k: Kernel, t: Task, c: Config)
    requires Steady(k, c) && t in k.priority
    ensures Stays(k, TickProcessed(k, c), t)
  {
    hide Steady, TickProcessed;
    TickEffect(k, c);
  }

  lemma {:induction false} ReplayStays(k: Kernel, n: nat, t: Task, c: Config)
    requires Steady(k, c) && t in k.priority
    ensures Stays(k, Replayed(k, n, c), t)
    decreases n
  {
    hide Steady, TickProcessed, TickSwitches;
    if n > 0 {
      var k1 := TickProcessed(k, c);
      var k2 := k1.(yieldPending := k.yieldPending || TickSwitches(k, c));
      TickEffect(k, c);
      TickStays(k, t, c);
      SteadyYield(k1, k.yieldPending || TickSwitches(k, c), c);
      ReplayStays(k2, n - 1, t, c);
      assert Stays(k, k2, t);
      StaysTwice(k, k2, Replayed(k2, n - 1, c), t);
    }
  }

  lemma PendingStays(k: Kernel, t: Task, c: Config)
    requires Steady(k, c) && t in k.priority
    ensures Stays(k, PendingMoved(k, c), t)
    ensures t !in k.pending ==> Place(PendingMoved(k, c), t) == Place(k, t)
    ensures PendingMoved(k, c).lists.value == k.lists.value && PendingMoved(k, c).first == k.first
  {
    hide Sound, UnblockedAll;
    PendingAreTasks(k, c);
    UnblockedAllSound(k, k.pending, c);
  }

  lemma ResumeAllStays(k: Kernel, t: Task, c: Config)
    requires Good(k, c) && k.depth > 0 && t in k.priority
    ensures Stays(k, ResumeAll(k, c), t)
  {
    hide Steady, PendingMoved, Replayed;
    GoodIs(k, c);
    if !(k.depth > 1 || k.count == 0) {
      var k0 := k.(depth := 0);
      SteadyFields(k, 0, k.pended, c);
      assert k.(depth := 0, pended := k.pended) == k0;
      PendingStays(k0, t, c);
      PendingMovedSteady(k0, c);
      var k1 := PendingMoved(k0, c);
      ReplayStays(k1, k.pended, t, c);
      assert Stays(k, k1, t);
      StaysTwice(k, k1, Replayed(k1, k.pended, c), t);
    }
  }

  predicate ProcessesTicks(e: Event) {
    e.TickInterrupt? || e.Unlock?
  }

  // Events that process no ticks leave the other tasks where they are.
  lemma StepKeepsPlace(k: Kernel, e: Event, t: Task, idle: Task, c: Config)
    requires Good(k, c) && IsReady(k, idle) && Enabled(k, e, idle, c) && t in k.priority
    requires !About(k, e, t) && !ProcessesTicks(e)
    ensures var k' := Step(k, e, c);
            t in k'.priority && k'.priority[t] == k.priority[t] && Place(k', t) == Place(k, t)
  {
    hide Good;
    CurrentOfGood(k, c);
    match e
    case Lock =>
    case Switch => SwitchContextRight(k, idle, c);
    case WaitFor(w) =>
      BlockGood(k, w, c);
      BlockFields(k, w, c);
    case Free(u) =>
      RemoveFromEventListGood(k, u, c);
      assert Step(k, e, c).priority == k.priority;
    case FreeUnordered(u) =>
      RemoveFromUnorderedEventListGood(k, u, c);
      assert Step(k, e, c).priority == k.priority;
    case SuspendTask(u) => SuspendGood(k, u, c);
    case ResumeTask(u) => ResumeGood(k, u, c);
    case DeleteTask(u) => DeleteGood(k, u, c);
    case CreateTask(u, p) => CreateGood(k, u, p, c);
    case SetPriority(u, p) => ChangePriorityGood(k, u, p, c);
    case CollectDead => CollectKeeps(k, t, c);
  }

  lemma StepStays(k: Kernel, e: Event, t: Task, idle: Task, c: Config)
    requires Good(k, c) && IsReady(k, idle) && Enabled(k, e, idle, c) && t in k.priority && !About(k, e, t)
    ensures Stays(k, Step(k, e, c), t)
  {
    hide Good, Step;
    if e.Unlock? {
      ResumeAllStays(k, t, c);
      UnlockIs(k, c);
    } else if e.TickInterrupt? {
      SteadyOfGood(k, c);
      TickStays(k, t, c);
      InterruptIs(k, c);
    } else {
      StepKeepsPlace(k, e, t, idle, c);
    }
  }

  lemma UnlockIs(k: Kernel, c: Config)
    ensures Step(k, Unlock, c) == ResumeAll(k, c)
  {
  }

  lemma InterruptIs(k: Kernel, c: Config)
    ensures Step(k, TickInterrupt, c) == if k.depth == 0 then TickProcessed(k, c) else k.(pended := k.pended + 1)
  {
  }

  lemma SteadyOfGood(k: Kernel, c: Config)
    requires Good(k, c)
    ensures Steady(k, c)
  {
  }

  lemma BlockFields(k: Kernel, w: Wait, c: Config)
    ensures var k' := Block(k, w, c);
            k'.priority == k.priority && k'.first == k.first && k'.tick == k.tick && k'.overflows == k.overflows
            && k'.pended == k.pended && k'.depth == k.depth
  {
  }

  lemma CollectKeeps(k: Kernel, t: Task, c: Config)
    requires Good(k, c) && Alive(k, k.current) && t in k.priority && Place(k, t) != In(Termination)
    ensures var k' := CleanUp(k);
            t in k'.priority && k'.priority[t] == k.priority[t] && Place(k', t) == Place(k, t)
  {
    hide Sound, OnTime;
    CleanUpGood(k, c);
    var s := Items(k.lists, Termination);
    if s != [] {
      OnItsList(k, {}, Termination, s[0], c);
    }
  }

  // The idle task stays ready, so there is always something to select.
  lemma IdleStaysReady(k: Kernel, e: Event, idle: Task, c: Config)
    requires Good(k, c) && IsReady(k, idle) && Enabled(k, e, idle, c)
    ensures IsReady(Step(k, e, c), idle)
  {
    hide Good;
    if About(k, e, idle) {
      match e
      case Free(_) => ReadyIsIdle(k, idle, c);
      case FreeUnordered(_) => ReadyIsIdle(k, idle, c);
      case ResumeTask(_) => 
      case SetPriority(_, p) => ChangePriorityGood(k, idle, p, c);
      case CreateTask(_, _) =>
      case _ =>
    } else {
      StepStays(k, e, idle, idle, c);
    }
  }

  lemma ReadyIsIdle(k: Kernel, t: Task, c: Config)
    requires Good(k, c) && IsReady(k, t)
    ensures EventOf(k, t) == NoEvent
  {
    hide Listed, ReadyRight, DelaysSorted, Distinct, OnTime;
  }

  ghost predicate Reaches(k: Kernel, events: seq<Event>, k': Kernel, idle: Task, c: Config)
    decreases |events|
  {
    if events == [] then k' == k
    else Enabled(k, events[0], idle, c) && Reaches(Step(k, events[0], c), events[1..], k', idle, c)
  }

  // Over every run the kernel stays good and the idle task ready.
  lemma {:induction false} RunGood(k: Kernel, events: seq<Event>, k': Kernel, idle: Task, c: Config)
    requires Good(k, c) && IsReady(k, idle) && Reaches(k, events, k', idle, c)
    ensures Good(k', c) && IsReady(k', idle)
    decreases |events|
  {
    hide Good, Step;
    if events != [] {
      StepGood(k, events[0], idle, c);
      IdleStaysReady(k, events[0], idle, c);
      RunGood(Step(k, events[0], c), events[1..], k', idle, c);
    }
  }

  function ListIds(c: Config): (ids: set<ListId>)
    ensures forall l :: l in ids <==> IsList(l, c)
  {
    var ready := set p: nat | 0 <= p < c.priorities :: Ready(p);
    assert forall l: ListId :: l.Ready? && l.priority < c.priorities ==> l == Ready(l.priority) && l in ready;
    ready + {DelayOne, DelayTwo, SuspendedList, Termination}
  }

  // The scheduler has just been started, with the idle task alone.
  function Initial(idle: Task, c: Config): Kernel {
    Kernel(Lists(map l | l in ListIds(c) :: if l == Ready(0) then Ring([idle], 0) else Ring([], 0),
                 map[idle := In(Ready(0))], map[idle := 0]),
           map[idle := 0], map[idle := NoEvent], [], true, 0, 0, 0, MaxDelay(c), 0, idle, 1, 0, false)
  }

  lemma InitialGood(idle: Task, c: Config)
    requires ConfigOk(c)
    ensures Good(Initial(idle, c), c) && IsReady(Initial(idle, c), idle)
  {
    var k := Initial(idle, c);
    assert Items(k.lists, DelayOne) == Items(k.lists, DelayTwo) == [];
    assert Consistent(k.lists);
    assert InOrder(k.lists, DelayOne) && InOrder(k.lists, DelayTwo);
  }

  // Each task is on exactly one list, a ready one on the list of its priority; no ready priority
  // exceeds the recorded one, and the number of tasks is right.
  ghost predicate Partitioned(k: Kernel) {
    && (forall t :: t in k.priority ==> Place(k, t).In? && t in Items(k.lists, Place(k, t).list))
    && (forall t, l :: t in Items(k.lists, l) ==>
          t in k.priority && Place(k, t) == In(l) && Distinct(Items(k.lists, l)))
    && (forall t, p: nat :: t in ReadyItems(k, p) ==> PriorityOf(k, t) == p <= k.top)
    && k.count == |k.priority|
  }

  lemma PartitionOfTasks(idle: Task, events: seq<Event>, k: Kernel, c: Config)
    requires ConfigOk(c) && Reaches(Initial(idle, c), events, k, idle, c)
    ensures Partitioned(k) && IsReady(k, idle)
  {
    hide Good, Partitioned;
    InitialGood(idle, c);
    RunGood(Initial(idle, c), events, k, idle, c);
    GoodPartitions(k, c);
  }

  lemma GoodPartitions(k: Kernel, c: Config)
    requires Good(k, c)
    ensures Partitioned(k)
  {
    hide Sound, OnTime, Distinct, Items, ContainerOf;
    CurrentIsTask(k, {}, c);
    forall t | t in k.priority
      ensures Place(k, t).In? && t in Items(k.lists, Place(k, t).list)
    {
      TaskIsPlaced(k, t, c);
      OnItsList(k, {}, Place(k, t).list, t, c);
    }
    ListedOnce(k, c);
    ReadyOnItsList(k, c);
  }

  lemma ListedOnce(k: Kernel, c: Config)
    requires Good(k, c)
    ensures forall t, l :: t in Items(k.lists, l) ==>
              t in k.priority && Place(k, t) == In(l) && Distinct(Items(k.lists, l))
  {
    hide Sound, OnTime, Distinct;
    forall t, l | t in Items(k.lists, l)
      ensures t in k.priority && Place(k, t) == In(l) && Distinct(Items(k.lists, l))
    {
      OnItsList(k, {}, l, t, c);
      ListedIsTask(k, l, t, c);
      RingOk(k, l, c);
      OkIsDistinct(k.lists.rings[l]);
    }
  }

  lemma ReadyOnItsList(k: Kernel, c: Config)
    requires Good(k, c)
    ensures forall t, p: nat :: t in ReadyItems(k, p) ==> PriorityOf(k, t) == p <= k.top
  {
    hide Sound, OnTime;
    forall t, p: nat | t in ReadyItems(k, p)
      ensures PriorityOf(k, t) == p <= k.top
    {
      OnItsList(k, {}, Ready(p), t, c);
      ReadyBelowTop(k, t, c);
    }
  }

  lemma OkIsDistinct(r: Ring<Task>)
    requires Ok(r)
    ensures Distinct(r.items)
  {
  }

  lemma TaskIsPlaced(k: Kernel, t: Task, c: Config)
    requires Sound(k, {}, c) && t in k.priority
    ensures Place(k, t).In?
  {
    hide DelaysSorted, EventsRight, ReadyRight, Consistent;
  }

  lemma ReadyBelowTop(k: Kernel, t: Task, c: Config)
    requires Sound(k, {}, c) && Place(k, t).In? && Place(k, t).list.Ready?
    ensures Place(k, t).list.priority == PriorityOf(k, t) <= k.top
  {
    hide DelaysSorted, EventsRight, Listed;
  }

  // ----- Time -----------------------------------------------------------------------------------

  // T ticks have been processed.
  ghost predicate Timed(k: Kernel, T: nat, c: Config)
    requires ConfigOk(c)
  {
    k.tick == Tick(T, c.M) && k.overflows == Turn(T, c.M)
  }

  // How many ticks an event processes.
  function TicksProcessed(k: Kernel, e: Event): nat {
    match e
    case TickInterrupt => if k.depth == 0 then 1 else 0
    case Unlock => if k.depth > 1 || k.count == 0 then 0 else k.pended
    case _ => 0
  }

  lemma TickTimed(k: Kernel, T: nat, c: Config)
    requires ConfigOk(c) && Timed(k, T, c)
    ensures Timed(TickProcessed(k, c), T + 1, c)
  {
    hide UnblockedAll, DueTasks;
    UnblockedAllFields(Ticked(k, c), DueTasks(Ticked(k, c)));
  }

  lemma {:induction false} ReplayTimed(k: Kernel, n: nat, T: nat, c: Config)
    requires ConfigOk(c) && Timed(k, T, c)
    ensures Timed(Replayed(k, n, c), T + n, c)
    decreases n
  {
    hide TickProcessed, TickSwitches;
    if n > 0 {
      TickTimed(k, T, c);
      ReplayTimed(TickProcessed(k, c).(yieldPending := k.yieldPending || TickSwitches(k, c)), n - 1, T + 1, c);
    }
  }

  lemma PendingTimed(k: Kernel, T: nat, c: Config)
    requires ConfigOk(c) && Timed(k, T, c)
    ensures Timed(PendingMoved(k, c), T, c)
  {
    hide UnblockedAll;
    UnblockedAllFields(k, k.pending);
  }

  // The counters follow the unbounded time, however long the scheduler is suspended.
  lemma StepTimed(k: Kernel, e: Event, T: nat, idle: Task, c: Config)
    requires Good(k, c) && IsReady(k, idle) && Enabled(k, e, idle, c) && Timed(k, T, c)
    ensures Timed(Step(k, e, c), T + TicksProcessed(k, e), c)
    ensures Step(k, e, c).pended + TicksProcessed(k, e) == k.pended + if e == TickInterrupt then 1 else 0
  {
    hide Sound, OnTime, TickProcessed, PendingMoved, Replayed, UnblockedAll;
    hide Delayed, Parked, TakenOff, WithoutEvent, AddedToReady, Forgotten, NextEntry;
    CurrentIsTask(k, {}, c);
    match e
    case TickInterrupt =>
      TickTimed(k, T, c);
      TickFields(k, c);
    case Unlock =>
      PendingTimed(k.(depth := 0), T, c);
      ReplayTimed(PendingMoved(k.(depth := 0), c), k.pended, T, c);
    case Lock =>
    case Switch => SwitchFields(k);
    case WaitFor(w) => BlockFields(k, w, c);
    case _ => ClockUntouched(k, e, idle, c);
  }

  lemma SwitchFields(k: Kernel)
    ensures var k' := SwitchContext(k);
            k'.tick == k.tick && k'.overflows == k.overflows && k'.pended == k.pended && k'.first == k.first
            && k'.lists.value == k.lists.value
  {
  }

  lemma ClockUntouched(k: Kernel, e: Event, idle: Task, c: Config)
    requires !e.TickInterrupt? && !e.Unlock? && !e.Lock? && !e.Switch? && !e.WaitFor?
    ensures var k' := Step(k, e, c);
            k'.tick == k.tick && k'.overflows == k.overflows && k'.pended == k.pended && k'.first == k.first
  {
    hide Unlink, LinkEnd, Items, ContainerOf, ValueOf, Without;
  }

  function Interrupts(events: seq<Event>): nat {
    if events == [] then 0 else (if events[0] == TickInterrupt then 1 else 0) + Interrupts(events[1..])
  }

  lemma {:induction false} RunTimed(k: Kernel, T: nat, events: seq<Event>, k': Kernel, idle: Task, c: Config)
    requires Good(k, c) && IsReady(k, idle) && Timed(k, T, c) && Reaches(k, events, k', idle, c)
    ensures k'.pended <= T + k.pended + Interrupts(events)
    ensures Timed(k', T + k.pended + Interrupts(events) - k'.pended, c)
    decreases |events|
  {
    hide Good, Step, Timed;
    if events != [] {
      var e := events[0];
      StepGood(k, e, idle, c);
      IdleStaysReady(k, e, idle, c);
      StepTimed(k, e, T, idle, c);
      RunTimed(Step(k, e, c), T + TicksProcessed(k, e), events[1..], k', idle, c);
    }
  }

  // No tick is lost or counted twice: after any run the counter and the count of its overflows
  // are those of the number of tick interrupts less the ones still put off.
  lemma TicksRefineTime(idle: Task, events: seq<Event>, k: Kernel, c: Config)
    requires ConfigOk(c) && Reaches(Initial(idle, c), events, k, idle, c)
    ensures k.pended <= Interrupts(events)
    ensures var T := Interrupts(events) - k.pended;
            k.tick == T % c.M && k.overflows == T / c.M
  {
    hide Good;
    InitialGood(idle, c);
    RunTimed(Initial(idle, c), 0, events, k, idle, c);
    CounterIsModular(Interrupts(events) - k.pended, c.M);
  }

  // ----- Waking on time ------------------------------------------------------------------------------

  // At time T the task is on the delayed list of the turn that time W falls into, with W as value.
  ghost predicate Armed(k: Kernel, T: nat, t: Task, W: nat, c: Config)
    requires ConfigOk(c)
  {
    && t in k.priority && ValueOf(k.lists.value, t) == Tick(W, c.M) && EventOf(k, t) != OnPending
    && ((Place(k, t) == In(DelayedId(k)) && Turn(W, c.M) == Turn(T, c.M))
        || (Place(k, t) == In(OverflowId(k)) && Turn(W, c.M) == Turn(T, c.M) + 1))
  }

  // A task that blocks for d ticks is armed for the time d ticks ahead.
  lemma BlockArms(k: Kernel, w: Wait, T: nat, c: Config)
    requires Good(k, c) && CanBlock(k, w, c) && Timed(k, T, c) && !ForEver(w, c)
    ensures Armed(Block(k, w, c), T, k.current, T + w.ticks, c)
  {
    hide Good, Block;
    CurrentOfGood(k, c);
    BlockGood(k, w, c);
    BlockFields(k, w, c);
    BlockEvents(k, w, c);
    LaterTick(T, w.ticks, c.M);
  }

  // The tick that reaches the wake time, and no earlier one, makes the task ready.
  lemma TickWakes(k: Kernel, T: nat, t: Task, W: nat, c: Config)
    requires Steady(k, c) && ConfigOk(c) && Timed(k, T, c) && Armed(k, T, t, W, c)
    ensures var k' := TickProcessed(k, c);
            if W <= T + 1 then IsReady(k', t) else Armed(k', T + 1, t, W, c) && !IsReady(k', t)
  {
    hide Steady, TickProcessed;
    TickEffect(k, c);
    LaterTick(T, 1, c.M);
    EarlierTick(W, T + 1, c.M);
    WakeStep(k, T, t, W, c);
  }

  lemma WakeStep(k: Kernel, T: nat, t: Task, W: nat, c: Config)
    requires Steady(k, c) && ConfigOk(c) && Timed(k, T, c) && Armed(k, T, t, W, c)
    ensures Due(Ticked(k, c), t) <==> W <= T + 1
    ensures Ticked(k, c).first == (if k.tick + 1 == c.M then !k.first else k.first)
    ensures W > T + 1 && k.tick + 1 == c.M ==> Place(k, t) == In(OverflowId(k))
  {
    hide Sound;
    LaterTick(T, 1, c.M);
    EarlierTick(W, T + 1, c.M);
    if k.tick + 1 == c.M {
      EmptyAtWrap(k, t, c);
    }
  }

  // No task is on the current list when the counter is about to wrap.
  lemma EmptyAtWrap(k: Kernel, t: Task, c: Config)
    requires Steady(k, c) && k.tick + 1 == c.M
    ensures Place(k, t) != In(DelayedId(k))
  {
    hide Sound, OnTime;
    OnItsList(k, {}, DelayedId(k), t, c);
    EmptyWhenSwitched(k, c);
  }

  // The running task waits for an event if it said so.
  lemma BlockEvents(k: Kernel, w: Wait, c: Config)
    ensures forall t :: EventOf(Block(k, w, c), t) == if t == k.current && w.event then OnEventList else EventOf(k, t)
  {
    hide Unlink, LinkEnd, LinkSorted;
  }

  lemma {:induction false} ReplayWakes(k: Kernel, n: nat, T: nat, t: Task, W: nat, c: Config)
    requires Steady(k, c) && k.pending == [] && ConfigOk(c) && Timed(k, T, c) && Armed(k, T, t, W, c) && T < W
    ensures var k' := Replayed(k, n, c);
            if W <= T + n then IsReady(k', t) else Armed(k', T + n, t, W, c)
    decreases n
  {
    hide Steady, TickProcessed, TickSwitches, Armed, Timed;
    if n > 0 {
      var k1 := TickProcessed(k, c);
      var y := k.yieldPending || TickSwitches(k, c);
      var k2 := k1.(yieldPending := y);
      TickEffect(k, c);
      TickPending(k, c);
      TickTimed(k, T, c);
      TickWakes(k, T, t, W, c);
      SteadyYield(k1, y, c);
      YieldArmed(k1, y, T + 1, t, W, c);
      if W <= T + 1 {
        ReplayStays(k2, n - 1, t, c);
      } else {
        ReplayWakes(k2, n - 1, T + 1, t, W, c);
      }
    }
  }

  lemma YieldArmed(k: Kernel, y: bool, T: nat, t: Task, W: nat, c: Config)
    requires ConfigOk(c)
    ensures Armed(k, T, t, W, c) ==> Armed(k.(yieldPending := y), T, t, W, c)
    ensures Timed(k, T, c) ==> Timed(k.(yieldPending := y), T, c)
    ensures IsReady(k, t) ==> IsReady(k.(yieldPending := y), t)
  {
  }

  lemma PendingArmed(k: Kernel, T: nat, t: Task, W: nat, c: Config)
    requires Steady(k, c) && ConfigOk(c) && Armed(k, T, t, W, c)
    ensures Armed(PendingMoved(k, c), T, t, W, c)
  {
    hide Sound, UnblockedAll;
    PendingAreTasks(k, c);
    UnblockedAllSound(k, k.pending, c);
  }

  lemma UnlockWakes(k: Kernel, T: nat, t: Task, W: nat, c: Config)
    requires Good(k, c) && k.depth > 0 && ConfigOk(c) && Timed(k, T, c) && Armed(k, T, t, W, c) && T < W
    ensures var k', T' := ResumeAll(k, c), T + TicksProcessed(k, Unlock);
            if W <= T' then IsReady(k', t) else Armed(k', T', t, W, c)
  {
    hide Steady, PendingMoved, Replayed;
    GoodIs(k, c);
    if !(k.depth > 1 || k.count == 0) {
      var k0 := k.(depth := 0);
      SteadyFields(k, 0, k.pended, c);
      assert k.(depth := 0, pended := k.pended) == k0;
      PendingMovedSteady(k0, c);
      PendingTimed(k0, T, c);
      PendingArmed(k0, T, t, W, c);
      ReplayWakes(PendingMoved(k0, c), k.pended, T, t, W, c);
    }
  }

  lemma OtherKeepsArmed(k: Kernel, e: Event, T: nat, t: Task, W: nat, idle: Task, c: Config)
    requires Good(k, c) && IsReady(k, idle) && Enabled(k, e, idle, c) && ConfigOk(c) && Armed(k, T, t, W, c)
    requires !About(k, e, t) && !ProcessesTicks(e)
    ensures Armed(Step(k, e, c), T, t, W, c)
  {
    hide Good, Step;
    StepKeepsPlace(k, e, t, idle, c);
    ItemUntouched(k, e, t, idle, c);
  }

  ghost predicate SameItem(k: Kernel, k': Kernel, t: Task) {
    k'.first == k.first && ValueOf(k'.lists.value, t) == ValueOf(k.lists.value, t) && EventOf(k', t) == EventOf(k, t)
  }

  lemma ItemUntouched(k: Kernel, e: Event, t: Task, idle: Task, c: Config)
    requires Good(k, c) && Enabled(k, e, idle, c) && !About(k, e, t) && !ProcessesTicks(e)
    ensures SameItem(k, Step(k, e, c), t)
  {
    hide Good, Unlink, LinkEnd, Block, CleanUp, Items, Without;
    match e
    case Lock =>
    case Switch => SwitchFields(k);
    case WaitFor(w) => BlockItem(k, w, t, c);
    case Free(u) => WithoutEventFields(k, u);
    case FreeUnordered(u) => WithoutEventFields(k, u);
    case SuspendTask(u) => AwayItem(k, u, t);
    case ResumeTask(_) =>
    case DeleteTask(u) => AwayItem(k, u, t);
    case CreateTask(_, _) =>
    case SetPriority(_, _) =>
    case CollectDead => CollectItem(k, t, c);
  }

  lemma BlockItem(k: Kernel, w: Wait, t: Task, c: Config)
    requires t != k.current
    ensures SameItem(k, Block(k, w, c), t)
  {
    hide Unlink, LinkEnd, LinkSorted;
  }

  lemma AwayItem(k: Kernel, u: Task, t: Task)
    requires t != u
    ensures SameItem(k, WithoutEvent(TakenOff(k, u), u), t)
  {
  }

  lemma CollectItem(k: Kernel, t: Task, c: Config)
    requires Good(k, c) && Place(k, t) != In(Termination)
    ensures SameItem(k, CleanUp(k), t)
  {
    hide Sound, OnTime;
    OnItsList(k, {}, Termination, t, c);
  }

  // An event that frees a blocked task, moves it or ends it.  Another priority does neither.
  predicate Disturbs(k: Kernel, e: Event, t: Task) {
    About(k, e, t) && !e.SetPriority?
  }

  lemma ChangeKeepsArmed(k: Kernel, p: nat, T: nat, t: Task, W: nat, c: Config)
    requires ConfigOk(c) && Armed(k, T, t, W, c)
    ensures Armed(ChangePriority(k, t, p), T, t, W, c)
  {
  }

  lemma SetPriorityIs(k: Kernel, t: Task, p: nat, c: Config)
    ensures Step(k, SetPriority(t, p), c) == ChangePriority(k, t, p)
    ensures TicksProcessed(k, SetPriority(t, p)) == 0
  {
  }

  lemma NotAbout(k: Kernel, e: Event, t: Task)
    requires !Disturbs(k, e, t) && !(e.SetPriority? && e.task == t)
    ensures !About(k, e, t)
  {
  }

  lemma StepWakes(k: Kernel, e: Event, T: nat, t: Task, W: nat, idle: Task, c: Config)
    requires Good(k, c) && IsReady(k, idle) && Enabled(k, e, idle, c) && ConfigOk(c)
    requires Timed(k, T, c) && Armed(k, T, t, W, c) && T < W && !Disturbs(k, e, t)
    ensures var k', T' := Step(k, e, c), T + TicksProcessed(k, e);
            if W <= T' then IsReady(k', t) else Armed(k', T', t, W, c) && !IsReady(k', t)
  {
    hide Good, Step, Armed, Timed, IsReady, About, ResumeAll, TickProcessed;
    if e.Unlock? {
      UnlockIs(k, c);
      UnlockWakes(k, T, t, W, c);
    } else if e.TickInterrupt? {
      InterruptIs(k, c);
      SteadyOfGood(k, c);
      if k.depth == 0 {
        TickWakes(k, T, t, W, c);
      } else {
        PendedArmed(k, T, t, W, c);
      }
    } else if e.SetPriority? && e.task == t {
      ChangeKeepsArmed(k, e.priority, T, t, W, c);
      SetPriorityIs(k, t, e.priority, c);
    } else {
      NotAbout(k, e, t);
      OtherKeepsArmed(k, e, T, t, W, idle, c);
    }
    ArmedIsBlocked(Step(k, e, c), T + TicksProcessed(k, e), t, W, c);
  }

  lemma PendedArmed(k: Kernel, T: nat, t: Task, W: nat, c: Config)
    requires ConfigOk(c) && Armed(k, T, t, W, c)
    ensures Armed(k.(pended := k.pended + 1), T, t, W, c)
  {
  }

  lemma ArmedIsBlocked(k: Kernel, T: nat, t: Task, W: nat, c: Config)
    requires ConfigOk(c)
    ensures Armed(k, T, t, W, c) ==> !IsReady(k, t)
  {
  }

  // No event of a run disturbs the task.
  ghost predicate Undisturbed(k: Kernel, events: seq<Event>, t: Task, c: Config)
    decreases |events|
  {
    events != [] ==> !Disturbs(k, events[0], t) && Undisturbed(Step(k, events[0], c), events[1..], t, c)
  }

  // The time after a run that starts at T.
  function TimeAfter(k: Kernel, T: nat, events: seq<Event>, c: Config): nat
    decreases |events|
  {
    if events == [] then T
    else TimeAfter(Step(k, events[0], c), T + TicksProcessed(k, events[0]), events[1..], c)
  }

  lemma {:induction false} TimeGoesOn(k: Kernel, T: nat, events: seq<Event>, c: Config)
    ensures T <= TimeAfter(k, T, events, c)
    decreases |events|
  {
    hide Step;
    if events != [] {
      TimeGoesOn(Step(k, events[0], c), T + TicksProcessed(k, events[0]), events[1..], c);
    }
  }

  lemma {:induction false} StaysArmed(k: Kernel, T: nat, events: seq<Event>, k': Kernel, t: Task, W: nat,
                                      idle: Task, c: Config)
    requires Good(k, c) && IsReady(k, idle) && ConfigOk(c) && Timed(k, T, c) && Armed(k, T, t, W, c)
    requires Reaches(k, events, k', idle, c) && Undisturbed(k, events, t, c) && TimeAfter(k, T, events, c) < W
    ensures Good(k', c) && IsReady(k', idle)
    ensures Timed(k', TimeAfter(k, T, events, c), c) && Armed(k', TimeAfter(k, T, events, c), t, W, c)
    decreases |events|
  {
    hide Good, Step, Armed, Timed;
    TimeGoesOn(k, T, events, c);
    if events != [] {
      var e := events[0];
      var k1, T1 := Step(k, e, c), T + TicksProcessed(k, e);
      TimeGoesOn(k1, T1, events[1..], c);
      StepGood(k, e, idle, c);
      IdleStaysReady(k, e, idle, c);
      StepTimed(k, e, T, idle, c);
      StepWakes(k, e, T, t, W, idle, c);
      StaysArmed(k1, T1, events[1..], k', t, W, idle, c);
    }
  }

  // A task that blocks for w.ticks ticks at time T and is neither freed nor moved, whatever happens
  // to its priority, is not ready at any time before T + w.ticks, and the event that processes the
  // tick of that time makes it ready.
  lemma WakesOnTime(k: Kernel, T: nat, w: Wait, events: seq<Event>, k1: Kernel, e: Event, idle: Task, c: Config)
    requires Good(k, c) && IsReady(k, idle) && ConfigOk(c) && Timed(k, T, c)
    requires Enabled(k, WaitFor(w), idle, c) && !ForEver(w, c)
    requires var k0 := Block(k, w, c);
             && Reaches(k0, events, k1, idle, c) && Undisturbed(k0, events, k.current, c)
             && TimeAfter(k0, T, events, c) < T + w.ticks
    requires Enabled(k1, e, idle, c) && !Disturbs(k1, e, k.current)
    ensures !IsReady(k1, k.current)
    ensures var T1 := TimeAfter(Block(k, w, c), T, events, c) + TicksProcessed(k1, e);
            IsReady(Step(k1, e, c), k.current) <==> T + w.ticks <= T1
  {
    hide Good, Block, Armed, Timed, Step;
    var k0, t, W := Block(k, w, c), k.current, T + w.ticks;
    BlockArms(k, w, T, c);
    WaitKeeps(k, w, T, idle, c);
    StaysArmed(k0, T, events, k1, t, W, idle, c);
    StepWakes(k1, e, TimeAfter(k0, T, events, c), t, W, idle, c);
    ArmedIsBlocked(k1, TimeAfter(k0, T, events, c), t, W, c);
  }

  lemma WaitKeeps(k: Kernel, w: Wait, T: nat, idle: Task, c: Config)
    requires Good(k, c) && IsReady(k, idle) && Timed(k, T, c) && Enabled(k, WaitFor(w), idle, c)
    ensures var k0 := Block(k, w, c); Good(k0, c) && IsReady(k0, idle) && Timed(k0, T, c)
  {
    hide Good, Block;
    BlockGood(k, w, c);
    IdleStaysReady(k, WaitFor(w), idle, c);
    BlockFields(k, w, c);
  }
}
