/**
 Tasks of one priority take turns.  Every event of the scheduler changes a ready list like some
 additions, removals and selections of a ring, so the fairness of rings carries over.
 */
module RoundRobin {
  import R = Rings
  import opened TaskLists
  import opened Schedulers
  import opened TaskControl
  import opened TaskRuns

  // ----- Events of a ring ------------------------------------------------------------------

  ghost function Final(r: R.Ring<Task>, es: seq<R.Event<Task>>): (r': R.Ring<Task>)
    requires R.Ok(r) && R.Runs(r, es)
    ensures R.Ok(r')
    decreases |es|
  {
    if es == [] then r else Final(R.Step(r, es[0]), es[1..])
  }

  lemma {:induction false} OneAfterTheOther(r: R.Ring<Task>, es: seq<R.Event<Task>>, fs: seq<R.Event<Task>>)
    requires R.Ok(r) && R.Runs(r, es) && R.Runs(Final(r, es), fs)
    ensures R.Runs(r, es + fs) && Final(r, es + fs) == Final(Final(r, es), fs)
    ensures R.Selections(r, es + fs) == R.Selections(r, es) + R.Selections(Final(r, es), fs)
    decreases |es|
  {
    hide R.Step, R.Enabled, R.Ok, R.Selected;
    if es == [] {
      assert es + fs == fs;
    } else {
      assert (es + fs)[0] == es[0] && (es + fs)[1..] == es[1..] + fs;
      OneAfterTheOther(R.Step(r, es[0]), es[1..], fs);
    }
  }

  // Events that turn one ring into the other, select these items and drop none but those given.
  ghost predicate Leads(r: R.Ring<Task>, es: seq<R.Event<Task>>, r': R.Ring<Task>, chosen: seq<Task>,
                        dropped: set<Task>)
  {
    && R.Ok(r) && R.Runs(r, es) && Final(r, es) == r' && R.Selections(r, es) == chosen
    && forall t :: R.Drop(t) in es ==> t in dropped
  }

  // Some events do.
  ghost predicate Becomes(r: R.Ring<Task>, r': R.Ring<Task>, chosen: seq<Task>, dropped: set<Task>) {
    exists es :: Leads(r, es, r', chosen, dropped)
  }

  lemma Stays(r: R.Ring<Task>, dropped: set<Task>)
    requires R.Ok(r)
    ensures Becomes(r, r, [], dropped)
  {
    assert Leads(r, [], r, [], dropped);
  }

  lemma Twice(r: R.Ring<Task>, r1: R.Ring<Task>, r2: R.Ring<Task>, a: seq<Task>, b: seq<Task>, dropped: set<Task>)
    requires Becomes(r, r1, a, dropped) && Becomes(r1, r2, b, dropped)
    ensures Becomes(r, r2, a + b, dropped)
  {
    var es :| Leads(r, es, r1, a, dropped);
    var fs :| Leads(r1, fs, r2, b, dropped);
    OneAfterTheOther(r, es, fs);
    assert Leads(r, es + fs, r2, a + b, dropped);
  }

  lemma BothSilent(r: R.Ring<Task>, r1: R.Ring<Task>, r2: R.Ring<Task>, dropped: set<Task>)
    requires Becomes(r, r1, [], dropped) && Becomes(r1, r2, [], dropped)
    ensures Becomes(r, r2, [], dropped)
  {
    hide Becomes;
    var none: seq<Task> := [];
    Twice(r, r1, r2, none, none, dropped);
    assert none + none == none;
  }

  lemma Fewer(r: R.Ring<Task>, r': R.Ring<Task>, chosen: seq<Task>, dropped: set<Task>, more: set<Task>)
    requires Becomes(r, r', chosen, dropped) && dropped <= more
    ensures Becomes(r, r', chosen, more)
  {
    var es :| Leads(r, es, r', chosen, dropped);
    assert Leads(r, es, r', chosen, more);
  }

  lemma One(r: R.Ring<Task>, e: R.Event<Task>)
    requires R.Ok(r) && R.Enabled(r, e)
    ensures Becomes(r, R.Step(r, e), if e.Select? then [R.Selected(R.Step(r, e))] else [],
                    if e.Drop? then {e.item} else {})
  {
    var r' := R.Step(r, e);
    assert R.Runs(r', []) && [e][1..] == [];
    assert R.Runs(r, [e]) && Final(r, [e]) == r';
    assert R.Selections(r', []) == [];
    assert forall t :: R.Drop(t) in [e] ==> e == R.Drop(t);
    hide R.Step;
    assert Leads(r, [e], r', if e.Select? then [R.Selected(r')] else [], if e.Drop? then {e.item} else {});
  }

  // ----- The ready list of one priority ----------------------------------------------------------

  function RingAt(x: Lists, p: nat): R.Ring<Task> {
    if Ready(p) in x.rings then x.rings[Ready(p)] else R.Ring([], 0)
  }

  lemma RingAtOk(x: Lists, p: nat)
    requires Consistent(x)
    ensures R.Ok(RingAt(x, p)) && forall t :: t in RingAt(x, p).items <==> ContainerOf(x, t) == In(Ready(p))
  {
    assert RingAt(x, p).items == Items(x, Ready(p));
  }

  lemma UnlinkBecomes(x: Lists, p: nat, t: Task)
    requires Consistent(x)
    ensures Becomes(RingAt(x, p), RingAt(Unlink(x, t), p), [], if ContainerOf(x, t) == In(Ready(p)) then {t} else {})
  {
    hide Becomes, Consistent, R.Ok;
    RingAtOk(x, p);
    if ContainerOf(x, t) == In(Ready(p)) {
      One(RingAt(x, p), R.Drop(t));
    } else {
      Stays(RingAt(x, p), {});
    }
  }

  lemma LinkEndBecomes(x: Lists, p: nat, l: ListId, t: Task)
    requires Consistent(x) && l in x.rings && ContainerOf(x, t) == Nowhere
    ensures Becomes(RingAt(x, p), RingAt(LinkEnd(x, l, t), p), [], {})
  {
    hide Becomes, Consistent;
    RingAtOk(x, p);
    if l == Ready(p) {
      One(RingAt(x, p), R.Add(t));
    } else {
      Stays(RingAt(x, p), {});
    }
  }

  function RingOf(k: Kernel, p: nat): R.Ring<Task> {
    RingAt(k.lists, p)
  }

  lemma SoundIs(k: Kernel, hand: set<Task>, c: Config)
    requires Sound(k, hand, c)
    ensures Consistent(k.lists) && (forall l :: l in k.lists.rings <==> IsList(l, c))
    ensures forall t :: t in k.priority ==> k.priority[t] < c.priorities
    ensures forall t :: t in hand && t in k.priority ==> ContainerOf(k.lists, t) == Nowhere
  {
    hide ReadyRight, EventsRight, DelaysSorted, Consistent;
  }

  lemma OffBecomes(k: Kernel, p: nat, t: Task, c: Config)
    requires Sound(k, {}, c)
    ensures Becomes(RingOf(k, p), RingOf(TakenOff(k, t), p), [], if Place(k, t) == In(Ready(p)) then {t} else {})
  {
    hide Becomes, Consistent, Unlink;
    SoundIs(k, {}, c);
    UnlinkBecomes(k.lists, p, t);
  }

  lemma OnBecomes(k: Kernel, p: nat, l: ListId, t: Task, c: Config)
    requires Sound(k, {t}, c) && t in k.priority && IsList(l, c)
    ensures Becomes(RingOf(k, p), RingAt(LinkEnd(k.lists, l, t), p), [], {})
  {
    hide Becomes, Consistent, LinkEnd;
    SoundIs(k, {t}, c);
    LinkEndBecomes(k.lists, p, l, t);
  }

  // A task is made ready.
  lemma UnblockedBecomes(k: Kernel, p: nat, t: Task, c: Config)
    requires Sound(k, {}, c) && t in k.priority && Place(k, t) != In(Ready(p))
    ensures Becomes(RingOf(k, p), RingOf(Unblocked(k, t), p), [], {})
  {
    hide Becomes, Sound, TakenOff, LinkEnd;
    var k1 := TakenOff(k, t);
    var k2 := WithoutEvent(k1, t);
    OffBecomes(k, p, t, c);
    TakenOffSound(k, {}, t, c);
    TakenOffFields(k, t);
    assert {} + {t} == {t};
    CurrentIsTask(k1, {t}, c);
    WithoutEventSound(k1, {t}, t, c);
    SoundIs(k2, {t}, c);
    OnBecomes(k2, p, Ready(PriorityOf(k2, t)), t, c);
    BothSilent(RingOf(k, p), RingOf(k1, p), RingOf(Unblocked(k, t), p), {});
  }

  lemma {:induction false} UnblockedAllBecomes(k: Kernel, p: nat, s: seq<Task>, c: Config)
    requires Sound(k, {}, c) && R.Distinct(s)
    requires forall t :: t in s ==> t in k.priority && Place(k, t) != In(Ready(p))
    ensures Becomes(RingOf(k, p), RingOf(UnblockedAll(k, s), p), [], {})
    decreases |s|
  {
    hide Becomes, Sound, Unblocked, RingOf;
    if s == [] {
      SoundIs(k, {}, c);
      NothingBecomes(k, p);
    } else {
      var k1 := Unblocked(k, s[0]);
      UnblockedSound(k, s[0], c);
      UnblockedFields(k, s[0]);
      UnblockedBecomes(k, p, s[0], c);
      assert s == [s[0]] + s[1..];
      assert s[0] !in s[1..];
      forall t | t in s[1..]
        ensures Place(k1, t) != In(Ready(p))
      {
        assert Place(k1, t) == Place(k, t);
      }
      UnblockedAllBecomes(k1, p, s[1..], c);
      BothSilent(RingOf(k, p), RingOf(k1, p), RingOf(UnblockedAll(k, s), p), {});
    }
  }

  lemma NothingBecomes(k: Kernel, p: nat)
    requires Consistent(k.lists)
    ensures Becomes(RingOf(k, p), RingOf(k, p), [], {})
  {
    hide Becomes;
    RingAtOk(k.lists, p);
    Stays(RingOf(k, p), {});
  }

  // A processed tick
  lemma TickBecomes(k: Kernel, p: nat, c: Config)
    requires Steady(k, c)
    ensures Becomes(RingOf(k, p), RingOf(TickProcessed(k, c), p), [], {})
  {
    hide Becomes, Sound, UnblockedAll, DueTasks, Ticked, Due;
    var k1 := Ticked(k, c);
    TickedMoved(k, c);
    SoundIs(k, {}, c);
    NothingBecomes(k, p);
    if k1.tick >= k1.nextUnblock {
      DueExactly(k1, c);
      DueDistinct(k1, p, c);
      UnblockedAllBecomes(k1, p, DueTasks(k1), c);
    }
  }

  lemma DueDistinct(k: Kernel, p: nat, c: Config)
    requires Moved(k, c)
    ensures R.Distinct(DueTasks(k)) && forall t :: Due(k, t) ==> Place(k, t) != In(Ready(p))
  {
    hide Sound;
    SoundIs(k, {}, c);
    RingOk(k, DelayedId(k), c);
  }

  lemma {:induction false} ReplayBecomes(k: Kernel, n: nat, p: nat, c: Config)
    requires Steady(k, c) && k.pending == []
    ensures Becomes(RingOf(k, p), RingOf(Replayed(k, n, c), p), [], {})
    decreases n
  {
    hide Becomes, Steady, TickProcessed, TickSwitches;
    if n == 0 {
      SteadyConsistent(k, c);
      NothingBecomes(k, p);
    } else {
      var k1 := TickProcessed(k, c);
      var y := k.yieldPending || TickSwitches(k, c);
      TickEffect(k, c);
      TickPending(k, c);
      SteadyYield(k1, y, c);
      TickBecomes(k, p, c);
      ReplayBecomes(k1.(yieldPending := y), n - 1, p, c);
      BothSilent(RingOf(k, p), RingOf(k1, p), RingOf(Replayed(k, n, c), p), {});
    }
  }

  lemma SteadyConsistent(k: Kernel, c: Config)
    requires Steady(k, c)
    ensures Consistent(k.lists)
  {
    hide Sound;
    SoundIs(k, {}, c);
  }

  lemma PendingBecomes(k: Kernel, p: nat, c: Config)
    requires Steady(k, c)
    ensures Becomes(RingOf(k, p), RingOf(PendingMoved(k, c), p), [], {})
  {
    hide Becomes, Sound, UnblockedAll;
    PendingAreTasks(k, c);
    PendingApart(k, p, c);
    UnblockedAllBecomes(k, p, k.pending, c);
  }

  lemma PendingApart(k: Kernel, p: nat, c: Config)
    requires Sound(k, {}, c)
    ensures R.Distinct(k.pending) && forall t :: t in k.pending ==> Place(k, t) != In(Ready(p))
  {
    hide Listed, ReadyRight, DelaysSorted, R.Distinct;
    forall t | t in k.pending
      ensures Place(k, t) != In(Ready(p))
    {
      assert EventOf(k, t) == OnPending;
    }
  }

  lemma ResumeAllBecomes(k: Kernel, p: nat, c: Config)
    requires Good(k, c) && k.depth > 0
    ensures Becomes(RingOf(k, p), RingOf(ResumeAll(k, c), p), [], {})
  {
    hide Becomes, Steady, PendingMoved, Replayed;
    GoodIs(k, c);
    SteadyConsistent(k, c);
    NothingBecomes(k, p);
    if !(k.depth > 1 || k.count == 0) {
      var k0 := k.(depth := 0);
      SteadyFields(k, 0, k.pended, c);
      assert k.(depth := 0, pended := k.pended) == k0;
      PendingMovedSteady(k0, c);
      var k1 := PendingMoved(k0, c);
      PendingBecomes(k0, p, c);
      ReplayBecomes(k1, k.pended, p, c);
      BothSilent(RingOf(k, p), RingOf(k1, p), RingOf(ResumeAll(k, c), p), {});
    }
  }

  // ----- Every event of the scheduler -----------------------------------------------------------------

  // The task that an event may take off a ready list.
  function Subject(k: Kernel, e: Event): set<Task> {
    match e
    case WaitFor(_) => {k.current}
    case SuspendTask(t) => {t}
    case DeleteTask(t) => {t}
    case SetPriority(t, _) => {t}
    case _ => {}
  }

  // The task that vTaskSwitchContext selects, if it is one of priority p.
  function Chosen(k: Kernel, e: Event, p: nat, c: Config): seq<Task> {
    var k' := Step(k, e, c);
    if e.Switch? && k.depth == 0 && PriorityOf(k', k'.current) == p then [k'.current] else []
  }

  lemma SwitchBecomes(k: Kernel, p: nat, idle: Task, c: Config)
    requires Good(k, c) && IsReady(k, idle)
    ensures Becomes(RingOf(k, p), RingOf(SwitchContext(k), p), Chosen(k, Switch, p, c), {})
  {
    hide Becomes, Sound, OnTime, HighestReady, IsReady, R.Advance;
    SoundIs(k, {}, c);
    NothingBecomes(k, p);
    if k.depth == 0 {
      var q := HighestReady(k, k.top);
      var k1 := k.(yieldPending := false);
      SomethingToSelect(k, idle, c);
      CurrentIsTask(k, {}, c);
      SameSound(k, k1, {}, c);
      SameHighest(k, k1, k.top);
      NextEntrySound(k1, q, c);
      var t := SwitchContext(k).current;
      OnItsList(k, {}, Ready(q), t, c);
      ReadyHasPriority(k, t, q, c);
      if q == p {
        SelectBecomes(k, p, c);
        SelectedIs(k1, p, c);
      }
    }
  }

  lemma SelectBecomes(k: Kernel, p: nat, c: Config)
    requires Sound(k, {}, c) && ReadyItems(k, p) != []
    ensures Becomes(RingOf(k, p), R.Advance(RingOf(k, p)), [R.Selected(R.Advance(RingOf(k, p)))], {})
  {
    hide Becomes, Sound;
    SoundIs(k, {}, c);
    RingAtOk(k.lists, p);
    One(RingOf(k, p), R.Select);
  }

  lemma SelectedIs(k: Kernel, p: nat, c: Config)
    requires Sound(k, {}, c) && ReadyItems(k, p) != []
    ensures var k' := NextEntry(k, p);
            RingOf(k', p) == R.Advance(RingOf(k, p)) && k'.current == R.Selected(R.Advance(RingOf(k, p)))
  {
    hide Sound;
    SoundIs(k, {}, c);
    RingAtOk(k.lists, p);
  }

  // The running task blocks.
  lemma BlockBecomes(k: Kernel, w: Wait, p: nat, c: Config)
    requires Good(k, c) && CanBlock(k, w, c)
    ensures Becomes(RingOf(k, p), RingOf(Block(k, w, c), p), [], {k.current})
  {
    hide Becomes, Sound, OnTime, TakenOff, LinkEnd, Block, CanBlock, ForEver;
    var t := k.current;
    CurrentIsTask(k, {}, c);
    OffBecomes(k, p, t, c);
    TakenOffSound(k, {}, t, c);
    TakenOffFields(k, t);
    assert {} + {t} == {t};
    var k1 := TakenOff(k, t);
    Fewer(RingOf(k, p), RingOf(k1, p), [], if Place(k, t) == In(Ready(p)) then {t} else {}, {t});
    BlockRing(k, w, p, c);
    if ForEver(w, c) {
      OnBecomes(k1, p, SuspendedList, t, c);
      Fewer(RingOf(k1, p), RingAt(LinkEnd(k1.lists, SuspendedList, t), p), [], {}, {t});
      BothSilent(RingOf(k, p), RingOf(k1, p), RingAt(LinkEnd(k1.lists, SuspendedList, t), p), {t});
    }
  }

  lemma BlockRing(k: Kernel, w: Wait, p: nat, c: Config)
    ensures var x := TakenOff(k, k.current).lists;
            RingOf(Block(k, w, c), p) == RingAt(if ForEver(w, c) then LinkEnd(x, SuspendedList, k.current) else x, p)
  {
    hide TakenOff, LinkEnd, Delayed;
    var k1 := TakenOff(k, k.current);
    var k2 := if w.event then k1.(event := k1.event[k1.current := OnEventList]) else k1;
    assert k1.current == k.current by {
      TakenOffFields(k, k.current);
    }
    DelayedApart(k2, k.current, Wake(k2, w, c), p);
  }

  // The delayed lists are not ready lists.
  lemma DelayedApart(k: Kernel, t: Task, wake: nat, p: nat)
    ensures RingOf(Delayed(k, t, wake), p) == RingOf(k, p)
  {
  }

  // A task is taken off its list, with its event.
  lemma AwayBecomes(k: Kernel, t: Task, p: nat, c: Config)
    requires Good(k, c) && t in k.priority
    ensures Becomes(RingOf(k, p), RingOf(WithoutEvent(TakenOff(k, t), t), p), [], {t})
  {
    hide Becomes, Sound, OnTime, TakenOff;
    OffBecomes(k, p, t, c);
    Fewer(RingOf(k, p), RingOf(TakenOff(k, t), p), [], if Place(k, t) == In(Ready(p)) then {t} else {}, {t});
  }

  lemma SuspendBecomes(k: Kernel, t: Task, p: nat, c: Config)
    requires Good(k, c) && t in k.priority
    ensures Becomes(RingOf(k, p), RingOf(Suspend(k, t, c), p), [], {t})
  {
    hide Becomes, Sound, OnTime, TakenOff, WithoutEvent, LinkEnd;
    var k1 := WithoutEvent(TakenOff(k, t), t);
    AwayBecomes(k, t, p, c);
    TakenAway(k, t, c);
    OnBecomes(k1, p, SuspendedList, t, c);
    Fewer(RingOf(k1, p), RingAt(LinkEnd(k1.lists, SuspendedList, t), p), [], {}, {t});
    BothSilent(RingOf(k, p), RingOf(k1, p), RingAt(LinkEnd(k1.lists, SuspendedList, t), p), {t});
  }

  lemma DeleteBecomes(k: Kernel, t: Task, p: nat, c: Config)
    requires Good(k, c) && t in k.priority
    ensures Becomes(RingOf(k, p), RingOf(Delete(k, t, c), p), [], {t})
  {
    hide Becomes, Sound, OnTime, TakenOff, WithoutEvent, LinkEnd;
    var k1 := WithoutEvent(TakenOff(k, t), t);
    AwayBecomes(k, t, p, c);
    TakenAway(k, t, c);
    if t == k.current {
      OnBecomes(k1, p, Termination, t, c);
      Fewer(RingOf(k1, p), RingAt(LinkEnd(k1.lists, Termination, t), p), [], {}, {t});
      BothSilent(RingOf(k, p), RingOf(k1, p), RingAt(LinkEnd(k1.lists, Termination, t), p), {t});
    }
  }

  // A task with an event is blocked.
  lemma EventIsBlocked(k: Kernel, t: Task, c: Config)
    requires Sound(k, {}, c) && EventOf(k, t) != NoEvent
    ensures Place(k, t).In? && !Place(k, t).list.Ready?
  {
    hide Listed, ReadyRight, DelaysSorted, R.Distinct;
  }

  lemma FreeBecomes(k: Kernel, t: Task, p: nat, c: Config)
    requires Good(k, c) && t in k.priority && EventOf(k, t) == OnEventList
    ensures Becomes(RingOf(k, p), RingOf(RemoveFromEventList(k, t), p), [], {})
    ensures Becomes(RingOf(k, p), RingOf(RemoveFromUnorderedEventList(k, t), p), [], {})
  {
    hide Becomes, Sound, OnTime, TakenOff, WithoutEvent, AddedToReady;
    var k1 := WithoutEvent(k, t);
    SoundIs(k, {}, c);
    NothingBecomes(k, p);
    EventIsBlocked(k, t, c);
    CurrentIsTask(k, {}, c);
    WithoutEventSound(k, {}, t, c);
    WithoutEventFields(k, t);
    CurrentIsTask(k1, {}, c);
    StillOnTimeFields(k, k1, c);
    FreedBecomes(k1, t, p, c);
  }

  // A task that was on no ready list is made ready.
  lemma FreedBecomes(k: Kernel, t: Task, p: nat, c: Config)
    requires Sound(k, {}, c) && t in k.priority && EventOf(k, t) == NoEvent
    requires !(Place(k, t).In? && Place(k, t).list.Ready?)
    ensures Becomes(RingOf(k, p), RingOf(AddedToReady(TakenOff(k, t), t), p), [], {})
  {
    hide Becomes, Sound, TakenOff, LinkEnd;
    var k1 := TakenOff(k, t);
    OffBecomes(k, p, t, c);
    TakenOffSound(k, {}, t, c);
    TakenOffFields(k, t);
    assert {} + {t} == {t};
    SoundIs(k1, {t}, c);
    OnBecomes(k1, p, Ready(PriorityOf(k1, t)), t, c);
    BothSilent(RingOf(k, p), RingOf(k1, p), RingOf(AddedToReady(k1, t), p), {});
  }

  lemma ResumeBecomes(k: Kernel, t: Task, p: nat, c: Config)
    requires Good(k, c)
    ensures Becomes(RingOf(k, p), RingOf(Resume(k, t), p), [], {})
  {
    hide Becomes, Sound, OnTime, TakenOff, AddedToReady;
    SoundIs(k, {}, c);
    NothingBecomes(k, p);
    if IsSuspended(k, t) {
      CurrentIsTask(k, {}, c);
      FreedBecomes(k, t, p, c);
    }
  }

  lemma CreateBecomes(k: Kernel, t: Task, priority: nat, p: nat, c: Config)
    requires Good(k, c) && t !in k.priority && priority < c.priorities
    ensures Becomes(RingOf(k, p), RingOf(Create(k, t, priority), p), [], {})
  {
    hide Becomes, Sound, OnTime, LinkEnd;
    var k1 := k.(lists := Lists(k.lists.rings, k.lists.container[t := Nowhere], k.lists.value[t := 0]),
                 priority := k.priority[t := priority], event := k.event[t := NoEvent], count := k.count + 1);
    NewTaskSound(k, t, priority, c);
    SoundIs(k1, {t}, c);
    OnBecomes(k1, p, Ready(priority), t, c);
  }

  lemma ChangeBecomes(k: Kernel, t: Task, priority: nat, p: nat, c: Config)
    requires Good(k, c) && t in k.priority && priority < c.priorities
    ensures Becomes(RingOf(k, p), RingOf(ChangePriority(k, t, priority), p), [], {t})
  {
    hide Becomes, Sound, OnTime, TakenOff, LinkEnd;
    SoundIs(k, {}, c);
    NothingBecomes(k, p);
    Fewer(RingOf(k, p), RingOf(k, p), [], {}, {t});
    if Place(k, t) == In(Ready(PriorityOf(k, t))) {
      var k1 := TakenOff(k, t);
      var k2 := k1.(priority := k.priority[t := priority]);
      OffBecomes(k, p, t, c);
      Fewer(RingOf(k, p), RingOf(k1, p), [], if Place(k, t) == In(Ready(p)) then {t} else {}, {t});
      TakenOffSound(k, {}, t, c);
      TakenOffFields(k, t);
      assert {} + {t} == {t};
      PriorityInHand(k1, {t}, t, priority, c);
      OnBecomes(k2, p, Ready(priority), t, c);
      Fewer(RingOf(k2, p), RingOf(AddedToReady(k2, t), p), [], {}, {t});
      BothSilent(RingOf(k, p), RingOf(k1, p), RingOf(AddedToReady(k2, t), p), {t});
    }
  }

  lemma CleanUpBecomes(k: Kernel, p: nat, c: Config)
    requires Good(k, c)
    ensures Becomes(RingOf(k, p), RingOf(CleanUp(k), p), [], {})
  {
    hide Becomes, Sound, OnTime, TakenOff;
    SoundIs(k, {}, c);
    NothingBecomes(k, p);
    var s := Items(k.lists, Termination);
    if s != [] {
      OnItsList(k, {}, Termination, s[0], c);
      OffBecomes(k, p, s[0], c);
    }
  }

  // Every event changes every ready list as some events of a ring do, selects what it selects, and
  // takes off no task but its subject.
  lemma StepBecomes(k: Kernel, e: Event, p: nat, idle: Task, c: Config)
    requires Good(k, c) && IsReady(k, idle) && Enabled(k, e, idle, c)
    ensures Becomes(RingOf(k, p), RingOf(Step(k, e, c), p), Chosen(k, e, p, c), Subject(k, e))
  {
    hide Becomes, Good, RingOf, Block, ResumeAll, SwitchContext, TickProcessed, RemoveFromEventList;
    hide RemoveFromUnorderedEventList, Suspend, Resume, Delete, Create, ChangePriority, CleanUp;
    GoodConsistent(k, c);
    NothingBecomes(k, p);
    match e
    case TickInterrupt =>
      SteadyOfGood(k, c);
      TickBecomes(k, p, c);
      PendedRing(k, p);
    case Lock => PendedRing(k, p);
    case Unlock => ResumeAllBecomes(k, p, c);
    case Switch => SwitchBecomes(k, p, idle, c);
    case WaitFor(w) => BlockBecomes(k, w, p, c);
    case Free(t) => FreeBecomes(k, t, p, c);
    case FreeUnordered(t) => FreeBecomes(k, t, p, c);
    case SuspendTask(t) => SuspendBecomes(k, t, p, c);
    case ResumeTask(t) => ResumeBecomes(k, t, p, c);
    case DeleteTask(t) => DeleteBecomes(k, t, p, c);
    case CreateTask(t, priority) => CreateBecomes(k, t, priority, p, c);
    case SetPriority(t, priority) => ChangeBecomes(k, t, priority, p, c);
    case CollectDead => CleanUpBecomes(k, p, c);
  }

  lemma GoodConsistent(k: Kernel, c: Config)
    requires Good(k, c)
    ensures Consistent(k.lists)
  {
    hide Sound, OnTime;
    SoundIs(k, {}, c);
  }

  lemma PendedRing(k: Kernel, p: nat)
    ensures RingOf(k.(pended := k.pended + 1), p) == RingOf(k, p) && RingOf(k.(depth := k.depth + 1), p) == RingOf(k, p)
  {
  }

  // ----- Taking turns -----------------------------------------------------------------------------------

  // Over a run: the tasks of priority p that context switches select, in order.
  function ChosenIn(k: Kernel, events: seq<Event>, p: nat, c: Config): seq<Task>
    decreases |events|
  {
    if events == [] then [] else Chosen(k, events[0], p, c) + ChosenIn(Step(k, events[0], c), events[1..], p, c)
  }

  // The task is ready with priority p all through the run, and is not taken off its list and put on
  // again by a change of its priority.
  ghost predicate KeepsReady(k: Kernel, events: seq<Event>, t: Task, p: nat, c: Config)
    decreases |events|
  {
    && IsReady(k, t) && k.priority[t] == p
    && (events != [] ==>
          && !(events[0].SetPriority? && events[0].task == t)
          && KeepsReady(Step(k, events[0], c), events[1..], t, p, c))
  }

  // A task that stays ready was not the subject of the event.
  lemma NotSubject(k: Kernel, e: Event, t: Task, idle: Task, c: Config)
    requires Good(k, c) && Enabled(k, e, idle, c) && IsReady(k, t) && IsReady(Step(k, e, c), t)
    requires !(e.SetPriority? && e.task == t)
    ensures t !in Subject(k, e)
  {
    hide Good, Block, Suspend, Delete;
    match e
    case WaitFor(w) =>
      if t == k.current {
        BlockGood(k, w, c);
        BlockedPlace(k, w, c);
      }
    case SuspendTask(u) =>
      SuspendGood(k, u, c);
    case DeleteTask(u) =>
      DeleteGood(k, u, c);
    case _ =>
  }

  lemma BlockedPlace(k: Kernel, w: Wait, c: Config)
    requires Good(k, c) && CanBlock(k, w, c)
    ensures !IsReady(Block(k, w, c), k.current)
  {
    hide Good, Block;
    BlockGood(k, w, c);
  }

  lemma {:induction false} RunBecomes(k: Kernel, events: seq<Event>, k': Kernel, p: nat, x: Task, y: Task, idle: Task,
                                      c: Config) returns (es: seq<R.Event<Task>>)
    requires Good(k, c) && IsReady(k, idle) && Reaches(k, events, k', idle, c)
    requires KeepsReady(k, events, x, p, c) && KeepsReady(k, events, y, p, c)
    ensures R.Ok(RingOf(k, p)) && R.Runs(RingOf(k, p), es)
    ensures R.Selections(RingOf(k, p), es) == ChosenIn(k, events, p, c)
    ensures R.Drop(x) !in es && R.Drop(y) !in es
    decreases |events|
  {
    hide Good, Enabled, Step, Chosen, Subject, RingOf, IsReady;
    if events == [] {
      GoodConsistent(k, c);
      RingOfOk(k, p);
      es := [];
    } else {
      var e := events[0];
      var k1 := Step(k, e, c);
      StepBecomes(k, e, p, idle, c);
      StepGood(k, e, idle, c);
      IdleStaysReady(k, e, idle, c);
      NotSubject(k, e, x, idle, c);
      NotSubject(k, e, y, idle, c);
      var fs :| Leads(RingOf(k, p), fs, RingOf(k1, p), Chosen(k, e, p, c), Subject(k, e));
      var gs := RunBecomes(k1, events[1..], k', p, x, y, idle, c);
      OneAfterTheOther(RingOf(k, p), fs, gs);
      es := fs + gs;
    }
  }

  lemma RingOfOk(k: Kernel, p: nat)
    requires Consistent(k.lists)
    ensures R.Ok(RingOf(k, p))
  {
    RingAtOk(k.lists, p);
  }

  // Round robin: a context switch selects task x of priority p, and a run follows at the end of
  // which x is selected again, for the first time.  Then every other task that was ready with
  // priority p all the time was selected exactly once in between, whatever else became ready,
  // blocked, was suspended, created or deleted meanwhile.
  lemma TasksTakeTurns(k: Kernel, x: Task, y: Task, p: nat, events: seq<Event>, k': Kernel, idle: Task, c: Config)
    requires Good(k, c) && IsReady(k, idle) && k.depth == 0
    requires var k1 := SwitchContext(k);
             && k1.current == x && Reaches(k1, events, k', idle, c)
             && KeepsReady(k1, events, x, p, c) && KeepsReady(k1, events, y, p, c)
             && R.EndsWith(ChosenIn(k1, events, p, c), x)
    requires x != y
    ensures multiset(ChosenIn(SwitchContext(k), events, p, c))[y] == 1
  {
    hide Good, SwitchContext, Step, Chosen, RingOf, R.EndsWith;
    var k1 := SwitchContext(k);
    SwitchContextRight(k, idle, c);
    JustSelected(k, p, idle, c);
    KeptFirst(k1, events, x, p, c);
    KeptFirst(k1, events, y, p, c);
    ReadyOnRing(k1, y, p, c);
    assert IsReady(k1, idle);
    var es := RunBecomes(k1, events, k', p, x, y, idle, c);
    R.FairShare(RingOf(k1, p), es, x, y);
  }

  lemma KeptFirst(k: Kernel, events: seq<Event>, t: Task, p: nat, c: Config)
    requires KeepsReady(k, events, t, p, c)
    ensures IsReady(k, t) && k.priority[t] == p
  {
  }

  lemma ReadyOnRing(k: Kernel, t: Task, p: nat, c: Config)
    requires Good(k, c) && IsReady(k, t) && k.priority[t] == p
    ensures t in RingOf(k, p).items
  {
    hide Good;
    GoodConsistent(k, c);
    RingAtOk(k.lists, p);
  }

  // The index of the list points at the task just selected.
  lemma JustSelected(k: Kernel, p: nat, idle: Task, c: Config)
    requires Good(k, c) && IsReady(k, idle) && k.depth == 0
    ensures var k' := SwitchContext(k);
            k'.current in k'.priority && k'.priority[k'.current] == p ==>
              0 < RingOf(k', p).pos <= |RingOf(k', p).items| && R.Selected(RingOf(k', p)) == k'.current
  {
    hide Sound, OnTime, HighestReady, R.Advance;
    var q := HighestReady(k, k.top);
    var k1 := k.(yieldPending := false);
    SomethingToSelect(k, idle, c);
    CurrentIsTask(k, {}, c);
    SameSound(k, k1, {}, c);
    SameHighest(k, k1, k.top);
    NextEntrySound(k1, q, c);
    OnItsList(k, {}, Ready(q), SwitchContext(k).current, c);
    ReadyHasPriority(k, SwitchContext(k).current, q, c);
    SelectedIs(k1, q, c);
    AdvancedRing(k1, q, c);
  }

  lemma AdvancedRing(k: Kernel, p: nat, c: Config)
    requires Sound(k, {}, c) && ReadyItems(k, p) != []
    ensures var r := R.Advance(RingOf(k, p)); 0 < r.pos <= |r.items|
  {
    hide Sound;
    SoundIs(k, {}, c);
    RingAtOk(k.lists, p);
  }
}
