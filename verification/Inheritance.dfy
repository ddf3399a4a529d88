/**
 Mutexes: who holds them, who waits for them, and the priorities that holders inherit from
 waiting tasks.  The wait lists are kept in the order of the tasks' event item values, which
 are written when priorities are, but not always to the same effect.
 */
module Inheritance {
  import opened Rings

  type Task = nat
  type Mutex = nat

  // The value of xEventListItem: a rank among the priorities, or something else while the item
  // belongs to an event group (taskEVENT_LIST_ITEM_VALUE_IN_USE).
  datatype Item = Rank(value: nat) | InUse

  // configMAX_PRIORITIES; uxPriority, uxBasePriority, uxMutexesHeld and xEventListItem of every
  // task; the holder of every mutex that is held; the tasks on the wait list of every mutex.
  datatype State = State(
    limit: nat,
    priority: map<Task, nat>,
    base: map<Task, nat>,
    held: map<Task, nat>,
    item: map<Task, Item>,
    holder: map<Mutex, Task>,
    waiters: map<Mutex, seq<Task>>)

  function PriorityOf(s: State, t: Task): nat {
    if t in s.priority then s.priority[t] else 0
  }

  function BaseOf(s: State, t: Task): nat {
    if t in s.base then s.base[t] else 0
  }

  function HeldBy(s: State, t: Task): nat {
    if t in s.held then s.held[t] else 0
  }

  function ItemOf(s: State, t: Task): Item {
    if t in s.item then s.item[t] else Rank(0)
  }

  function WaitersOf(s: State, m: Mutex): seq<Task> {
    if m in s.waiters then s.waiters[m] else []
  }

  // The item value that stands for priority p: the list order is the reverse of the priorities.
  function RankOf(limit: nat, p: nat): Item {
    Rank(if p < limit then limit - p else 0)
  }

  // The mutexes that name t as their holder.
  function Owned(s: State, t: Task): set<Mutex> {
    set m | m in s.holder && s.holder[m] == t
  }

  ghost predicate IsWaiting(s: State, t: Task) {
    exists m :: t in WaitersOf(s, m)
  }

  // ----- The invariant -----------------------------------------------------------------

  ghost predicate CountsRight(s: State) {
    && s.priority.Keys == s.base.Keys == s.held.Keys == s.item.Keys
    && (forall m :: m in s.holder ==> s.holder[m] in s.priority)
    && forall t :: HeldBy(s, t) == |Owned(s, t)|
  }

  // An item stands for the priority in use or, after the base of a task with an inherited
  // priority was set, for the base.
  ghost predicate ItemRight(s: State, t: Task) {
    && PriorityOf(s, t) < s.limit && BaseOf(s, t) < s.limit
    && ItemOf(s, t) in {InUse, RankOf(s.limit, PriorityOf(s, t)), RankOf(s.limit, BaseOf(s, t))}
  }

  ghost predicate ItemsRight(s: State) {
    forall t :: t in s.priority ==> ItemRight(s, t)
  }

  // No holder runs below the base of its own priority or below a task that waits for one of
  // its mutexes, and a task without mutexes runs at its base.
  ghost predicate PrioritiesRight(s: State) {
    && (forall t :: BaseOf(s, t) <= PriorityOf(s, t))
    && (forall t :: HeldBy(s, t) == 0 ==> PriorityOf(s, t) == BaseOf(s, t))
    && (forall m, w :: m in s.holder && w in WaitersOf(s, m) ==> PriorityOf(s, w) <= PriorityOf(s, s.holder[m]))
  }

  // The most important task comes first.
  ghost predicate Ordered(s: State, ws: seq<Task>) {
    forall i, j :: 0 <= i < j < |ws| ==> PriorityOf(s, ws[j]) <= PriorityOf(s, ws[i])
  }

  // The item of a waiting task stands for its priority.
  ghost predicate MayList(s: State, m: Mutex, w: Task) {
    && w in s.priority && ItemOf(s, w) == RankOf(s.limit, PriorityOf(s, w))
    && (m in s.holder ==> s.holder[m] != w)
  }

  ghost predicate ListRight(s: State, m: Mutex) {
    var ws := WaitersOf(s, m);
    Distinct(ws) && Ordered(s, ws) && forall w :: w in ws ==> MayList(s, m, w)
  }

  ghost predicate WaitersRight(s: State) {
    forall m :: ListRight(s, m)
  }

  ghost predicate Inv(s: State) {
    CountsRight(s) && ItemsRight(s) && PrioritiesRight(s) && WaitersRight(s)
  }

  // ----- The functions --------------------------------------------------------------------

  // xQueueSemaphoreTake of a free mutex: pvTaskIncrementMutexHeldCount and the new holder
  function Take(s: State, t: Task, m: Mutex): State {
    s.(held := s.held[t := HeldBy(s, t) + 1], holder := s.holder[m := t])
  }

  // The item value is written only if it is not being used for anything else.
  function Written(s: State, t: Task, p: nat): State {
    if ItemOf(s, t) == InUse then s else s.(item := s.item[t := RankOf(s.limit, p)])
  }

  function RunAt(s: State, t: Task, p: nat): State {
    Written(s, t, p).(priority := s.priority[t := p])
  }

  // xTaskPriorityInherit, called by t
  function Inherit(s: State, t: Task, h: Task): (State, bool) {
    if PriorityOf(s, h) < PriorityOf(s, t) then (RunAt(s, h, PriorityOf(s, t)), true)
    else (s, BaseOf(s, h) < PriorityOf(s, t))
  }

  // The number that orders the lists; an item in use lies above all priorities.
  function KeyOf(s: State, t: Task): nat {
    match ItemOf(s, t)
    case Rank(v) => v
    case InUse => s.limit + 1
  }

  function Keys(s: State, ws: seq<Task>): (keys: seq<nat>)
    ensures |keys| == |ws| && forall i :: 0 <= i < |ws| ==> keys[i] == KeyOf(s, ws[i])
  {
    seq(|ws|, i requires 0 <= i < |ws| => KeyOf(s, ws[i]))
  }

  // xQueueSemaphoreTake of a mutex that h holds: inheritance, then onto the wait list
  function Wait(s: State, t: Task, m: Mutex): State {
    if m !in s.holder then s
    else
      var s1 := Inherit(s, t, s.holder[m]).0;
      var ws := WaitersOf(s1, m);
      var k := SortedPlace(Keys(s1, ws), KeyOf(s1, t));
      s1.(waiters := s1.waiters[m := ws[..k] + [t] + ws[k..]])
  }

  // A task leaves the wait list, because it was given the chance to take the mutex or because
  // its time is up.
  function Leave(s: State, t: Task, m: Mutex): State {
    s.(waiters := s.waiters[m := Without(WaitersOf(s, m), t)])
  }

  // xTaskPriorityDisinherit of the holder t
  function Disinherit(s: State, t: Task): (State, bool) {
    var s1 := s.(held := s.held[t := if HeldBy(s, t) > 0 then HeldBy(s, t) - 1 else 0]);
    if PriorityOf(s, t) != BaseOf(s, t) && HeldBy(s1, t) == 0 then
      (s1.(priority := s1.priority[t := BaseOf(s, t)], item := s1.item[t := RankOf(s.limit, BaseOf(s, t))]), true)
    else (s1, false)
  }

  // Giving a mutex (xQueueGenericSend and prvCopyDataToQueue); the first waiter is woken.
  function Give(s: State, t: Task, m: Mutex): State {
    var s1 := Disinherit(s, t).0;
    var s2 := s1.(holder := s1.holder - {m});
    if WaitersOf(s2, m) == [] then s2 else s2.(waiters := s2.waiters[m := WaitersOf(s2, m)[1..]])
  }

  // prvGetDisinheritPriorityAfterTimeout
  function HighestWaiting(s: State, m: Mutex): nat {
    var ws := WaitersOf(s, m);
    if ws == [] || KeyOf(s, ws[0]) > s.limit then 0 else s.limit - KeyOf(s, ws[0])
  }

  // uxPriorityToUse of vTaskPriorityDisinheritAfterTimeout
  function PriorityToUse(s: State, h: Task, highest: nat): nat {
    if BaseOf(s, h) < highest then highest else BaseOf(s, h)
  }

  // vTaskPriorityDisinheritAfterTimeout
  function DisinheritAfterTimeout(s: State, h: Task, highest: nat): State {
    var use := PriorityToUse(s, h, highest);
    if PriorityOf(s, h) != use && HeldBy(s, h) == 1 then RunAt(s, h, use) else s
  }

  // A task whose wait for m timed out, and from which the holder had inherited
  function GiveUp(s: State, m: Mutex): State {
    if m in s.holder then DisinheritAfterTimeout(s, s.holder[m], HighestWaiting(s, m)) else s
  }

  // vTaskPrioritySet cuts off priorities that are too high.
  function Clamped(s: State, p: nat): nat {
    if p < s.limit then p else if s.limit > 0 then s.limit - 1 else 0
  }

  // vTaskPrioritySet: the priority in use changes only if none is inherited, the item value
  // always follows the new base.
  function SetPriority(s: State, t: Task, p: nat): State {
    var q := Clamped(s, p);
    if BaseOf(s, t) == q then s
    else
      var s1 := Written(s, t, q);
      s1.(base := s.base[t := q],
          priority := if PriorityOf(s, t) == BaseOf(s, t) then s.priority[t := q] else s.priority)
  }

  // A task goes to an event group (vTaskPlaceOnUnorderedEventList), and gets its item back
  // (uxTaskResetEventItemValue).
  function UseItem(s: State, t: Task): State {
    s.(item := s.item[t := InUse])
  }

  function ResetItem(s: State, t: Task): State {
    s.(item := s.item[t := RankOf(s.limit, PriorityOf(s, t))])
  }

  // ----- Runs -----------------------------------------------------------------------------------

  datatype Event =
    | TakeIt(task: Task, mutex: Mutex)
    | WaitForIt(task: Task, mutex: Mutex)
    | TimeUp(task: Task, mutex: Mutex)
    | GiveItUp(mutex: Mutex)
    | GiveIt(task: Task, mutex: Mutex)
    | ChangeBase(task: Task, priority: nat)
    | UseIt(task: Task)
    | ResetIt(task: Task)

  // A task that may be running.
  ghost predicate Runs(s: State, t: Task) {
    t in s.priority && !IsWaiting(s, t) && ItemOf(s, t) != InUse
  }

  // A task that waits does not run, only holders give, and nobody waits for a mutex it holds.
  ghost predicate Possible(s: State, e: Event) {
    match e
    case TakeIt(t, m) => Runs(s, t) && m !in s.holder
    case WaitForIt(t, m) => Runs(s, t) && m in s.holder && s.holder[m] != t
    case TimeUp(t, m) => t in WaitersOf(s, m)
    case GiveItUp(m) => true
    case GiveIt(t, m) => Runs(s, t) && m in s.holder && s.holder[m] == t
    case ChangeBase(t, p) => t in s.priority
    case UseIt(t) => Runs(s, t)
    case ResetIt(t) => t in s.priority && !IsWaiting(s, t)
  }

  function Step(s: State, e: Event): State {
    match e
    case TakeIt(t, m) => Take(s, t, m)
    case WaitForIt(t, m) => Wait(s, t, m)
    case TimeUp(t, m) => Leave(s, t, m)
    case GiveItUp(m) => GiveUp(s, m)
    case GiveIt(t, m) => Give(s, t, m)
    case ChangeBase(t, p) => SetPriority(s, t, p)
    case UseIt(t) => UseItem(s, t)
    case ResetIt(t) => ResetItem(s, t)
  }

  // ----- What the events must meet -----------------------------------------------------------------

  // With priority p the task t would still be at its place: no task in front of it is less
  // important, no task behind it more important.
  ghost predicate KeepsPlace(s: State, ws: seq<Task>, t: Task, p: nat) {
    forall i, k :: 0 <= i < |ws| && 0 <= k < |ws| && ws[k] == t ==>
      (i < k ==> p <= PriorityOf(s, ws[i])) && (k < i ==> PriorityOf(s, ws[i]) <= p)
  }

  // Priority p is not above that of a holder for whose mutex t waits, and moves t nowhere on the
  // lists it waits on.
  ghost predicate PlaceFits(s: State, t: Task, p: nat) {
    forall m :: t in WaitersOf(s, m) ==>
      KeepsPlace(s, WaitersOf(s, m), t, p) && (m in s.holder ==> p <= PriorityOf(s, s.holder[m]))
  }

  // Priority p is not below that of a task that waits for a mutex of t.
  ghost predicate OwnedFit(s: State, t: Task, p: nat) {
    forall m, w :: m in Owned(s, t) && w in WaitersOf(s, m) ==> PriorityOf(s, w) <= p
  }

  // What must hold before an event.  A task that takes a free mutex is no less important than those
  // that still wait for it.  The item of a task that starts to wait stands for its priority, and a
  // holder that is raised, or lowered after a time-out, fits its own waits with the new priority.
  // A new base fits the same way if it becomes the priority in use; below an inherited priority it
  // only must not lie above, except that a task that waits can get no other base than that.
  ghost predicate Fits(s: State, e: Event) {
    match e
    case TakeIt(t, m) => forall w :: w in WaitersOf(s, m) ==> PriorityOf(s, w) <= PriorityOf(s, t)
    case WaitForIt(t, m) =>
      && ItemOf(s, t) == RankOf(s.limit, PriorityOf(s, t))
      && (m in s.holder && PriorityOf(s, s.holder[m]) < PriorityOf(s, t) ==>
            PlaceFits(s, s.holder[m], PriorityOf(s, t)))
    case GiveItUp(m) =>
      m in s.holder && HeldBy(s, s.holder[m]) == 1 ==>
        PlaceFits(s, s.holder[m], PriorityToUse(s, s.holder[m], HighestWaiting(s, m)))
    case ChangeBase(t, p) =>
      var q := Clamped(s, p);
      q == BaseOf(s, t) ||
      if PriorityOf(s, t) == BaseOf(s, t) then OwnedFit(s, t, q) && PlaceFits(s, t, q)
      else q <= PriorityOf(s, t) && (IsWaiting(s, t) ==> q == PriorityOf(s, t))
    case _ => true
  }

  // ----- One task changes ---------------------------------------------------------------------------

  // The states differ in the priorities and the item of one task only.
  ghost predicate SameBut(s: State, s': State, t: Task) {
    && s'.limit == s.limit && s'.held == s.held && s'.holder == s.holder && s'.waiters == s.waiters
    && s'.priority.Keys == s.priority.Keys && s'.base.Keys == s.base.Keys && s'.item.Keys == s.item.Keys
    && forall u :: u != t ==>
         PriorityOf(s', u) == PriorityOf(s, u) && BaseOf(s', u) == BaseOf(s, u) && ItemOf(s', u) == ItemOf(s, u)
  }

  // Such a change keeps the invariant if and only if the new priority is between those of the
  // tasks above and below and the item says so where it matters.
  lemma ChangedKeepsIff(s: State, s': State, t: Task)
    requires Inv(s) && SameBut(s, s', t) && t in s.priority && ItemRight(s', t)
    ensures Inv(s') <==>
              && BaseOf(s', t) <= PriorityOf(s', t)
              && (HeldBy(s, t) == 0 ==> PriorityOf(s', t) == BaseOf(s', t))
              && OwnedFit(s, t, PriorityOf(s', t)) && PlaceFits(s, t, PriorityOf(s', t))
              && (IsWaiting(s, t) ==> ItemOf(s', t) == RankOf(s.limit, PriorityOf(s', t)))
  {
    hide SameBut, CountsRight, PrioritiesRight, ListRight, ItemsRight, KeepsPlace, ItemRight, OwnedFit;
    var p := PriorityOf(s', t);
    ChangedCounts(s, s', t);
    ChangedPrioritiesIff(s, s', t);
    forall m
      ensures WaitersOf(s', m) == WaitersOf(s, m)
      ensures ListRight(s', m) <==>
                (t in WaitersOf(s, m) ==> ItemOf(s', t) == RankOf(s.limit, p) && KeepsPlace(s, WaitersOf(s, m), t, p))
    {
      ChangedListIff(s, s', t, m);
    }
  }

  lemma ChangedCounts(s: State, s': State, t: Task)
    requires CountsRight(s) && ItemsRight(s) && SameBut(s, s', t) && ItemRight(s', t)
    ensures CountsRight(s') && ItemsRight(s')
  {
    forall u
      ensures Owned(s', u) == Owned(s, u) && HeldBy(s', u) == HeldBy(s, u)
    {
    }
  }

  ghost predicate HoldersFit(s: State, t: Task, p: nat) {
    forall m :: t in WaitersOf(s, m) && m in s.holder ==> p <= PriorityOf(s, s.holder[m])
  }

  lemma ChangedPrioritiesIff(s: State, s': State, t: Task)
    requires PrioritiesRight(s) && WaitersRight(s) && SameBut(s, s', t)
    ensures PrioritiesRight(s') <==>
              && BaseOf(s', t) <= PriorityOf(s', t)
              && (HeldBy(s, t) == 0 ==> PriorityOf(s', t) == BaseOf(s', t))
              && OwnedFit(s, t, PriorityOf(s', t)) && HoldersFit(s, t, PriorityOf(s', t))
  {
    hide Distinct, Ordered, RankOf;
    forall m, w | m in s.holder && w in WaitersOf(s, m)
      ensures s.holder[m] != w
    {
      assert ListRight(s, m) && MayList(s, m, w);
    }
    assert forall m :: WaitersOf(s', m) == WaitersOf(s, m);
    assert forall u :: HeldBy(s', u) == HeldBy(s, u);
    if PrioritiesRight(s') {
      forall m, w | m in Owned(s, t) && w in WaitersOf(s, m)
        ensures PriorityOf(s, w) <= PriorityOf(s', t)
      {
        assert m in s'.holder && w in WaitersOf(s', m);
      }
      forall m | t in WaitersOf(s, m) && m in s.holder
        ensures PriorityOf(s', t) <= PriorityOf(s, s.holder[m])
      {
        assert m in s'.holder && t in WaitersOf(s', m);
      }
    } else if OwnedFit(s, t, PriorityOf(s', t)) && HoldersFit(s, t, PriorityOf(s', t)) {
      forall m, w | m in s'.holder && w in WaitersOf(s', m)
        ensures PriorityOf(s', w) <= PriorityOf(s', s'.holder[m])
      {
        assert w in WaitersOf(s, m);
        assert s.holder[m] == t ==> m in Owned(s, t);
      }
    }
  }

  lemma ChangedListIff(s: State, s': State, t: Task, m: Mutex)
    requires ListRight(s, m) && SameBut(s, s', t) && t in s.priority
    ensures WaitersOf(s', m) == WaitersOf(s, m)
    ensures ListRight(s', m) <==>
              (t in WaitersOf(s, m) ==>
                 && ItemOf(s', t) == RankOf(s.limit, PriorityOf(s', t))
                 && KeepsPlace(s, WaitersOf(s, m), t, PriorityOf(s', t)))
  {
    var ws := WaitersOf(s, m);
    OrderedIff(s, s', t, ws);
    forall w | w in ws
      ensures MayList(s', m, w) <==> (w == t ==> ItemOf(s', t) == RankOf(s.limit, PriorityOf(s', t)))
    {
      assert MayList(s, m, w);
    }
  }

  lemma OrderedIff(s: State, s': State, t: Task, ws: seq<Task>)
    requires Distinct(ws) && Ordered(s, ws) && forall u :: u != t ==> PriorityOf(s', u) == PriorityOf(s, u)
    ensures Ordered(s', ws) <==> (t in ws ==> KeepsPlace(s, ws, t, PriorityOf(s', t)))
  {
    if t in ws {
      var k := IndexOf(ws, t);
      if Ordered(s', ws) {
        forall i | 0 <= i < |ws|
          ensures i < k ==> PriorityOf(s', t) <= PriorityOf(s, ws[i])
          ensures k < i ==> PriorityOf(s, ws[i]) <= PriorityOf(s', t)
        {
          assert i < k ==> PriorityOf(s', ws[k]) <= PriorityOf(s', ws[i]);
          assert k < i ==> PriorityOf(s', ws[i]) <= PriorityOf(s', ws[k]);
        }
      }
    }
  }

  // The priority a task has fits.
  lemma FitsNow(s: State, t: Task)
    requires Inv(s) && t in s.priority
    ensures OwnedFit(s, t, PriorityOf(s, t)) && PlaceFits(s, t, PriorityOf(s, t))
  {
    hide CountsRight, ItemsRight, KeepsPlace, RankOf;
    forall m | t in WaitersOf(s, m)
      ensures KeepsPlace(s, WaitersOf(s, m), t, PriorityOf(s, t))
    {
      assert ListRight(s, m);
      OrderedIff(s, s, t, WaitersOf(s, m));
    }
  }

  // ----- Each event ---------------------------------------------------------------------------------

  lemma TakeKeepsIff(s: State, t: Task, m: Mutex)
    requires Inv(s) && Possible(s, TakeIt(t, m))
    ensures Inv(Take(s, t, m)) <==> Fits(s, TakeIt(t, m))
  {
    hide Distinct, Ordered, RankOf, ItemsRight, CountsRight;
    var s' := Take(s, t, m);
    TakeCounts(s, t, m);
    forall n
      ensures WaitersOf(s', n) == WaitersOf(s, n) && ListRight(s', n)
    {
      assert ListRight(s, n) && t !in WaitersOf(s, n);
      assert forall w :: w in WaitersOf(s, n) ==> MayList(s, n, w);
      SameList(s, s', n);
    }
    assert forall u :: PriorityOf(s', u) == PriorityOf(s, u) && BaseOf(s', u) == BaseOf(s, u);
    if Inv(s') {
      assert s'.holder[m] == t;
    }
  }

  lemma TakeCounts(s: State, t: Task, m: Mutex)
    requires CountsRight(s) && ItemsRight(s) && t in s.priority && m !in s.holder
    ensures CountsRight(Take(s, t, m)) && ItemsRight(Take(s, t, m)) && HeldBy(Take(s, t, m), t) > 0
  {
    hide RankOf;
    var s' := Take(s, t, m);
    forall u
      ensures Owned(s', u) == if u == t then Owned(s, u) + {m} else Owned(s, u)
    {
    }
    assert m !in Owned(s, t);
    forall u | u in s.priority
      ensures ItemRight(s', u)
    {
      assert ItemRight(s, u);
    }
  }

  // A list depends on the priorities, the items and the holder only.
  lemma SameList(s: State, s': State, m: Mutex)
    requires ListRight(s, m) && s'.limit == s.limit && WaitersOf(s', m) == WaitersOf(s, m)
    requires forall w :: w in WaitersOf(s, m) ==>
               PriorityOf(s', w) == PriorityOf(s, w) && ItemOf(s', w) == ItemOf(s, w) && w in s'.priority
    requires forall w :: w in WaitersOf(s, m) && m in s'.holder ==> s'.holder[m] != w
    ensures ListRight(s', m)
  {
    forall w | w in WaitersOf(s, m)
      ensures MayList(s', m, w)
    {
      assert MayList(s, m, w);
    }
  }

  // The wait list of one mutex changes, and nothing else.
  lemma ListReplaced(s: State, m: Mutex, ws: seq<Task>)
    requires Inv(s) && Distinct(ws) && Ordered(s, ws) && forall w :: w in ws ==> MayList(s, m, w)
    requires m in s.holder ==> forall w :: w in ws ==> PriorityOf(s, w) <= PriorityOf(s, s.holder[m])
    ensures Inv(s.(waiters := s.waiters[m := ws]))
  {
    hide Distinct, Ordered, MayList;
    var s' := s.(waiters := s.waiters[m := ws]);
    ListCounts(s, m, ws);
    forall n
      ensures WaitersOf(s', n) == (if n == m then ws else WaitersOf(s, n)) && ListRight(s', n)
    {
      ListReplacedAt(s, m, ws, n);
    }
    assert forall u :: PriorityOf(s', u) == PriorityOf(s, u) && BaseOf(s', u) == BaseOf(s, u);
    assert forall u :: HeldBy(s', u) == HeldBy(s, u);
  }

  lemma ListCounts(s: State, m: Mutex, ws: seq<Task>)
    requires CountsRight(s) && ItemsRight(s)
    ensures var s' := s.(waiters := s.waiters[m := ws]); CountsRight(s') && ItemsRight(s')
  {
    hide RankOf;
    var s' := s.(waiters := s.waiters[m := ws]);
    assert forall u :: Owned(s', u) == Owned(s, u) && HeldBy(s', u) == HeldBy(s, u);
    forall u | u in s.priority
      ensures ItemRight(s', u)
    {
      assert ItemRight(s, u);
    }
  }

  lemma ListReplacedAt(s: State, m: Mutex, ws: seq<Task>, n: Mutex)
    requires ListRight(s, n) && Distinct(ws) && Ordered(s, ws) && forall w :: w in ws ==> MayList(s, m, w)
    ensures ListRight(s.(waiters := s.waiters[m := ws]), n)
  {
    hide Distinct;
    var s' := s.(waiters := s.waiters[m := ws]);
    assert forall u :: PriorityOf(s', u) == PriorityOf(s, u) && ItemOf(s', u) == ItemOf(s, u);
    forall w | w in WaitersOf(s', n)
      ensures MayList(s', n, w)
    {
      assert MayList(s, n, w);
    }
  }

  lemma {:induction false} WithoutOrdered(s: State, ws: seq<Task>, t: Task)
    requires Ordered(s, ws)
    ensures Ordered(s, Without(ws, t)) && forall u :: u in Without(ws, t) ==> u in ws
  {
    if ws != [] {
      var r := Without(ws[1..], t);
      assert Ordered(s, ws[1..]);
      WithoutOrdered(s, ws[1..], t);
      if ws[0] != t {
        forall u | u in r
          ensures PriorityOf(s, u) <= PriorityOf(s, ws[0])
        {
          var i :| 0 <= i < |ws| - 1 && ws[1..][i] == u;
          assert PriorityOf(s, ws[i + 1]) <= PriorityOf(s, ws[0]);
        }
        HeadOrdered(s, ws[0], r);
      }
    }
  }

  lemma HeadOrdered(s: State, t: Task, ws: seq<Task>)
    requires Ordered(s, ws) && forall u :: u in ws ==> PriorityOf(s, u) <= PriorityOf(s, t)
    ensures Ordered(s, [t] + ws)
  {
  }

  lemma LeaveKeeps(s: State, t: Task, m: Mutex)
    requires Inv(s)
    ensures Inv(Leave(s, t, m))
  {
    hide Distinct, Ordered, MayList;
    assert ListRight(s, m);
    WithoutExactly(WaitersOf(s, m), t);
    WithoutOrdered(s, WaitersOf(s, m), t);
    ListReplaced(s, m, Without(WaitersOf(s, m), t));
  }

  // ----- Waiting --------------------------------------------------------------------------------------

  // Raising the priority in use of a holder, waiting or not.
  lemma RaisedKeepsIff(s: State, h: Task, p: nat)
    requires Inv(s) && h in s.priority && HeldBy(s, h) > 0 && PriorityOf(s, h) <= p < s.limit
    ensures Inv(RunAt(s, h, p)) <==> PlaceFits(s, h, p)
  {
    hide CountsRight, PlaceFits, KeepsPlace, RankOf, Distinct, Ordered;
    var s' := RunAt(s, h, p);
    RunAtIs(s, h, p);
    ChangedKeepsIff(s, s', h);
    FitsNow(s, h);
  }

  lemma RunAtIs(s: State, t: Task, p: nat)
    requires Inv(s) && t in s.priority && p < s.limit
    ensures var s' := RunAt(s, t, p);
            && SameBut(s, s', t) && PriorityOf(s', t) == p && BaseOf(s', t) == BaseOf(s, t) && ItemRight(s', t)
            && (IsWaiting(s, t) ==> ItemOf(s', t) == RankOf(s.limit, p))
  {
    hide ItemsRight, PrioritiesRight, WaitersRight, Owned, IsWaiting, RankOf, Written;
    ItemOfTask(s, t);
    WrittenIs(s, t, p);
    if IsWaiting(s, t) {
      WaitingItem(s, t);
    }
  }

  lemma ItemOfTask(s: State, t: Task)
    requires ItemsRight(s) && t in s.priority
    ensures ItemRight(s, t)
  {
  }

  lemma WaitingItem(s: State, t: Task)
    requires WaitersRight(s) && IsWaiting(s, t)
    ensures ItemOf(s, t) == RankOf(s.limit, PriorityOf(s, t)) && ItemOf(s, t) != InUse
  {
    hide Distinct, Ordered;
    var m :| t in WaitersOf(s, m);
    assert ListRight(s, m) && MayList(s, m, t);
  }

  lemma OwnerHolds(s: State, m: Mutex)
    requires CountsRight(s) && m in s.holder
    ensures HeldBy(s, s.holder[m]) > 0
  {
    assert m in Owned(s, s.holder[m]);
  }

  lemma InsertDistinct(ws: seq<Task>, k: nat, t: Task)
    requires Distinct(ws) && k <= |ws| && t !in ws
    ensures Distinct(ws[..k] + [t] + ws[k..]) && forall u :: u in ws[..k] + [t] + ws[k..] <==> u in ws || u == t
  {
    assert ws == ws[..k] + ws[k..];
  }

  // The place by item value is the place by priority when the items stand for the priorities.
  lemma InsertOrdered(s: State, m: Mutex, t: Task)
    requires ListRight(s, m) && ItemsRight(s) && MayList(s, m, t)
    ensures var ws := WaitersOf(s, m);
            var k := SortedPlace(Keys(s, ws), KeyOf(s, t));
            Ordered(s, ws[..k] + [t] + ws[k..])
  {
    hide Distinct, Ordered, KeyOf, PriorityOf;
    var ws := WaitersOf(s, m);
    var keys := Keys(s, ws);
    var k := SortedPlace(keys, KeyOf(s, t));
    forall i | 0 <= i < |ws|
      ensures keys[i] <= KeyOf(s, t) <==> PriorityOf(s, t) <= PriorityOf(s, ws[i])
    {
      KeyOrder(s, m, ws[i], t);
    }
    PlacedOrdered(s, ws, k, t);
  }

  lemma PlacedOrdered(s: State, ws: seq<Task>, k: nat, t: Task)
    requires Ordered(s, ws) && k <= |ws|
    requires forall i :: 0 <= i < k ==> PriorityOf(s, t) <= PriorityOf(s, ws[i])
    requires k < |ws| ==> PriorityOf(s, ws[k]) <= PriorityOf(s, t)
    ensures Ordered(s, ws[..k] + [t] + ws[k..])
  {
    forall i | k <= i < |ws|
      ensures PriorityOf(s, ws[i]) <= PriorityOf(s, t)
    {
      assert PriorityOf(s, ws[i]) <= PriorityOf(s, ws[k]);
    }
  }

  lemma KeyOrder(s: State, m: Mutex, u: Task, t: Task)
    requires ItemsRight(s) && MayList(s, m, u) && MayList(s, m, t)
    ensures KeyOf(s, u) <= KeyOf(s, t) <==> PriorityOf(s, t) <= PriorityOf(s, u)
  {
    assert ItemRight(s, u) && ItemRight(s, t);
  }

  lemma WaitKeepsIff(s: State, t: Task, m: Mutex)
    requires Inv(s) && Possible(s, WaitForIt(t, m))
    ensures Inv(Wait(s, t, m)) <==> Fits(s, WaitForIt(t, m))
  {
    hide Inv, PlaceFits, RankOf;
    var h := s.holder[m];
    var s1 := Inherit(s, t, h).0;
    InheritKeepsIff(s, t, m);
    assert WaitersOf(s1, m) == WaitersOf(s, m) && !IsWaiting(s, t);
    if Fits(s, WaitForIt(t, m)) {
      Enlisted(s1, t, m);
    } else if Inv(Wait(s, t, m)) {
      WaitNeeds(s, t, m);
    }
  }

  lemma InheritKeepsIff(s: State, t: Task, m: Mutex)
    requires Inv(s) && Possible(s, WaitForIt(t, m))
    ensures var h, s1 := s.holder[m], Inherit(s, t, s.holder[m]).0;
            && (Inv(s1) <==> (PriorityOf(s, h) < PriorityOf(s, t) ==> PlaceFits(s, h, PriorityOf(s, t))))
            && s1.holder == s.holder && s1.waiters == s.waiters && PriorityOf(s1, t) == PriorityOf(s, t)
            && ItemOf(s1, t) == ItemOf(s, t) && t in s1.priority && PriorityOf(s1, t) <= PriorityOf(s1, h)
            && s1.limit == s.limit
  {
    hide PlaceFits, RankOf, Distinct, Ordered, KeepsPlace;
    var h := s.holder[m];
    OwnerHolds(s, m);
    if PriorityOf(s, h) < PriorityOf(s, t) {
      assert ItemRight(s, t);
      RaisedKeepsIff(s, h, PriorityOf(s, t));
      RunAtIs(s, h, PriorityOf(s, t));
    }
  }

  lemma Enlisted(s: State, t: Task, m: Mutex)
    requires Inv(s) && t in s.priority && ItemOf(s, t) == RankOf(s.limit, PriorityOf(s, t)) && t !in WaitersOf(s, m)
    requires m in s.holder && s.holder[m] != t && PriorityOf(s, t) <= PriorityOf(s, s.holder[m])
    ensures var ws := WaitersOf(s, m);
            var k := SortedPlace(Keys(s, ws), KeyOf(s, t));
            Inv(s.(waiters := s.waiters[m := ws[..k] + [t] + ws[k..]]))
  {
    hide Distinct, Ordered, RankOf, KeyOf, CountsRight;
    var ws := WaitersOf(s, m);
    var k := SortedPlace(Keys(s, ws), KeyOf(s, t));
    assert ListRight(s, m) && MayList(s, m, t);
    InsertDistinct(ws, k, t);
    InsertOrdered(s, m, t);
    ListReplaced(s, m, ws[..k] + [t] + ws[k..]);
  }

  // If the wait is right, what it needed was there.
  lemma WaitNeeds(s: State, t: Task, m: Mutex)
    requires Inv(s) && Possible(s, WaitForIt(t, m)) && Inv(Wait(s, t, m))
    ensures Fits(s, WaitForIt(t, m))
  {
    hide Distinct, Ordered, CountsRight, ItemsRight, KeepsPlace, KeyOf;
    var h, p, s' := s.holder[m], PriorityOf(s, t), Wait(s, t, m);
    InheritKeepsIff(s, t, m);
    WaitList(s, t, m);
    assert ListRight(s', m) && MayList(s', m, t);
    if PriorityOf(s, h) < p {
      forall n | h in WaitersOf(s, n)
        ensures KeepsPlace(s, WaitersOf(s, n), h, p) && (n in s.holder ==> p <= PriorityOf(s, s.holder[n]))
      {
        assert ListRight(s, n) && MayList(s, n, h);
        assert WaitersOf(s', n) == WaitersOf(s, n) && ListRight(s', n);
        RaisedIs(s, t, m);
        OrderedIff(s, s', h, WaitersOf(s, n));
        assert n in s'.holder ==> PriorityOf(s', h) <= PriorityOf(s', s'.holder[n]);
      }
    }
  }

  lemma WaitList(s: State, t: Task, m: Mutex)
    requires m in s.holder
    ensures t in WaitersOf(Wait(s, t, m), m)
  {
    var s1 := Inherit(s, t, s.holder[m]).0;
    var ws := WaitersOf(s1, m);
    var k := SortedPlace(Keys(s1, ws), KeyOf(s1, t));
    assert (ws[..k] + [t] + ws[k..])[k] == t;
  }

  lemma RaisedIs(s: State, t: Task, m: Mutex)
    requires m in s.holder && PriorityOf(s, s.holder[m]) < PriorityOf(s, t)
    ensures var s' := Wait(s, t, m);
            && PriorityOf(s', s.holder[m]) == PriorityOf(s, t)
            && forall u :: u != s.holder[m] ==> PriorityOf(s', u) == PriorityOf(s, u)
  {
  }

  // ----- Giving ---------------------------------------------------------------------------------------

  lemma GiveKeeps(s: State, t: Task, m: Mutex)
    requires Inv(s) && Possible(s, GiveIt(t, m))
    ensures Inv(Give(s, t, m))
  {
    hide Distinct, Ordered, CountsRight, ItemsRight, PrioritiesRight, MayList;
    OwnerHolds(s, m);
    var s2 := Disinherit(s, t).0.(holder := s.holder - {m});
    GivenKeeps(s, t, m, s2);
    var ws := WaitersOf(s2, m);
    if ws != [] {
      assert ListRight(s2, m);
      TailRight(s2, ws);
      ListReplaced(s2, m, ws[1..]);
    }
  }

  lemma TailRight(s: State, ws: seq<Task>)
    requires Distinct(ws) && Ordered(s, ws) && ws != []
    ensures Distinct(ws[1..]) && Ordered(s, ws[1..]) && forall w :: w in ws[1..] ==> w in ws
  {
  }

  // The mutex is free and its former holder back at its base if this was its last mutex.
  lemma GivenKeeps(s: State, t: Task, m: Mutex, s': State)
    requires Inv(s) && Possible(s, GiveIt(t, m)) && HeldBy(s, t) > 0
    requires s' == Disinherit(s, t).0.(holder := s.holder - {m})
    ensures Inv(s')
  {
    hide Distinct, Ordered, CountsRight, ItemsRight, PrioritiesRight, RankOf;
    GivenCounts(s, t, m, s');
    GivenPriorities(s, t, m, s');
    forall n
      ensures ListRight(s', n)
    {
      assert ListRight(s, n) && t !in WaitersOf(s, n) && WaitersOf(s', n) == WaitersOf(s, n);
      assert forall w :: w in WaitersOf(s, n) ==> MayList(s, n, w);
      SameList(s, s', n);
    }
  }

  lemma GivenCounts(s: State, t: Task, m: Mutex, s': State)
    requires CountsRight(s) && ItemsRight(s) && t in s.priority
    requires m in s.holder && s.holder[m] == t && HeldBy(s, t) > 0
    requires s' == Disinherit(s, t).0.(holder := s.holder - {m})
    ensures CountsRight(s') && ItemsRight(s') && s'.priority.Keys == s.priority.Keys
    ensures HeldBy(s', t) == |Owned(s', t)|
  {
    hide RankOf, ItemsRight, Owned;
    GivenOwned(s, t, m, s');
    GivenItems(s, t, m, s');
  }

  lemma GivenOwned(s: State, t: Task, m: Mutex, s': State)
    requires m in s.holder && s.holder[m] == t && s'.holder == s.holder - {m}
    ensures |Owned(s', t)| == |Owned(s, t)| - 1
    ensures forall u :: u != t ==> Owned(s', u) == Owned(s, u)
  {
    forall u
      ensures Owned(s', u) == if u == t then Owned(s, u) - {m} else Owned(s, u)
    {
    }
    assert m in Owned(s, t);
  }

  lemma GivenItems(s: State, t: Task, m: Mutex, s': State)
    requires ItemsRight(s) && t in s.priority && s.priority.Keys == s.base.Keys == s.item.Keys
    requires s' == Disinherit(s, t).0.(holder := s.holder - {m})
    ensures ItemsRight(s')
  {
    hide RankOf, HeldBy;
    forall u | u in s'.priority
      ensures ItemRight(s', u)
    {
      assert ItemRight(s, u);
    }
  }

  lemma GivenPriorities(s: State, t: Task, m: Mutex, s': State)
    requires PrioritiesRight(s) && !IsWaiting(s, t) && m in s.holder && s.holder[m] == t && HeldBy(s, t) > 0
    requires s' == Disinherit(s, t).0.(holder := s.holder - {m}) && HeldBy(s', t) == |Owned(s', t)|
    ensures PrioritiesRight(s')
  {
    hide RankOf, Owned, ItemOf;
    assert forall u :: u != t ==> PriorityOf(s', u) == PriorityOf(s, u) && HeldBy(s', u) == HeldBy(s, u);
    assert forall u :: BaseOf(s', u) == BaseOf(s, u);
    assert forall n :: t !in WaitersOf(s, n) && WaitersOf(s', n) == WaitersOf(s, n);
    if HeldBy(s', t) == 0 {
      NothingOwned(s', t);
    }
  }

  lemma NothingOwned(s: State, t: Task)
    requires |Owned(s, t)| == 0
    ensures forall m :: m in s.holder ==> s.holder[m] != t
  {
    assert Owned(s, t) == {};
    forall m | m in s.holder
      ensures s.holder[m] != t
    {
      assert m in Owned(s, t) <==> s.holder[m] == t;
    }
  }

  // ----- Giving up --------------------------------------------------------------------------------------

  lemma OnlyOne(s: State, t: Task, m: Mutex)
    requires |Owned(s, t)| == 1 && m in Owned(s, t)
    ensures forall n :: n in Owned(s, t) ==> n == m
  {
    assert |Owned(s, t) - {m}| == 0;
    assert Owned(s, t) - {m} == {};
    forall n | n in Owned(s, t)
      ensures n == m
    {
      assert n !in Owned(s, t) - {m};
    }
  }

  // With the items right the head of the list tells the highest priority on it.
  lemma FirstIsHighest(s: State, m: Mutex)
    requires ItemsRight(s) && ListRight(s, m)
    ensures forall w :: w in WaitersOf(s, m) ==> PriorityOf(s, w) <= HighestWaiting(s, m)
    ensures WaitersOf(s, m) != [] ==> HighestWaiting(s, m) == PriorityOf(s, WaitersOf(s, m)[0])
  {
    hide Distinct;
    var ws := WaitersOf(s, m);
    if ws != [] {
      assert MayList(s, m, ws[0]) && ItemRight(s, ws[0]);
    }
    forall w | w in ws
      ensures PriorityOf(s, w) <= PriorityOf(s, ws[0])
    {
      var i :| 0 <= i < |ws| && ws[i] == w;
    }
  }

  lemma GiveUpKeepsIff(s: State, m: Mutex)
    requires Inv(s)
    ensures Inv(GiveUp(s, m)) <==> Fits(s, GiveItUp(m))
  {
    hide Distinct, Ordered, RankOf, PlaceFits, KeepsPlace, HighestWaiting;
    if m in s.holder && HeldBy(s, s.holder[m]) == 1 {
      var h := s.holder[m];
      var use := PriorityToUse(s, h, HighestWaiting(s, m));
      if PriorityOf(s, h) != use {
        LoweredKeepsIff(s, h, m, use);
      } else {
        FitsNow(s, h);
      }
    }
  }

  // The holder of one mutex gets the higher of its base and the first waiter's priority.
  lemma LoweredKeepsIff(s: State, h: Task, m: Mutex, use: nat)
    requires Inv(s) && m in s.holder && s.holder[m] == h && HeldBy(s, h) == 1
    requires use == PriorityToUse(s, h, HighestWaiting(s, m))
    ensures Inv(RunAt(s, h, use)) <==> PlaceFits(s, h, use)
  {
    hide Distinct, Ordered, RankOf, PlaceFits, KeepsPlace, CountsRight, ListRight, RunAt, HighestWaiting;
    HighestInRange(s, h, m);
    RunAtIs(s, h, use);
    OwnedFitsHighest(s, h, m, use);
    ChangedKeepsIff(s, RunAt(s, h, use), h);
  }

  lemma OwnedFitsHighest(s: State, h: Task, m: Mutex, use: nat)
    requires Inv(s) && m in s.holder && s.holder[m] == h && HeldBy(s, h) == 1 && HighestWaiting(s, m) <= use
    ensures OwnedFit(s, h, use)
  {
    hide Distinct, Ordered, HighestWaiting, ItemsRight;
    assert ListRight(s, m) && m in Owned(s, h);
    OnlyOne(s, h, m);
    FirstIsHighest(s, m);
  }

  lemma HighestInRange(s: State, h: Task, m: Mutex)
    requires Inv(s) && m in s.holder && s.holder[m] == h
    ensures h in s.priority && PriorityToUse(s, h, HighestWaiting(s, m)) < s.limit
  {
    hide Distinct, Ordered, HighestWaiting;
    assert ListRight(s, m);
    FirstIsHighest(s, m);
    assert ItemRight(s, h);
    assert WaitersOf(s, m) == [] ==> HighestWaiting(s, m) == 0 by {
      EmptyHighest(s, m);
    }
    if WaitersOf(s, m) != [] {
      assert MayList(s, m, WaitersOf(s, m)[0]) && ItemRight(s, WaitersOf(s, m)[0]);
    }
  }

  lemma EmptyHighest(s: State, m: Mutex)
    ensures WaitersOf(s, m) == [] ==> HighestWaiting(s, m) == 0
  {
  }

  // ----- Setting a base ------------------------------------------------------------------------------------

  lemma SetPriorityKeepsIff(s: State, t: Task, p: nat)
    requires Inv(s) && t in s.priority
    ensures Inv(SetPriority(s, t, p)) <==> Fits(s, ChangeBase(t, p))
  {
    hide Distinct, Ordered, RankOf, PlaceFits, KeepsPlace, CountsRight, ListRight, OwnedFit, IsWaiting;
    var q := Clamped(s, p);
    assert ItemRight(s, t);
    if BaseOf(s, t) != q {
      SetPriorityIs(s, t, p);
      ChangedKeepsIff(s, SetPriority(s, t, p), t);
      FitsNow(s, t);
      RanksDiffer(s.limit, q, PriorityOf(s, t));
      if IsWaiting(s, t) {
        WaitingItem(s, t);
      }
    }
  }

  lemma RanksDiffer(limit: nat, p: nat, q: nat)
    requires p < limit && q < limit
    ensures RankOf(limit, p) == RankOf(limit, q) <==> p == q
  {
  }

  lemma SetPriorityIs(s: State, t: Task, p: nat)
    requires Inv(s) && t in s.priority && BaseOf(s, t) != Clamped(s, p)
    ensures var s', q := SetPriority(s, t, p), Clamped(s, p);
            && SameBut(s, s', t) && BaseOf(s', t) == q < s.limit
            && PriorityOf(s', t) == (if PriorityOf(s, t) == BaseOf(s, t) then q else PriorityOf(s, t))
            && ItemOf(s', t) == (if ItemOf(s, t) == InUse then InUse else RankOf(s.limit, q))
            && ItemRight(s', t)
  {
    hide Distinct, Ordered, PrioritiesRight, WaitersRight, Owned, RankOf, Written, CountsRight;
    assert ItemRight(s, t);
    WrittenIs(s, t, Clamped(s, p));
  }

  lemma WrittenIs(s: State, t: Task, p: nat)
    requires CountsRight(s) && t in s.priority
    ensures var s' := Written(s, t, p);
            && s' == s.(item := s'.item) && s'.item.Keys == s.item.Keys && s.priority.Keys == s.base.Keys
            && ItemOf(s', t) == (if ItemOf(s, t) == InUse then InUse else RankOf(s.limit, p))
            && forall u :: u != t ==> ItemOf(s', u) == ItemOf(s, u)
  {
    hide RankOf, Owned;
  }

  // ----- The event item --------------------------------------------------------------------------------------

  lemma ItemChangeKeeps(s: State, t: Task, i: Item)
    requires Inv(s) && t in s.priority && !IsWaiting(s, t) && i in {InUse, RankOf(s.limit, PriorityOf(s, t))}
    ensures Inv(s.(item := s.item[t := i]))
  {
    hide Distinct, Ordered, RankOf, PlaceFits, KeepsPlace, CountsRight, ListRight, OwnedFit, IsWaiting;
    var s' := s.(item := s.item[t := i]);
    assert ItemRight(s, t);
    ItemChangeIs(s, t, i);
    FitsNow(s, t);
    ChangedKeepsIff(s, s', t);
  }

  lemma ItemChangeIs(s: State, t: Task, i: Item)
    requires Inv(s) && t in s.priority && i in {InUse, RankOf(s.limit, PriorityOf(s, t))}
    ensures var s' := s.(item := s.item[t := i]);
            && SameBut(s, s', t) && ItemRight(s', t)
            && BaseOf(s', t) == BaseOf(s, t) && PriorityOf(s', t) == PriorityOf(s, t)
  {
    hide Distinct, Ordered, PrioritiesRight, WaitersRight, Owned, RankOf;
    assert ItemRight(s, t);
  }

  // ----- What each event does ------------------------------------------------------------------------

  // No priority and no base changes, except the priority of t.
  ghost predicate OnlyPriorityOf(s: State, s': State, t: Task) {
    forall u :: BaseOf(s', u) == BaseOf(s, u) && (u != t ==> PriorityOf(s', u) == PriorityOf(s, u))
  }

  lemma TakeIsExact(s: State, t: Task, m: Mutex)
    requires Inv(s) && Possible(s, TakeIt(t, m))
    ensures var s' := Take(s, t, m);
            && Owned(s', t) == Owned(s, t) + {m} && HeldBy(s', t) == HeldBy(s, t) + 1
            && OnlyPriorityOf(s, s', t) && PriorityOf(s', t) == PriorityOf(s, t)
            && forall u :: (u != t ==> Owned(s', u) == Owned(s, u)) && ItemOf(s', u) == ItemOf(s, u)
  {
    hide Inv, IsWaiting;
    var s' := Take(s, t, m);
    forall u
      ensures Owned(s', u) == if u == t then Owned(s, u) + {m} else Owned(s, u)
    {
    }
  }

  lemma InheritIsExact(s: State, t: Task, m: Mutex)
    requires m in s.holder
    ensures var s', h := Inherit(s, t, s.holder[m]).0, s.holder[m];
            && PriorityOf(s', h) == (if PriorityOf(s, h) < PriorityOf(s, t) then PriorityOf(s, t) else PriorityOf(s, h))
            && OnlyPriorityOf(s, s', h) && PriorityOf(s', t) == PriorityOf(s, t)
            && s'.holder == s.holder && s'.waiters == s.waiters && s'.held == s.held
            && forall u :: u != h ==> ItemOf(s', u) == ItemOf(s, u)
  {
    hide RankOf;
  }

  // The holder runs at the higher of the two priorities and nobody else's changes; the task waits,
  // and inheritance is reported whenever the holder is above its base because of it, now or since
  // an earlier wait.
  lemma WaitIsExact(s: State, t: Task, m: Mutex)
    requires Inv(s) && Possible(s, WaitForIt(t, m))
    ensures var s', h := Wait(s, t, m), s.holder[m];
            && PriorityOf(s', h) == (if PriorityOf(s, h) < PriorityOf(s, t) then PriorityOf(s, t) else PriorityOf(s, h))
            && OnlyPriorityOf(s, s', h) && s'.holder == s.holder && s'.held == s.held
            && (forall u :: u != h ==> ItemOf(s', u) == ItemOf(s, u))
            && t in WaitersOf(s', m) && Without(WaitersOf(s', m), t) == WaitersOf(s, m)
            && (forall n :: n != m ==> WaitersOf(s', n) == WaitersOf(s, n))
            && (Inherit(s, t, h).1 <==> BaseOf(s', h) < PriorityOf(s', t))
  {
    hide Inherit, CountsRight, ItemsRight, WaitersRight, KeyOf;
    var h := s.holder[m];
    var s1 := Inherit(s, t, h).0;
    InheritIsExact(s, t, m);
    InheritanceReported(s, t, h);
    assert !IsWaiting(s, t) && t !in WaitersOf(s, m);
    WaitList(s, t, m);
    assert WaitersOf(s1, m) == WaitersOf(s, m);
    WithoutInserted(WaitersOf(s, m), SortedPlace(Keys(s1, WaitersOf(s, m)), KeyOf(s1, t)), t);
  }

  // The tasks in front of it are those that are at least as important.
  ghost predicate BehindEquals(s: State, ws: seq<Task>, t: Task, k: nat) {
    k <= |ws| && forall i :: 0 <= i < |ws| ==> (i < k <==> PriorityOf(s, t) <= PriorityOf(s, ws[i]))
  }

  lemma WaitsBehindEquals(s: State, t: Task, m: Mutex) returns (k: nat)
    requires Inv(s) && Possible(s, WaitForIt(t, m)) && Fits(s, WaitForIt(t, m))
    ensures var ws := WaitersOf(s, m);
            BehindEquals(s, ws, t, k) && WaitersOf(Wait(s, t, m), m) == ws[..k] + [t] + ws[k..]
  {
    hide Inherit, Distinct, CountsRight, PrioritiesRight, RankOf, PlaceFits, KeyOf;
    var s1, ws := Inherit(s, t, s.holder[m]).0, WaitersOf(s, m);
    InheritKeepsIff(s, t, m);
    InheritIsExact(s, t, m);
    assert WaitersOf(s1, m) == ws && MayList(s1, m, t) && ListRight(s1, m) && ListRight(s, m);
    assert forall w :: w in ws ==> MayList(s, m, w) && w != s.holder[m];
    k := SortedPlace(Keys(s1, ws), KeyOf(s1, t));
    forall i | 0 <= i < |ws|
      ensures i < k <==> PriorityOf(s, t) <= PriorityOf(s, ws[i])
    {
      KeyOrder(s1, m, ws[i], t);
      if i >= k {
        KeyOrder(s1, m, ws[k], t);
        assert PriorityOf(s, ws[i]) <= PriorityOf(s, ws[k]);
      }
    }
  }

  lemma InheritanceReported(s: State, t: Task, h: Task)
    requires PrioritiesRight(s)
    ensures Inherit(s, t, h).1 <==> BaseOf(s, h) < PriorityOf(s, t)
  {
    hide RunAt;
    assert BaseOf(s, h) <= PriorityOf(s, h);
  }

  // Giving the last mutex brings the base back, giving another one changes no priority, and the
  // first waiter is woken.
  lemma GiveIsExact(s: State, t: Task, m: Mutex)
    requires Inv(s) && Possible(s, GiveIt(t, m))
    ensures var s' := Give(s, t, m);
            && PriorityOf(s', t) == (if Owned(s, t) == {m} then BaseOf(s, t) else PriorityOf(s, t))
            && OnlyPriorityOf(s, s', t) && s'.holder == s.holder - {m} && HeldBy(s', t) == HeldBy(s, t) - 1
            && (forall u :: u != t ==> HeldBy(s', u) == HeldBy(s, u) && ItemOf(s', u) == ItemOf(s, u))
            && (Disinherit(s, t).1 <==> PriorityOf(s', t) != PriorityOf(s, t))
  {
    hide RankOf, ItemsRight, PrioritiesRight, WaitersRight, IsWaiting, WaitersOf;
    OwnerHolds(s, m);
    assert m in Owned(s, t);
    LastOne(s, t, m);
  }

  lemma FirstLeaves(s: State, t: Task, m: Mutex)
    ensures var s' := Give(s, t, m);
            && WaitersOf(s', m) == (if WaitersOf(s, m) == [] then [] else WaitersOf(s, m)[1..])
            && forall n :: n != m ==> WaitersOf(s', n) == WaitersOf(s, n)
  {
    hide RankOf;
  }

  lemma LastOne(s: State, t: Task, m: Mutex)
    requires m in Owned(s, t)
    ensures |Owned(s, t)| == 1 <==> Owned(s, t) == {m}
  {
    assert Owned(s, t) == Owned(s, t) - {m} + {m};
    assert |Owned(s, t)| == 1 ==> Owned(s, t) - {m} == {};
  }

  // p is the least priority that is not below the base of t or a waiter of m.
  ghost predicate JustAbove(s: State, t: Task, m: Mutex, p: nat) {
    && BaseOf(s, t) <= p && (forall w :: w in WaitersOf(s, m) ==> PriorityOf(s, w) <= p)
    && (p == BaseOf(s, t) || exists w :: w in WaitersOf(s, m) && PriorityOf(s, w) == p)
  }

  // After a time-out a holder of this mutex only goes as far down as its base and the tasks that
  // still wait allow; a holder of several keeps its priority.
  lemma GiveUpIsExact(s: State, m: Mutex)
    requires Inv(s) && m in s.holder
    ensures var s', h := GiveUp(s, m), s.holder[m];
            && (Owned(s, h) == {m} ==> JustAbove(s, h, m, PriorityOf(s', h)))
            && (Owned(s, h) != {m} ==> PriorityOf(s', h) == PriorityOf(s, h))
            && OnlyPriorityOf(s, s', h)
            && (forall u :: Owned(s', u) == Owned(s, u) && (u != h ==> ItemOf(s', u) == ItemOf(s, u)))
            && forall n :: WaitersOf(s', n) == WaitersOf(s, n)
  {
    hide Distinct, Ordered, RankOf, ItemsRight, PrioritiesRight, HighestWaiting;
    var h := s.holder[m];
    var use := PriorityToUse(s, h, HighestWaiting(s, m));
    assert ListRight(s, m);
    FirstIsHighest(s, m);
    EmptyHighest(s, m);
    assert JustAbove(s, h, m, use);
    assert m in Owned(s, h);
    LastOne(s, h, m);
    assert forall u :: Owned(GiveUp(s, m), u) == Owned(s, u);
  }

  // A new base is the priority asked for, or the highest one there is.  The priority in use goes
  // along only if it was the base.
  lemma ChangeBaseIsExact(s: State, t: Task, p: nat)
    requires Inv(s) && t in s.priority
    ensures var s' := SetPriority(s, t, p);
            && BaseOf(s', t) == (if p < s.limit then p else s.limit - 1)
            && PriorityOf(s', t) == (if PriorityOf(s, t) == BaseOf(s, t) then BaseOf(s', t) else PriorityOf(s, t))
            && (forall u :: u != t ==>
                  && PriorityOf(s', u) == PriorityOf(s, u) && BaseOf(s', u) == BaseOf(s, u)
                  && ItemOf(s', u) == ItemOf(s, u))
            && (ItemOf(s, t) != InUse && BaseOf(s', t) != BaseOf(s, t) ==>
                  ItemOf(s', t) == RankOf(s.limit, BaseOf(s', t)))
            && s'.holder == s.holder && s'.waiters == s.waiters && s'.held == s.held
  {
    hide Distinct, Ordered, RankOf, PrioritiesRight, WaitersRight, CountsRight;
    assert ItemRight(s, t);
    if BaseOf(s, t) != Clamped(s, p) {
      SetPriorityIs(s, t, p);
    }
  }

  // ----- Whole runs -----------------------------------------------------------------------------

  // An event keeps the rules of inheritance if and only if it meets the condition that can be
  // checked before it.
  lemma StepKeepsIff(s: State, e: Event)
    requires Inv(s) && Possible(s, e)
    ensures Inv(Step(s, e)) <==> Fits(s, e)
  {
    hide Inv;
    match e
    case TakeIt(t, m) => TakeKeepsIff(s, t, m);
    case WaitForIt(t, m) => WaitKeepsIff(s, t, m);
    case TimeUp(t, m) => LeaveKeeps(s, t, m);
    case GiveItUp(m) => GiveUpKeepsIff(s, m);
    case GiveIt(t, m) => GiveKeeps(s, t, m);
    case ChangeBase(t, p) => SetPriorityKeepsIff(s, t, p);
    case UseIt(t) => ItemChangeKeeps(s, t, InUse);
    case ResetIt(t) => ItemChangeKeeps(s, t, RankOf(s.limit, PriorityOf(s, t)));
  }

  // Every event is possible at its turn.
  ghost predicate Happens(s: State, events: seq<Event>, s': State)
    decreases |events|
  {
    if events == [] then s' == s
    else Possible(s, events[0]) && Happens(Step(s, events[0]), events[1..], s')
  }

  // Every event meets its condition as well.
  ghost predicate Reaches(s: State, events: seq<Event>, s': State)
    decreases |events|
  {
    if events == [] then s' == s
    else Possible(s, events[0]) && Fits(s, events[0]) && Reaches(Step(s, events[0]), events[1..], s')
  }

  lemma {:induction false} RunKeeps(s: State, events: seq<Event>, s': State)
    requires Inv(s) && Reaches(s, events, s')
    ensures Inv(s')
    decreases |events|
  {
    hide Inv, Step, Possible, Fits;
    if events != [] {
      StepKeepsIff(s, events[0]);
      RunKeeps(Step(s, events[0]), events[1..], s');
    }
  }

  // Tasks that hold and wait for nothing.
  function Initial(limit: nat, base: map<Task, nat>): State {
    State(limit, base, base, map t | t in base :: 0, map t | t in base :: RankOf(limit, base[t]), map[], map[])
  }

  lemma InitialRight(limit: nat, base: map<Task, nat>)
    requires forall t :: t in base ==> base[t] < limit
    ensures Inv(Initial(limit, base))
  {
    var s0 := Initial(limit, base);
    forall t
      ensures HeldBy(s0, t) == |Owned(s0, t)| == 0
    {
      assert Owned(s0, t) == {};
    }
    assert forall m :: WaitersOf(s0, m) == [];
  }

  // Over all runs of events that meet their conditions the counts are right, no holder is below
  // its base or below a task that waits for one of its mutexes, the wait lists are in the order of
  // the priorities, and a task without mutexes runs at its base.
  lemma InheritanceIsRight(limit: nat, base: map<Task, nat>, events: seq<Event>, s: State)
    requires forall t :: t in base ==> base[t] < limit
    requires Reaches(Initial(limit, base), events, s)
    ensures forall t :: HeldBy(s, t) == |Owned(s, t)|
    ensures forall t :: BaseOf(s, t) <= PriorityOf(s, t)
    ensures forall m, w :: m in s.holder && w in WaitersOf(s, m) ==> PriorityOf(s, w) <= PriorityOf(s, s.holder[m])
    ensures forall m :: Ordered(s, WaitersOf(s, m))
    ensures forall t :: Owned(s, t) == {} ==> PriorityOf(s, t) == BaseOf(s, t)
  {
    hide Ordered, Distinct, ItemsRight;
    InitialRight(limit, base);
    RunKeeps(Initial(limit, base), events, s);
    forall m
      ensures Ordered(s, WaitersOf(s, m))
    {
      assert ListRight(s, m);
    }
  }

  // A task that holds nothing can always be enlisted: its item stands for its priority.
  lemma FreeTaskFits(s: State, t: Task)
    requires Inv(s) && t in s.priority && HeldBy(s, t) == 0 && ItemOf(s, t) != InUse
    ensures ItemOf(s, t) == RankOf(s.limit, PriorityOf(s, t))
  {
    assert ItemRight(s, t);
  }

  // ----- Runs that miss a condition ---------------------------------------------------------------------------

  // Four tasks with bases 0, 1, 5 and 5 where 8 is the limit.
  function At(p: seq<nat>, b: seq<nat>, h: seq<nat>, v: seq<nat>, holder: map<Mutex, Task>,
              waiters: map<Mutex, seq<Task>>): State
    requires |p| == |b| == |h| == |v| == 4
  {
    State(8, map[0 := p[0], 1 := p[1], 2 := p[2], 3 := p[3]], map[0 := b[0], 1 := b[1], 2 := b[2], 3 := b[3]],
          map[0 := h[0], 1 := h[1], 2 := h[2], 3 := h[3]],
          map[0 := Rank(v[0]), 1 := Rank(v[1]), 2 := Rank(v[2]), 3 := Rank(v[3])], holder, waiters)
  }

  // The first and the second task on a wait list.
  lemma FirstInLine(s: State, t: Task, m: Mutex)
    requires m in s.holder && WaitersOf(s, m) == []
    ensures Wait(s, t, m) == Inherit(s, t, s.holder[m]).0.(waiters := s.waiters[m := [t]])
  {
    var s1 := Inherit(s, t, s.holder[m]).0;
    assert s1.waiters == s.waiters;
    assert [] + [t] + [] == [t];
  }

  lemma SecondInLine(s: State, t: Task, m: Mutex, w: Task)
    requires m in s.holder && WaitersOf(s, m) == [w]
    ensures var s1 := Inherit(s, t, s.holder[m]).0;
            Wait(s, t, m) == s1.(waiters := s.waiters[m := if KeyOf(s1, w) <= KeyOf(s1, t) then [w, t] else [t, w]])
  {
    var s1 := Inherit(s, t, s.holder[m]).0;
    assert s1.waiters == s.waiters;
    var keys := Keys(s1, [w]);
    assert keys == [KeyOf(s1, w)];
    var k := SortedPlace(keys, KeyOf(s1, t));
    assert k == if KeyOf(s1, w) <= KeyOf(s1, t) then 1 else 0;
    assert [w][..k] + [t] + [w][k..] == if k == 1 then [w, t] else [t, w];
  }

  function Start(): State {
    Initial(8, map[0 := 0, 1 := 1, 2 := 5, 3 := 5])
  }

  function OneHeld(): State {
    At([0, 1, 5, 5], [0, 1, 5, 5], [1, 0, 0, 0], [8, 7, 3, 3], map[10 := 0], map[])
  }

  function TwoHeld(): State {
    At([0, 1, 5, 5], [0, 1, 5, 5], [1, 1, 0, 0], [8, 7, 3, 3], map[10 := 0, 11 := 1], map[])
  }

  lemma OneHeldNext()
    ensures Possible(Start(), TakeIt(0, 10)) && Fits(Start(), TakeIt(0, 10))
    ensures Step(Start(), TakeIt(0, 10)) == OneHeld()
  {
    assert Start() == At([0, 1, 5, 5], [0, 1, 5, 5], [0, 0, 0, 0], [8, 7, 3, 3], map[], map[]);
  }

  lemma TwoHeldNext()
    ensures Possible(OneHeld(), TakeIt(1, 11)) && Fits(OneHeld(), TakeIt(1, 11))
    ensures Step(OneHeld(), TakeIt(1, 11)) == TwoHeld()
  {
  }

  // Task 1 inherits from task 2.
  function OneRaised(): State {
    At([0, 5, 5, 5], [0, 1, 5, 5], [1, 1, 0, 0], [8, 3, 3, 3], map[10 := 0, 11 := 1], map[11 := [2]])
  }

  lemma OneRaisedNext()
    ensures Possible(TwoHeld(), WaitForIt(2, 11)) && Fits(TwoHeld(), WaitForIt(2, 11))
    ensures Step(TwoHeld(), WaitForIt(2, 11)) == OneRaised()
  {
    hide Wait;
    FirstInLine(TwoHeld(), 2, 11);
  }

  // Task 0 inherits from task 1, which waits with the priority it inherited itself.
  function BothRaised(): State {
    At([5, 5, 5, 5], [0, 1, 5, 5], [1, 1, 0, 0], [3, 3, 3, 3], map[10 := 0, 11 := 1], map[11 := [2], 10 := [1]])
  }

  lemma BothRaisedNext()
    ensures Possible(OneRaised(), WaitForIt(1, 10)) && Fits(OneRaised(), WaitForIt(1, 10))
    ensures Step(OneRaised(), WaitForIt(1, 10)) == BothRaised()
  {
    hide Wait;
    FirstInLine(OneRaised(), 1, 10);
  }

  lemma BothRaisedReached()
    ensures Reaches(Start(), [TakeIt(0, 10), TakeIt(1, 11), WaitForIt(2, 11), WaitForIt(1, 10)], BothRaised())
  {
    hide Possible, Fits, Step, Start, OneHeld, TwoHeld, OneRaised, BothRaised;
    OneHeldNext();
    TwoHeldNext();
    OneRaisedNext();
    BothRaisedNext();
    var e := [TakeIt(0, 10), TakeIt(1, 11), WaitForIt(2, 11), WaitForIt(1, 10)];
    assert e[1..] == [TakeIt(1, 11), WaitForIt(2, 11), WaitForIt(1, 10)];
    assert e[1..][1..] == [WaitForIt(2, 11), WaitForIt(1, 10)];
    assert e[1..][1..][1..] == [WaitForIt(1, 10)];
    assert Reaches(BothRaised(), [], BothRaised());
    assert Reaches(OneRaised(), [WaitForIt(1, 10)], BothRaised());
    assert Reaches(TwoHeld(), [WaitForIt(2, 11), WaitForIt(1, 10)], BothRaised());
    assert Reaches(OneHeld(), [TakeIt(1, 11), WaitForIt(2, 11), WaitForIt(1, 10)], BothRaised());
  }

  // A holder is less important than a task that waits for its mutex.
  ghost predicate BelowWaiter(s: State, m: Mutex, w: Task) {
    m in s.holder && w in WaitersOf(s, m) && PriorityOf(s, s.holder[m]) < PriorityOf(s, w)
  }

  // The base of a task that waits with an inherited priority is set: its item now stands for the
  // base, and nothing puts it right.
  function StaleItem(): State {
    At([5, 5, 5, 5], [0, 2, 5, 5], [1, 1, 0, 0], [3, 6, 3, 3], map[10 := 0, 11 := 1], map[11 := [2], 10 := [1]])
  }

  lemma StaleItemNext()
    ensures !Fits(BothRaised(), ChangeBase(1, 2)) && Step(BothRaised(), ChangeBase(1, 2)) == StaleItem()
  {
    assert 1 in WaitersOf(BothRaised(), 10);
  }

  // Task 3 then goes in front of it although both have priority 5, and leaves again.
  function Overtaken(): State {
    StaleItem().(waiters := map[11 := [2], 10 := [3, 1]])
  }

  lemma OvertakenNext()
    ensures Possible(StaleItem(), WaitForIt(3, 10)) && Step(StaleItem(), WaitForIt(3, 10)) == Overtaken()
    ensures Possible(Overtaken(), TimeUp(3, 10)) && Step(Overtaken(), TimeUp(3, 10)) == StaleItem()
  {
    hide Wait;
    SecondInLine(StaleItem(), 3, 10, 1);
  }

  // Its time-out lowers task 0 to what the item of task 1 says.
  function LoweredTooFar(): State {
    At([2, 5, 5, 5], [0, 2, 5, 5], [1, 1, 0, 0], [6, 6, 3, 3], map[10 := 0, 11 := 1], map[11 := [2], 10 := [1]])
  }

  lemma LoweredTooFarNext()
    ensures Step(StaleItem(), GiveItUp(10)) == LoweredTooFar() && BelowWaiter(LoweredTooFar(), 10, 1)
  {
  }

  lemma StaleItemMisleads()
    ensures Inv(BothRaised()) && !Fits(BothRaised(), ChangeBase(1, 2))
    ensures Happens(BothRaised(), [ChangeBase(1, 2), WaitForIt(3, 10), TimeUp(3, 10), GiveItUp(10)], LoweredTooFar())
    ensures BelowWaiter(LoweredTooFar(), 10, 1)
  {
    hide Fits, Step, Inv, BelowWaiter, LoweredTooFar, Overtaken, StaleItem;
    StartRight();
    BothRaisedReached();
    RunKeeps(Start(), [TakeIt(0, 10), TakeIt(1, 11), WaitForIt(2, 11), WaitForIt(1, 10)], BothRaised());
    StaleItemNext();
    OvertakenNext();
    LoweredTooFarNext();
    var e := [ChangeBase(1, 2), WaitForIt(3, 10), TimeUp(3, 10), GiveItUp(10)];
    assert e[1..] == [WaitForIt(3, 10), TimeUp(3, 10), GiveItUp(10)];
    assert e[1..][1..] == [TimeUp(3, 10), GiveItUp(10)];
    assert e[1..][1..][1..] == [GiveItUp(10)];
    assert Happens(LoweredTooFar(), [], LoweredTooFar());
    assert Happens(StaleItem(), [GiveItUp(10)], LoweredTooFar());
    assert Happens(Overtaken(), [TimeUp(3, 10), GiveItUp(10)], LoweredTooFar());
    assert Happens(StaleItem(), [WaitForIt(3, 10), TimeUp(3, 10), GiveItUp(10)], LoweredTooFar());
  }

  lemma StartRight()
    ensures Inv(Start())
  {
    InitialRight(8, map[0 := 0, 1 := 1, 2 := 5, 3 := 5]);
  }

  // Task 1 waits for mutex 10 and holds mutex 11.
  function Chained(): State {
    At([1, 1, 5, 5], [0, 1, 5, 5], [1, 1, 0, 0], [7, 7, 3, 3], map[10 := 0, 11 := 1], map[10 := [1]])
  }

  lemma ChainedNext()
    ensures Possible(TwoHeld(), WaitForIt(1, 10)) && Fits(TwoHeld(), WaitForIt(1, 10))
    ensures Step(TwoHeld(), WaitForIt(1, 10)) == Chained()
  {
    hide Wait;
    FirstInLine(TwoHeld(), 1, 10);
  }

  lemma ChainBreaks()
    ensures Possible(Chained(), WaitForIt(2, 11)) && !Fits(Chained(), WaitForIt(2, 11))
    ensures BelowWaiter(Step(Chained(), WaitForIt(2, 11)), 10, 1)
  {
    hide Wait;
    FirstInLine(Chained(), 2, 11);
    assert 1 in WaitersOf(Chained(), 10);
  }

  // Inheritance does not go through a holder that waits itself: task 2 waits for mutex 11 and
  // raises task 1, and task 0, for whose mutex task 1 waits, stays where it is.
  lemma ChainIsNotFollowed()
    ensures Reaches(Start(), [TakeIt(0, 10), TakeIt(1, 11), WaitForIt(1, 10)], Chained())
    ensures Possible(Chained(), WaitForIt(2, 11)) && !Fits(Chained(), WaitForIt(2, 11))
    ensures BelowWaiter(Step(Chained(), WaitForIt(2, 11)), 10, 1)
  {
    hide Possible, Fits, Step, Start, OneHeld, TwoHeld, Chained, BelowWaiter;
    OneHeldNext();
    TwoHeldNext();
    ChainedNext();
    ChainBreaks();
    var e := [TakeIt(0, 10), TakeIt(1, 11), WaitForIt(1, 10)];
    assert e[1..] == [TakeIt(1, 11), WaitForIt(1, 10)];
    assert e[1..][1..] == [WaitForIt(1, 10)];
    assert Reaches(Chained(), [], Chained());
    assert Reaches(TwoHeld(), [WaitForIt(1, 10)], Chained());
    assert Reaches(OneHeld(), [TakeIt(1, 11), WaitForIt(1, 10)], Chained());
  }

  // Task 0 inherits from task 2; task 1 comes second.
  function Inherited(): State {
    At([5, 1, 5, 5], [0, 1, 5, 5], [1, 0, 0, 0], [3, 7, 3, 3], map[10 := 0], map[10 := [2]])
  }

  lemma InheritedNext()
    ensures Possible(OneHeld(), WaitForIt(2, 10)) && Fits(OneHeld(), WaitForIt(2, 10))
    ensures Step(OneHeld(), WaitForIt(2, 10)) == Inherited()
  {
    hide Wait;
    FirstInLine(OneHeld(), 2, 10);
  }

  function TwoWait(): State {
    Inherited().(waiters := map[10 := [2, 1]])
  }

  lemma TwoWaitNext()
    ensures Possible(Inherited(), WaitForIt(1, 10)) && Fits(Inherited(), WaitForIt(1, 10))
    ensures Step(Inherited(), WaitForIt(1, 10)) == TwoWait()
  {
    hide Wait;
    SecondInLine(Inherited(), 1, 10, 2);
  }

  function GivenBack(): State {
    At([0, 1, 5, 5], [0, 1, 5, 5], [0, 0, 0, 0], [8, 7, 3, 3], map[], map[10 := [1]])
  }

  lemma GivenBackNext()
    ensures Possible(TwoWait(), GiveIt(0, 10)) && Fits(TwoWait(), GiveIt(0, 10))
    ensures Step(TwoWait(), GiveIt(0, 10)) == GivenBack()
  {
  }

  lemma RetakenBreaks()
    ensures Possible(GivenBack(), TakeIt(0, 10)) && !Fits(GivenBack(), TakeIt(0, 10))
    ensures BelowWaiter(Step(GivenBack(), TakeIt(0, 10)), 10, 1)
  {
    assert 1 in WaitersOf(GivenBack(), 10);
  }

  // A giver can take the mutex again before the task it woke does: it then holds it with its own
  // priority, below the next one on the list.
  lemma LessImportantTakes()
    ensures Reaches(Start(), [TakeIt(0, 10), WaitForIt(2, 10), WaitForIt(1, 10), GiveIt(0, 10)], GivenBack())
    ensures Possible(GivenBack(), TakeIt(0, 10)) && !Fits(GivenBack(), TakeIt(0, 10))
    ensures BelowWaiter(Step(GivenBack(), TakeIt(0, 10)), 10, 1)
  {
    hide Possible, Fits, Step, Start, OneHeld, Inherited, TwoWait, GivenBack, BelowWaiter;
    OneHeldNext();
    InheritedNext();
    TwoWaitNext();
    GivenBackNext();
    RetakenBreaks();
    var e := [TakeIt(0, 10), WaitForIt(2, 10), WaitForIt(1, 10), GiveIt(0, 10)];
    assert e[1..] == [WaitForIt(2, 10), WaitForIt(1, 10), GiveIt(0, 10)];
    assert e[1..][1..] == [WaitForIt(1, 10), GiveIt(0, 10)];
    assert e[1..][1..][1..] == [GiveIt(0, 10)];
    assert Reaches(GivenBack(), [], GivenBack());
    assert Reaches(TwoWait(), [GiveIt(0, 10)], GivenBack());
    assert Reaches(Inherited(), [WaitForIt(1, 10), GiveIt(0, 10)], GivenBack());
    assert Reaches(OneHeld(), [WaitForIt(2, 10), WaitForIt(1, 10), GiveIt(0, 10)], GivenBack());
  }

  // The base of a task with an inherited priority can be set above the priority in use.
  lemma BaseAboveUse()
    ensures Reaches(Start(), [TakeIt(0, 10), WaitForIt(2, 10)], Inherited())
    ensures Possible(Inherited(), ChangeBase(0, 6)) && !Fits(Inherited(), ChangeBase(0, 6))
    ensures var s := Step(Inherited(), ChangeBase(0, 6)); PriorityOf(s, 0) < BaseOf(s, 0)
  {
    assert Possible(Inherited(), ChangeBase(0, 6)) && !Fits(Inherited(), ChangeBase(0, 6));
    assert var s := Step(Inherited(), ChangeBase(0, 6)); PriorityOf(s, 0) < BaseOf(s, 0);
    hide Possible, Fits, Step, Start, OneHeld, Inherited;
    OneHeldNext();
    InheritedNext();
    var e := [TakeIt(0, 10), WaitForIt(2, 10)];
    assert e[1..] == [WaitForIt(2, 10)];
    assert Reaches(Inherited(), [], Inherited());
    assert Reaches(OneHeld(), [WaitForIt(2, 10)], Inherited());
  }

  // Task 3 holds mutex 10, and task 2, as important, waits for it.
  function Equals(): State {
    At([0, 1, 5, 5], [0, 1, 5, 5], [0, 0, 0, 1], [8, 7, 3, 3], map[10 := 3], map[10 := [2]])
  }

  function ThirdHolds(): State {
    Equals().(waiters := map[])
  }

  lemma ThirdHoldsNext()
    ensures Possible(Start(), TakeIt(3, 10)) && Fits(Start(), TakeIt(3, 10))
    ensures Step(Start(), TakeIt(3, 10)) == ThirdHolds()
  {
    assert Start() == At([0, 1, 5, 5], [0, 1, 5, 5], [0, 0, 0, 0], [8, 7, 3, 3], map[], map[]);
  }

  lemma EqualsNext()
    ensures Possible(ThirdHolds(), WaitForIt(2, 10)) && Fits(ThirdHolds(), WaitForIt(2, 10))
    ensures Step(ThirdHolds(), WaitForIt(2, 10)) == Equals()
  {
    hide Wait;
    FirstInLine(ThirdHolds(), 2, 10);
  }

  lemma EqualsReached()
    ensures Reaches(Start(), [TakeIt(3, 10), WaitForIt(2, 10)], Equals())
  {
    hide Possible, Fits, Step, Start, Equals, ThirdHolds;
    ThirdHoldsNext();
    EqualsNext();
    var e := [TakeIt(3, 10), WaitForIt(2, 10)];
    assert e[1..] == [WaitForIt(2, 10)];
    assert Reaches(Equals(), [], Equals());
    assert Reaches(ThirdHolds(), [WaitForIt(2, 10)], Equals());
  }

  // Nothing is inherited there, and the base of the holder can be set below the waiter.
  lemma BaseBelowWaiter()
    ensures Reaches(Start(), [TakeIt(3, 10), WaitForIt(2, 10)], Equals())
    ensures Possible(Equals(), ChangeBase(3, 0)) && !Fits(Equals(), ChangeBase(3, 0))
    ensures BelowWaiter(Step(Equals(), ChangeBase(3, 0)), 10, 2)
  {
    EqualsReached();
    hide Reaches;
    var s := Equals();
    assert 10 in Owned(s, 3) && 2 in WaitersOf(s, 10) && PriorityOf(s, 2) > 0;
    assert Clamped(s, 0) == 0 && BaseOf(s, 3) == PriorityOf(s, 3) == 5;
    assert !OwnedFit(s, 3, 0);
  }
}
