/**
 How tasks wait on a queue, and the lock counts that keep interrupts away from the wait lists
 while a task decides to wait.  Tasks and interrupts interleave at the boundaries of critical
 sections; the part of a call between vTaskSuspendAll and xTaskResumeAll is interleaved with
 interrupts only.
 */
module QueueLocks {

  import Rings

  type Task = nat

  const UNLOCKED := -1
  const INT8_MAX := 127

  // ----- One side of a queue ---------------------------------------------------------

  // The tasks that wait on one side of the queue, those of them that were removed from the wait
  // list by an event but did not try again yet, and the lock count of that side.
  datatype Side = Side(waiters: seq<Task>, woken: set<Task>, lock: int)

  // xTaskRemoveFromEventList, if somebody waits: the first task of the list.
  function Signal(side: Side): Side {
    if side.waiters == [] then side
    else side.(waiters := side.waiters[1..], woken := side.woken + {side.waiters[0]})
  }

  // What an interrupt does instead if the queue is locked.
  function SignalFromISR(side: Side): Side {
    if side.lock == UNLOCKED then Signal(side) else side.(lock := side.lock + 1)
  }

  function Elements(s: seq<Task>): set<Task> {
    set t | t in s
  }

  // The side after prvUnlockQueue made up for the events that were only counted.
  function Drained(side: Side): Side {
    var k := if side.lock < 0 then 0 else if side.lock < |side.waiters| then side.lock else |side.waiters|;
    Side(side.waiters[k..], side.woken + Elements(side.waiters[..k]), UNLOCKED)
  }

  ghost predicate Distinct(side: Side) {
    && Rings.Distinct(side.waiters)
    && (forall t :: t in side.waiters ==> t !in side.woken)
  }

  // While somebody waits, there is no more to be had than has been announced: to the tasks that
  // were woken or through the lock count.
  ghost predicate Announced(side: Side, available: int) {
    side.waiters != [] ==> available <= |side.woken| + (if side.lock > 0 then side.lock else 0)
  }

  lemma SignalAnnounces(side: Side, available: int)
    requires Distinct(side) && Announced(side, available)
    ensures Distinct(Signal(side)) && Announced(Signal(side), available + 1)
  {
    if side.waiters != [] {
      assert side.waiters[0] in side.waiters;
      assert |side.woken + {side.waiters[0]}| == |side.woken| + 1;
    }
  }

  lemma SignalFromISRAnnounces(side: Side, available: int)
    requires Distinct(side) && Announced(side, available) && side.lock >= UNLOCKED
    ensures Distinct(SignalFromISR(side)) && Announced(SignalFromISR(side), available + 1)
  {
    if side.lock == UNLOCKED {
      SignalAnnounces(side, available);
    }
  }

  // A task that tries again no longer counts as woken.
  function Retried(side: Side, t: Task): Side {
    side.(woken := side.woken - {t})
  }

  lemma RetryAnnounces(side: Side, t: Task, available: int)
    requires Distinct(side) && Announced(side, available)
    ensures Distinct(Retried(side, t)) && Announced(Retried(side, t), available - 1)
    ensures available <= 0 ==> Announced(Retried(side, t), available)
  {
    if t in side.woken {
      assert |side.woken - {t}| == |side.woken| - 1;
    } else {
      assert side.woken - {t} == side.woken;
    }
  }

  lemma {:induction false} ElementsOf(s: seq<Task>)
    requires forall i, j :: 0 <= i < j < |s| ==> s[i] != s[j]
    ensures |Elements(s)| == |s|
  {
    if s == [] {
      assert Elements(s) == {};
    } else {
      ElementsOf(s[1..]);
      assert Elements(s) == Elements(s[1..]) + {s[0]};
      assert s[0] !in Elements(s[1..]);
    }
  }

  lemma DrainedAnnounces(side: Side, available: int)
    requires Distinct(side) && Announced(side, available)
    ensures Distinct(Drained(side)) && Announced(Drained(side), available)
  {
    var k := if side.lock < 0 then 0 else if side.lock < |side.waiters| then side.lock else |side.waiters|;
    ElementsOf(side.waiters[..k]);
    var taken := Elements(side.waiters[..k]);
    assert taken !! side.woken;
    assert |side.woken + taken| == |side.woken| + k;
    TailDistinct(side, k);
  }

  lemma TailDistinct(side: Side, k: nat)
    requires Distinct(side) && k <= |side.waiters|
    ensures Distinct(Side(side.waiters[k..], side.woken + Elements(side.waiters[..k]), UNLOCKED))
  {
    forall t | t in side.waiters[k..]
      ensures t !in side.waiters[..k] && t !in side.woken
    {
      var j :| k <= j < |side.waiters| && side.waiters[j] == t;
    }
  }

  // vListInsert, at whatever place the priorities lead to.
  function Placed(side: Side, t: Task, at: nat): Side
    requires at <= |side.waiters|
  {
    side.(waiters := side.waiters[..at] + [t] + side.waiters[at..])
  }

  lemma PlacedDistinct(side: Side, t: Task, at: nat)
    requires Distinct(side) && at <= |side.waiters| && t !in side.waiters && t !in side.woken
    ensures Distinct(Placed(side, t, at))
  {
  }

  // ----- The queue ---------------------------------------------------------------------

  // uxMessagesWaiting, uxLength, the receivers with cTxLock and the senders with cRxLock.
  datatype Core = Core(waiting: nat, length: nat, receivers: Side, senders: Side)

  // The critical section of xQueueGenericSend, when the message can be placed.
  function Send(c: Core, overwrite: bool): Core {
    c.(waiting := if overwrite && c.waiting > 0 then c.waiting else c.waiting + 1, receivers := Signal(c.receivers))
  }

  predicate CanSend(c: Core, overwrite: bool) {
    c.waiting < c.length || overwrite
  }

  // The critical sections of xQueueReceive (and xQueueSemaphoreTake) and of xQueuePeek, when
  // there is a message.
  function Receive(c: Core): Core
    requires c.waiting > 0
  {
    c.(waiting := c.waiting - 1, senders := Signal(c.senders))
  }

  function Peek(c: Core): Core {
    c.(receivers := Signal(c.receivers))
  }

  function SendFromISR(c: Core, overwrite: bool): Core {
    if CanSend(c, overwrite) then
      c.(waiting := if overwrite && c.waiting > 0 then c.waiting else c.waiting + 1,
         receivers := SignalFromISR(c.receivers))
    else c
  }

  function ReceiveFromISR(c: Core): Core {
    if c.waiting > 0 then c.(waiting := c.waiting - 1, senders := SignalFromISR(c.senders)) else c
  }

  ghost predicate NothingLost(c: Core) {
    && c.waiting <= c.length
    && Distinct(c.receivers) && Announced(c.receivers, c.waiting)
    && Distinct(c.senders) && Announced(c.senders, c.length - c.waiting)
  }

  // Lower availability needs no announcement.
  lemma LessToBeHad(side: Side, available: int, less: int)
    requires Announced(side, available) && less <= available
    ensures Announced(side, less)
  {
  }

  // ----- The interleaved machine ----------------------------------------------------------

  datatype Kind = Receiving | Peeking | Sending(overwrite: bool)

  // What becomes of the task after it unlocked the queue again.
  datatype After = Block | Again | GiveUp

  // Where a task is in its call.
  datatype Place =
    | Idle
    | AtFirst(kind: Kind)                     // in front of the first critical section
    | Suspending(kind: Kind)                  // in front of vTaskSuspendAll
    | Suspended(kind: Kind)                   // in front of prvLockQueue
    | Locked(kind: Kind)                      // in front of xTaskCheckForTimeOut
    | Checking(kind: Kind)                    // in front of prvIsQueueEmpty or prvIsQueueFull
    | Checked(kind: Kind)                     // in front of vTaskPlaceOnEventList
    | UnlockingTx(kind: Kind, after: After)   // in front of the two halves of prvUnlockQueue
    | UnlockingRx(kind: Kind, after: After)
    | Resuming(kind: Kind, after: After)      // in front of xTaskResumeAll
    | Waiting(kind: Kind)                     // blocked until it is off the wait list
    | LastCheck(kind: Kind)                   // timed out, in front of prvIsQueueEmpty

  datatype Owner = Nobody | Suspender(task: Task)

  // The suspender is the task that has the scheduler suspended.
  datatype State = State(core: Core, places: map<Task, Place>, owner: Owner)

  datatype Event =
    | Call(task: Task, kind: Kind)
    | First(task: Task, mayWait: bool)
    | SuspendAll(task: Task)
    | LockQueue(task: Task)
    | CheckForTimeOut(task: Task, expired: bool)
    | CheckState(task: Task)
    | PlaceOnEventList(task: Task, at: nat)
    | UnlockTx(task: Task)
    | UnlockRx(task: Task)
    | ResumeAll(task: Task)
    | CheckAgain(task: Task)
    | Expire(task: Task)                      // xTaskIncrementTick: the block time is over
    | SendISR(overwrite: bool)
    | ReceiveISR

  function PlaceOf(s: State, t: Task): Place {
    if t in s.places then s.places[t] else Idle
  }

  function SideOf(c: Core, kind: Kind): Side {
    if kind.Sending? then c.senders else c.receivers
  }

  function WithSide(c: Core, kind: Kind, side: Side): Core {
    if kind.Sending? then c.(senders := side) else c.(receivers := side)
  }

  // How much there is for a call of this kind.
  function Available(c: Core, kind: Kind): int {
    if kind.Sending? then c.length - c.waiting else c.waiting
  }

  predicate Listed(c: Core, kind: Kind, t: Task) {
    t in SideOf(c, kind).waiters
  }

  function Moved(s: State, t: Task, p: Place): State {
    s.(places := s.places[t := p])
  }

  // The events that can happen.  Tasks other than the one that has the scheduler suspended
  // only run while there is none; the counts stay below the limit that the source asserts, and
  // only queues of length one are overwritten.
  predicate Enabled(s: State, e: Event) {
    match e
    case Call(t, kind) => s.owner.Nobody? && PlaceOf(s, t).Idle? && (kind == Sending(true) ==> s.core.length == 1)
    case First(t, _) =>
      var p := PlaceOf(s, t);
      s.owner.Nobody? && (p.AtFirst? || (p.Waiting? && !Listed(s.core, p.kind, t)))
    case SuspendAll(t) => s.owner.Nobody? && PlaceOf(s, t).Suspending?
    case LockQueue(t) => s.owner == Suspender(t) && PlaceOf(s, t).Suspended?
    case CheckForTimeOut(t, _) => s.owner == Suspender(t) && PlaceOf(s, t).Locked?
    case CheckState(t) => s.owner == Suspender(t) && PlaceOf(s, t).Checking?
    case PlaceOnEventList(t, at) =>
      var p := PlaceOf(s, t);
      s.owner == Suspender(t) && p.Checked? && at <= |SideOf(s.core, p.kind).waiters|
    case UnlockTx(t) => s.owner == Suspender(t) && PlaceOf(s, t).UnlockingTx?
    case UnlockRx(t) => s.owner == Suspender(t) && PlaceOf(s, t).UnlockingRx?
    case ResumeAll(t) => s.owner == Suspender(t) && PlaceOf(s, t).Resuming?
    case CheckAgain(t) => s.owner.Nobody? && PlaceOf(s, t).LastCheck?
    case Expire(t) => s.owner.Nobody? && PlaceOf(s, t).Waiting? && Listed(s.core, PlaceOf(s, t).kind, t)
    case SendISR(overwrite) =>
      && (CanSend(s.core, overwrite) ==> s.core.receivers.lock < INT8_MAX)
      && (overwrite ==> s.core.length == 1)
    case ReceiveISR => s.core.waiting > 0 ==> s.core.senders.lock < INT8_MAX
  }

  // The first critical section of a call: it succeeds, or the task prepares to wait, or it
  // gives up at once.
  function FirstSection(c: Core, kind: Kind, t: Task, mayWait: bool): (Core, Place) {
    var c1 := WithSide(c, kind, Retried(SideOf(c, kind), t));
    match kind
    case Receiving =>
      if c.waiting > 0 then (Receive(c1), Idle) else (c1, if mayWait then Suspending(kind) else Idle)
    case Peeking =>
      if c.waiting > 0 then (Peek(c1), Idle) else (c1, if mayWait then Suspending(kind) else Idle)
    case Sending(overwrite) =>
      if CanSend(c, overwrite) then (Send(c1, overwrite), Idle) else (c1, if mayWait then Suspending(kind) else Idle)
  }

  function Lock(side: Side): Side {
    if side.lock == UNLOCKED then side.(lock := 0) else side
  }

  function Without(side: Side, t: Task): Side {
    side.(waiters := Rings.Without(side.waiters, t))
  }

  function Step(s: State, e: Event): State
    requires Enabled(s, e)
  {
    match e
    case Call(t, kind) => Moved(s, t, AtFirst(kind))
    case First(t, mayWait) =>
      var (core, p) := FirstSection(s.core, PlaceOf(s, t).kind, t, mayWait);
      Moved(s.(core := core), t, p)
    case SuspendAll(t) => Moved(s.(owner := Suspender(t)), t, Suspended(PlaceOf(s, t).kind))
    case LockQueue(t) =>
      Moved(s.(core := s.core.(receivers := Lock(s.core.receivers), senders := Lock(s.core.senders))),
            t, Locked(PlaceOf(s, t).kind))
    case CheckForTimeOut(t, expired) =>
      var kind := PlaceOf(s, t).kind;
      Moved(s, t, if expired then UnlockingTx(kind, GiveUp) else Checking(kind))
    case CheckState(t) =>
      var kind := PlaceOf(s, t).kind;
      Moved(s, t, if Available(s.core, kind) == 0 then Checked(kind) else UnlockingTx(kind, Again))
    case PlaceOnEventList(t, at) =>
      var kind := PlaceOf(s, t).kind;
      Moved(s.(core := WithSide(s.core, kind, Placed(SideOf(s.core, kind), t, at))), t, UnlockingTx(kind, Block))
    case UnlockTx(t) =>
      Moved(s.(core := s.core.(receivers := Drained(s.core.receivers))), t,
            UnlockingRx(PlaceOf(s, t).kind, PlaceOf(s, t).after))
    case UnlockRx(t) =>
      Moved(s.(core := s.core.(senders := Drained(s.core.senders))), t,
            Resuming(PlaceOf(s, t).kind, PlaceOf(s, t).after))
    case ResumeAll(t) =>
      var kind := PlaceOf(s, t).kind;
      var p := match PlaceOf(s, t).after
               case Block => Waiting(kind)
               case Again => AtFirst(kind)
               case GiveUp => if kind.Sending? then Idle else LastCheck(kind);
      Moved(s.(owner := Nobody), t, p)
    case CheckAgain(t) =>
      Moved(s, t, if s.core.waiting == 0 then Idle else AtFirst(PlaceOf(s, t).kind))
    case Expire(t) =>
      var kind := PlaceOf(s, t).kind;
      s.(core := WithSide(s.core, kind, Without(SideOf(s.core, kind), t)))
    case SendISR(overwrite) => s.(core := SendFromISR(s.core, overwrite))
    case ReceiveISR => s.(core := ReceiveFromISR(s.core))
  }

  // ----- The invariant --------------------------------------------------------------------

  // Tasks on a wait list, or taken off one by an event, have decided to wait there.
  predicate Decided(p: Place, sending: bool) {
    && (p.Waiting? || ((p.UnlockingTx? || p.UnlockingRx? || p.Resuming?) && p.after == Block))
    && p.kind.Sending? == sending
  }

  ghost predicate AllDecided(s: State, side: Side, sending: bool) {
    forall t :: t in side.waiters || t in side.woken ==> Decided(PlaceOf(s, t), sending)
  }

  predicate HoldsScheduler(p: Place) {
    p.Suspended? || p.Locked? || p.Checking? || p.Checked? || p.UnlockingTx? || p.UnlockingRx? || p.Resuming?
  }

  predicate TxLocked(p: Place) {
    p.Locked? || p.Checking? || p.Checked? || p.UnlockingTx?
  }

  predicate RxLocked(p: Place) {
    TxLocked(p) || p.UnlockingRx?
  }

  // The lock counts belong to the one task that has the scheduler suspended.
  ghost predicate LocksOwned(s: State) {
    && (forall t :: HoldsScheduler(PlaceOf(s, t)) <==> s.owner == Suspender(t))
    && (if s.owner.Suspender? && TxLocked(PlaceOf(s, s.owner.task)) then s.core.receivers.lock >= 0
        else s.core.receivers.lock == UNLOCKED)
    && (if s.owner.Suspender? && RxLocked(PlaceOf(s, s.owner.task)) then s.core.senders.lock >= 0
        else s.core.senders.lock == UNLOCKED)
  }

  // Once the task saw nothing to be had, whatever arrived since is in the lock count.
  ghost predicate ArrivalsCounted(s: State) {
    s.owner.Suspender? && PlaceOf(s, s.owner.task).Checked? ==>
      var kind := PlaceOf(s, s.owner.task).kind;
      Available(s.core, kind) <= SideOf(s.core, kind).lock
  }

  // Only queues of length one are overwritten.
  ghost predicate OverwritesRight(s: State) {
    forall t :: !PlaceOf(s, t).Idle? && PlaceOf(s, t).kind == Sending(true) ==> s.core.length == 1
  }

  ghost predicate Inv(s: State) {
    && NothingLost(s.core) && OverwritesRight(s)
    && AllDecided(s, s.core.receivers, false) && AllDecided(s, s.core.senders, true)
    && LocksOwned(s) && ArrivalsCounted(s)
  }

  // ----- Every step keeps it --------------------------------------------------------------------

  lemma RetriedCore(c: Core, kind: Kind, t: Task)
    requires NothingLost(c)
    ensures var c1 := WithSide(c, kind, Retried(SideOf(c, kind), t));
            && Distinct(SideOf(c1, kind)) && Announced(SideOf(c1, kind), Available(c, kind) - 1)
            && (Available(c, kind) <= 0 ==> NothingLost(c1))
  {
    RetryAnnounces(SideOf(c, kind), t, Available(c, kind));
  }

  // The first section keeps the accounts; a task that failed found nothing to be had.
  lemma FirstSectionKeeps(c: Core, kind: Kind, t: Task, mayWait: bool)
    requires NothingLost(c) && (kind == Sending(true) ==> c.length == 1)
    ensures NothingLost(FirstSection(c, kind, t, mayWait).0)
  {
    var c1 := WithSide(c, kind, Retried(SideOf(c, kind), t));
    RetriedCore(c, kind, t);
    match kind
    case Receiving =>
      if c.waiting > 0 {
        SignalAnnounces(c1.senders, c.length - c.waiting);
      }
    case Peeking =>
      if c.waiting > 0 {
        SignalAnnounces(c1.receivers, c.waiting - 1);
      }
    case Sending(overwrite) =>
      if CanSend(c, overwrite) {
        SignalAnnounces(c1.receivers, c.waiting);
        if overwrite && c.waiting > 0 {
          LessToBeHad(Signal(c1.receivers), c.waiting + 1, c.waiting);
        }
      }
  }

  lemma ISRKeeps(c: Core, overwrite: bool)
    requires NothingLost(c) && c.receivers.lock >= UNLOCKED && c.senders.lock >= UNLOCKED
    requires overwrite ==> c.length == 1
    ensures NothingLost(SendFromISR(c, overwrite)) && NothingLost(ReceiveFromISR(c))
  {
    SignalFromISRAnnounces(c.receivers, c.waiting);
    SignalFromISRAnnounces(c.senders, c.length - c.waiting);
    LessToBeHad(SignalFromISR(c.receivers), c.waiting + 1, c.waiting);
    LessToBeHad(c.receivers, c.waiting, c.waiting - 1);
    LessToBeHad(c.senders, c.length - c.waiting, c.length - c.waiting - 1);
  }

  predicate OnSide(side: Side, t: Task) {
    t in side.waiters || t in side.woken
  }

  // Waking tasks moves them from one part of a side to the other.
  lemma SignalSameTasks(side: Side)
    ensures forall t :: OnSide(Signal(side), t) <==> OnSide(side, t)
    ensures forall t :: OnSide(SignalFromISR(side), t) <==> OnSide(side, t)
  {
    if side.waiters != [] {
      assert side.waiters == [side.waiters[0]] + side.waiters[1..];
    }
  }

  lemma DrainedSameTasks(side: Side)
    ensures forall t :: OnSide(Drained(side), t) <==> OnSide(side, t)
  {
    var k := if side.lock < 0 then 0 else if side.lock < |side.waiters| then side.lock else |side.waiters|;
    assert side.waiters == side.waiters[..k] + side.waiters[k..];
  }

  // A place can change without harm to the sides the task is not on.
  lemma MovedDecided(s: State, s': State, t: Task, p: Place, side: Side, side': Side, sending: bool)
    requires AllDecided(s, side, sending) && s'.places == s.places[t := p]
    requires forall u :: OnSide(side', u) ==> OnSide(side, u) || u == t
    requires OnSide(side', t) ==> Decided(p, sending)
    ensures AllDecided(s', side', sending)
  {
    forall u | OnSide(side', u)
      ensures Decided(PlaceOf(s', u), sending)
    {
    }
  }

  lemma UndecidedOnNeither(s: State, t: Task)
    requires Inv(s)
    ensures !Decided(PlaceOf(s, t), false) ==> !OnSide(s.core.receivers, t)
    ensures !Decided(PlaceOf(s, t), true) ==> !OnSide(s.core.senders, t)
  {
  }

  // A task keeps the kind of its call.
  lemma KindKept(s: State, s': State, t: Task, p: Place)
    requires OverwritesRight(s) && s'.core.length == s.core.length
    requires s'.places == s.places[t := p]
    requires p.Idle? || (!PlaceOf(s, t).Idle? && p.kind == PlaceOf(s, t).kind)
             || (p.kind == Sending(true) ==> s.core.length == 1)
    ensures OverwritesRight(s')
  {
    forall u | !PlaceOf(s', u).Idle? && PlaceOf(s', u).kind == Sending(true)
      ensures s'.core.length == 1
    {
      assert PlaceOf(s', u) == if u == t then p else PlaceOf(s, u);
    }
  }

  lemma SamePlaces(s: State, s': State)
    requires OverwritesRight(s) && s'.core.length == s.core.length && s'.places == s.places
    ensures OverwritesRight(s')
  {
    forall u | !PlaceOf(s', u).Idle? && PlaceOf(s', u).kind == Sending(true)
      ensures s'.core.length == 1
    {
      assert PlaceOf(s', u) == PlaceOf(s, u);
    }
  }

  lemma CallKeeps(s: State, t: Task, kind: Kind)
    requires Inv(s) && Enabled(s, Call(t, kind))
    ensures Inv(Step(s, Call(t, kind)))
  {
    KindKept(s, Step(s, Call(t, kind)), t, AtFirst(kind));
    UndecidedOnNeither(s, t);
  }

  lemma FirstKeeps(s: State, t: Task, mayWait: bool)
    requires Inv(s) && Enabled(s, First(t, mayWait))
    ensures Inv(Step(s, First(t, mayWait)))
  {
    hide FirstSection, NothingLost, AllDecided;
    var kind := PlaceOf(s, t).kind;
    var (core, p) := FirstSection(s.core, kind, t, mayWait);
    var s' := Step(s, First(t, mayWait));
    UndecidedOnNeither(s, t);
    FirstSectionKeeps(s.core, kind, t, mayWait);
    FirstSectionTasks(s.core, kind, t, mayWait);
    MovedDecided(s, s', t, p, s.core.receivers, core.receivers, false);
    MovedDecided(s, s', t, p, s.core.senders, core.senders, true);
    FreeMove(s, s', t, p);
  }

  // A task that runs while the scheduler is not suspended leaves the locks alone.
  lemma FreeMove(s: State, s': State, t: Task, p: Place)
    requires LocksOwned(s) && s.owner.Nobody? && !HoldsScheduler(p) && OverwritesRight(s)
    requires s'.places == s.places[t := p] && s'.owner == s.owner && s'.core.length == s.core.length
    requires s'.core.receivers.lock == s.core.receivers.lock && s'.core.senders.lock == s.core.senders.lock
    requires !PlaceOf(s, t).Idle? && (!p.Idle? ==> p.kind == PlaceOf(s, t).kind)
    ensures LocksOwned(s') && ArrivalsCounted(s') && OverwritesRight(s')
  {
    KindKept(s, s', t, p);
    forall u
      ensures HoldsScheduler(PlaceOf(s', u)) <==> s'.owner == Suspender(u)
    {
      assert PlaceOf(s', u) == if u == t then p else PlaceOf(s, u);
    }
  }

  lemma FirstSectionTasks(c: Core, kind: Kind, t: Task, mayWait: bool)
    requires kind.Sending? ==> !OnSide(c.receivers, t) && t !in c.senders.waiters
    requires !kind.Sending? ==> !OnSide(c.senders, t) && t !in c.receivers.waiters
    ensures var c', p := FirstSection(c, kind, t, mayWait).0, FirstSection(c, kind, t, mayWait).1;
            && (forall u :: OnSide(c'.receivers, u) ==> OnSide(c.receivers, u) && u != t)
            && (forall u :: OnSide(c'.senders, u) ==> OnSide(c.senders, u) && u != t)
            && c'.receivers.lock == c.receivers.lock && c'.senders.lock == c.senders.lock && c'.length == c.length
            && (p == Idle || p == Suspending(kind))
  {
    var c1 := WithSide(c, kind, Retried(SideOf(c, kind), t));
    SignalSameTasks(c1.receivers);
    SignalSameTasks(c1.senders);
  }

  lemma SuspendKeeps(s: State, t: Task)
    requires Inv(s) && Enabled(s, SuspendAll(t))
    ensures Inv(Step(s, SuspendAll(t)))
  {
    KindKept(s, Step(s, SuspendAll(t)), t, Suspended(PlaceOf(s, t).kind));
    UndecidedOnNeither(s, t);
  }

  lemma LockKeeps(s: State, t: Task)
    requires Inv(s) && Enabled(s, LockQueue(t))
    ensures Inv(Step(s, LockQueue(t)))
  {
    var s' := Step(s, LockQueue(t));
    KindKept(s, s', t, s'.places[t]);
    UndecidedOnNeither(s, t);
    MovedDecided(s, s', t, s'.places[t], s.core.receivers, s'.core.receivers, false);
    MovedDecided(s, s', t, s'.places[t], s.core.senders, s'.core.senders, true);
  }

  lemma CheckKeeps(s: State, e: Event)
    requires Inv(s) && Enabled(s, e) && (e.CheckForTimeOut? || e.CheckState? || e.CheckAgain?)
    ensures Inv(Step(s, e))
  {
    var s' := Step(s, e);
    KindKept(s, s', e.task, s'.places[e.task]);
    UndecidedOnNeither(s, e.task);
  }

  lemma PlaceKeeps(s: State, t: Task, at: nat)
    requires Inv(s) && Enabled(s, PlaceOnEventList(t, at))
    ensures Inv(Step(s, PlaceOnEventList(t, at)))
  {
    var kind := PlaceOf(s, t).kind;
    var side := SideOf(s.core, kind);
    var s' := Step(s, PlaceOnEventList(t, at));
    KindKept(s, s', t, UnlockingTx(kind, Block));
    UndecidedOnNeither(s, t);
    PlacedDistinct(side, t, at);
    MovedDecided(s, s', t, UnlockingTx(kind, Block), s.core.receivers, s'.core.receivers, false);
    MovedDecided(s, s', t, UnlockingTx(kind, Block), s.core.senders, s'.core.senders, true);
  }

  lemma UnlockTxKeeps(s: State, t: Task)
    requires Inv(s) && Enabled(s, UnlockTx(t))
    ensures Inv(Step(s, UnlockTx(t)))
  {
    var s' := Step(s, UnlockTx(t));
    KindKept(s, s', t, s'.places[t]);
    UndecidedOnNeither(s, t);
    DrainedAnnounces(s.core.receivers, s.core.waiting);
    DrainedSameTasks(s.core.receivers);
    MovedDecided(s, s', t, s'.places[t], s.core.receivers, s'.core.receivers, false);
    MovedDecided(s, s', t, s'.places[t], s.core.senders, s'.core.senders, true);
  }

  lemma UnlockRxKeeps(s: State, t: Task)
    requires Inv(s) && Enabled(s, UnlockRx(t))
    ensures Inv(Step(s, UnlockRx(t)))
  {
    var s' := Step(s, UnlockRx(t));
    KindKept(s, s', t, s'.places[t]);
    UndecidedOnNeither(s, t);
    DrainedAnnounces(s.core.senders, s.core.length - s.core.waiting);
    DrainedSameTasks(s.core.senders);
    MovedDecided(s, s', t, s'.places[t], s.core.receivers, s'.core.receivers, false);
    MovedDecided(s, s', t, s'.places[t], s.core.senders, s'.core.senders, true);
  }

  lemma ResumeKeeps(s: State, t: Task)
    requires Inv(s) && Enabled(s, ResumeAll(t))
    ensures Inv(Step(s, ResumeAll(t)))
  {
    var s' := Step(s, ResumeAll(t));
    KindKept(s, s', t, s'.places[t]);
    UndecidedOnNeither(s, t);
    MovedDecided(s, s', t, s'.places[t], s.core.receivers, s'.core.receivers, false);
    MovedDecided(s, s', t, s'.places[t], s.core.senders, s'.core.senders, true);
  }

  lemma ExpireKeeps(s: State, t: Task)
    requires Inv(s) && Enabled(s, Expire(t))
    ensures Inv(Step(s, Expire(t)))
  {
    SamePlaces(s, Step(s, Expire(t)));
    Rings.WithoutExactly(SideOf(s.core, PlaceOf(s, t).kind).waiters, t);
  }

  // An interrupt wakes or counts.
  lemma ISRMove(s: State, c: Core)
    requires Inv(s) && NothingLost(c) && c.length == s.core.length
    requires c.receivers == s.core.receivers || c.receivers == SignalFromISR(s.core.receivers)
    requires c.senders == s.core.senders || c.senders == SignalFromISR(s.core.senders)
    requires s.core.receivers.lock >= 0 ==> c.waiting - s.core.waiting <= c.receivers.lock - s.core.receivers.lock
    requires s.core.senders.lock >= 0 ==> s.core.waiting - c.waiting <= c.senders.lock - s.core.senders.lock
    ensures Inv(s.(core := c))
  {
    SamePlaces(s, s.(core := c));
    SignalSameTasks(s.core.receivers);
    SignalSameTasks(s.core.senders);
    ISRLocks(s.core.receivers);
    ISRLocks(s.core.senders);
    AllDecidedFrame(s, c, c.receivers, s.core.receivers, false);
    AllDecidedFrame(s, c, c.senders, s.core.senders, true);
  }

  lemma ISRLocks(side: Side)
    ensures side.lock == UNLOCKED ==> SignalFromISR(side).lock == UNLOCKED
    ensures side.lock >= 0 ==> SignalFromISR(side).lock == side.lock + 1
  {
  }

  lemma AllDecidedFrame(s: State, c: Core, side': Side, side: Side, sending: bool)
    requires AllDecided(s, side, sending) && forall t :: OnSide(side', t) <==> OnSide(side, t)
    ensures AllDecided(s.(core := c), side', sending)
  {
    forall t | OnSide(side', t)
      ensures Decided(PlaceOf(s.(core := c), t), sending)
    {
      assert OnSide(side, t);
    }
  }

  lemma ISRStepKeeps(s: State, e: Event)
    requires Inv(s) && Enabled(s, e) && (e.SendISR? || e.ReceiveISR?)
    ensures Inv(Step(s, e))
  {
    ISRKeeps(s.core, e.SendISR? && e.overwrite);
    ISRLocks(s.core.receivers);
    ISRLocks(s.core.senders);
    ISRMove(s, Step(s, e).core);
  }

  // ----- Whole runs -------------------------------------------------------------------------------

  lemma StepKeeps(s: State, e: Event)
    requires Inv(s) && Enabled(s, e)
    ensures Inv(Step(s, e))
  {
    match e
    case Call(t, kind) => CallKeeps(s, t, kind);
    case First(t, mayWait) => FirstKeeps(s, t, mayWait);
    case SuspendAll(t) => SuspendKeeps(s, t);
    case LockQueue(t) => LockKeeps(s, t);
    case CheckForTimeOut(t, expired) => CheckKeeps(s, e);
    case CheckState(t) => CheckKeeps(s, e);
    case PlaceOnEventList(t, at) => PlaceKeeps(s, t, at);
    case UnlockTx(t) => UnlockTxKeeps(s, t);
    case UnlockRx(t) => UnlockRxKeeps(s, t);
    case ResumeAll(t) => ResumeKeeps(s, t);
    case CheckAgain(t) => CheckKeeps(s, e);
    case Expire(t) => ExpireKeeps(s, t);
    case SendISR(_) => ISRStepKeeps(s, e);
    case ReceiveISR => ISRStepKeeps(s, e);
  }

  ghost predicate Reaches(s: State, events: seq<Event>, s': State)
    decreases |events|
  {
    if events == [] then s' == s else Enabled(s, events[0]) && Reaches(Step(s, events[0]), events[1..], s')
  }

  // A new queue that holds `waiting` messages.
  function Initial(length: nat, waiting: nat): State {
    State(Core(waiting, length, Side([], {}, UNLOCKED), Side([], {}, UNLOCKED)), map[], Nobody)
  }

  lemma {:induction false} RunKeeps(s: State, events: seq<Event>, s': State)
    requires Inv(s) && Reaches(s, events, s')
    ensures Inv(s')
    decreases |events|
  {
    if events != [] {
      StepKeeps(s, events[0]);
      RunKeeps(Step(s, events[0]), events[1..], s');
    }
  }

  // Whatever the interleaving, no wake-up is lost: while a receiver waits, every message has
  // been announced to a woken receiver or by the lock count, and likewise every free slot while
  // a sender waits.
  lemma NoLostWakeUp(length: nat, waiting: nat, events: seq<Event>, s: State)
    requires waiting <= length && Reaches(Initial(length, waiting), events, s)
    ensures Announced(s.core.receivers, s.core.waiting)
    ensures Announced(s.core.senders, s.core.length - s.core.waiting)
    ensures s.core.waiting <= s.core.length
  {
    RunKeeps(Initial(length, waiting), events, s);
  }

  // So when nobody has the queue locked and no woken task has yet to try again, receivers only
  // wait on an empty queue and senders only on a full one.
  lemma QuietQueue(length: nat, waiting: nat, events: seq<Event>, s: State)
    requires waiting <= length && Reaches(Initial(length, waiting), events, s)
    requires s.core.receivers.lock == s.core.senders.lock == UNLOCKED
    ensures s.core.receivers.waiters != [] && s.core.receivers.woken == {} ==> s.core.waiting == 0
    ensures s.core.senders.waiters != [] && s.core.senders.woken == {} ==> s.core.waiting == s.core.length
  {
    NoLostWakeUp(length, waiting, events, s);
  }

  // The lock counts are in use exactly while some task decides.
  lemma LockedByOne(length: nat, waiting: nat, events: seq<Event>, s: State)
    requires waiting <= length && Reaches(Initial(length, waiting), events, s)
    ensures s.core.senders.lock != UNLOCKED <==> exists t :: RxLocked(PlaceOf(s, t))
    ensures s.core.receivers.lock != UNLOCKED <==> exists t :: TxLocked(PlaceOf(s, t))
    ensures forall t, u :: HoldsScheduler(PlaceOf(s, t)) && HoldsScheduler(PlaceOf(s, u)) ==> t == u
  {
    RunKeeps(Initial(length, waiting), events, s);
    if s.owner.Suspender? {
      assert RxLocked(PlaceOf(s, s.owner.task)) || !RxLocked(PlaceOf(s, s.owner.task));
    }
    forall t | RxLocked(PlaceOf(s, t))
      ensures s.owner == Suspender(t)
    {
      assert HoldsScheduler(PlaceOf(s, t));
    }
  }

  // ----- Deciding to wait, and waiting -------------------------------------------------------------

  // With the queue locked a task goes on to wait exactly if there is still nothing for it.
  lemma DecidesToWait(s: State, t: Task)
    requires Inv(s) && Enabled(s, CheckState(t))
    ensures var kind := PlaceOf(s, t).kind;
            PlaceOf(Step(s, CheckState(t)), t) ==
              if s.core.waiting == (if kind.Sending? then s.core.length else 0) then Checked(kind)
              else UnlockingTx(kind, Again)
  {
  }

  // It is then on the list, among those that were there.
  lemma GoesOnList(s: State, t: Task, at: nat)
    requires Inv(s) && Enabled(s, PlaceOnEventList(t, at))
    ensures var kind, s' := PlaceOf(s, t).kind, Step(s, PlaceOnEventList(t, at));
            && t in SideOf(s'.core, kind).waiters && PlaceOf(s', t) == UnlockingTx(kind, Block)
            && Rings.Without(SideOf(s'.core, kind).waiters, t) == SideOf(s.core, kind).waiters
  {
    hide NothingLost, AllDecided, LocksOwned, ArrivalsCounted, OverwritesRight;
    var kind := PlaceOf(s, t).kind;
    var ws := SideOf(s.core, kind).waiters;
    UndecidedOnNeither(s, t);
    assert (ws[..at] + [t] + ws[at..])[at] == t;
    Rings.WithoutInserted(ws, at, t);
  }

  // Nobody but the task itself, or its time-out, takes it off its side.
  lemma StaysOnSide(s: State, e: Event, t: Task, sending: bool)
    requires Inv(s) && Enabled(s, e) && e != Expire(t) && !(e.First? && e.task == t)
    requires OnSide(if sending then s.core.senders else s.core.receivers, t)
    ensures OnSide(if sending then Step(s, e).core.senders else Step(s, e).core.receivers, t)
  {
    hide Inv;
    var r, w := s.core.receivers, s.core.senders;
    SignalSameTasks(r);
    SignalSameTasks(w);
    DrainedSameTasks(r);
    DrainedSameTasks(w);
    match e
    case First(u, mayWait) => FirstOthers(s.core, PlaceOf(s, u).kind, u, mayWait, t);
    case Expire(u) => ExpireOthers(s, u, t);
    case _ =>
  }

  lemma FirstOthers(c: Core, kind: Kind, u: Task, mayWait: bool, t: Task)
    requires t != u
    ensures var c' := FirstSection(c, kind, u, mayWait).0;
            && (OnSide(c.receivers, t) ==> OnSide(c'.receivers, t))
            && (OnSide(c.senders, t) ==> OnSide(c'.senders, t))
  {
    var c1 := WithSide(c, kind, Retried(SideOf(c, kind), u));
    SignalSameTasks(c1.receivers);
    SignalSameTasks(c1.senders);
  }

  lemma ExpireOthers(s: State, u: Task, t: Task)
    requires Inv(s) && Enabled(s, Expire(u)) && t != u
    ensures var c, c' := s.core, Step(s, Expire(u)).core;
            && (OnSide(c.receivers, t) ==> OnSide(c'.receivers, t))
            && (OnSide(c.senders, t) ==> OnSide(c'.senders, t))
  {
    Rings.WithoutExactly(SideOf(s.core, PlaceOf(s, u).kind).waiters, u);
  }

  // Over every interleaving a task that waits stays on the list until an event wakes it, unless its
  // time is up; a task that was woken keeps that until it tries.
  lemma {:induction false} WaitsUntilWoken(s: State, events: seq<Event>, s': State, t: Task, sending: bool)
    requires Inv(s) && Reaches(s, events, s') && OnSide(if sending then s.core.senders else s.core.receivers, t)
    requires forall e :: e in events ==> e != Expire(t) && !(e.First? && e.task == t)
    ensures OnSide(if sending then s'.core.senders else s'.core.receivers, t)
    decreases |events|
  {
    hide Inv, Enabled, Step, OnSide;
    if events != [] {
      assert events[0] in events;
      StepKeeps(s, events[0]);
      StaysOnSide(s, events[0], t, sending);
      WaitsUntilWoken(Step(s, events[0]), events[1..], s', t, sending);
    }
  }

  // ----- What is counted, and who is woken ------------------------------------------------------------

  // A send that finds room adds a message; overwriting does so only in an empty queue.
  predicate Adds(c: Core, overwrite: bool) {
    if overwrite then c.waiting == 0 else c.waiting < c.length
  }

  // The messages that an event adds, and those it takes, told from the state before it.
  function Added(s: State, e: Event): nat {
    match e
    case First(t, _) =>
      var p := PlaceOf(s, t);
      if p != Idle && p.kind.Sending? && Adds(s.core, p.kind.overwrite) then 1 else 0
    case SendISR(overwrite) => if Adds(s.core, overwrite) then 1 else 0
    case _ => 0
  }

  function Taken(s: State, e: Event): nat {
    match e
    case First(t, _) =>
      if PlaceOf(s, t) != Idle && PlaceOf(s, t).kind.Receiving? && s.core.waiting > 0 then 1 else 0
    case ReceiveISR => if s.core.waiting > 0 then 1 else 0
    case _ => 0
  }

  lemma StepConserves(s: State, e: Event)
    requires Enabled(s, e)
    ensures Step(s, e).core.waiting == s.core.waiting + Added(s, e) - Taken(s, e)
    ensures Step(s, e).core.length == s.core.length
  {
    hide Signal, SignalFromISR, Drained, Placed, Retried, Rings.Without;
  }

  function AddedIn(s: State, events: seq<Event>): nat
    decreases |events|
  {
    if events == [] then 0
    else Added(s, events[0]) + if Enabled(s, events[0]) then AddedIn(Step(s, events[0]), events[1..]) else 0
  }

  function TakenIn(s: State, events: seq<Event>): nat
    decreases |events|
  {
    if events == [] then 0
    else Taken(s, events[0]) + if Enabled(s, events[0]) then TakenIn(Step(s, events[0]), events[1..]) else 0
  }

  // No message is lost or made up: over every interleaving the count at the end is the one at the
  // start with what the sends of tasks and interrupts added and their receives took.
  lemma {:induction false} MessagesAreConserved(s: State, events: seq<Event>, s': State)
    requires Reaches(s, events, s')
    ensures s'.core.waiting == s.core.waiting + AddedIn(s, events) - TakenIn(s, events)
    decreases |events|
  {
    hide Enabled, Step, Added, Taken;
    if events != [] {
      StepConserves(s, events[0]);
      MessagesAreConserved(Step(s, events[0]), events[1..], s');
    }
  }

  // The tasks that an event takes off a wait list to let them try again.
  function WokenBy(side: Side, side': Side): set<Task> {
    set t | t in side.waiters && t in side'.woken
  }

  // What gives receivers, and senders, a reason to try: a message that arrives or was only looked
  // at, and a message that leaves.
  function Arrives(s: State, e: Event): nat {
    match e
    case First(t, _) =>
      var p := PlaceOf(s, t);
      if p.Idle? || p.kind.Receiving? then 0
      else if p.kind.Peeking? then if s.core.waiting > 0 then 1 else 0
      else if p.kind.overwrite || s.core.waiting < s.core.length then 1 else 0
    case SendISR(overwrite) => if overwrite || s.core.waiting < s.core.length then 1 else 0
    case _ => 0
  }

  function Pending(side: Side): nat {
    if side.lock > 0 then side.lock else 0
  }

  // A wake-up goes to the task that is first on the list, and no more tasks are woken than events
  // arrived or had been counted.
  ghost predicate WakesRightly(side: Side, side': Side, arrived: nat) {
    && |WokenBy(side, side')| + Pending(side') <= Pending(side) + arrived
    && forall i, j :: 0 <= i < j < |side.waiters| && side.waiters[j] in side'.woken ==> side.waiters[i] in side'.woken
  }

  lemma NobodyWoken(side: Side, side': Side, arrived: nat)
    requires Distinct(side) && side'.woken <= side.woken && Pending(side') <= Pending(side) + arrived
    ensures WakesRightly(side, side', arrived)
  {
    assert WokenBy(side, side') == {};
  }

  lemma SignalWakes(side: Side, side1: Side)
    requires Distinct(side) && side1.waiters == side.waiters && side1.woken <= side.woken && side1.lock == side.lock
    ensures WakesRightly(side, Signal(side1), 1)
  {
    if side.waiters == [] {
      NobodyWoken(side, side1, 1);
    } else {
      assert WokenBy(side, Signal(side1)) == {side.waiters[0]};
    }
  }

  lemma SignalISRWakes(side: Side)
    requires Distinct(side) && side.lock >= UNLOCKED
    ensures WakesRightly(side, SignalFromISR(side), 1)
  {
    if side.lock == UNLOCKED {
      SignalWakes(side, side);
    } else {
      NobodyWoken(side, SignalFromISR(side), 1);
    }
  }

  lemma DrainWakes(side: Side)
    requires Distinct(side)
    ensures WakesRightly(side, Drained(side), 0)
  {
    var k := |side.waiters| - |Drained(side).waiters|;
    assert side.waiters == side.waiters[..k] + side.waiters[k..];
    assert WokenBy(side, Drained(side)) == Elements(side.waiters[..k]);
    FewElements(side.waiters[..k]);
    forall i, j | 0 <= i < j < |side.waiters| && side.waiters[j] in Drained(side).woken
      ensures side.waiters[i] in Drained(side).woken
    {
      assert side.waiters[j] in side.waiters[..k];
      assert j < k;
      assert side.waiters[..k][i] == side.waiters[i];
    }
  }

  lemma {:induction false} FewElements(s: seq<Task>)
    ensures |Elements(s)| <= |s|
  {
    if s == [] {
      assert Elements(s) == {};
    } else {
      FewElements(s[1..]);
      assert s == [s[0]] + s[1..];
      assert Elements(s) == {s[0]} + Elements(s[1..]);
    }
  }

  // Senders are woken by messages that leave.
  lemma StepWakes(s: State, e: Event)
    requires Inv(s) && Enabled(s, e)
    ensures WakesRightly(s.core.receivers, Step(s, e).core.receivers, Arrives(s, e))
    ensures WakesRightly(s.core.senders, Step(s, e).core.senders, Taken(s, e))
  {
    hide WakesRightly, AllDecided, Announced, ArrivalsCounted, OverwritesRight, Drained, Signal, SignalFromISR;
    var s' := Step(s, e);
    var r, t := s.core.receivers, s.core.senders;
    match e
    case First(u, mayWait) => FirstWakes(s, u, mayWait);
    case SendISR(_) =>
      NobodyWoken(r, r, 0);
      NobodyWoken(t, t, 0);
      SignalISRWakes(r);
    case ReceiveISR =>
      NobodyWoken(r, r, 0);
      NobodyWoken(t, t, 0);
      SignalISRWakes(t);
    case UnlockTx(_) =>
      DrainWakes(r);
      NobodyWoken(t, t, 0);
    case UnlockRx(_) =>
      DrainWakes(t);
      NobodyWoken(r, r, 0);
    case _ =>
      NobodyWoken(r, s'.core.receivers, 0);
      NobodyWoken(t, s'.core.senders, 0);
  }

  lemma FirstWakes(s: State, t: Task, mayWait: bool)
    requires Inv(s) && Enabled(s, First(t, mayWait))
    ensures var s', e := Step(s, First(t, mayWait)), First(t, mayWait);
            && WakesRightly(s.core.receivers, s'.core.receivers, Arrives(s, e))
            && WakesRightly(s.core.senders, s'.core.senders, Taken(s, e))
  {
    hide WakesRightly, AllDecided, Announced, ArrivalsCounted, OverwritesRight, Signal;
    var kind := PlaceOf(s, t).kind;
    var r, w := s.core.receivers, s.core.senders;
    var c1 := WithSide(s.core, kind, Retried(SideOf(s.core, kind), t));
    NobodyWoken(r, c1.receivers, 0);
    NobodyWoken(w, c1.senders, 0);
    SignalWakes(r, c1.receivers);
    SignalWakes(w, c1.senders);
  }

  // How many receivers the events of a run wake, and how many messages arrive in it.
  function WokenIn(s: State, events: seq<Event>): nat
    decreases |events|
  {
    if events == [] || !Enabled(s, events[0]) then 0
    else
      var s1 := Step(s, events[0]);
      |WokenBy(s.core.receivers, s1.core.receivers)| + WokenIn(s1, events[1..])
  }

  function ArrivedIn(s: State, events: seq<Event>): nat
    decreases |events|
  {
    if events == [] then 0
    else Arrives(s, events[0]) + if Enabled(s, events[0]) then ArrivedIn(Step(s, events[0]), events[1..]) else 0
  }

  // Over every interleaving no more receivers are woken than messages arrived, those that the lock
  // count has still to make up for included.
  lemma {:induction false} WakesAreEarned(s: State, events: seq<Event>, s': State)
    requires Inv(s) && Reaches(s, events, s')
    ensures WokenIn(s, events) + Pending(s'.core.receivers) <= Pending(s.core.receivers) + ArrivedIn(s, events)
    decreases |events|
  {
    hide Inv, Enabled, Step, Arrives, WokenBy, Pending;
    if events != [] {
      StepKeeps(s, events[0]);
      StepWakes(s, events[0]);
      WakesAreEarned(Step(s, events[0]), events[1..], s');
    }
  }

  // ----- Resetting ---------------------------------------------------------------------------------

  // xQueueGenericReset of a queue in use: one sender is woken.
  function Reset(c: Core): Core {
    c.(waiting := 0, receivers := c.receivers.(lock := UNLOCKED), senders := Signal(c.senders.(lock := UNLOCKED)))
  }

  // Resetting frees all slots but wakes one sender only, so the accounts of the senders hold
  // afterwards exactly if no other sender waits or the woken ones can fill the queue.
  lemma ResetLosesUnless(c: Core)
    requires NothingLost(c)
    ensures Announced(Reset(c).receivers, 0)
    ensures NothingLost(Reset(c)) <==> |c.senders.waiters| <= 1 || c.length <= |c.senders.woken| + 1
  {
    SignalAnnounces(c.senders.(lock := UNLOCKED), -1);
    if c.senders.waiters != [] {
      assert c.senders.waiters[0] in c.senders.waiters;
      assert |c.senders.woken + {c.senders.waiters[0]}| == |c.senders.woken| + 1;
    }
  }

  // Two senders wait on a full queue of two; after the reset one of them still does.
  lemma ResetForgetsSender()
    ensures var c := Core(2, 2, Side([], {}, UNLOCKED), Side([1, 2], {}, UNLOCKED));
            NothingLost(c) && !NothingLost(Reset(c))
  {
    var c := Core(2, 2, Side([], {}, UNLOCKED), Side([1, 2], {}, UNLOCKED));
    ResetLosesUnless(c);
  }

  // ----- The critical sections in place ----------------------------------------------------------------

  // The side with the first k waiters taken off the list.
  function Woken(side: Side, k: nat): Side
    requires k <= |side.waiters|
  {
    side.(waiters := side.waiters[k..], woken := side.woken + Elements(side.waiters[..k]))
  }

  lemma WokenOneMore(side: Side, k: nat)
    requires k < |side.waiters|
    ensures Signal(Woken(side, k)) == Woken(side, k + 1)
  {
    assert side.waiters[..k + 1] == side.waiters[..k] + [side.waiters[k]];
    assert Elements(side.waiters[..k + 1]) == Elements(side.waiters[..k]) + {side.waiters[k]};
  }

  lemma WokenNone(side: Side)
    ensures Woken(side, 0) == side
  {
    assert Elements(side.waiters[..0]) == {};
  }

  // The members of Queue_t that have to do with waiting.
  class WaitLists {
    const uxLength: nat
    var uxMessagesWaiting: nat
    var xTasksWaitingToReceive: seq<Task>
    var xTasksWaitingToSend: seq<Task>
    var cTxLock: int
    var cRxLock: int

    // The tasks put on the ready list by xTaskRemoveFromEventList that did not try again yet.
    ghost var wokenReceivers: set<Task>
    ghost var wokenSenders: set<Task>

    ghost function View(): Core
      reads this
    {
      Core(uxMessagesWaiting, uxLength,
           Side(xTasksWaitingToReceive, wokenReceivers, cTxLock), Side(xTasksWaitingToSend, wokenSenders, cRxLock))
    }

    method WakeReceiver()
      requires xTasksWaitingToReceive != []
      modifies this`xTasksWaitingToReceive, this`wokenReceivers
      ensures View() == old(View()).(receivers := Signal(old(View()).receivers))
    {
      wokenReceivers := wokenReceivers + {xTasksWaitingToReceive[0]};
      xTasksWaitingToReceive := xTasksWaitingToReceive[1..];
    }

    method WakeSender()
      requires xTasksWaitingToSend != []
      modifies this`xTasksWaitingToSend, this`wokenSenders
      ensures View() == old(View()).(senders := Signal(old(View()).senders))
    {
      wokenSenders := wokenSenders + {xTasksWaitingToSend[0]};
      xTasksWaitingToSend := xTasksWaitingToSend[1..];
    }

    // prvLockQueue
    method LockQueue()
      modifies this`cRxLock, this`cTxLock
      ensures View() == old(View()).(receivers := Lock(old(View()).receivers), senders := Lock(old(View()).senders))
    {
      if cRxLock == UNLOCKED {
        cRxLock := 0;
      }
      if cTxLock == UNLOCKED {
        cTxLock := 0;
      }
    }

    // prvUnlockQueue, the first critical section
    method UnlockTx()
      modifies this`cTxLock, this`xTasksWaitingToReceive, this`wokenReceivers
      ensures View() == old(View()).(receivers := Drained(old(View()).receivers))
    {
      var lockCount := cTxLock;
      ghost var c, k := View(), 0;
      WokenNone(c.receivers);
      while lockCount > 0
        invariant 0 <= k <= |c.receivers.waiters| && lockCount == c.receivers.lock - k && (k > 0 ==> lockCount >= 0)
        invariant View() == c.(receivers := Woken(c.receivers, k))
        decreases lockCount
      {
        if xTasksWaitingToReceive != [] {
          WokenOneMore(c.receivers, k);
          WakeReceiver();
          k := k + 1;
        } else {
          break;
        }
        lockCount := lockCount - 1;
      }
      cTxLock := UNLOCKED;
    }

    // prvUnlockQueue, the second critical section
    method UnlockRx()
      modifies this`cRxLock, this`xTasksWaitingToSend, this`wokenSenders
      ensures View() == old(View()).(senders := Drained(old(View()).senders))
    {
      var lockCount := cRxLock;
      ghost var c, k := View(), 0;
      WokenNone(c.senders);
      while lockCount > 0
        invariant 0 <= k <= |c.senders.waiters| && lockCount == c.senders.lock - k && (k > 0 ==> lockCount >= 0)
        invariant View() == c.(senders := Woken(c.senders, k))
        decreases lockCount
      {
        if xTasksWaitingToSend != [] {
          WokenOneMore(c.senders, k);
          WakeSender();
          k := k + 1;
          lockCount := lockCount - 1;
        } else {
          break;
        }
      }
      cRxLock := UNLOCKED;
    }

    // The first critical section of xQueueGenericSend
    method TrySend(overwrite: bool) returns (passed: bool)
      modifies this
      ensures passed == CanSend(old(View()), overwrite)
      ensures View() == if passed then Send(old(View()), overwrite) else old(View())
    {
      passed := uxMessagesWaiting < uxLength || overwrite;
      if passed {
        if !(overwrite && uxMessagesWaiting > 0) {
          uxMessagesWaiting := uxMessagesWaiting + 1;
        }
        if xTasksWaitingToReceive != [] {
          WakeReceiver();
        }
      }
    }

    // The first critical section of xQueueReceive and xQueueSemaphoreTake
    method TryReceive() returns (passed: bool)
      modifies this
      ensures passed == (old(uxMessagesWaiting) > 0)
      ensures View() == if passed then Receive(old(View())) else old(View())
    {
      passed := uxMessagesWaiting > 0;
      if passed {
        uxMessagesWaiting := uxMessagesWaiting - 1;
        if xTasksWaitingToSend != [] {
          WakeSender();
        }
      }
    }

    // The first critical section of xQueuePeek
    method TryPeek() returns (passed: bool)
      modifies this
      ensures passed == (old(uxMessagesWaiting) > 0)
      ensures View() == if passed then Peek(old(View())) else old(View())
    {
      passed := uxMessagesWaiting > 0;
      if passed {
        if xTasksWaitingToReceive != [] {
          WakeReceiver();
        }
      }
    }

    // xQueueGenericSendFromISR, and xQueueGiveFromISR if nothing is overwritten
    method SendISR(overwrite: bool) returns (passed: bool)
      requires CanSend(View(), overwrite) ==> cTxLock < INT8_MAX
      modifies this
      ensures passed == CanSend(old(View()), overwrite)
      ensures View() == SendFromISR(old(View()), overwrite)
    {
      passed := uxMessagesWaiting < uxLength || overwrite;
      if passed {
        var txLock := cTxLock;
        if !(overwrite && uxMessagesWaiting > 0) {
          uxMessagesWaiting := uxMessagesWaiting + 1;
        }
        if txLock == UNLOCKED {
          if xTasksWaitingToReceive != [] {
            WakeReceiver();
          }
        } else {
          cTxLock := txLock + 1;
        }
      }
    }

    // xQueueReceiveFromISR
    method ReceiveISR() returns (passed: bool)
      requires uxMessagesWaiting > 0 ==> cRxLock < INT8_MAX
      modifies this
      ensures passed == (old(uxMessagesWaiting) > 0)
      ensures View() == ReceiveFromISR(old(View()))
    {
      passed := uxMessagesWaiting > 0;
      if passed {
        var rxLock := cRxLock;
        uxMessagesWaiting := uxMessagesWaiting - 1;
        if rxLock == UNLOCKED {
          if xTasksWaitingToSend != [] {
            WakeSender();
          }
        } else {
          cRxLock := rxLock + 1;
        }
      }
    }
  }
}
