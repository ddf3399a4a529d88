/**
 The timer daemon.  Timers wait on one list for expiry times before the tick counter wraps
 and on another for those after it.
 */
module Timers {
  import opened Clock
  import opened Rings

  // A timer; value is the item value of its list item.
  datatype Timer = Timer(period: nat, autoReload: bool, active: bool, isStatic: bool, value: nat)

  // The timers that exist, the list for this turn of the counter and the one for the next, the
  // counter when it was last sampled, and the callbacks made so far.
  datatype Daemon = Daemon(timers: map<nat, Timer>, current: seq<nat>, overflow: seq<nat>,
                           lastTime: nat, calls: seq<nat>)

  // What the kernel takes for granted about timers.
  ghost predicate Sane(d: Daemon, M: nat) {
    && d.lastTime < M
    && (forall id :: id in d.timers ==> 0 < d.timers[id].period < M && d.timers[id].value < M)
    && (forall id :: id in d.current || id in d.overflow ==> id in d.timers)
  }

  predicate Listed(d: Daemon, id: nat) {
    id in d.current || id in d.overflow
  }

  // ----- The lists -----------------------------------------------------------------

  function Keys(timers: map<nat, Timer>, list: seq<nat>): (ks: seq<nat>)
    requires forall id :: id in list ==> id in timers
    ensures |ks| == |list| && forall i :: 0 <= i < |list| ==> ks[i] == timers[list[i]].value
  {
    seq(|list|, i requires 0 <= i < |list| => timers[list[i]].value)
  }

  // vListInsert
  function Enlisted(timers: map<nat, Timer>, list: seq<nat>, id: nat): (s: seq<nat>)
    requires id in timers && forall x :: x in list ==> x in timers
    ensures forall x :: x in s <==> x in list || x == id
    ensures |s| == |list| + 1
  {
    var p := SortedPlace(Keys(timers, list), timers[id].value);
    assert list == list[..p] + list[p..];
    list[..p] + [id] + list[p..]
  }

  ghost predicate InOrder(timers: map<nat, Timer>, list: seq<nat>) {
    && (forall id :: id in list ==> id in timers)
    && Sorted(Keys(timers, list)) && Distinct(list)
  }

  lemma EnlistedInOrder(timers: map<nat, Timer>, list: seq<nat>, id: nat)
    requires InOrder(timers, list) && id in timers && id !in list
    ensures InOrder(timers, Enlisted(timers, list, id))
  {
    var p := SortedPlace(Keys(timers, list), timers[id].value);
    SortedPlaceIsStable(Keys(timers, list), timers[id].value);
    KeysInserted(timers, list, id, p);
    DistinctInserted(list, id, p);
  }

  lemma KeysInserted(timers: map<nat, Timer>, list: seq<nat>, id: nat, p: nat)
    requires id in timers && p <= |list| && forall x :: x in list ==> x in timers
    requires forall x :: x in list[..p] + [id] + list[p..] ==> x in timers
    ensures Keys(timers, list[..p] + [id] + list[p..]) ==
            Keys(timers, list)[..p] + [timers[id].value] + Keys(timers, list)[p..]
  {
  }

  lemma DistinctInserted(list: seq<nat>, id: nat, p: nat)
    requires Distinct(list) && id !in list && p <= |list|
    ensures Distinct(list[..p] + [id] + list[p..])
  {
  }

  // Changing a timer that is not on the list does not matter to it.
  lemma SameOrder(timers: map<nat, Timer>, list: seq<nat>, id: nat, t: Timer)
    requires InOrder(timers, list) && id !in list
    ensures InOrder(timers[id := t], list)
  {
    assert Keys(timers[id := t], list) == Keys(timers, list);
  }

  lemma {:induction false} WithoutInOrder(timers: map<nat, Timer>, list: seq<nat>, id: nat)
    requires InOrder(timers, list)
    ensures InOrder(timers, Without(list, id)) && id !in Without(list, id)
  {
    if list != [] {
      var ks := Keys(timers, list);
      TailInOrder(timers, list);
      if list[0] != id {
        var s := Without(list[1..], id);
        WithoutInOrder(timers, list[1..], id);
        forall x | x in list[1..]
          ensures timers[list[0]].value <= timers[x].value && x != list[0]
        {
          var i :| 0 <= i < |list| - 1 && list[1..][i] == x;
          assert ks[0] <= ks[i + 1];
        }
        HeadInOrder(timers, list[0], s);
      }
    }
  }

  lemma TailInOrder(timers: map<nat, Timer>, list: seq<nat>)
    requires InOrder(timers, list) && list != []
    ensures InOrder(timers, list[1..]) && list[0] !in list[1..]
  {
    assert Keys(timers, list[1..]) == Keys(timers, list)[1..];
  }

  lemma HeadInOrder(timers: map<nat, Timer>, id: nat, list: seq<nat>)
    requires InOrder(timers, list) && id in timers && id !in list
    requires forall x :: x in list ==> timers[id].value <= timers[x].value
    ensures InOrder(timers, [id] + list)
  {
    assert Keys(timers, [id] + list) == [timers[id].value] + Keys(timers, list);
  }

  // ----- prvInsertTimerInActiveList --------------------------------------------------------

  // The decision between processing a timer at once and putting it on one of the lists.
  datatype Decision = Now | ThisTurn | NextTurn

  function Decide(expiry: nat, now: nat, command: nat, period: nat, M: nat): Decision
    requires expiry < M && now < M && command < M
  {
    if expiry <= now then
      if Minus(now, command, M) >= period then Now else NextTurn
    else if now < command && expiry >= command then Now else ThisTurn
  }

  // For a command given at C and a period p the decision, taken at time N from counters only, is
  // the right one in absolute time as long as the daemon lags by less than a turn.
  lemma DecisionIsRight(C: nat, p: nat, N: nat, M: nat)
    requires C <= N < C + M && 0 < p < M
    ensures Plus(Tick(C, M), p, M) == Tick(C + p, M)
    ensures var decision := Decide(Tick(C + p, M), Tick(N, M), Tick(C, M), p, M);
            && (decision == Now <==> C + p <= N)
            && (decision == ThisTurn <==> C + p > N && Turn(C + p, M) == Turn(N, M))
            && (decision == NextTurn <==> C + p > N && Turn(C + p, M) == Turn(N, M) + 1)
  {
    LaterTick(C, p, M);
    LaterTick(C, N - C, M);
    EarlierTick(C + p, N, M);
  }

  // prvInsertTimerInActiveList
  function Insert(d: Daemon, id: nat, expiry: nat, now: nat, command: nat, M: nat): (Daemon, bool)
    requires Sane(d, M) && id in d.timers && expiry < M && now < M && command < M
    ensures Sane(Insert(d, id, expiry, now, command, M).0, M)
    ensures Insert(d, id, expiry, now, command, M).0.timers.Keys == d.timers.Keys
    ensures Insert(d, id, expiry, now, command, M).0.lastTime == d.lastTime
    ensures now == M - 1 ==> Insert(d, id, expiry, now, command, M).0.current == d.current
  {
    var timers := d.timers[id := d.timers[id].(value := expiry)];
    match Decide(expiry, now, command, d.timers[id].period, M)
    case Now => (d.(timers := timers), true)
    case NextTurn => (d.(timers := timers, overflow := Enlisted(timers, d.overflow, id)), false)
    case ThisTurn => (d.(timers := timers, current := Enlisted(timers, d.current, id)), false)
  }

  // n callbacks.
  function Called(d: Daemon, id: nat, n: nat): Daemon {
    d.(calls := d.calls + seq(n, i => id))
  }

  // The rounds of the loop in prvReloadTimer: how many further expiry times are past, and which
  // one is the last of them.
  function Overrun(expired: nat, now: nat, period: nat, M: nat): (r: (nat, nat))
    requires expired < M && now < M && 0 < period < M
    ensures r.1 < M && Decide(Plus(r.1, period, M), now, r.1, period, M) != Now
    decreases Minus(now, expired, M)
  {
    var next := Plus(expired, period, M);
    if Decide(next, now, expired, period, M) == Now then
      var r := Overrun(next, now, period, M);
      (r.0 + 1, r.1)
    else (0, expired)
  }

  // prvReloadTimer
  function Reload(d: Daemon, id: nat, expired: nat, now: nat, M: nat): (d': Daemon)
    requires Sane(d, M) && id in d.timers && expired < M && now < M
    ensures Sane(d', M) && d'.timers.Keys == d.timers.Keys
    ensures forall x :: Listed(d', x) ==> Listed(d, x) || x == id
    ensures now == M - 1 ==> d'.current == d.current
    ensures d'.lastTime == d.lastTime
  {
    var (n, last) := Overrun(expired, now, d.timers[id].period, M);
    Insert(Called(d, id, n), id, Plus(last, d.timers[id].period, M), now, last, M).0
  }

  // prvProcessExpiredTimer: the first timer of the current list is done.
  function ProcessExpired(d: Daemon, next: nat, now: nat, M: nat): (d': Daemon)
    requires Sane(d, M) && d.current != [] && next < M && now < M
    ensures Sane(d', M) && d'.timers.Keys == d.timers.Keys
    ensures forall x :: Listed(d', x) ==> Listed(d, x)
    ensures now == M - 1 ==> d'.current == d.current[1..]
  {
    var id := d.current[0];
    var d1 := d.(current := d.current[1..]);
    assert Listed(d, id) && forall x :: Listed(d1, x) ==> Listed(d, x);
    if d.timers[id].autoReload then Called(Reload(d1, id, next, now, M), id, 1)
    else Called(d1.(timers := d.timers[id := d.timers[id].(active := false)]), id, 1)
  }

  // tmrMAX_TIME_BEFORE_OVERFLOW
  function LastTick(M: nat): nat
    requires M > 0
  {
    M - 1
  }

  // prvSwitchTimerLists: one round of its loop.  At the last tick of a turn nothing is put back
  // on the current list: whatever does not have to be called yet falls into the next turn.
  function DrainStep(d: Daemon, M: nat): (d': Daemon)
    requires Sane(d, M) && d.current != []
    ensures Sane(d', M) && d'.current == d.current[1..] && d'.timers.Keys == d.timers.Keys
    ensures forall x :: Listed(d', x) ==> Listed(d, x)
  {
    ProcessExpired(d, d.timers[d.current[0]].value, LastTick(M), M)
  }

  function Drain(d: Daemon, M: nat): (d': Daemon)
    requires Sane(d, M)
    ensures Sane(d', M) && d'.current == [] && d'.timers.Keys == d.timers.Keys
    ensures forall x :: Listed(d', x) ==> Listed(d, x)
    decreases |d.current|
  {
    if d.current == [] then d else Drain(DrainStep(d, M), M)
  }

  function SwitchLists(d: Daemon, M: nat): (d': Daemon)
    requires Sane(d, M)
    ensures Sane(d', M) && d'.timers.Keys == d.timers.Keys && d'.overflow == []
    ensures forall x :: Listed(d', x) ==> Listed(d, x)
  {
    var d1 := Drain(d, M);
    d1.(current := d1.overflow, overflow := d1.current)
  }

  // prvSampleTimeNow
  function Sample(d: Daemon, now: nat, M: nat): (d': Daemon)
    requires Sane(d, M) && now < M
    ensures Sane(d', M) && d'.timers.Keys == d.timers.Keys
    ensures forall x :: Listed(d', x) ==> Listed(d, x)
  {
    (if now < d.lastTime then SwitchLists(d, M) else d).(lastTime := now)
  }

  // prvGetNextExpireTime: without a timer in this turn, the time when the counter wraps
  function NextExpireTime(d: Daemon, M: nat): (next: nat)
    requires Sane(d, M)
    ensures next < M
  {
    if d.current == [] then 0 else d.timers[d.current[0]].value
  }

  // prvProcessTimerOrBlockTask: what it does to the timers, and how long it waits for a command.
  function TimerOrBlock(d: Daemon, now: nat, M: nat): (d': Daemon)
    requires Sane(d, M) && now < M
    ensures Sane(d', M) && d'.timers.Keys == d.timers.Keys
  {
    var next := NextExpireTime(d, M);
    var d1 := Sample(d, now, M);
    if now >= d.lastTime && d.current != [] && next <= now then ProcessExpired(d1, next, now, M) else d1
  }

  datatype Sleep = Awake | Asleep(ticks: nat, forEver: bool)

  function SleepOf(d: Daemon, now: nat, M: nat): Sleep
    requires Sane(d, M) && now < M
  {
    var next := NextExpireTime(d, M);
    if now < d.lastTime || (d.current != [] && next <= now) then Awake
    else Asleep(Minus(next, now, M), d.current == [] && d.overflow == [])
  }

  // ----- prvProcessReceivedCommands ----------------------------------------------------------

  // A command about a timer; a stamp or new period is the message value.
  datatype Command = Start(id: nat, stamp: nat) | Stop(id: nat) | ChangePeriod(id: nat, period: nat) | Delete(id: nat)

  // What the source asserts or assumes of a command.
  predicate Proper(d: Daemon, c: Command, M: nat) {
    && c.id in d.timers
    && (c.Start? ==> c.stamp < M) && (c.ChangePeriod? ==> 0 < c.period < M)
  }

  function TakenOff(d: Daemon, id: nat): Daemon {
    d.(current := Without(d.current, id), overflow := Without(d.overflow, id))
  }

  function Execute(d: Daemon, c: Command, now: nat, M: nat): (d': Daemon)
    requires Sane(d, M) && Proper(d, c, M) && now < M
    requires c.id !in d.current && c.id !in d.overflow
    ensures Sane(d', M)
    ensures d'.lastTime == d.lastTime
  {
    var id, t := c.id, d.timers[c.id];
    match c
    case Start(_, stamp) =>
      var d1 := d.(timers := d.timers[id := t.(active := true)]);
      var expiry := Plus(stamp, t.period, M);
      var (d2, processNow) := Insert(d1, id, expiry, now, stamp, M);
      if !processNow then d2
      else if t.autoReload then Called(Reload(d2, id, expiry, now, M), id, 1)
      else Called(d2.(timers := d2.timers[id := d2.timers[id].(active := false)]), id, 1)
    case Stop(_) => d.(timers := d.timers[id := t.(active := false)])
    case ChangePeriod(_, period) =>
      var d1 := d.(timers := d.timers[id := t.(active := true, period := period)]);
      Insert(d1, id, Plus(now, period, M), now, now, M).0
    case Delete(_) =>
      if t.isStatic then d.(timers := d.timers[id := t.(active := false)]) else d.(timers := d.timers - {id})
  }

  function ProcessCommand(d: Daemon, c: Command, now: nat, M: nat): (d': Daemon)
    requires Sane(d, M) && Proper(d, c, M) && now < M
    requires InOrder(d.timers, d.current) && InOrder(d.timers, d.overflow)
    ensures Sane(d', M)
  {
    WithoutInOrder(d.timers, d.current, c.id);
    WithoutInOrder(d.timers, d.overflow, c.id);
    var d0 := TakenOff(d, c.id);
    var d1 := Sample(d0, now, M);
    assert !Listed(d0, c.id) && !Listed(d1, c.id);
    Execute(d1, c, now, M)
  }

  // ----- What every operation keeps ------------------------------------------------------------

  ghost predicate Disjoint(d: Daemon) {
    forall id :: id in d.current ==> id !in d.overflow
  }

  // The lists are sorted, and exactly the active timers are on one of them, once.  The timers
  // in hand, which the daemon is busy with, are on neither.
  ghost predicate Good(d: Daemon, hand: set<nat>, M: nat) {
    && Sane(d, M) && InOrder(d.timers, d.current) && InOrder(d.timers, d.overflow) && Disjoint(d)
    && (forall x :: x in hand ==> !Listed(d, x))
    && forall x :: x in d.timers && x !in hand ==> (d.timers[x].active <==> Listed(d, x))
  }

  // A timer in hand can be changed at will.
  lemma ChangeInHand(d: Daemon, hand: set<nat>, id: nat, t: Timer, M: nat)
    requires Good(d, hand, M) && id in hand && 0 < t.period < M && t.value < M
    ensures Good(d.(timers := d.timers[id := t]), hand, M)
  {
    SameOrder(d.timers, d.current, id, t);
    SameOrder(d.timers, d.overflow, id, t);
    assert forall x :: Listed(d.(timers := d.timers[id := t]), x) <==> Listed(d, x);
  }

  // It can be let go of when it is not active, or put on a list when it is.
  lemma LetGo(d: Daemon, hand: set<nat>, id: nat, M: nat)
    requires Good(d, hand + {id}, M) && (id in d.timers ==> !d.timers[id].active)
    ensures Good(d, hand, M)
  {
  }

  lemma EnlistThisTurn(d: Daemon, hand: set<nat>, id: nat, M: nat)
    requires Good(d, hand + {id}, M) && id !in hand && id in d.timers && d.timers[id].active
    ensures Good(d.(current := Enlisted(d.timers, d.current, id)), hand, M)
  {
    var d' := d.(current := Enlisted(d.timers, d.current, id));
    EnlistedInOrder(d.timers, d.current, id);
    assert forall x :: Listed(d', x) <==> Listed(d, x) || x == id;
  }

  lemma EnlistNextTurn(d: Daemon, hand: set<nat>, id: nat, M: nat)
    requires Good(d, hand + {id}, M) && id !in hand && id in d.timers && d.timers[id].active
    ensures Good(d.(overflow := Enlisted(d.timers, d.overflow, id)), hand, M)
  {
    var d' := d.(overflow := Enlisted(d.timers, d.overflow, id));
    EnlistedInOrder(d.timers, d.overflow, id);
    assert forall x :: Listed(d', x) <==> Listed(d, x) || x == id;
  }

  lemma InsertKeeps(d: Daemon, hand: set<nat>, id: nat, expiry: nat, now: nat, command: nat, M: nat)
    requires Good(d, hand + {id}, M) && id !in hand && id in d.timers && d.timers[id].active
    requires expiry < M && now < M && command < M
    ensures var (d', processNow) := Insert(d, id, expiry, now, command, M);
            if processNow then Good(d', hand + {id}, M) && d'.timers[id] == d.timers[id].(value := expiry)
            else Good(d', hand, M)
  {
    var t := d.timers[id].(value := expiry);
    var d1 := d.(timers := d.timers[id := t]);
    ChangeInHand(d, hand + {id}, id, t, M);
    match Decide(expiry, now, command, d.timers[id].period, M)
    case Now =>
    case NextTurn => EnlistNextTurn(d1, hand, id, M);
    case ThisTurn => EnlistThisTurn(d1, hand, id, M);
  }

  lemma CalledKeeps(d: Daemon, hand: set<nat>, x: nat, n: nat, M: nat)
    requires Good(d, hand, M)
    ensures Good(Called(d, x, n), hand, M)
  {
    assert forall y :: Listed(Called(d, x, n), y) <==> Listed(d, y);
  }

  lemma ReloadKeeps(d: Daemon, hand: set<nat>, id: nat, expired: nat, now: nat, M: nat)
    requires Good(d, hand + {id}, M) && id !in hand && id in d.timers && d.timers[id].active && expired < M && now < M
    ensures Good(Reload(d, id, expired, now, M), hand, M)
  {
    var (n, last) := Overrun(expired, now, d.timers[id].period, M);
    CalledKeeps(d, hand + {id}, id, n, M);
    InsertKeeps(Called(d, id, n), hand, id, Plus(last, d.timers[id].period, M), now, last, M);
  }

  lemma Deactivate(d: Daemon, hand: set<nat>, id: nat, M: nat)
    requires Good(d, hand + {id}, M) && id in d.timers
    ensures Good(d.(timers := d.timers[id := d.timers[id].(active := false)]), hand, M)
  {
    ChangeInHand(d, hand + {id}, id, d.timers[id].(active := false), M);
    LetGo(d.(timers := d.timers[id := d.timers[id].(active := false)]), hand, id, M);
  }

  lemma TakeHead(d: Daemon, hand: set<nat>, M: nat)
    requires Good(d, hand, M) && d.current != []
    ensures Good(d.(current := d.current[1..]), hand + {d.current[0]}, M)
    ensures d.timers[d.current[0]].active && d.current[0] !in hand
  {
    var d1 := d.(current := d.current[1..]);
    TailInOrder(d.timers, d.current);
    assert Listed(d, d.current[0]);
    assert d.current == [d.current[0]] + d.current[1..];
    assert forall x :: x != d.current[0] ==> (Listed(d1, x) <==> Listed(d, x));
  }

  lemma ProcessExpiredKeeps(d: Daemon, hand: set<nat>, next: nat, now: nat, M: nat)
    requires Good(d, hand, M) && d.current != [] && next < M && now < M
    ensures Good(ProcessExpired(d, next, now, M), hand, M)
  {
    var id := d.current[0];
    var d1 := d.(current := d.current[1..]);
    TakeHead(d, hand, M);
    if d.timers[id].autoReload {
      ReloadKeeps(d1, hand, id, next, now, M);
      CalledKeeps(Reload(d1, id, next, now, M), hand, id, 1, M);
    } else {
      Deactivate(d1, hand, id, M);
      CalledKeeps(d1.(timers := d.timers[id := d.timers[id].(active := false)]), hand, id, 1, M);
    }
  }

  lemma DrainStepKeeps(d: Daemon, hand: set<nat>, M: nat)
    requires Good(d, hand, M) && d.current != []
    ensures Good(DrainStep(d, M), hand, M)
  {
    ProcessExpiredKeeps(d, hand, d.timers[d.current[0]].value, LastTick(M), M);
  }

  lemma {:induction false} DrainKeeps(d: Daemon, hand: set<nat>, M: nat)
    requires Good(d, hand, M)
    ensures Good(Drain(d, M), hand, M)
    decreases |d.current|
  {
    if d.current != [] {
      DrainStepKeeps(d, hand, M);
      DrainKeeps(DrainStep(d, M), hand, M);
    }
  }

  lemma SampleKeeps(d: Daemon, hand: set<nat>, now: nat, M: nat)
    requires Good(d, hand, M) && now < M
    ensures Good(Sample(d, now, M), hand, M)
  {
    var d' := Sample(d, now, M);
    if now < d.lastTime {
      var d1 := Drain(d, M);
      DrainKeeps(d, hand, M);
      assert forall x :: Listed(d', x) <==> Listed(d1, x);
    } else {
      assert forall x :: Listed(d', x) <==> Listed(d, x);
    }
  }

  lemma TimerOrBlockKeeps(d: Daemon, now: nat, M: nat)
    requires Good(d, {}, M) && now < M
    ensures Good(TimerOrBlock(d, now, M), {}, M)
  {
    SampleKeeps(d, {}, now, M);
    if now >= d.lastTime && d.current != [] && d.timers[d.current[0]].value <= now {
      ProcessExpiredKeeps(Sample(d, now, M), {}, d.timers[d.current[0]].value, now, M);
    }
  }

  lemma TakenOffKeeps(d: Daemon, id: nat, M: nat)
    requires Good(d, {}, M)
    ensures Good(TakenOff(d, id), {id}, M)
  {
    var d' := TakenOff(d, id);
    WithoutInOrder(d.timers, d.current, id);
    WithoutInOrder(d.timers, d.overflow, id);
    assert forall x :: x != id ==> (Listed(d', x) <==> Listed(d, x));
  }

  lemma ExecuteKeeps(d: Daemon, c: Command, now: nat, M: nat)
    requires Good(d, {c.id}, M) && Proper(d, c, M) && now < M
    ensures c.id !in d.current && c.id !in d.overflow && Good(Execute(d, c, now, M), {}, M)
  {
    var id, t := c.id, d.timers[c.id];
    assert !Listed(d, id) && {} + {id} == {id};
    match c
    case Start(_, stamp) =>
      StartKeeps(d, id, stamp, now, M);
    case Stop(_) =>
      Deactivate(d, {}, id, M);
    case ChangePeriod(_, period) =>
      var t1 := t.(active := true, period := period);
      var d1 := d.(timers := d.timers[id := t1]);
      ChangeInHand(d, {id}, id, t1, M);
      InsertKeeps(d1, {}, id, Plus(now, period, M), now, now, M);
    case Delete(_) =>
      Deactivate(d, {}, id, M);
      if !t.isStatic {
        ForgetTimer(d, id, M);
      }
  }

  lemma StartKeeps(d: Daemon, id: nat, stamp: nat, now: nat, M: nat)
    requires Good(d, {id}, M) && id in d.timers && stamp < M && now < M
    ensures id !in d.current && id !in d.overflow && Good(Execute(d, Start(id, stamp), now, M), {}, M)
  {
    var t := d.timers[id].(active := true);
    var d1 := d.(timers := d.timers[id := t]);
    assert !Listed(d, id) && {} + {id} == {id};
    ChangeInHand(d, {id}, id, t, M);
    var expiry := Plus(stamp, t.period, M);
    var (d2, processNow) := Insert(d1, id, expiry, now, stamp, M);
    InsertKeeps(d1, {}, id, expiry, now, stamp, M);
    if processNow {
      if t.autoReload {
        ReloadKeeps(d2, {}, id, expiry, now, M);
        CalledKeeps(Reload(d2, id, expiry, now, M), {}, id, 1, M);
      } else {
        Deactivate(d2, {}, id, M);
        CalledKeeps(d2.(timers := d2.timers[id := d2.timers[id].(active := false)]), {}, id, 1, M);
      }
    }
  }

  lemma ForgetTimer(d: Daemon, id: nat, M: nat)
    requires Good(d, {id}, M)
    ensures Good(d.(timers := d.timers - {id}), {}, M)
  {
    var d' := d.(timers := d.timers - {id});
    assert !Listed(d, id);
    assert Keys(d'.timers, d.current) == Keys(d.timers, d.current);
    assert Keys(d'.timers, d.overflow) == Keys(d.timers, d.overflow);
    assert forall x :: Listed(d', x) <==> Listed(d, x);
  }

  lemma ProcessCommandKeeps(d: Daemon, c: Command, now: nat, M: nat)
    requires Good(d, {}, M) && Proper(d, c, M) && now < M
    ensures Good(ProcessCommand(d, c, now, M), {}, M)
  {
    TakenOffKeeps(d, c.id, M);
    SampleKeeps(TakenOff(d, c.id), {c.id}, now, M);
    ExecuteKeeps(Sample(TakenOff(d, c.id), now, M), c, now, M);
  }

  // ----- One timer through the run -----------------------------------------------------------------

  // How often timer id has been called.
  function CallsOf(calls: seq<nat>, id: nat): nat {
    if calls == [] then 0 else CallsOf(calls[..|calls| - 1], id) + (if calls[|calls| - 1] == id then 1 else 0)
  }

  lemma {:induction false} MoreCalls(d: Daemon, x: nat, n: nat, id: nat)
    ensures CallsOf(Called(d, x, n).calls, id) == CallsOf(d.calls, id) + if x == id then n else 0
    decreases n
  {
    var calls := Called(d, x, n).calls;
    if n == 0 {
      assert calls == d.calls;
    } else {
      assert calls[..|calls| - 1] == Called(d, x, n - 1).calls;
      MoreCalls(d, x, n - 1, id);
    }
  }

  // At time L the timer is on the list of the turn that time X falls into, with X as its value.
  ghost predicate Armed(d: Daemon, L: nat, id: nat, X: nat, M: nat) {
    && M > 0 && id in d.timers && d.timers[id].value == Tick(X, M)
    && ((id in d.current && Turn(X, M) == Turn(L, M)) || (id in d.overflow && Turn(X, M) == Turn(L, M) + 1))
  }

  // How a timer was started: with which stamp, as what, and how often it had been called.
  datatype Started = Started(stamp: nat, period: nat, autoReload: bool, before: nat)

  // A timer that was started is called for the first k multiples of its period after the stamp,
  // all of them past, and waits for the next one; a one-shot timer for the first one only.
  ghost predicate Progress(d: Daemon, L: nat, id: nat, st: Started, M: nat) {
    && id in d.timers && d.timers[id].period == st.period && d.timers[id].autoReload == st.autoReload
    && st.before <= CallsOf(d.calls, id)
    && var k := CallsOf(d.calls, id) - st.before;
       && Multiple(st, k) <= L
       && if st.autoReload then Armed(d, L, id, Multiple(st, k + 1), M)
          else if k == 0 then Armed(d, L, id, Multiple(st, 1), M)
          else k == 1 && !Listed(d, id)
  }

  function Multiple(st: Started, k: nat): nat {
    if k == 0 then st.stamp else Multiple(st, k - 1) + st.period
  }

  lemma {:induction false} MultipleIs(st: Started, k: nat)
    ensures Multiple(st, k) == st.stamp + k * st.period
  {
    if k > 0 {
      MultipleIs(st, k - 1);
      assert k * st.period == (k - 1) * st.period + st.period;
    }
  }

  // What matters for timer id is the same.
  ghost predicate SameFor(d: Daemon, d': Daemon, id: nat) {
    && (id in d.timers <==> id in d'.timers) && (id in d.timers ==> d'.timers[id] == d.timers[id])
    && (id in d.current <==> id in d'.current) && (id in d.overflow <==> id in d'.overflow)
    && CallsOf(d'.calls, id) == CallsOf(d.calls, id)
  }

  // Within one turn time passes without changing anything.
  lemma SameProgress(d: Daemon, d': Daemon, L: nat, N: nat, id: nat, st: Started, M: nat)
    requires SameFor(d, d', id) && Progress(d, L, id, st, M) && L <= N && M > 0 && Turn(L, M) == Turn(N, M)
    ensures Progress(d', N, id, st, M)
  {
  }

  lemma InsertOthers(d: Daemon, id: nat, expiry: nat, now: nat, command: nat, x: nat, M: nat)
    requires Sane(d, M) && id in d.timers && expiry < M && now < M && command < M && x != id
    ensures SameFor(d, Insert(d, id, expiry, now, command, M).0, x)
  {
  }

  lemma ReloadOthers(d: Daemon, id: nat, expired: nat, now: nat, x: nat, M: nat)
    requires Sane(d, M) && id in d.timers && expired < M && now < M && x != id
    ensures SameFor(d, Reload(d, id, expired, now, M), x)
  {
    var (n, last) := Overrun(expired, now, d.timers[id].period, M);
    InsertOthers(Called(d, id, n), id, Plus(last, d.timers[id].period, M), now, last, x, M);
    MoreCalls(d, id, n, x);
  }

  lemma SameThrough(d: Daemon, d1: Daemon, d2: Daemon, x: nat)
    requires SameFor(d, d1, x) && SameFor(d1, d2, x)
    ensures SameFor(d, d2, x)
  {
  }

  lemma CalledOthers(d: Daemon, id: nat, x: nat)
    requires x != id
    ensures SameFor(d, Called(d, id, 1), x)
  {
    MoreCalls(d, id, 1, x);
  }

  lemma HeadGone(d: Daemon, t: Timer, x: nat)
    requires d.current != [] && x != d.current[0]
    ensures SameFor(d, d.(current := d.current[1..], timers := d.timers[d.current[0] := t]), x)
    ensures SameFor(d, d.(current := d.current[1..]), x)
  {
    assert d.current == [d.current[0]] + d.current[1..];
  }

  lemma ProcessExpiredOthers(d: Daemon, next: nat, now: nat, x: nat, M: nat)
    requires Sane(d, M) && d.current != [] && next < M && now < M && x != d.current[0]
    ensures SameFor(d, ProcessExpired(d, next, now, M), x)
  {
    var id := d.current[0];
    var t := d.timers[id];
    HeadGone(d, t.(active := false), x);
    if t.autoReload {
      var d1 := d.(current := d.current[1..]);
      var d2 := Reload(d1, id, next, now, M);
      ReloadOthers(d1, id, next, now, x, M);
      CalledOthers(d2, id, x);
      SameThrough(d, d1, d2, x);
      SameThrough(d, d2, Called(d2, id, 1), x);
    } else {
      var d1 := d.(current := d.current[1..], timers := d.timers[id := t.(active := false)]);
      CalledOthers(d1, id, x);
      SameThrough(d, d1, Called(d1, id, 1), x);
    }
  }

  // Putting a timer on a list for time C + p, unless that is past already.
  lemma InsertArms(d: Daemon, id: nat, C: nat, N: nat, M: nat)
    requires Sane(d, M) && id in d.timers && C <= N < C + M
    ensures var p := d.timers[id].period;
            var (d', processNow) := Insert(d, id, Tick(C + p, M), Tick(N, M), Tick(C, M), M);
            && (processNow <==> C + p <= N)
            && (!processNow ==> Armed(d', N, id, C + p, M))
            && (processNow ==> d'.current == d.current && d'.overflow == d.overflow)
            && d'.timers[id] == d.timers[id].(value := Tick(C + p, M)) && d'.calls == d.calls
  {
    DecisionIsRight(C, d.timers[id].period, N, M);
  }

  // The loop of prvReloadTimer in absolute time: of an expiry time that is the k-th multiple it
  // counts the j further multiples that are past.
  lemma {:induction false} OverrunCounts(st: Started, k: nat, N: nat, M: nat) returns (j: nat)
    requires 0 < st.period < M && Multiple(st, k) <= N < Multiple(st, k) + M
    ensures Overrun(Tick(Multiple(st, k), M), Tick(N, M), st.period, M) == (j, Tick(Multiple(st, k + j), M))
    ensures Multiple(st, k + j) <= N < Multiple(st, k + j + 1)
    decreases N - Multiple(st, k)
  {
    hide Decide, Tick, Turn, Plus, Minus;
    var E := Multiple(st, k);
    assert Multiple(st, k + 1) == E + st.period;
    DecisionIsRight(E, st.period, N, M);
    if E + st.period <= N {
      var i := OverrunCounts(st, k + 1, N, M);
      j := i + 1;
      assert k + 1 + i == k + j;
    } else {
      j := 0;
      assert k + j == k;
    }
  }

  // From d to d' the timer, which expired for multiple k, was called for the j multiples after
  // it, which are past, and then armed for the next one.
  ghost predicate CaughtUp(d: Daemon, d': Daemon, id: nat, st: Started, k: nat, j: nat, N: nat, M: nat) {
    && CallsOf(d'.calls, id) == CallsOf(d.calls, id) + j
    && Multiple(st, k + j) <= N < Multiple(st, k + j + 1)
    && Armed(d', N, id, Multiple(st, k + j + 1), M)
    && id in d.timers && d'.timers[id].(value := 0) == d.timers[id].(value := 0)
  }

  // That is what prvReloadTimer does.
  lemma ReloadCounts(d: Daemon, id: nat, st: Started, k: nat, N: nat, M: nat) returns (j: nat)
    requires Sane(d, M) && id in d.timers && d.timers[id].period == st.period
    requires Multiple(st, k) <= N < Multiple(st, k) + M
    ensures CaughtUp(d, Reload(d, id, Tick(Multiple(st, k), M), Tick(N, M), M), id, st, k, j, N, M)
  {
    j := OverrunCounts(st, k, N, M);
    MultiplesGrow(st, k, j);
    ReloadArms(d, id, st, k, j, N, Tick(Multiple(st, k), M), M);
  }

  lemma ReloadIs(d: Daemon, id: nat, expired: nat, now: nat, n: nat, last: nat, next: nat, M: nat)
    requires Sane(d, M) && id in d.timers && expired < M && now < M && last < M
    requires Overrun(expired, now, d.timers[id].period, M) == (n, last)
    requires next == Plus(last, d.timers[id].period, M)
    ensures Reload(d, id, expired, now, M) == Insert(Called(d, id, n), id, next, now, last, M).0
    ensures !Insert(Called(d, id, n), id, next, now, last, M).1
  {
  }

  lemma ReloadArms(d: Daemon, id: nat, st: Started, k: nat, j: nat, N: nat, expired: nat, M: nat)
    requires Sane(d, M) && id in d.timers && d.timers[id].period == st.period && expired < M
    requires Multiple(st, k + j) <= N < Multiple(st, k + j + 1) && N < Multiple(st, k + j) + M
    requires Overrun(expired, Tick(N, M), st.period, M) == (j, Tick(Multiple(st, k + j), M))
    ensures CaughtUp(d, Reload(d, id, expired, Tick(N, M), M), id, st, k, j, N, M)
  {
    hide Insert, Overrun, Reload, Tick, Turn, Enlisted;
    var last, next := Multiple(st, k + j), Multiple(st, k + j + 1);
    assert next == last + st.period;
    MoreCalls(d, id, j, id);
    var next' := Tick(next, M);
    assert next' == Plus(Tick(last, M), st.period, M) by {
      LaterTick(last, st.period, M);
    }
    ReloadIs(d, id, expired, Tick(N, M), j, Tick(last, M), next', M);
    InsertArms(Called(d, id, j), id, last, N, M);
    var d' := Insert(Called(d, id, j), id, next', Tick(N, M), Tick(last, M), M).0;
    assert CaughtUp(d, d', id, st, k, j, N, M);
  }

  lemma {:induction false} MultiplesGrow(st: Started, k: nat, j: nat)
    ensures Multiple(st, k) <= Multiple(st, k + j)
  {
    if j > 0 {
      MultiplesGrow(st, k, j - 1);
    }
  }

  // An expiry time of this turn that the counter has reached.
  lemma ReachedThisTurn(E: nat, N: nat, M: nat)
    requires M > 0 && Turn(E, M) == Turn(N, M) && Tick(E, M) <= Tick(N, M)
    ensures E <= N < E + M
  {
    SameTurn(E, N, M);
  }

  lemma AutoReloadIs(d: Daemon, id: nat, next: nat, now: nat, M: nat) returns (d1: Daemon)
    requires Sane(d, M) && d.current != [] && id == d.current[0] && d.timers[id].autoReload && next < M && now < M
    ensures d1 == d.(current := d.current[1..]) && Sane(d1, M)
    ensures ProcessExpired(d, next, now, M) == Called(Reload(d1, id, next, now, M), id, 1)
  {
    d1 := d.(current := d.current[1..]);
  }

  lemma AutoReloadProgress(d: Daemon, L: nat, N: nat, id: nat, st: Started, next: nat, M: nat)
    requires Sane(d, M) && Disjoint(d) && d.current != [] && id == d.current[0] && st.autoReload
    requires L <= N && Turn(L, M) == Turn(N, M) && Progress(d, L, id, st, M)
    requires next == d.timers[id].value && next <= Tick(N, M)
    ensures Progress(ProcessExpired(d, next, Tick(N, M), M), N, id, st, M)
  {
    hide ProcessExpired, Reload, Tick, Turn, CaughtUp;
    var k := CallsOf(d.calls, id) - st.before;
    assert id in d.current && id !in d.overflow;
    ReachedThisTurn(Multiple(st, k + 1), N, M);
    var d1 := AutoReloadIs(d, id, next, Tick(N, M), M);
    var j := ReloadCounts(d1, id, st, k + 1, N, M);
    CalledAfter(d1, Reload(d1, id, next, Tick(N, M), M), id, st, k, j, N, M);
  }

  lemma CalledAfter(d: Daemon, d2: Daemon, id: nat, st: Started, k: nat, j: nat, N: nat, M: nat)
    requires CaughtUp(d, d2, id, st, k + 1, j, N, M)
    requires id in d.timers && d.timers[id].period == st.period && d.timers[id].autoReload == st.autoReload == true
    requires CallsOf(d.calls, id) == st.before + k
    ensures Progress(Called(d2, id, 1), N, id, st, M)
  {
    MoreCalls(d2, id, 1, id);
    assert k + 1 + j == k + (j + 1);
  }

  lemma OneShotProgress(d: Daemon, L: nat, N: nat, id: nat, st: Started, next: nat, M: nat)
    requires Sane(d, M) && InOrder(d.timers, d.current) && Disjoint(d)
    requires d.current != [] && id == d.current[0] && !st.autoReload
    requires L <= N && Turn(L, M) == Turn(N, M) && Progress(d, L, id, st, M)
    requires next == d.timers[id].value && next <= Tick(N, M)
    ensures Progress(ProcessExpired(d, next, Tick(N, M), M), N, id, st, M)
  {
    assert Listed(d, id) && id !in d.overflow;
    TailInOrder(d.timers, d.current);
    ReachedThisTurn(Multiple(st, 1), N, M);
    MoreCalls(d.(current := d.current[1..], timers := d.timers[id := d.timers[id].(active := false)]), id, 1, id);
  }

  // Processing the first timer of the list, once its time has come.
  lemma ProcessExpiredProgress(d: Daemon, hand: set<nat>, L: nat, N: nat, id: nat, st: Started, next: nat, M: nat)
    requires Good(d, hand, M) && d.current != []
    requires L <= N && Turn(L, M) == Turn(N, M) && Progress(d, L, id, st, M)
    requires next == d.timers[d.current[0]].value && next <= Tick(N, M)
    ensures Progress(ProcessExpired(d, next, Tick(N, M), M), N, id, st, M)
  {
    if id != d.current[0] {
      ProcessExpiredOthers(d, next, Tick(N, M), id, M);
      SameProgress(d, ProcessExpired(d, next, Tick(N, M), M), L, N, id, st, M);
    } else if st.autoReload {
      AutoReloadProgress(d, L, N, id, st, next, M);
    } else {
      OneShotProgress(d, L, N, id, st, next, M);
    }
  }

  lemma DrainStepProgress(d: Daemon, hand: set<nat>, end: nat, id: nat, st: Started, M: nat)
    requires Good(d, hand, M) && d.current != [] && Progress(d, end, id, st, M) && Tick(end, M) == LastTick(M)
    ensures Progress(DrainStep(d, M), end, id, st, M)
  {
    ProcessExpiredProgress(d, hand, end, end, id, st, d.timers[d.current[0]].value, M);
  }

  lemma {:induction false} DrainProgress(d: Daemon, hand: set<nat>, end: nat, id: nat, st: Started, M: nat)
    requires Good(d, hand, M) && Progress(d, end, id, st, M) && Tick(end, M) == LastTick(M)
    ensures Progress(Drain(d, M), end, id, st, M)
    decreases |d.current|
  {
    if d.current != [] {
      DrainStepProgress(d, hand, end, id, st, M);
      DrainStepKeeps(d, hand, M);
      DrainProgress(DrainStep(d, M), hand, end, id, st, M);
    }
  }

  // The last tick of the turn of time L.
  function TurnEnd(L: nat, M: nat): (end: nat)
    requires M > 0
    ensures Tick(end, M) == LastTick(M) && Turn(end, M) == Turn(L, M) && L <= end
  {
    LaterTick(L, M - 1 - Tick(L, M), M);
    L + (M - 1 - Tick(L, M))
  }

  // When the lists are switched the timers of the next turn become those of this one.
  lemma SwitchProgress(d: Daemon, hand: set<nat>, L: nat, N: nat, id: nat, st: Started, M: nat)
    requires Good(d, hand, M) && Progress(d, L, id, st, M) && Turn(N, M) == Turn(L, M) + 1
    ensures Progress(SwitchLists(d, M).(lastTime := Tick(N, M)), N, id, st, M)
  {
    hide Drain, Tick, Turn;
    var end := TurnEnd(L, M);
    SameProgress(d, d, L, end, id, st, M);
    DrainProgress(d, hand, end, id, st, M);
    EarlierTick(end, N, M);
    var d1 := Drain(d, M);
    var d2 := SwitchLists(d, M).(lastTime := Tick(N, M));
    assert d2 == d1.(current := d1.overflow, overflow := [], lastTime := Tick(N, M));
    assert forall x :: Listed(d2, x) <==> Listed(d1, x);
  }

  lemma SampleProgress(d: Daemon, hand: set<nat>, L: nat, N: nat, id: nat, st: Started, M: nat)
    requires Good(d, hand, M) && Progress(d, L, id, st, M) && d.lastTime == Tick(L, M) && L <= N < L + M
    ensures Tick(N, M) < d.lastTime <==> Turn(N, M) != Turn(L, M)
    ensures Progress(Sample(d, Tick(N, M), M), N, id, st, M)
  {
    hide SwitchLists, Progress, Tick, Turn;
    LaterTick(L, N - L, M);
    if Tick(N, M) < Tick(L, M) {
      SwitchProgress(d, hand, L, N, id, st, M);
    } else {
      SameProgress(d, d.(lastTime := Tick(N, M)), L, N, id, st, M);
    }
  }

  lemma TimerOrBlockProgress(d: Daemon, L: nat, N: nat, id: nat, st: Started, M: nat)
    requires Good(d, {}, M) && Progress(d, L, id, st, M) && d.lastTime == Tick(L, M) && L <= N < L + M
    ensures Progress(TimerOrBlock(d, Tick(N, M), M), N, id, st, M)
  {
    hide SwitchLists, Progress, Tick, Turn, ProcessExpired;
    var d1 := Sample(d, Tick(N, M), M);
    SampleProgress(d, {}, L, N, id, st, M);
    SampleKeeps(d, {}, Tick(N, M), M);
    if Tick(N, M) >= d.lastTime && d.current != [] && d.timers[d.current[0]].value <= Tick(N, M) {
      ProcessExpiredProgress(d1, {}, N, N, id, st, d.timers[d.current[0]].value, M);
    }
  }

  lemma ExecuteOthers(d: Daemon, c: Command, now: nat, x: nat, M: nat)
    requires Sane(d, M) && Proper(d, c, M) && now < M && x != c.id
    requires c.id !in d.current && c.id !in d.overflow
    ensures SameFor(d, Execute(d, c, now, M), x)
  {
    var id, t := c.id, d.timers[c.id];
    match c
    case Start(_, stamp) => StartOthers(d, id, stamp, now, x, M);
    case Stop(_) =>
    case ChangePeriod(_, period) =>
      var d1 := d.(timers := d.timers[id := t.(active := true, period := period)]);
      InsertOthers(d1, id, Plus(now, period, M), now, now, x, M);
    case Delete(_) =>
  }

  lemma StartOthers(d: Daemon, id: nat, stamp: nat, now: nat, x: nat, M: nat)
    requires Sane(d, M) && id in d.timers && now < M && stamp < M && x != id
    requires id !in d.current && id !in d.overflow
    ensures SameFor(d, Execute(d, Start(id, stamp), now, M), x)
  {
    var t := d.timers[id];
    var d1 := d.(timers := d.timers[id := t.(active := true)]);
    var expiry := Plus(stamp, t.period, M);
    var (d2, processNow) := Insert(d1, id, expiry, now, stamp, M);
    InsertOthers(d1, id, expiry, now, stamp, x, M);
    assert SameFor(d, d1, x);
    SameThrough(d, d1, d2, x);
    if processNow {
      if t.autoReload {
        var d3 := Reload(d2, id, expiry, now, M);
        ReloadOthers(d2, id, expiry, now, x, M);
        CalledOthers(d3, id, x);
        SameThrough(d, d2, d3, x);
        SameThrough(d, d3, Called(d3, id, 1), x);
      } else {
        var d3 := d2.(timers := d2.timers[id := d2.timers[id].(active := false)]);
        assert SameFor(d2, d3, x);
        CalledOthers(d3, id, x);
        SameThrough(d, d2, d3, x);
        SameThrough(d, d3, Called(d3, id, 1), x);
      }
    }
  }

  // Commands about other timers.
  lemma CommandProgress(d: Daemon, c: Command, L: nat, N: nat, id: nat, st: Started, M: nat)
    requires Good(d, {}, M) && Progress(d, L, id, st, M) && d.lastTime == Tick(L, M) && L <= N < L + M
    requires Proper(d, c, M) && c.id != id
    ensures Progress(ProcessCommand(d, c, Tick(N, M), M), N, id, st, M)
  {
    var d0 := TakenOff(d, c.id);
    var d1 := Sample(d0, Tick(N, M), M);
    TakenOffKeeps(d, c.id, M);
    assert SameFor(d, d0, id);
    SameProgress(d, d0, L, L, id, st, M);
    SampleProgress(d0, {c.id}, L, N, id, st, M);
    SampleKeeps(d0, {c.id}, Tick(N, M), M);
    assert !Listed(d1, c.id);
    ExecuteOthers(d1, c, Tick(N, M), id, M);
    SameProgress(d1, Execute(d1, c, Tick(N, M), M), N, N, id, st, M);
  }

  // ----- Starting a timer -----------------------------------------------------------------------

  // The three outcomes of a start command.
  lemma StartIs(d: Daemon, id: nat, stamp: nat, now: nat, expiry: nat, M: nat)
    returns (d1: Daemon, d2: Daemon, processNow: bool)
    requires Sane(d, M) && id in d.timers && now < M && stamp < M
    requires id !in d.current && id !in d.overflow && expiry == Plus(stamp, d.timers[id].period, M)
    ensures d1 == d.(timers := d.timers[id := d.timers[id].(active := true)])
    ensures Sane(d1, M) && Insert(d1, id, expiry, now, stamp, M) == (d2, processNow) && Sane(d2, M) && id in d2.timers
    ensures d2.timers[id].autoReload == d.timers[id].autoReload
    ensures Execute(d, Start(id, stamp), now, M) ==
            if !processNow then d2
            else if d.timers[id].autoReload then Called(Reload(d2, id, expiry, now, M), id, 1)
            else Called(d2.(timers := d2.timers[id := d2.timers[id].(active := false)]), id, 1)
  {
    d1 := d.(timers := d.timers[id := d.timers[id].(active := true)]);
    d2 := Insert(d1, id, expiry, now, stamp, M).0;
    processNow := Insert(d1, id, expiry, now, stamp, M).1;
  }

  lemma ExpiryTick(C: nat, period: nat, M: nat)
    requires 0 < period < M
    ensures Tick(C, M) < M && Tick(C + period, M) == Plus(Tick(C, M), period, M)
  {
    LaterTick(C, period, M);
  }

  lemma InHandIsSane(d: Daemon, id: nat, M: nat)
    requires Good(d, {id}, M) && id in d.timers
    ensures Sane(d, M) && !Listed(d, id) && 0 < d.timers[id].period < M
  {
  }

  // A command stamped C that is carried out at N, less than a turn later.
  lemma StartProgress(d: Daemon, id: nat, C: nat, N: nat, M: nat)
    requires Good(d, {id}, M) && id in d.timers && C <= N < C + M && M > 0
    ensures id !in d.current && id !in d.overflow
    ensures var st := Started(C, d.timers[id].period, d.timers[id].autoReload, CallsOf(d.calls, id));
            Progress(Execute(d, Start(id, Tick(C, M)), Tick(N, M), M), N, id, st, M)
  {
    hide Insert, Enlisted, Overrun, Reload, Execute, Progress, Good, Tick, Plus, Armed;
    InHandIsSane(d, id, M);
    var t := d.timers[id];
    var st := Started(C, t.period, t.autoReload, CallsOf(d.calls, id));
    var X := C + t.period;
    assert Multiple(st, 0) == C && Multiple(st, 1) == X;
    var x := Tick(X, M);
    ExpiryTick(C, t.period, M);
    ExpiryTick(N, t.period, M);
    var d1, d2, processNow := StartIs(d, id, Tick(C, M), Tick(N, M), x, M);
    var period := d1.timers[id].period;
    InsertArmsAt(d1, id, C, N, C + period, Tick(C, M), Tick(N, M), x, M);
    StartOutcome(d2, id, st, processNow, N, M);
  }

  lemma InsertArmsAt(d: Daemon, id: nat, C: nat, N: nat, X: nat, c: nat, n: nat, x: nat, M: nat)
    requires Sane(d, M) && id in d.timers && C <= N < C + M && X == C + d.timers[id].period
    requires c == Tick(C, M) && n == Tick(N, M) && x == Tick(X, M)
    ensures var (d', processNow) := Insert(d, id, x, n, c, M);
            && (processNow <==> X <= N)
            && (!processNow ==> Armed(d', N, id, X, M))
            && (processNow ==> d'.current == d.current && d'.overflow == d.overflow)
            && d'.timers[id] == d.timers[id].(value := x) && d'.calls == d.calls
  {
    InsertArms(d, id, C, N, M);
  }

  lemma StartOutcome(d2: Daemon, id: nat, st: Started, processNow: bool, N: nat, M: nat)
    requires Sane(d2, M) && id in d2.timers && CallsOf(d2.calls, id) == st.before && st.stamp <= N < st.stamp + M
    requires d2.timers[id].period == st.period && d2.timers[id].autoReload == st.autoReload
    requires processNow <==> Multiple(st, 1) <= N
    requires if processNow then !Listed(d2, id) else Armed(d2, N, id, Multiple(st, 1), M)
    ensures !processNow ==> Progress(d2, N, id, st, M)
    ensures processNow && st.autoReload ==>
              Progress(Called(Reload(d2, id, Tick(Multiple(st, 1), M), Tick(N, M), M), id, 1), N, id, st, M)
    ensures processNow && !st.autoReload ==>
              Progress(Called(d2.(timers := d2.timers[id := d2.timers[id].(active := false)]), id, 1), N, id, st, M)
  {
    assert Multiple(st, 0) == st.stamp;
    if processNow {
      if st.autoReload {
        StartReloads(d2, id, st, N, M);
      } else {
        OneShotDone(d2, id, st, N, M);
      }
    }
  }

  lemma OneShotDone(d: Daemon, id: nat, st: Started, N: nat, M: nat)
    requires id in d.timers && CallsOf(d.calls, id) == st.before && !Listed(d, id) && Multiple(st, 1) <= N
    requires d.timers[id].period == st.period && !d.timers[id].autoReload && !st.autoReload
    ensures Progress(Called(d.(timers := d.timers[id := d.timers[id].(active := false)]), id, 1), N, id, st, M)
  {
    MoreCalls(d.(timers := d.timers[id := d.timers[id].(active := false)]), id, 1, id);
  }

  lemma StartReloads(d: Daemon, id: nat, st: Started, N: nat, M: nat)
    requires Sane(d, M) && id in d.timers && d.timers[id].period == st.period && st.autoReload
    requires d.timers[id].autoReload && CallsOf(d.calls, id) == st.before
    requires Multiple(st, 1) <= N < Multiple(st, 1) + M
    ensures Progress(Called(Reload(d, id, Tick(Multiple(st, 1), M), Tick(N, M), M), id, 1), N, id, st, M)
  {
    hide Reload, Tick, Turn;
    var j := ReloadCounts(d, id, st, 1, N, M);
    CalledAfter(d, Reload(d, id, Tick(Multiple(st, 1), M), Tick(N, M), M), id, st, 0, j, N, M);
  }

  // ----- Whole runs -------------------------------------------------------------------------------

  // A step of the daemon at absolute time `at`: a round without a command, or a command.
  datatype Step = Round(at: nat) | Do(at: nat, command: Command)

  function After(d: Daemon, step: Step, M: nat): (d': Daemon)
    requires Good(d, {}, M) && (step.Do? ==> Proper(d, step.command, M))
    ensures Good(d', {}, M)
  {
    match step
    case Round(at) =>
      TimerOrBlockKeeps(d, Tick(at, M), M);
      TimerOrBlock(d, Tick(at, M), M)
    case Do(at, command) =>
      ProcessCommandKeeps(d, command, Tick(at, M), M);
      ProcessCommand(d, command, Tick(at, M), M)
  }

  // From d at time L the steps lead to d' at time L'.  The daemon is never a whole turn late.
  ghost predicate Leads(d: Daemon, L: nat, steps: seq<Step>, d': Daemon, L': nat, M: nat)
    requires Good(d, {}, M)
    decreases |steps|
  {
    if steps == [] then d' == d && L' == L
    else
      && L <= steps[0].at < L + M && (steps[0].Do? ==> Proper(d, steps[0].command, M))
      && Leads(After(d, steps[0], M), steps[0].at, steps[1..], d', L', M)
  }

  lemma ClockFollows(d: Daemon, step: Step, M: nat)
    requires Good(d, {}, M) && (step.Do? ==> Proper(d, step.command, M)) && M > 0
    ensures After(d, step, M).lastTime == Tick(step.at, M)
  {
    match step
    case Round(at) =>
      SampleKeeps(d, {}, Tick(at, M), M);
      RoundClock(d, Tick(at, M), M);
    case Do(at, c) =>
      var d0 := TakenOff(d, c.id);
      TakenOffKeeps(d, c.id, M);
      SampleKeeps(d0, {c.id}, Tick(at, M), M);
      assert !Listed(Sample(d0, Tick(at, M), M), c.id);
  }

  lemma RoundClock(d: Daemon, now: nat, M: nat)
    requires Sane(d, M) && now < M
    ensures TimerOrBlock(d, now, M).lastTime == now
  {
  }

  lemma {:induction false} RunProgress(d: Daemon, L: nat, steps: seq<Step>, d': Daemon, L': nat, id: nat,
                                       st: Started, M: nat)
    requires Good(d, {}, M) && Progress(d, L, id, st, M) && d.lastTime == Tick(L, M) && M > 0
    requires Leads(d, L, steps, d', L', M)
    requires forall step :: step in steps && step.Do? ==> step.command.id != id
    ensures Good(d', {}, M) && Progress(d', L', id, st, M) && d'.lastTime == Tick(L', M)
    decreases |steps|
  {
    if steps != [] {
      var step := steps[0];
      var d1 := After(d, step, M);
      ClockFollows(d, step, M);
      match step {
        case Round(at) => TimerOrBlockProgress(d, L, at, id, st, M);
        case Do(at, command) => CommandProgress(d, command, L, at, id, st, M);
      }
      RunProgress(d1, step.at, steps[1..], d', L', id, st, M);
    }
  }

  // No timer of this turn is due any more; in this state the daemon waits.
  predicate NothingDue(d: Daemon) {
    d.current != [] ==> d.current[0] in d.timers && d.timers[d.current[0]].value > d.lastTime
  }

  lemma NoneDue(d: Daemon, L: nat, id: nat, X: nat, M: nat)
    requires Good(d, {}, M) && NothingDue(d) && d.lastTime == Tick(L, M) && Armed(d, L, id, X, M)
    ensures L < X
  {
    EarlierTick(L, X, M);
    if id in d.current {
      var i :| 0 <= i < |d.current| && d.current[i] == id;
      assert i > 0 ==> Keys(d.timers, d.current)[0] <= Keys(d.timers, d.current)[i];
    }
  }

  // A daemon that waits for a command wakes up no later than the next expiry time, and no later
  // than the counter wraps; it sleeps for ever only if no timer is active.
  lemma SleepsNoLonger(d: Daemon, N: nat, id: nat, X: nat, M: nat)
    requires Good(d, {}, M) && d.lastTime == Tick(N, M) && NothingDue(d) && Armed(d, N, id, X, M)
    ensures var sleep := SleepOf(d, Tick(N, M), M);
            && sleep.Asleep? && !sleep.forEver && N + sleep.ticks <= X
            && (sleep.ticks > 0 ==> Turn(N + sleep.ticks - 1, M) == Turn(N, M))
            && (d.current != [] ==> Armed(d, N, d.current[0], N + sleep.ticks, M))
  {
    var next, now := NextExpireTime(d, M), Tick(N, M);
    var ticks := Minus(next, now, M);
    LaterTick(N, ticks, M);
    if ticks > 0 {
      LaterTick(N, ticks - 1, M);
    }
    EarlierTick(X, N + ticks, M);
    if id in d.current {
      var i :| 0 <= i < |d.current| && d.current[i] == id;
      assert i > 0 ==> Keys(d.timers, d.current)[0] <= Keys(d.timers, d.current)[i];
    }
  }

  // ----- The daemon catches up --------------------------------------------------------------------

  // The timers of this turn whose time has come.
  function DueSet(d: Daemon, now: nat): set<nat> {
    set id | id in d.current && id in d.timers && d.timers[id].value <= now
  }

  lemma NothingDueIff(d: Daemon, M: nat)
    requires Good(d, {}, M)
    ensures NothingDue(d) <==> DueSet(d, d.lastTime) == {}
  {
    if d.current != [] {
      var head := d.current[0];
      assert DueSet(d, d.lastTime) == {} ==> head !in DueSet(d, d.lastTime);
      forall id | id in d.current && id in d.timers
        ensures d.timers[head].value <= d.timers[id].value
      {
        var i :| 0 <= i < |d.current| && d.current[i] == id;
        assert i > 0 ==> Keys(d.timers, d.current)[0] <= Keys(d.timers, d.current)[i];
      }
    }
  }

  // A timer that is put on the list of this turn is not due there.
  lemma InsertNotDue(d: Daemon, id: nat, expiry: nat, now: nat, command: nat, M: nat)
    requires Sane(d, M) && id in d.timers && expiry < M && now < M && command < M && id !in d.current
    ensures id !in DueSet(Insert(d, id, expiry, now, command, M).0, now)
  {
  }

  lemma ReloadNotDue(d: Daemon, id: nat, expired: nat, now: nat, M: nat)
    requires Sane(d, M) && id in d.timers && expired < M && now < M && id !in d.current
    ensures var d' := Reload(d, id, expired, now, M);
            id !in DueSet(d', now) && CallsOf(d'.calls, id) >= CallsOf(d.calls, id)
  {
    hide Insert, Overrun, Decide;
    var (n, last) := Overrun(expired, now, d.timers[id].period, M);
    InsertNotDue(Called(d, id, n), id, Plus(last, d.timers[id].period, M), now, last, M);
    InsertCalls(Called(d, id, n), id, Plus(last, d.timers[id].period, M), now, last, M);
    MoreCalls(d, id, n, id);
  }

  lemma InsertCalls(d: Daemon, id: nat, expiry: nat, now: nat, command: nat, M: nat)
    requires Sane(d, M) && id in d.timers && expiry < M && now < M && command < M
    ensures Insert(d, id, expiry, now, command, M).0.calls == d.calls
  {
  }

  // The first timer was called and is not due any more; the other timers are as before.
  ghost predicate HeadServed(d: Daemon, d': Daemon, now: nat) {
    && d.current != []
    && CallsOf(d'.calls, d.current[0]) > CallsOf(d.calls, d.current[0])
    && DueSet(d', now) == DueSet(d, now) - {d.current[0]}
    && forall x :: x != d.current[0] ==> SameFor(d, d', x)
  }

  lemma HeadIsServed(d: Daemon, now: nat, M: nat)
    requires Good(d, {}, M) && d.current != [] && d.timers[d.current[0]].value <= now < M
    ensures HeadServed(d, ProcessExpired(d, d.timers[d.current[0]].value, now, M), now)
  {
    hide Reload, ProcessExpired, CallsOf;
    var id := d.current[0];
    var next := d.timers[id].value;
    var d1, d' := d.(current := d.current[1..]), ProcessExpired(d, next, now, M);
    TailInOrder(d.timers, d.current);
    if d.timers[id].autoReload {
      var d2 := AutoReloadIs(d, id, next, now, M);
      ReloadNotDue(d2, id, next, now, M);
      MoreCalls(Reload(d2, id, next, now, M), id, 1, id);
    } else {
      OneShotIs(d, id, next, now, M);
    }
    forall x | x != id
      ensures SameFor(d, d', x)
    {
      ProcessExpiredOthers(d, next, now, x, M);
    }
    DueWithout(d, d', id, now);
  }

  lemma DueWithout(d: Daemon, d': Daemon, id: nat, now: nat)
    requires id !in DueSet(d', now) && forall x :: x != id ==> SameFor(d, d', x)
    ensures DueSet(d', now) == DueSet(d, now) - {id}
  {
    forall x
      ensures x in DueSet(d', now) <==> x in DueSet(d, now) - {id}
    {
      assert x != id ==> SameFor(d, d', x);
    }
  }

  lemma OneShotIs(d: Daemon, id: nat, next: nat, now: nat, M: nat)
    requires Sane(d, M) && d.current != [] && id == d.current[0] && !d.timers[id].autoReload && next < M && now < M
    requires id !in d.current[1..]
    ensures var d' := ProcessExpired(d, next, now, M);
            id !in DueSet(d', now) && CallsOf(d'.calls, id) == CallsOf(d.calls, id) + 1
  {
    MoreCalls(d.(current := d.current[1..], timers := d.timers[id := d.timers[id].(active := false)]), id, 1, id);
  }

  // A round of the daemon in the turn in which it last looked: if a timer is due, the first one is
  // called, at least once, is not due any more, and the others stay as they are.
  lemma RoundServes(d: Daemon, L: nat, N: nat, M: nat)
    requires Good(d, {}, M) && d.lastTime == Tick(L, M) && L <= N && Turn(N, M) == Turn(L, M) && M > 0
    requires DueSet(d, Tick(N, M)) != {}
    ensures HeadServed(d, After(d, Round(N), M), Tick(N, M))
  {
    hide ProcessExpired, DueSet, HeadServed, CallsOf;
    var now := Tick(N, M);
    EarlierTick(N, L, M);
    HeadIsDue(d, now, M);
    SampleKeeps(d, {}, now, M);
    var d0 := d.(lastTime := now);
    HeadIsServed(d0, now, M);
    assert After(d, Round(N), M) == ProcessExpired(d0, d.timers[d.current[0]].value, now, M);
    SameHead(d, now, After(d, Round(N), M));
  }

  lemma SameHead(d: Daemon, now: nat, d': Daemon)
    ensures HeadServed(d.(lastTime := now), d', now) ==> HeadServed(d, d', now)
  {
    var d0 := d.(lastTime := now);
    assert DueSet(d0, now) == DueSet(d, now);
    assert forall x :: SameFor(d0, d', x) <==> SameFor(d, d', x);
  }

  lemma HeadIsDue(d: Daemon, now: nat, M: nat)
    requires Good(d, {}, M) && DueSet(d, now) != {}
    ensures d.current != [] && d.timers[d.current[0]].value <= now && d.current[0] in DueSet(d, now)
  {
    var id :| id in DueSet(d, now);
    var i :| 0 <= i < |d.current| && d.current[i] == id;
    assert i > 0 ==> Keys(d.timers, d.current)[0] <= Keys(d.timers, d.current)[i];
  }

  // Repeated rounds at one time.
  function Rounds(N: nat, n: nat): seq<Step> {
    seq(n, i => Round(N))
  }

  lemma RoundFollows(d: Daemon, L: nat, N: nat, M: nat)
    requires Good(d, {}, M) && M > 0
    ensures var d1 := After(d, Round(N), M); Good(d1, {}, M) && d1.lastTime == Tick(N, M)
  {
    ClockFollows(d, Round(N), M);
  }

  // In one turn, one round for each timer that is due, and nothing is due any more.
  lemma {:induction false} RoundsServe(d: Daemon, N: nat, M: nat) returns (d': Daemon)
    requires Good(d, {}, M) && M > 0 && d.lastTime == Tick(N, M)
    ensures Leads(d, N, Rounds(N, |DueSet(d, Tick(N, M))|), d', N, M)
    ensures Good(d', {}, M) && NothingDue(d') && d'.lastTime == Tick(N, M)
    decreases |DueSet(d, Tick(N, M))|
  {
    hide After, Good, NothingDue, Tick;
    var due := DueSet(d, Tick(N, M));
    NothingDueIff(d, M);
    d' := d;
    if due != {} {
      var d1 := After(d, Round(N), M);
      RoundServes(d, N, N, M);
      RoundFollows(d, N, N, M);
      HeadLeaves(d, d1, Tick(N, M), M);
      d' := RoundsServe(d1, N, M);
      assert Rounds(N, |due|)[0] == Round(N) && Rounds(N, |due|)[1..] == Rounds(N, |due| - 1);
    }
  }

  lemma HeadLeaves(d: Daemon, d1: Daemon, now: nat, M: nat)
    requires Good(d, {}, M) && DueSet(d, now) != {} && HeadServed(d, d1, now)
    ensures |DueSet(d1, now)| == |DueSet(d, now)| - 1
  {
    HeadIsDue(d, now, M);
    assert d.current[0] in DueSet(d, now);
  }

  // From any state, whether the counter wrapped or not, a finite number of rounds at one time
  // leaves nothing due.
  lemma DaemonCatchesUp(d: Daemon, L: nat, N: nat, M: nat) returns (n: nat, d': Daemon)
    requires Good(d, {}, M) && M > 0 && d.lastTime == Tick(L, M) && L <= N < L + M
    ensures Leads(d, L, Rounds(N, n), d', N, M) && Good(d', {}, M) && NothingDue(d') && d'.lastTime == Tick(N, M)
  {
    hide After, Good, NothingDue, Tick;
    var d1 := After(d, Round(N), M);
    RoundFollows(d, L, N, M);
    d' := RoundsServe(d1, N, M);
    n := |DueSet(d1, Tick(N, M))| + 1;
    assert Rounds(N, n)[0] == Round(N) && Rounds(N, n)[1..] == Rounds(N, n - 1);
  }

  // The daemon does not wait for a command while a timer is due, nor when it just switched lists.
  lemma AwakeIff(d: Daemon, L: nat, N: nat, M: nat)
    requires Good(d, {}, M) && M > 0 && d.lastTime == Tick(L, M) && L <= N < L + M
    ensures SleepOf(d, Tick(N, M), M).Awake? <==> Turn(N, M) != Turn(L, M) || DueSet(d, Tick(N, M)) != {}
  {
    hide Good;
    LaterTick(L, N - L, M);
    if DueSet(d, Tick(N, M)) != {} {
      HeadIsDue(d, Tick(N, M), M);
    }
    HeadInDue(d, Tick(N, M), M);
  }

  lemma HeadInDue(d: Daemon, now: nat, M: nat)
    requires Good(d, {}, M)
    ensures d.current != [] ==> d.current[0] in d.timers
    ensures d.current != [] && d.timers[d.current[0]].value <= now ==> d.current[0] in DueSet(d, now)
  {
    if d.current != [] {
      assert d.current[0] in d.current;
    }
  }

  // The number of callbacks that a timer started at C owes at time L.
  function Owed(C: nat, period: nat, autoReload: bool, L: nat): nat
    requires C <= L && period > 0
  {
    if autoReload then (L - C) / period else if C + period <= L then 1 else 0
  }

  // At time L a started timer was called as often as it is owed.  If more is to come it is on the
  // list of the right turn for the next multiple of its period, otherwise on no list.
  ghost predicate Served(d: Daemon, id: nat, st: Started, L: nat, M: nat) {
    && st.stamp <= L && st.period > 0
    && var n := Owed(st.stamp, st.period, st.autoReload, L);
       && CallsOf(d.calls, id) == st.before + n
       && if st.autoReload || n == 0 then Armed(d, L, id, st.stamp + (n + 1) * st.period, M) else !Listed(d, id)
  }

  lemma ProgressIsServed(d: Daemon, L: nat, id: nat, st: Started, M: nat)
    requires Good(d, {}, M) && NothingDue(d) && d.lastTime == Tick(L, M) && Progress(d, L, id, st, M)
    requires st.period > 0
    ensures Served(d, id, st, L, M)
  {
    hide Good, NothingDue, Tick, Turn, Armed, Listed, Owed;
    var k := CallsOf(d.calls, id) - st.before;
    if st.autoReload || k == 0 {
      NoneDue(d, L, id, Multiple(st, k + 1), M);
    }
    OwedIs(st, k, L);
  }

  lemma OwedIs(st: Started, k: nat, L: nat)
    requires st.period > 0 && Multiple(st, k) <= L && (st.autoReload || k <= 1)
    requires st.autoReload || k == 0 ==> L < Multiple(st, k + 1)
    ensures st.stamp <= L && Owed(st.stamp, st.period, st.autoReload, L) == k
    ensures Multiple(st, k + 1) == st.stamp + (k + 1) * st.period
  {
    MultiplesGrow(st, 0, k);
    MultipleIs(st, k);
    MultipleIs(st, k + 1);
    if st.autoReload {
      Quotient(L - st.stamp, st.period, k);
    }
  }

  lemma Quotient(x: nat, p: nat, k: nat)
    requires p > 0 && k * p <= x < (k + 1) * p
    ensures x / p == k
  {
    assert (k + 1) * p == k * p + p;
    Unique(p, k, x - k * p, x);
  }

  // A timer started with stamp C and then left alone: whatever else the daemon is told, and
  // however often the counter wraps meanwhile, once the daemon has caught up at time L an
  // auto-reload timer was called exactly (L - C) / period times, and a one-shot timer once if
  // its time has come.  A timer that is still to be called is on the list of the right turn for
  // the next multiple of its period.
  lemma CallbackCount(d: Daemon, L0: nat, id: nat, C: nat, N: nat, steps: seq<Step>, d': Daemon, L: nat, M: nat)
    requires Good(d, {}, M) && d.lastTime == Tick(L0, M) && id in d.timers && M > 0
    requires L0 <= N < L0 + M && C <= N < C + M
    requires Leads(After(d, Do(N, Start(id, Tick(C, M))), M), N, steps, d', L, M)
    requires forall step :: step in steps && step.Do? ==> step.command.id != id
    requires NothingDue(d')
    ensures var t := d.timers[id];
            Served(d', id, Started(C, t.period, t.autoReload, CallsOf(d.calls, id)), L, M)
  {
    var st := Started(C, d.timers[id].period, d.timers[id].autoReload, CallsOf(d.calls, id));
    StartBegins(d, L0, id, C, N, M);
    ClockFollows(d, Do(N, Start(id, Tick(C, M))), M);
    RunProgress(After(d, Do(N, Start(id, Tick(C, M))), M), N, steps, d', L, id, st, M);
    ProgressIsServed(d', L, id, st, M);
  }

  // A start command is where the count begins, whatever happened to the timer before.
  lemma StartBegins(d: Daemon, L0: nat, id: nat, C: nat, N: nat, M: nat)
    requires Good(d, {}, M) && d.lastTime == Tick(L0, M) && id in d.timers && M > 0
    requires L0 <= N < L0 + M && C <= N < C + M
    ensures var st := Started(C, d.timers[id].period, d.timers[id].autoReload, CallsOf(d.calls, id));
            Progress(After(d, Do(N, Start(id, Tick(C, M))), M), N, id, st, M)
  {
    var d0 := TakenOff(d, id);
    var d1 := Sample(d0, Tick(N, M), M);
    TakenOffKeeps(d, id, M);
    SampleKeeps(d0, {id}, Tick(N, M), M);
    InHandUntouched(d0, id, Tick(N, M), M);
    StartProgress(d1, id, C, N, M);
  }

  // A change of the period starts the timer with the new one, from the time of the command on.
  lemma PeriodBegins(d: Daemon, L0: nat, id: nat, period: nat, N: nat, M: nat)
    requires Good(d, {}, M) && d.lastTime == Tick(L0, M) && id in d.timers && L0 <= N < L0 + M && 0 < period < M
    ensures var st := Started(N, period, d.timers[id].autoReload, CallsOf(d.calls, id));
            Progress(After(d, Do(N, ChangePeriod(id, period)), M), N, id, st, M)
  {
    hide Insert, Enlisted, Overrun, Reload, Progress, ProcessExpired, SwitchLists;
    var d0 := TakenOff(d, id);
    var d1 := Sample(d0, Tick(N, M), M);
    TakenOffKeeps(d, id, M);
    SampleKeeps(d0, {id}, Tick(N, M), M);
    InHandUntouched(d0, id, Tick(N, M), M);
    assert !Listed(d1, id);
    PeriodProgress(d1, id, period, N, M);
  }

  lemma PeriodIs(d: Daemon, id: nat, period: nat, now: nat, M: nat) returns (d1: Daemon)
    requires Good(d, {id}, M) && id in d.timers && 0 < period < M && now < M
    requires id !in d.current && id !in d.overflow
    ensures Sane(d1, M) && d1 == d.(timers := d1.timers) && id in d1.timers && d1.timers[id].period == period
    ensures d1.timers[id].autoReload == d.timers[id].autoReload
    ensures Execute(d, ChangePeriod(id, period), now, M) == Insert(d1, id, Plus(now, period, M), now, now, M).0
  {
    hide Insert, Plus;
    d1 := d.(timers := d.timers[id := d.timers[id].(active := true, period := period)]);
  }

  lemma PeriodProgress(d: Daemon, id: nat, period: nat, N: nat, M: nat)
    requires Good(d, {id}, M) && id in d.timers && 0 < period < M && id !in d.current && id !in d.overflow
    ensures var st := Started(N, period, d.timers[id].autoReload, CallsOf(d.calls, id));
            Progress(Execute(d, ChangePeriod(id, period), Tick(N, M), M), N, id, st, M)
  {
    hide Insert, Execute, Armed, Good;
    var st := Started(N, period, d.timers[id].autoReload, CallsOf(d.calls, id));
    var d1 := PeriodIs(d, id, period, Tick(N, M), M);
    LaterTick(N, period, M);
    InsertArmsAt(d1, id, N, N, N + period, Tick(N, M), Tick(N, M), Tick(N + period, M), M);
    assert Multiple(st, 0) == N && Multiple(st, 1) == N + period;
  }

  // From a start or a change of the period on the count is exact whenever the daemon caught up,
  // and a finite number of rounds is enough for that.
  lemma EventuallyServed(d: Daemon, L: nat, steps: seq<Step>, d1: Daemon, L1: nat, N: nat, id: nat, st: Started, M: nat)
    returns (n: nat, d': Daemon)
    requires Good(d, {}, M) && Progress(d, L, id, st, M) && d.lastTime == Tick(L, M) && M > 0 && st.period > 0
    requires Leads(d, L, steps, d1, L1, M) && L1 <= N < L1 + M
    requires forall step :: step in steps && step.Do? ==> step.command.id != id
    ensures Good(d1, {}, M) && Leads(d1, L1, Rounds(N, n), d', N, M) && Served(d', id, st, N, M)
  {
    hide Good, Progress, Served, NothingDue, Tick;
    RunProgress(d, L, steps, d1, L1, id, st, M);
    n, d' := DaemonCatchesUp(d1, L1, N, M);
    RunProgress(d1, L1, Rounds(N, n), d', N, id, st, M);
    ProgressIsServed(d', N, id, st, M);
  }

  // A timer on neither list stays as it is until a command about it comes.
  lemma UnlistedStep(d: Daemon, step: Step, id: nat, M: nat)
    requires Good(d, {}, M) && (step.Do? ==> Proper(d, step.command, M) && step.command.id != id)
    requires !Listed(d, id) && M > 0
    ensures SameFor(d, After(d, step, M), id) && !Listed(After(d, step, M), id)
  {
    hide ProcessExpired, SwitchLists, Execute, CallsOf;
    var now := Tick(step.at, M);
    match step
    case Round(at) =>
      SampleUntouched(d, {}, id, now, M);
      SampleKeeps(d, {}, now, M);
      if now >= d.lastTime && d.current != [] && d.timers[d.current[0]].value <= now {
        assert d.current[0] != id;
        ProcessExpiredOthers(Sample(d, now, M), d.timers[d.current[0]].value, now, id, M);
        SameThrough(d, Sample(d, now, M), After(d, step, M), id);
      }
    case Do(at, c) =>
      var d0 := TakenOff(d, c.id);
      TakenOffKeeps(d, c.id, M);
      assert SameFor(d, d0, id);
      SampleUntouched(d0, {c.id}, id, now, M);
      SampleKeeps(d0, {c.id}, now, M);
      var d1 := Sample(d0, now, M);
      assert !Listed(d1, c.id);
      ExecuteOthers(d1, c, now, id, M);
      SameThrough(d, d0, d1, id);
      SameThrough(d, d1, Execute(d1, c, now, M), id);
  }

  lemma {:induction false} UnlistedThrough(d: Daemon, L: nat, steps: seq<Step>, d': Daemon, L': nat, id: nat, M: nat)
    requires Good(d, {}, M) && !Listed(d, id) && M > 0 && Leads(d, L, steps, d', L', M)
    requires forall step :: step in steps && step.Do? ==> step.command.id != id
    ensures SameFor(d, d', id) && !Listed(d', id)
    decreases |steps|
  {
    hide After, Good, SameFor, Listed;
    if steps != [] {
      var d1 := After(d, steps[0], M);
      UnlistedStep(d, steps[0], id, M);
      UnlistedThrough(d1, steps[0].at, steps[1..], d', L', id, M);
      SameThrough(d, d1, d', id);
    } else {
      SameAsItself(d, id);
    }
  }

  lemma SameAsItself(d: Daemon, id: nat)
    ensures SameFor(d, d, id)
  {
  }

  // A timer that was stopped is inactive and is not called until a command about it comes, and a
  // deleted one that was allocated dynamically is gone.
  lemma StopSilences(d: Daemon, N: nat, c: Command, steps: seq<Step>, d': Daemon, L: nat, M: nat)
    requires Good(d, {}, M) && M > 0 && Proper(d, c, M) && (c.Stop? || c.Delete?)
    requires Leads(After(d, Do(N, c), M), N, steps, d', L, M)
    requires forall step :: step in steps && step.Do? ==> step.command.id != c.id
    ensures CallsOf(d'.calls, c.id) == CallsOf(d.calls, c.id) && !Listed(d', c.id)
    ensures c.id in d'.timers <==> c.Stop? || d.timers[c.id].isStatic
    ensures c.id in d'.timers ==> d'.timers[c.id] == d.timers[c.id].(active := false)
  {
    var d0, now := TakenOff(d, c.id), Tick(N, M);
    var d1 := After(d, Do(N, c), M);
    TakenOffKeeps(d, c.id, M);
    SampleKeeps(d0, {c.id}, now, M);
    InHandUntouched(d0, c.id, now, M);
    assert !Listed(Sample(d0, now, M), c.id);
    UnlistedThrough(d1, N, steps, d', L, c.id, M);
  }

  // Switching the lists does nothing to a timer that is on neither.
  lemma {:induction false} DrainUntouched(d: Daemon, hand: set<nat>, id: nat, M: nat)
    requires Good(d, hand, M) && !Listed(d, id)
    ensures SameFor(d, Drain(d, M), id) && !Listed(Drain(d, M), id)
    decreases |d.current|
  {
    if d.current != [] {
      assert Listed(d, d.current[0]);
      DrainStepKeeps(d, hand, M);
      ProcessExpiredOthers(d, d.timers[d.current[0]].value, LastTick(M), id, M);
      DrainUntouched(DrainStep(d, M), hand, id, M);
      SameThrough(d, DrainStep(d, M), Drain(d, M), id);
    }
  }

  lemma SampleUntouched(d: Daemon, hand: set<nat>, id: nat, now: nat, M: nat)
    requires Good(d, hand, M) && !Listed(d, id) && now < M
    ensures SameFor(d, Sample(d, now, M), id) && !Listed(Sample(d, now, M), id)
  {
    DrainUntouched(d, hand, id, M);
  }

  lemma InHandUntouched(d: Daemon, id: nat, now: nat, M: nat)
    requires Good(d, {id}, M) && now < M && id in d.timers
    ensures var d' := Sample(d, now, M);
            id in d'.timers && d'.timers[id] == d.timers[id] && CallsOf(d'.calls, id) == CallsOf(d.calls, id)
  {
    SampleUntouched(d, {id}, id, now, M);
  }

  // ----- The daemon in place ------------------------------------------------------------------------

  // A new period counts from now on, so its first expiry time is always ahead.
  lemma NewPeriodIsAhead(now: nat, period: nat, M: nat)
    requires now < M && 0 < period < M
    ensures Decide(Plus(now, period, M), now, now, period, M) != Now
  {
  }

  // The reload loop one round at a time.
  lemma ReloadUnrolls(d: Daemon, id: nat, expired: nat, now: nat, M: nat)
    returns (d1: Daemon, processNow: bool, next: nat)
    requires Sane(d, M) && id in d.timers && expired < M && now < M
    ensures next == Plus(expired, d.timers[id].period, M)
    ensures Insert(d, id, next, now, expired, M) == (d1, processNow) && Sane(d1, M) && id in d1.timers
    ensures Reload(d, id, expired, now, M) == if processNow then Reload(Called(d1, id, 1), id, next, now, M) else d1
    ensures processNow ==> Minus(now, next, M) < Minus(now, expired, M)
    ensures d1.timers[id].period == d.timers[id].period
  {
    hide Enlisted;
    next := Plus(expired, d.timers[id].period, M);
    d1 := Insert(d, id, next, now, expired, M).0;
    processNow := Insert(d, id, next, now, expired, M).1;
    var n := Overrun(expired, now, d.timers[id].period, M).0;
    if processNow {
      assert Overrun(expired, now, d.timers[id].period, M).1 == Overrun(next, now, d.timers[id].period, M).1;
      CalledTwice(d, d1, id, n - 1);
      var t := d.timers[id];
      var v := Plus(Overrun(expired, now, t.period, M).1, t.period, M);
      assert d1.timers[id := t.(value := v)] == d.timers[id := t.(value := v)];
    } else {
      assert Called(d, id, 0) == d;
    }
  }

  lemma CalledTwice(d: Daemon, d1: Daemon, id: nat, n: nat)
    requires d1.calls == d.calls
    ensures Called(Called(d1, id, 1), id, n).calls == Called(d, id, n + 1).calls
  {
  }

  class TimerDaemon {
    const M: nat
    var timers: map<nat, Timer>
    var pxCurrentTimerList: seq<nat>
    var pxOverflowTimerList: seq<nat>
    var xLastTime: nat
    var calls: seq<nat>

    ghost function View(): Daemon
      reads this
    {
      Daemon(timers, pxCurrentTimerList, pxOverflowTimerList, xLastTime, calls)
    }

    ghost predicate Valid()
      reads this
    {
      Good(View(), {}, M)
    }

    constructor (M: nat)
      requires M > 0
      ensures Valid() && timers == map[] && xLastTime == 0 && calls == [] && this.M == M
    {
      this.M := M;
      timers, pxCurrentTimerList, pxOverflowTimerList, xLastTime, calls := map[], [], [], 0, [];
    }

    method Callback(id: nat)
      modifies this`calls
      ensures View() == Called(old(View()), id, 1)
    {
      calls := calls + [id];
    }

    // prvInsertTimerInActiveList
    method InsertTimerInActiveList(id: nat, xNextExpiryTime: nat, xTimeNow: nat, xCommandTime: nat)
      returns (xProcessTimerNow: bool)
      requires Sane(View(), M) && id in timers && xNextExpiryTime < M && xTimeNow < M && xCommandTime < M
      modifies this`timers, this`pxCurrentTimerList, this`pxOverflowTimerList
      ensures (View(), xProcessTimerNow) == Insert(old(View()), id, xNextExpiryTime, xTimeNow, xCommandTime, M)
    {
      xProcessTimerNow := false;
      timers := timers[id := timers[id].(value := xNextExpiryTime)];
      if xNextExpiryTime <= xTimeNow {
        if Minus(xTimeNow, xCommandTime, M) >= timers[id].period {
          xProcessTimerNow := true;
        } else {
          pxOverflowTimerList := Enlisted(timers, pxOverflowTimerList, id);
        }
      } else {
        if xTimeNow < xCommandTime && xNextExpiryTime >= xCommandTime {
          xProcessTimerNow := true;
        } else {
          pxCurrentTimerList := Enlisted(timers, pxCurrentTimerList, id);
        }
      }
    }

    // prvReloadTimer
    method ReloadTimer(id: nat, expired: nat, xTimeNow: nat)
      requires Sane(View(), M) && id in timers && expired < M && xTimeNow < M
      modifies this`timers, this`pxCurrentTimerList, this`pxOverflowTimerList, this`calls
      ensures View() == Reload(old(View()), id, expired, xTimeNow, M)
    {
      hide Insert, Overrun, Enlisted;
      var xExpiredTime: nat := expired;
      ghost var d := View();
      ghost var d1, more, next := ReloadUnrolls(d, id, xExpiredTime, xTimeNow, M);
      var processNow := InsertTimerInActiveList(id, Plus(xExpiredTime, timers[id].period, M), xTimeNow, xExpiredTime);
      while processNow
        invariant Sane(View(), M) && id in timers && xExpiredTime < M
        invariant processNow ==>
                    Minus(xTimeNow, Plus(xExpiredTime, timers[id].period, M), M) < Minus(xTimeNow, xExpiredTime, M)
        invariant Reload(d, id, expired, xTimeNow, M) ==
                  if processNow then
                    Reload(Called(View(), id, 1), id, Plus(xExpiredTime, timers[id].period, M), xTimeNow, M)
                  else View()
        decreases Minus(xTimeNow, xExpiredTime, M)
      {
        xExpiredTime := Plus(xExpiredTime, timers[id].period, M);
        Callback(id);
        d1, more, next := ReloadUnrolls(View(), id, xExpiredTime, xTimeNow, M);
        processNow := InsertTimerInActiveList(id, Plus(xExpiredTime, timers[id].period, M), xTimeNow, xExpiredTime);
      }
    }

    // prvProcessExpiredTimer
    method ProcessExpiredTimer(xNextExpireTime: nat, xTimeNow: nat)
      requires Sane(View(), M) && pxCurrentTimerList != [] && xNextExpireTime < M && xTimeNow < M
      modifies this`timers, this`pxCurrentTimerList, this`pxOverflowTimerList, this`calls
      ensures View() == ProcessExpired(old(View()), xNextExpireTime, xTimeNow, M)
    {
      var id := pxCurrentTimerList[0];
      pxCurrentTimerList := pxCurrentTimerList[1..];
      if timers[id].autoReload {
        ReloadTimer(id, xNextExpireTime, xTimeNow);
      } else {
        timers := timers[id := timers[id].(active := false)];
      }
      Callback(id);
    }

    // prvSwitchTimerLists
    method SwitchTimerLists()
      requires Sane(View(), M)
      modifies this`timers, this`pxCurrentTimerList, this`pxOverflowTimerList, this`calls
      ensures View() == SwitchLists(old(View()), M)
    {
      ghost var d := View();
      while pxCurrentTimerList != []
        invariant Sane(View(), M) && Drain(View(), M) == Drain(d, M)
        decreases |pxCurrentTimerList|
      {
        var xNextExpireTime := timers[pxCurrentTimerList[0]].value;
        ProcessExpiredTimer(xNextExpireTime, LastTick(M));
      }
      pxCurrentTimerList, pxOverflowTimerList := pxOverflowTimerList, pxCurrentTimerList;
    }

    // prvSampleTimeNow; the tick count is read by the caller
    method SampleTimeNow(xTimeNow: nat) returns (switched: bool)
      requires Sane(View(), M) && xTimeNow < M
      modifies this
      ensures View() == Sample(old(View()), xTimeNow, M) && switched == (xTimeNow < old(xLastTime))
    {
      switched := xTimeNow < xLastTime;
      if switched {
        SwitchTimerLists();
      }
      xLastTime := xTimeNow;
    }

    // prvGetNextExpireTime
    method GetNextExpireTime() returns (xNextExpireTime: nat, xListWasEmpty: bool)
      requires Sane(View(), M)
      ensures xNextExpireTime == NextExpireTime(View(), M) && xListWasEmpty == (pxCurrentTimerList == [])
    {
      xListWasEmpty := pxCurrentTimerList == [];
      if !xListWasEmpty {
        xNextExpireTime := timers[pxCurrentTimerList[0]].value;
      } else {
        xNextExpireTime := 0;
      }
    }

    // One round of prvTimerTask up to the commands; the result is the call of
    // vQueueWaitForMessageRestricted, if it is reached.
    method ProcessTimerOrBlock(xTimeNow: nat) returns (sleep: Sleep)
      requires Valid() && xTimeNow < M
      modifies this
      ensures Valid() && View() == TimerOrBlock(old(View()), xTimeNow, M)
      ensures sleep == SleepOf(old(View()), xTimeNow, M)
    {
      hide ProcessExpired, SwitchLists;
      TimerOrBlockKeeps(View(), xTimeNow, M);
      var xNextExpireTime, listWasEmpty := GetNextExpireTime();
      var xListWasEmpty := listWasEmpty;
      var switched := SampleTimeNow(xTimeNow);
      sleep := Awake;
      if !switched {
        if !xListWasEmpty && xNextExpireTime <= xTimeNow {
          ProcessExpiredTimer(xNextExpireTime, xTimeNow);
        } else {
          if xListWasEmpty {
            xListWasEmpty := pxOverflowTimerList == [];
          }
          sleep := Asleep(Minus(xNextExpireTime, xTimeNow, M), xListWasEmpty);
        }
      }
    }

    // One round of the loop in prvProcessReceivedCommands
    method ReceiveCommand(c: Command, xTimeNow: nat)
      requires Valid() && Proper(View(), c, M) && xTimeNow < M
      modifies this
      ensures Valid() && View() == ProcessCommand(old(View()), c, xTimeNow, M)
    {
      ghost var d := View();
      ProcessCommandKeeps(d, c, xTimeNow, M);
      TakenOffKeeps(d, c.id, M);
      pxCurrentTimerList := Without(pxCurrentTimerList, c.id);
      pxOverflowTimerList := Without(pxOverflowTimerList, c.id);
      var _ := SampleTimeNow(xTimeNow);
      SampleKeeps(TakenOff(d, c.id), {c.id}, xTimeNow, M);
      assert !Listed(View(), c.id);
      CarryOut(c, xTimeNow);
    }

    // tmrCOMMAND_START and tmrCOMMAND_RESET
    method StartTimer(id: nat, stamp: nat, xTimeNow: nat)
      requires Sane(View(), M) && id in timers && stamp < M && xTimeNow < M
      requires id !in pxCurrentTimerList && id !in pxOverflowTimerList
      modifies this`timers, this`pxCurrentTimerList, this`pxOverflowTimerList, this`calls
      ensures View() == Execute(old(View()), Start(id, stamp), xTimeNow, M)
    {
      hide Insert, Reload, Enlisted, Overrun, Decide;
      timers := timers[id := timers[id].(active := true)];
      var expiry := Plus(stamp, timers[id].period, M);
      ghost var d1, d2, more := StartIs(old(View()), id, stamp, xTimeNow, expiry, M);
      var processNow := InsertTimerInActiveList(id, expiry, xTimeNow, stamp);
      assert View() == d2 && processNow == more;
      if processNow {
        if timers[id].autoReload {
          ReloadTimer(id, expiry, xTimeNow);
        } else {
          timers := timers[id := timers[id].(active := false)];
        }
        Callback(id);
      }
    }

    // The switch on the command
    method CarryOut(c: Command, xTimeNow: nat)
      requires Sane(View(), M) && Proper(View(), c, M) && xTimeNow < M
      requires c.id !in pxCurrentTimerList && c.id !in pxOverflowTimerList
      modifies this`timers, this`pxCurrentTimerList, this`pxOverflowTimerList, this`calls
      ensures View() == Execute(old(View()), c, xTimeNow, M)
    {
      hide Insert, Reload, Enlisted, Overrun, Decide;
      var id := c.id;
      match c {
        case Start(_, stamp) =>
          StartTimer(id, stamp, xTimeNow);
        case Stop(_) =>
          timers := timers[id := timers[id].(active := false)];
        case ChangePeriod(_, period) =>
          timers := timers[id := timers[id].(active := true)];
          timers := timers[id := timers[id].(period := period)];
          assert timers == old(timers)[id := old(timers[id]).(active := true, period := period)];
          var _ := InsertTimerInActiveList(id, Plus(xTimeNow, timers[id].period, M), xTimeNow, xTimeNow);
        case Delete(_) =>
          if timers[id].isStatic {
            timers := timers[id := timers[id].(active := false)];
          } else {
            timers := timers - {id};
          }
      }
    }
  }
}
