/**
 The lists a task's state item can be on, and moving tasks between them.  Every list is a
 ring (see Rings and KernelList); the container of an item names the list it is on.
 */
module TaskLists {
  import opened Rings

  type Task = nat

  // pxReadyTasksLists[], xDelayedTaskList1 and 2, xSuspendedTaskList, xTasksWaitingTermination
  datatype ListId = Ready(priority: nat) | DelayOne | DelayTwo | SuspendedList | Termination

  datatype Container = Nowhere | In(list: ListId)

  // All lists with the container and item value of every task's state item.
  datatype Lists = Lists(rings: map<ListId, Ring<Task>>, container: map<Task, Container>, value: map<Task, nat>)

  // The functions below are total, to be used without ado; on data that no kernel function
  // leaves behind they do nothing.
  function Items(x: Lists, l: ListId): seq<Task> {
    if l in x.rings then x.rings[l].items else []
  }

  function ContainerOf(x: Lists, t: Task): Container {
    if t in x.container then x.container[t] else Nowhere
  }

  function ValueOf(value: map<Task, nat>, t: Task): nat {
    if t in value then value[t] else 0
  }

  // A task is on a list if and only if its item says so; so it is on at most one, once.
  ghost predicate Consistent(x: Lists) {
    && (forall l :: l in x.rings ==> Ok(x.rings[l]))
    && (forall l, t {:trigger t in Items(x, l)} {:trigger ContainerOf(x, t), In(l)} ::
          t in Items(x, l) <==> ContainerOf(x, t) == In(l))
    && x.container.Keys == x.value.Keys
  }

  // uxListRemove of a task's state item
  function Unlink(x: Lists, t: Task): (y: Lists)
    ensures y.value == x.value
  {
    var from := ContainerOf(x, t);
    if from.In? && t in Items(x, from.list) then
      Lists(x.rings[from.list := RemoveAt(x.rings[from.list], IndexOf(Items(x, from.list), t))],
            x.container[t := Nowhere], x.value)
    else x
  }

  // The item becomes the k-th of list l.
  function LinkAt(x: Lists, l: ListId, k: nat, t: Task): (y: Lists)
    ensures y.value == x.value
  {
    if l in x.rings && k <= |Items(x, l)| then
      Lists(x.rings[l := InsertAt(x.rings[l], k, t)], x.container[t := In(l)], x.value)
    else x
  }

  // vListInsertEnd: in front of where the index of the list points
  function EndPlace(r: Ring<Task>): nat {
    if r.pos == 0 then |r.items| else r.pos - 1
  }

  function LinkEnd(x: Lists, l: ListId, t: Task): (y: Lists)
    ensures y.value == x.value
  {
    if l in x.rings then LinkAt(x, l, EndPlace(x.rings[l]), t) else x
  }

  function Keys(value: map<Task, nat>, s: seq<Task>): (ks: seq<nat>)
    ensures |ks| == |s| && forall i :: 0 <= i < |s| ==> ks[i] == ValueOf(value, s[i])
  {
    seq(|s|, i requires 0 <= i < |s| => ValueOf(value, s[i]))
  }

  // vListInsert
  function LinkSorted(x: Lists, l: ListId, t: Task): (y: Lists)
    ensures y.value == x.value
  {
    LinkAt(x, l, SortedPlace(Keys(x.value, Items(x, l)), ValueOf(x.value, t)), t)
  }

  // The values along the list do not go down.
  ghost predicate InOrder(x: Lists, l: ListId) {
    l in x.rings && Sorted(Keys(x.value, Items(x, l)))
  }

  // ----- What taking off and putting on do ---------------------------------------------

  lemma RemoveMembers(s: seq<Task>, k: nat)
    requires Distinct(s) && k < |s|
    ensures Distinct(s[..k] + s[k + 1..]) && forall u :: u in s[..k] + s[k + 1..] <==> u in s && u != s[k]
  {
    var r := s[..k] + s[k + 1..];
    forall u
      ensures u in r <==> u in s && u != s[k]
    {
      if u in s && u != s[k] {
        var i :| 0 <= i < |s| && s[i] == u;
        assert r[if i < k then i else i - 1] == u;
      }
    }
  }

  lemma InsertMembers(s: seq<Task>, k: nat, t: Task)
    requires Distinct(s) && k <= |s| && t !in s
    ensures Distinct(s[..k] + [t] + s[k..]) && forall u :: u in s[..k] + [t] + s[k..] <==> u in s || u == t
  {
    var r := s[..k] + [t] + s[k..];
    assert s == s[..k] + s[k..];
  }

  // One ring and one container change together.
  lemma Rewritten(x: Lists, y: Lists, t: Task, l: ListId, to: Container)
    requires Consistent(x) && l in x.rings && l in y.rings && y.rings == x.rings[l := y.rings[l]]
    requires t in x.container && y.container == x.container[t := to] && y.value == x.value
    requires (x.container[t] == In(l) && to == Nowhere) || (x.container[t] == Nowhere && to == In(l))
    requires Ok(y.rings[l])
    requires forall u :: u in y.rings[l].items <==> if u == t then to == In(l) else u in Items(x, l)
    ensures Consistent(y) && y.rings.Keys == x.rings.Keys
    ensures forall m :: m in x.rings && m != l ==> y.rings[m] == x.rings[m]
  {
    hide Distinct, Ok;
    forall m, u
      ensures u in Items(y, m) <==> ContainerOf(y, u) == In(m)
    {
      assert m != l ==> Items(y, m) == Items(x, m);
      assert u in Items(x, m) <==> ContainerOf(x, u) == In(m);
    }
  }

  lemma UnlinkKeeps(x: Lists, t: Task)
    requires Consistent(x) && ContainerOf(x, t).In?
    ensures x.container[t].list in x.rings && t in Items(x, x.container[t].list)
    ensures var y := Unlink(x, t);
            && Consistent(y) && y.rings.Keys == x.rings.Keys
            && y.container == x.container[t := Nowhere] && y.value == x.value
            && (forall l :: l in x.rings && l != x.container[t].list ==> y.rings[l] == x.rings[l])
  {
    hide Distinct, IndexOf;
    var l := x.container[t].list;
    assert t in Items(x, l);
    RemoveMembers(Items(x, l), IndexOf(Items(x, l), t)) by {
      assert Ok(x.rings[l]);
    }
    Rewritten(x, Unlink(x, t), t, l, Nowhere);
  }

  lemma LinkKeeps(x: Lists, l: ListId, k: nat, t: Task)
    requires Consistent(x) && l in x.rings && k <= |Items(x, l)| && t in x.container && x.container[t] == Nowhere
    ensures var y := LinkAt(x, l, k, t);
            && Consistent(y) && y.rings.Keys == x.rings.Keys
            && y.container == x.container[t := In(l)] && y.value == x.value
            && (forall m :: m in x.rings && m != l ==> y.rings[m] == x.rings[m])
  {
    hide Distinct;
    assert t !in Items(x, l) && Ok(x.rings[l]);
    InsertMembers(Items(x, l), k, t);
    Rewritten(x, LinkAt(x, l, k, t), t, l, In(l));
  }

  lemma LinkEndKeeps(x: Lists, l: ListId, t: Task)
    requires Consistent(x) && l in x.rings && t in x.container && x.container[t] == Nowhere
    ensures var y := LinkEnd(x, l, t);
            && Consistent(y) && y.rings.Keys == x.rings.Keys
            && y.container == x.container[t := In(l)] && y.value == x.value
            && (forall m :: m in x.rings && m != l ==> y.rings[m] == x.rings[m])
  {
    LinkKeeps(x, l, EndPlace(x.rings[l]), t);
  }

  lemma KeysAfterRemove(value: map<Task, nat>, s: seq<Task>, k: nat)
    requires k < |s| && Sorted(Keys(value, s))
    ensures Sorted(Keys(value, s[..k] + s[k + 1..]))
  {
    var r := s[..k] + s[k + 1..];
    var ks, rs := Keys(value, s), Keys(value, r);
    forall i, j | 0 <= i < j < |rs|
      ensures rs[i] <= rs[j]
    {
      assert ks[if i < k then i else i + 1] <= ks[if j < k then j else j + 1];
    }
  }

  lemma UnlinkInOrder(x: Lists, t: Task, l: ListId)
    requires InOrder(x, l)
    ensures InOrder(Unlink(x, t), l)
  {
    if ContainerOf(x, t) == In(l) && t in Items(x, l) {
      KeysAfterRemove(x.value, Items(x, l), IndexOf(Items(x, l), t));
    }
  }

  lemma LinkSortedKeeps(x: Lists, l: ListId, t: Task)
    requires Consistent(x) && t in x.container && x.container[t] == Nowhere && InOrder(x, l)
    ensures var y := LinkSorted(x, l, t);
            && Consistent(y) && y.rings.Keys == x.rings.Keys && InOrder(y, l)
            && y.container == x.container[t := In(l)] && y.value == x.value
            && (forall m :: m in x.rings && m != l ==> y.rings[m] == x.rings[m])
  {
    hide Distinct, SortedPlace, Consistent;
    var s, v := Items(x, l), ValueOf(x.value, t);
    var p := SortedPlace(Keys(x.value, s), v);
    LinkKeeps(x, l, p, t);
    SortedPlaceIsStable(Keys(x.value, s), v);
    assert Keys(x.value, s[..p] + [t] + s[p..]) == Keys(x.value, s)[..p] + [v] + Keys(x.value, s)[p..];
  }

  // The value of an item that is on no list can change.
  lemma SetValueKeeps(x: Lists, t: Task, v: nat)
    requires Consistent(x) && t in x.container && x.container[t] == Nowhere
    ensures Consistent(x.(value := x.value[t := v]))
    ensures forall l :: InOrder(x, l) ==> InOrder(x.(value := x.value[t := v]), l)
  {
    var y := x.(value := x.value[t := v]);
    forall l | InOrder(x, l)
      ensures InOrder(y, l)
    {
      assert t !in Items(x, l);
      assert Keys(y.value, Items(x, l)) == Keys(x.value, Items(x, l));
    }
    forall l, u
      ensures u in Items(y, l) <==> ContainerOf(y, u) == In(l)
    {
      assert Items(y, l) == Items(x, l) && ContainerOf(y, u) == ContainerOf(x, u);
    }
  }
}
