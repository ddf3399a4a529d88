/**
 The kernel's intrusive lists: circular doubly linked lists, each closed by an end marker
 that holds the largest value and each with a roving index.  All list items live in one
 addressed memory, so that several lists share it and an item finds its own list through
 its container.  Every operation on one list is proved to follow its counterpart on the
 value Rings.Ring and to leave every other list alone.
 */
module KernelList {
  import opened Rings

  type Addr = nat
  const NULL: Addr := 0

  // One field of all list items.
  type Field = map<Addr, Addr>

  // Node 0 and node |items| + 1 are the end marker, so that the circle closes.
  ghost function NodeAt(end: Addr, items: seq<Addr>, i: nat): (x: Addr)
    requires i <= |items| + 1
    ensures x == end || x in items
  {
    if i == 0 || i == |items| + 1 then end else items[i - 1]
  }

  ghost predicate Allocated(end: Addr, items: seq<Addr>, f: Field) {
    end in f && forall x :: x in items ==> x in f
  }

  // Nodes i and i + 1 point at each other.
  ghost predicate Joined(end: Addr, items: seq<Addr>, next: Field, previous: Field, i: nat)
    requires i <= |items| && Allocated(end, items, next) && Allocated(end, items, previous)
  {
    var a, b := NodeAt(end, items, i), NodeAt(end, items, i + 1);
    next[a] == b && previous[b] == a
  }

  // The nodes form one circle through the end marker.
  ghost predicate Circle(end: Addr, items: seq<Addr>, next: Field, previous: Field) {
    && Distinct(items)
    && end !in items
    && Allocated(end, items, next)
    && Allocated(end, items, previous)
    && forall i :: 0 <= i <= |items| ==> Joined(end, items, next, previous, i)
  }

  lemma MembersAfterInsert(s: seq<Addr>, k: nat, x: Addr)
    requires k <= |s| && Distinct(s) && x !in s
    ensures var t := s[..k] + [x] + s[k..];
            Distinct(t) && forall y :: y in t <==> y == x || y in s
  {
    assert s == s[..k] + s[k..];
  }

  lemma MembersAfterRemove(s: seq<Addr>, k: nat)
    requires k < |s| && Distinct(s)
    ensures var t := s[..k] + s[k + 1..];
            Distinct(t) && forall y :: y in t <==> y != s[k] && y in s
  {
    assert s == s[..k] + [s[k]] + s[k + 1..];
  }

  // Distinct items give distinct nodes, except that both ends are the end marker.
  lemma NodesDistinct(end: Addr, items: seq<Addr>)
    requires Distinct(items) && end !in items
    ensures forall i, j :: 0 <= i < j <= |items| + 1 && (i, j) != (0, |items| + 1) ==>
              NodeAt(end, items, i) != NodeAt(end, items, j)
  {
  }

  // Insertion shifts the nodes behind node k by one.
  lemma NodesAfterInsert(end: Addr, items: seq<Addr>, k: nat, x: Addr)
    requires k <= |items|
    ensures var t := items[..k] + [x] + items[k..];
            forall i :: 0 <= i <= |t| + 1 ==>
              NodeAt(end, t, i) == if i <= k then NodeAt(end, items, i)
                                   else if i == k + 1 then x else NodeAt(end, items, i - 1)
  {
  }

  lemma NodesAfterRemove(end: Addr, items: seq<Addr>, k: nat)
    requires k < |items|
    ensures var t := items[..k] + items[k + 1..];
            forall i :: 0 <= i <= |t| + 1 ==>
              NodeAt(end, t, i) == NodeAt(end, items, if i <= k then i else i + 1)
  {
  }

  // Putting x between nodes k and k + 1.
  lemma CircleAfterInsert(end: Addr, items: seq<Addr>, next: Field, previous: Field, k: nat, x: Addr)
    requires k <= |items| && Circle(end, items, next, previous) && x != end && x !in items
    ensures var a, b := NodeAt(end, items, k), NodeAt(end, items, k + 1);
            Circle(end, items[..k] + [x] + items[k..], next[x := b][a := x], previous[x := a][b := x])
  {
    var t := items[..k] + [x] + items[k..];
    var a, b := NodeAt(end, items, k), NodeAt(end, items, k + 1);
    var next', previous' := next[x := b][a := x], previous[x := a][b := x];
    MembersAfterInsert(items, k, x);
    forall i | 0 <= i <= |t|
      ensures Joined(end, t, next', previous', i)
    {
      JoinedAfterInsert(end, items, next, previous, k, x, i);
    }
  }

  lemma JoinedAfterInsert(end: Addr, items: seq<Addr>, next: Field, previous: Field, k: nat, x: Addr, i: nat)
    requires k <= |items| && Circle(end, items, next, previous)
    requires x != end && x !in items && i <= |items| + 1
    ensures var a, b := NodeAt(end, items, k), NodeAt(end, items, k + 1);
            var t := items[..k] + [x] + items[k..];
            var next', previous' := next[x := b][a := x], previous[x := a][b := x];
            Allocated(end, t, next') && Allocated(end, t, previous') && Joined(end, t, next', previous', i)
  {
    MembersAfterInsert(items, k, x);
    NodesAfterInsert(end, items, k, x);
    NodesDistinct(end, items);
    assert Joined(end, items, next, previous, if i <= k then i else i - 1);
  }

  // Joining the neighbours of item k.
  lemma CircleAfterRemove(end: Addr, items: seq<Addr>, next: Field, previous: Field, k: nat)
    requires k < |items| && Circle(end, items, next, previous)
    ensures var a, b := NodeAt(end, items, k), NodeAt(end, items, k + 2);
            Circle(end, items[..k] + items[k + 1..], next[a := b], previous[b := a])
  {
    var t := items[..k] + items[k + 1..];
    var a, b := NodeAt(end, items, k), NodeAt(end, items, k + 2);
    var next', previous' := next[a := b], previous[b := a];
    MembersAfterRemove(items, k);
    forall i | 0 <= i <= |t|
      ensures Joined(end, t, next', previous', i)
    {
      JoinedAfterRemove(end, items, next, previous, k, i);
    }
  }

  lemma JoinedAfterRemove(end: Addr, items: seq<Addr>, next: Field, previous: Field, k: nat, i: nat)
    requires k < |items| && Circle(end, items, next, previous) && i < |items|
    ensures var a, b := NodeAt(end, items, k), NodeAt(end, items, k + 2);
            var t := items[..k] + items[k + 1..];
            Allocated(end, t, next[a := b]) && Allocated(end, t, previous[b := a]) &&
            Joined(end, t, next[a := b], previous[b := a], i)
  {
    MembersAfterRemove(items, k);
    NodesAfterRemove(end, items, k);
    NodesDistinct(end, items);
    assert Joined(end, items, next, previous, if i <= k then i else i + 1);
    assert Joined(end, items, next, previous, k + 1);
  }

  // A list is not affected by writes to links of other nodes.
  lemma CircleFrame(end: Addr, items: seq<Addr>, next: Field, previous: Field, next': Field, previous': Field)
    requires Circle(end, items, next, previous)
    requires forall y :: y == end || y in items ==>
               y in next' && next'[y] == next[y] && y in previous' && previous'[y] == previous[y]
    ensures Circle(end, items, next', previous')
  {
    forall i | 0 <= i <= |items|
      ensures Joined(end, items, next', previous', i)
    {
      assert Joined(end, items, next, previous, i);
    }
  }

  // The keys of some items.
  ghost function KeysOf(items: seq<Addr>, value: Field): (keys: seq<nat>)
    requires forall x :: x in items ==> x in value
    ensures |keys| == |items| && forall i :: 0 <= i < |keys| ==> keys[i] == value[items[i]]
  {
    seq(|items|, i requires 0 <= i < |items| => value[items[i]])
  }

  // The contents of the memory: the fields of all items and of all list headers.
  datatype Store = Store(
    value: Field,             // xItemValue
    next: Field,              // pxNext
    previous: Field,          // pxPrevious
    container: Field,         // pxContainer, NULL for an item on no list
    index: Field,             // pxIndex of each list
    count: map<Addr, nat>)    // uxNumberOfItems of each list

  ghost predicate Header(m: Store, l: Addr, r: Ring<Addr>, maxDelay: nat) {
    && l != NULL && l !in m.container
    && l in m.index && l in m.count && l in m.value
    && r.pos <= |r.items|
    && m.index[l] == NodeAt(l, r.items, r.pos)
    && m.count[l] == |r.items|
    && m.value[l] == maxDelay
  }

  // The items on the list are exactly those that name it as their container.
  ghost predicate Membership(m: Store, l: Addr, items: seq<Addr>, maxDelay: nat) {
    && (forall x :: x in items ==> x in m.container && m.container[x] == l)
    && (forall x :: x in m.container && m.container[x] == l ==> x in items)
    && (forall x :: x in items ==> x in m.value && m.value[x] <= maxDelay)
  }

  ghost predicate ListOk(m: Store, l: Addr, r: Ring<Addr>, maxDelay: nat) {
    && Header(m, l, r, maxDelay)
    && Membership(m, l, r.items, maxDelay)
    && Circle(l, r.items, m.next, m.previous)
  }

  // The memory holds these lists and no item is on a list besides them.
  ghost predicate Represents(m: Store, lists: map<Addr, Ring<Addr>>, maxDelay: nat) {
    && NULL !in m.container
    && (forall l :: l in lists ==> ListOk(m, l, lists[l], maxDelay))
    && (forall x :: x in m.container && m.container[x] != NULL ==> m.container[x] in lists)
  }

  // x goes in between nodes a and b of list l.
  ghost function Spliced(m: Store, l: Addr, a: Addr, b: Addr, x: Addr): Store
    requires l in m.count
  {
    m.(next := m.next[x := b][a := x],
       previous := m.previous[x := a][b := x],
       container := m.container[x := l],
       count := m.count[l := m.count[l] + 1])
  }

  // x goes out from between nodes a and b of list l.
  ghost function Unspliced(m: Store, l: Addr, a: Addr, b: Addr, x: Addr): Store
    requires l in m.count && l in m.index && m.count[l] > 0
  {
    m.(next := m.next[a := b],
       previous := m.previous[b := a],
       container := m.container[x := NULL],
       index := if m.index[l] == x then m.index[l := a] else m.index,
       count := m.count[l := m.count[l] - 1])
  }

  // Where the nodes of a list are and which tasks are on it.
  lemma ListFacts(m: Store, l: Addr, r: Ring<Addr>, maxDelay: nat)
    requires ListOk(m, l, r, maxDelay)
    ensures Distinct(r.items) && l !in r.items && l != NULL && l !in m.container && r.pos <= |r.items|
    ensures l in m.next && l in m.previous && l in m.index && l in m.count
    ensures forall x :: x in r.items ==> x in m.next && x in m.previous
    ensures forall x :: x in r.items <==> x in m.container && m.container[x] == l
  {
  }

  lemma ListHere(m: Store, lists: map<Addr, Ring<Addr>>, maxDelay: nat, l: Addr)
    requires Represents(m, lists, maxDelay) && l in lists
    ensures ListOk(m, l, lists[l], maxDelay) && l in m.index
  {
  }

  lemma SplicedList(m: Store, l: Addr, r: Ring<Addr>, maxDelay: nat, k: nat, x: Addr)
    requires ListOk(m, l, r, maxDelay) && k <= |r.items|
    requires x in m.container && m.container[x] == NULL && x in m.value && m.value[x] <= maxDelay
    ensures ListOk(Spliced(m, l, NodeAt(l, r.items, k), NodeAt(l, r.items, k + 1), x), l, InsertAt(r, k, x), maxDelay)
  {
    hide Circle, Membership, Distinct;
    ListFacts(m, l, r, maxDelay);
    CircleAfterInsert(l, r.items, m.next, m.previous, k, x);
    SplicedMembership(m, l, r.items, maxDelay, k, x);
    NodesAfterInsert(l, r.items, k, x);
  }

  lemma SplicedMembership(m: Store, l: Addr, items: seq<Addr>, maxDelay: nat, k: nat, x: Addr)
    requires Membership(m, l, items, maxDelay) && Distinct(items) && k <= |items|
    requires l != NULL && x in m.container && m.container[x] == NULL
    requires l in m.count && x in m.value && m.value[x] <= maxDelay
    ensures Membership(Spliced(m, l, NodeAt(l, items, k), NodeAt(l, items, k + 1), x), l,
                       items[..k] + [x] + items[k..], maxDelay)
  {
    MembersAfterInsert(items, k, x);
  }

  lemma UnsplicedList(m: Store, l: Addr, r: Ring<Addr>, maxDelay: nat, k: nat)
    requires ListOk(m, l, r, maxDelay) && k < |r.items|
    ensures ListOk(Unspliced(m, l, NodeAt(l, r.items, k), NodeAt(l, r.items, k + 2), r.items[k]), l,
                   RemoveAt(r, k), maxDelay)
  {
    hide Circle, Header, Distinct;
    ListFacts(m, l, r, maxDelay);
    CircleAfterRemove(l, r.items, m.next, m.previous, k);
    MembersAfterRemove(r.items, k);
    UnsplicedHeader(m, l, r, maxDelay, k);
  }

  lemma UnsplicedHeader(m: Store, l: Addr, r: Ring<Addr>, maxDelay: nat, k: nat)
    requires ListOk(m, l, r, maxDelay) && k < |r.items|
    ensures Header(Unspliced(m, l, NodeAt(l, r.items, k), NodeAt(l, r.items, k + 2), r.items[k]), l,
                   RemoveAt(r, k), maxDelay)
  {
    NodesAfterRemove(l, r.items, k);
    NodesDistinct(l, r.items);
    assert r.items[k] == NodeAt(l, r.items, k + 1);
  }

  // A change that leaves the nodes, the header and the members of a list alone.
  ghost predicate Apart(m: Store, m': Store, l: Addr, items: seq<Addr>) {
    && m'.value == m.value
    && m'.container.Keys == m.container.Keys
    && l in m.index && l in m'.index && m'.index[l] == m.index[l]
    && l in m.count && l in m'.count && m'.count[l] == m.count[l]
    && (forall x :: x in m.container ==> (m'.container[x] == l <==> m.container[x] == l))
    && (forall y :: y == l || y in items ==>
          && y in m.next && y in m'.next && m'.next[y] == m.next[y]
          && y in m.previous && y in m'.previous && m'.previous[y] == m.previous[y])
  }

  lemma OtherList(m: Store, m': Store, l: Addr, r: Ring<Addr>, maxDelay: nat)
    requires ListOk(m, l, r, maxDelay) && Apart(m, m', l, r.items)
    ensures ListOk(m', l, r, maxDelay)
  {
    CircleFrame(l, r.items, m.next, m.previous, m'.next, m'.previous);
  }

  lemma SplicedApart(m: Store, lists: map<Addr, Ring<Addr>>, maxDelay: nat, l: Addr, k: nat, x: Addr, o: Addr)
    requires Represents(m, lists, maxDelay) && l in lists && o in lists && o != l && k <= |lists[l].items|
    requires x in m.container && m.container[x] == NULL
    ensures var items := lists[l].items;
            Apart(m, Spliced(m, l, NodeAt(l, items, k), NodeAt(l, items, k + 1), x), o, lists[o].items)
  {
    hide ListOk, Distinct;
    ListFacts(m, l, lists[l], maxDelay);
    ListFacts(m, o, lists[o], maxDelay);
  }

  lemma UnsplicedApart(m: Store, lists: map<Addr, Ring<Addr>>, maxDelay: nat, l: Addr, k: nat, o: Addr)
    requires Represents(m, lists, maxDelay) && l in lists && o in lists && o != l && k < |lists[l].items|
    requires l in m.index && l in m.count && m.count[l] > 0
    ensures var items := lists[l].items;
            Apart(m, Unspliced(m, l, NodeAt(l, items, k), NodeAt(l, items, k + 2), items[k]), o, lists[o].items)
  {
    hide ListOk, Distinct;
    ListFacts(m, l, lists[l], maxDelay);
    ListFacts(m, o, lists[o], maxDelay);
  }

  lemma SplicedRepresents(m: Store, lists: map<Addr, Ring<Addr>>, maxDelay: nat, l: Addr, k: nat, x: Addr)
    requires Represents(m, lists, maxDelay) && l in lists && k <= |lists[l].items|
    requires x in m.container && m.container[x] == NULL && x in m.value && m.value[x] <= maxDelay
    requires l in m.count
    ensures var items := lists[l].items;
            Represents(Spliced(m, l, NodeAt(l, items, k), NodeAt(l, items, k + 1), x),
                       lists[l := InsertAt(lists[l], k, x)], maxDelay)
  {
    var m' := Spliced(m, l, NodeAt(l, lists[l].items, k), NodeAt(l, lists[l].items, k + 1), x);
    var lists' := lists[l := InsertAt(lists[l], k, x)];
    forall o | o in lists'
      ensures ListOk(m', o, lists'[o], maxDelay)
    {
      if o == l {
        SplicedList(m, l, lists[l], maxDelay, k, x);
      } else {
        SplicedApart(m, lists, maxDelay, l, k, x, o);
        OtherList(m, m', o, lists[o], maxDelay);
      }
    }
  }

  lemma UnsplicedRepresents(m: Store, lists: map<Addr, Ring<Addr>>, maxDelay: nat, l: Addr, k: nat)
    requires Represents(m, lists, maxDelay) && l in lists && k < |lists[l].items|
    requires l in m.index && l in m.count && m.count[l] > 0
    ensures var items := lists[l].items;
            Represents(Unspliced(m, l, NodeAt(l, items, k), NodeAt(l, items, k + 2), items[k]),
                       lists[l := RemoveAt(lists[l], k)], maxDelay)
  {
    var items := lists[l].items;
    var m' := Unspliced(m, l, NodeAt(l, items, k), NodeAt(l, items, k + 2), items[k]);
    var lists' := lists[l := RemoveAt(lists[l], k)];
    forall o | o in lists'
      ensures ListOk(m', o, lists'[o], maxDelay)
    {
      if o == l {
        UnsplicedList(m, l, lists[l], maxDelay, k);
      } else {
        UnsplicedApart(m, lists, maxDelay, l, k, o);
        OtherList(m, m', o, lists[o], maxDelay);
      }
    }
  }

  // Following pxNext from a node.
  lemma NextNode(m: Store, l: Addr, r: Ring<Addr>, maxDelay: nat, i: nat)
    requires ListOk(m, l, r, maxDelay) && i <= |r.items|
    ensures NodeAt(l, r.items, i) in m.next && m.next[NodeAt(l, r.items, i)] == NodeAt(l, r.items, i + 1)
  {
    assert Joined(l, r.items, m.next, m.previous, i);
  }

  // The nodes that InsertEnd finds through the index are those around its place.
  lemma InsertEndLinks(m: Store, l: Addr, r: Ring<Addr>, maxDelay: nat)
    requires ListOk(m, l, r, maxDelay)
    ensures var k := if r.pos == 0 then |r.items| else r.pos - 1;
            && m.index[l] == NodeAt(l, r.items, k + 1)
            && m.index[l] in m.previous
            && m.previous[m.index[l]] == NodeAt(l, r.items, k)
  {
    var k := if r.pos == 0 then |r.items| else r.pos - 1;
    assert Joined(l, r.items, m.next, m.previous, k);
  }

  // The neighbours that an item points at are those on the list.
  lemma RemoveLinks(m: Store, l: Addr, r: Ring<Addr>, maxDelay: nat, k: nat)
    requires ListOk(m, l, r, maxDelay) && k < |r.items|
    ensures var x := r.items[k];
            && x in m.next && m.next[x] == NodeAt(l, r.items, k + 2) && m.next[x] != x
            && x in m.previous && m.previous[x] == NodeAt(l, r.items, k) && m.previous[x] != x
  {
    NodesDistinct(l, r.items);
    assert r.items[k] == NodeAt(l, r.items, k + 1);
    assert Joined(l, r.items, m.next, m.previous, k) && Joined(l, r.items, m.next, m.previous, k + 1);
  }

  // One step of the index, or two past the end marker, reaches the next item.
  lemma NextLinks(m: Store, l: Addr, r: Ring<Addr>, maxDelay: nat)
    requires ListOk(m, l, r, maxDelay) && r.items != []
    ensures m.index[l] in m.next && l in m.next
    ensures var n := m.next[m.index[l]];
            (if n == l then m.next[l] else n) == Selected(Advance(r))
  {
    assert Joined(l, r.items, m.next, m.previous, r.pos) && Joined(l, r.items, m.next, m.previous, 0);
  }

  lemma AdvancedRepresents(m: Store, lists: map<Addr, Ring<Addr>>, maxDelay: nat, l: Addr, x: Addr)
    requires Represents(m, lists, maxDelay) && l in lists && lists[l].items != []
    requires x == Selected(Advance(lists[l]))
    ensures Represents(m.(index := m.index[l := x]), lists[l := Advance(lists[l])], maxDelay)
  {
    var m' := m.(index := m.index[l := x]);
    var lists' := lists[l := Advance(lists[l])];
    forall o | o in lists'
      ensures ListOk(m', o, lists'[o], maxDelay)
    {
      assert ListOk(m, o, lists[o], maxDelay);
    }
  }

  lemma InitialisedRepresents(m: Store, lists: map<Addr, Ring<Addr>>, maxDelay: nat, l: Addr)
    requires Represents(m, lists, maxDelay) && l != NULL && l !in lists && l !in m.container
    ensures Represents(m.(index := m.index[l := l], value := m.value[l := maxDelay], next := m.next[l := l],
                          previous := m.previous[l := l], count := m.count[l := 0]),
                       lists[l := Ring([], 0)], maxDelay)
  {
    var m' := m.(index := m.index[l := l], value := m.value[l := maxDelay], next := m.next[l := l],
                 previous := m.previous[l := l], count := m.count[l := 0]);
    var lists' := lists[l := Ring([], 0)];
    forall o | o in lists'
      ensures ListOk(m', o, lists'[o], maxDelay)
    {
      if o != l {
        assert ListOk(m, o, lists[o], maxDelay);
        CircleFrame(o, lists[o].items, m.next, m.previous, m'.next, m'.previous);
      } else {
        assert forall x :: x in m.container && m.container[x] == l ==> l in lists;
      }
    }
  }

  // vListInsert on a list in key order leaves it in key order, with the new item behind
  // every item whose key is not larger: ties keep their order of arrival, also at maxDelay.
  lemma InsertKeepsOrder(items: seq<Addr>, value: Field, x: Addr)
    requires x in value && forall y :: y in items ==> y in value
    requires Sorted(KeysOf(items, value))
    ensures var p := SortedPlace(KeysOf(items, value), value[x]);
            var t := items[..p] + [x] + items[p..];
            && (forall y :: y in t ==> y in value)
            && Sorted(KeysOf(t, value))
            && forall i :: 0 <= i < |items| ==> (i < p <==> value[items[i]] <= value[x])
  {
    var keys := KeysOf(items, value);
    var p := SortedPlace(keys, value[x]);
    var t := items[..p] + [x] + items[p..];
    SortedPlaceIsStable(keys, value[x]);
    assert KeysOf(t, value) == keys[..p] + [value[x]] + keys[p..];
  }

  // The list items and the lists, a list being known by the address of its end marker.
  class ListMemory {
    const maxDelay: nat       // portMAX_DELAY, the value of every end marker
    var value: Field
    var next: Field
    var previous: Field
    var container: Field
    var index: Field
    var count: map<Addr, nat>

    ghost var lists: map<Addr, Ring<Addr>>  // what each list stands for

    ghost function View(): Store
      reads this
    {
      Store(value, next, previous, container, index, count)
    }

    ghost predicate Valid()
      reads this
    {
      Represents(View(), lists, maxDelay)
    }

    // An initialised item that is on no list.
    ghost predicate Loose(x: Addr)
      reads this
    {
      x in container && container[x] == NULL && x in value && value[x] <= maxDelay
    }

    constructor (maxDelay: nat)
      ensures Valid() && lists == map[] && this.maxDelay == maxDelay
    {
      this.maxDelay := maxDelay;
      value, next, previous, container, index, count, lists := map[], map[], map[], map[], map[], map[], map[];
    }

    // vListInitialise
    method InitialiseList(l: Addr)
      requires Valid() && l != NULL && l !in lists && l !in container
      modifies this
      ensures Valid() && lists == old(lists)[l := Ring([], 0)]
      ensures value == old(value)[l := maxDelay] && container == old(container)
    {
      ghost var m := View();
      index := index[l := l];
      value := value[l := maxDelay];
      next := next[l := l];
      previous := previous[l := l];
      count := count[l := 0];
      InitialisedRepresents(m, lists, maxDelay, l);
      lists := lists[l := Ring([], 0)];
    }

    // vListInitialiseItem, with its value
    method InitialiseItem(x: Addr, v: nat)
      requires Valid() && x != NULL && x !in lists && v <= maxDelay
      requires x in container ==> container[x] == NULL
      modifies this`container, this`value
      ensures Valid() && Loose(x)
      ensures value == old(value)[x := v] && container == old(container)[x := NULL]
    {
      ghost var m := View();
      container := container[x := NULL];
      value := value[x := v];
      forall l | l in lists
        ensures ListOk(View(), l, lists[l], maxDelay)
      {
        assert ListOk(m, l, lists[l], maxDelay);
      }
    }

    // The writes of vListInsertEnd.
    method LinkBeforeIndex(l: Addr, x: Addr)
      requires l in index && l in count && index[l] in previous && x != index[l]
      modifies this`next, this`previous, this`container, this`count
      ensures View() == old(Spliced(View(), l, previous[index[l]], index[l], x))
    {
      var i := index[l];
      next := next[x := i];
      previous := previous[x := previous[i]];
      next := next[previous[i] := x];
      previous := previous[i := x];
      container := container[x := l];
      count := count[l := count[l] + 1];
    }

    // vListInsertEnd
    method InsertEnd(l: Addr, x: Addr)
      requires Valid() && l in lists && Loose(x)
      modifies this
      ensures Valid() && lists == old(lists)[l := Rings.InsertEnd(old(lists[l]), x)]
      ensures value == old(value) && container == old(container)[x := l]
    {
      ghost var m, r := View(), lists[l];
      ghost var k := if r.pos == 0 then |r.items| else r.pos - 1;
      hide Circle, Membership;
      InsertEndLinks(m, l, r, maxDelay);
      LinkBeforeIndex(l, x);
      SplicedRepresents(m, lists, maxDelay, l, k, x);
      lists := lists[l := InsertAt(r, k, x)];
    }

    // The search of vListInsert: the node behind which an item of value v goes.
    method FindNode(l: Addr, v: nat) returns (cursor: Addr, ghost k: nat)
      requires l in lists && ListOk(View(), l, lists[l], maxDelay) && v <= maxDelay
      ensures var items := lists[l].items;
              && k == SortedPlace(KeysOf(items, value), v)
              && cursor == NodeAt(l, items, k)
              && cursor in next && next[cursor] == NodeAt(l, items, k + 1)
    {
      ghost var items := lists[l].items;
      if v == maxDelay {
        cursor, k := previous[l], |items|;
        assert Joined(l, items, next, previous, k);
      } else {
        cursor, k := l, 0;
        assert Joined(l, items, next, previous, 0);
        while value[next[cursor]] <= v
          invariant k <= |items| && cursor == NodeAt(l, items, k)
          invariant cursor in next && next[cursor] == NodeAt(l, items, k + 1)
          invariant forall i :: 0 <= i < k ==> value[items[i]] <= v
          decreases |items| - k
        {
          assert Joined(l, items, next, previous, k + 1);
          cursor, k := next[cursor], k + 1;
        }
      }
      PlaceIsUnique(KeysOf(items, value), v, k);
    }

    // The writes of vListInsert.
    method LinkBehind(l: Addr, cursor: Addr, x: Addr)
      requires l in count && cursor in next && x != cursor && x != next[cursor]
      modifies this`next, this`previous, this`container, this`count
      ensures View() == old(Spliced(View(), l, cursor, next[cursor], x))
    {
      LinkNodes(cursor, x);
      container := container[x := l];
      count := count[l := count[l] + 1];
    }

    method LinkNodes(cursor: Addr, x: Addr)
      requires cursor in next && x != cursor && x != next[cursor]
      modifies this`next, this`previous
      ensures next == old(next[x := next[cursor]][cursor := x])
      ensures previous == old(previous[x := cursor][next[cursor] := x])
    {
      next := next[x := next[cursor]];
      previous := previous[next[x] := x];
      previous := previous[x := cursor];
      next := next[cursor := x];
    }

    // vListInsert
    method Insert(l: Addr, x: Addr)
      requires Valid() && l in lists && Loose(x)
      modifies this
      ensures Valid() && value == old(value) && container == old(container)[x := l]
      ensures var r := old(lists[l]);
              && (forall y :: y in r.items ==> y in value)
              && lists == old(lists)[l := InsertAt(r, SortedPlace(KeysOf(r.items, value), value[x]), x)]
    {
      ghost var m, r := View(), lists[l];
      var cursor, k := FindNode(l, value[x]);
      LinkBehind(l, cursor, x);
      SplicedRepresents(m, lists, maxDelay, l, k, x);
      lists := lists[l := InsertAt(r, k, x)];
    }

    // The writes of uxListRemove.
    method Unlink(x: Addr) returns (left: nat)
      requires x in container && container[x] in index && container[x] in count && count[container[x]] > 0
      requires x in next && x in previous && next[x] != x && previous[x] != x
      modifies this`next, this`previous, this`container, this`index, this`count
      ensures View() == old(Unspliced(View(), container[x], previous[x], next[x], x))
      ensures left == old(count[container[x]]) - 1
    {
      var l := container[x];
      previous := previous[next[x] := previous[x]];
      next := next[previous[x] := next[x]];
      if index[l] == x {
        index := index[l := previous[x]];
      }
      container := container[x := NULL];
      count := count[l := count[l] - 1];
      left := count[l];
    }

    // uxListRemove
    method Remove(x: Addr) returns (left: nat)
      requires Valid() && x in container && container[x] != NULL
      modifies this
      ensures Valid() && container == old(container)[x := NULL] && value == old(value)
      ensures var l := old(container[x]);
              && l in old(lists) && x in old(lists[l]).items
              && lists == old(lists)[l := RemoveAt(old(lists[l]), IndexOf(old(lists[l]).items, x))]
              && left == |lists[l].items|
    {
      ghost var m, l := View(), container[x];
      ghost var r, k := lists[l], IndexOf(lists[l].items, x);
      RemoveLinks(m, l, r, maxDelay, k);
      left := Unlink(x);
      UnsplicedRepresents(m, lists, maxDelay, l, k);
      lists := lists[l := RemoveAt(r, k)];
    }

    // The writes of listGET_OWNER_OF_NEXT_ENTRY.
    method MoveIndex(l: Addr) returns (x: Addr)
      requires l in index && index[l] in next && l in next
      modifies this`index
      ensures x == old(var n := next[index[l]]; if n == l then next[l] else n)
      ensures index == old(index)[l := x]
    {
      index := index[l := next[index[l]]];
      if index[l] == l {
        index := index[l := next[index[l]]];
      }
      x := index[l];
    }

    // listGET_OWNER_OF_NEXT_ENTRY
    method NextEntry(l: Addr) returns (x: Addr)
      requires Valid() && l in lists && lists[l].items != []
      modifies this`index, this`lists
      ensures Valid() && lists == old(lists)[l := Advance(old(lists[l]))]
      ensures x == Selected(lists[l])
    {
      hide Represents, ListOk;
      ghost var m := View();
      ListHere(m, lists, maxDelay, l);
      NextLinks(m, l, lists[l], maxDelay);
      x := MoveIndex(l);
      AdvancedRepresents(m, lists, maxDelay, l, x);
      lists := lists[l := Advance(lists[l])];
    }
  }
}
