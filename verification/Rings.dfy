/**
 A kernel list seen as a value: the items in link order starting after the end marker,
 and the place of the roving index.  Position 0 is the end marker, position k + 1 is
 items[k].  The linked structure in KernelList.dfy is proved to follow these functions.
 */
module Rings {

  datatype Ring<T> = Ring(items: seq<T>, pos: nat)

  ghost predicate Distinct<T>(s: seq<T>) {
    forall i, j :: 0 <= i < j < |s| ==> s[i] != s[j]
  }

  ghost predicate Ok<T>(r: Ring<T>) {
    Distinct(r.items) && r.pos <= |r.items|
  }

  // A new item becomes the k-th one; the index keeps designating the same node.
  function InsertAt<T>(r: Ring<T>, k: nat, x: T): Ring<T>
    requires k <= |r.items|
  {
    Ring(r.items[..k] + [x] + r.items[k..], if r.pos > k then r.pos + 1 else r.pos)
  }

  // The items left when x is taken out.
  function Without<T(==)>(s: seq<T>, x: T): (r: seq<T>)
    ensures forall y :: y in r ==> y in s
    ensures forall y :: y in s && y != x ==> y in r
    ensures x !in s ==> r == s
  {
    if s == [] then [] else if s[0] == x then s[1..] else [s[0]] + Without(s[1..], x)
  }

  lemma {:induction false} WithoutExactly<T>(s: seq<T>, x: T)
    requires Distinct(s)
    ensures Distinct(Without(s, x)) && forall y :: y in Without(s, x) <==> y in s && y != x
  {
    if s != [] {
      assert s == [s[0]] + s[1..];
      assert s[0] !in s[1..];
      WithoutExactly(s[1..], x);
    }
  }

  // Just before the node the index designates, so the end marker means "last".
  function InsertEnd<T>(r: Ring<T>, x: T): Ring<T>
    requires r.pos <= |r.items|
  {
    InsertAt(r, if r.pos == 0 then |r.items| else r.pos - 1, x)
  }

  // An index designating the removed item falls back to the node before it.
  function RemoveAt<T>(r: Ring<T>, k: nat): Ring<T>
    requires k < |r.items|
  {
    Ring(r.items[..k] + r.items[k + 1..], if r.pos > k then r.pos - 1 else r.pos)
  }

  // The index moves on, stepping over the end marker.
  function Advance<T>(r: Ring<T>): Ring<T>
    requires r.items != []
  {
    r.(pos := if r.pos < |r.items| then r.pos + 1 else 1)
  }

  // The place of a new key: behind every leading key that is not larger.
  function SortedPlace(keys: seq<nat>, v: nat): (p: nat)
    ensures p <= |keys|
    ensures forall i :: 0 <= i < p ==> keys[i] <= v
    ensures p < |keys| ==> v < keys[p]
  {
    if keys == [] || v < keys[0] then 0 else 1 + SortedPlace(keys[1..], v)
  }

  lemma PlaceIsUnique(keys: seq<nat>, v: nat, k: nat)
    requires k <= |keys|
    requires forall i :: 0 <= i < k ==> keys[i] <= v
    requires k < |keys| ==> v < keys[k]
    ensures k == SortedPlace(keys, v)
  {
    var p := SortedPlace(keys, v);
    assert p < |keys| ==> v < keys[p];
  }

  ghost predicate Sorted(keys: seq<nat>) {
    forall i, j :: 0 <= i < j < |keys| ==> keys[i] <= keys[j]
  }

  // Insertion keeps a sorted list sorted and is stable: every key that was not larger,
  // ties included, stays in front and every larger key stays behind.
  lemma SortedPlaceIsStable(keys: seq<nat>, v: nat)
    requires Sorted(keys)
    ensures var p := SortedPlace(keys, v);
            && Sorted(keys[..p] + [v] + keys[p..])
            && forall i :: 0 <= i < |keys| ==> (i < p <==> keys[i] <= v)
  {
    var p := SortedPlace(keys, v);
    forall i | 0 <= i < |keys|
      ensures i < p <==> keys[i] <= v
    {
      if p < i {
        assert keys[p] <= keys[i];
      }
    }
  }

  // ----- Round robin ---------------------------------------------------------------

  datatype Event<T> = Select | Add(item: T) | Drop(item: T)

  ghost predicate Enabled<T>(r: Ring<T>, e: Event<T>) {
    match e
    case Select => r.items != []
    case Add(x) => x !in r.items
    case Drop(x) => x in r.items
  }

  function IndexOf<T(==)>(s: seq<T>, x: T): (k: nat)
    requires x in s
    ensures k < |s| && s[k] == x
  {
    if s[0] == x then 0 else 1 + IndexOf(s[1..], x)
  }

  ghost function Step<T>(r: Ring<T>, e: Event<T>): (r': Ring<T>)
    requires Ok(r) && Enabled(r, e)
    ensures Ok(r')
  {
    match e
    case Select => Advance(r)
    case Add(x) => InsertEnd(r, x)
    case Drop(x) => RemoveAt(r, IndexOf(r.items, x))
  }

  lemma {:induction false} WithoutAt<T>(s: seq<T>, x: T)
    requires x in s
    ensures var k := IndexOf(s, x); Without(s, x) == s[..k] + s[k + 1..]
  {
    if s[0] != x {
      WithoutAt(s[1..], x);
    }
  }

  lemma {:induction false} WithoutInserted<T>(s: seq<T>, k: nat, x: T)
    requires k <= |s| && x !in s
    ensures Without(s[..k] + [x] + s[k..], x) == s
  {
    var all := s[..k] + [x] + s[k..];
    if k > 0 {
      assert s[1..][..k - 1] == s[..k][1..];
      assert all[1..] == s[1..][..k - 1] + [x] + s[1..][k - 1..];
      WithoutInserted(s[1..], k - 1, x);
    }
  }

  // The item the index designates, which is the one selected last.
  function Selected<T>(r: Ring<T>): T
    requires 0 < r.pos <= |r.items|
  {
    r.items[r.pos - 1]
  }

  // Every event of the run is possible when its turn comes.
  ghost predicate Runs<T>(r: Ring<T>, es: seq<Event<T>>)
    requires Ok(r)
    decreases |es|
  {
    es != [] ==> Enabled(r, es[0]) && Runs(Step(r, es[0]), es[1..])
  }

  // The items selected, in order.
  ghost function Selections<T>(r: Ring<T>, es: seq<Event<T>>): seq<T>
    requires Ok(r) && Runs(r, es)
    decreases |es|
  {
    if es == [] then []
    else
      var r' := Step(r, es[0]);
      (if es[0].Select? then [Selected(r')] else []) + Selections(r', es[1..])
  }

  // The order in which the items will be selected if nothing else happens.
  ghost function Queue<T>(r: Ring<T>): seq<T>
    requires r.pos <= |r.items|
  {
    r.items[r.pos..] + r.items[..r.pos]
  }

  ghost predicate Before<T>(q: seq<T>, y: T, x: T) {
    exists i, j :: 0 <= i < j < |q| && q[i] == y && q[j] == x
  }

  lemma QueueDistinct<T>(r: Ring<T>)
    requires Ok(r)
    ensures Distinct(Queue(r))
    ensures forall x :: x in Queue(r) <==> x in r.items
  {
    assert r.items == r.items[..r.pos] + r.items[r.pos..];
  }

  lemma QueueOfAdvance<T>(r: Ring<T>)
    requires Ok(r) && r.items != []
    ensures Queue(Advance(r)) == Queue(r)[1..] + [Queue(r)[0]]
    ensures Selected(Advance(r)) == Queue(r)[0]
  {
    if r.pos == |r.items| {
      assert Queue(r) == r.items;
    } else {
      assert r.items[..r.pos + 1] == r.items[..r.pos] + [r.items[r.pos]];
    }
  }

  lemma QueueOfInsertEnd<T>(r: Ring<T>, x: T)
    requires Ok(r) && x !in r.items
    ensures Queue(InsertEnd(r, x)) ==
            if r.pos == 0 then Queue(r) + [x]
            else Queue(r)[..|r.items| - 1] + [x] + [Selected(r)]
  {
    var r' := InsertEnd(r, x);
    if r.pos == 0 {
      assert r'.items == r.items + [x];
    } else {
      assert r'.items[r'.pos..] == r.items[r.pos..];
      assert r'.items[..r'.pos] == r.items[..r.pos - 1] + [x] + [Selected(r)];
      assert Queue(r)[..|r.items| - 1] == r.items[r.pos..] + r.items[..r.pos - 1];
    }
  }

  lemma QueueOfRemoveAt<T>(r: Ring<T>, k: nat)
    requires Ok(r) && k < |r.items|
    ensures var q := Queue(r);
            var c := if k < r.pos then |r.items| - r.pos + k else k - r.pos;
            q[c] == r.items[k] && Queue(RemoveAt(r, k)) == q[..c] + q[c + 1..]
  {
  }

  // How each event changes whether y is due before x.
  lemma SelectOnBefore<T>(r: Ring<T>, x: T, y: T)
    requires Ok(r) && x in r.items && y in r.items && x != y
    ensures var q, q' := Queue(r), Queue(Advance(r));
            && Selected(Advance(r)) == q[0]
            && if q[0] == x then !Before(q, y, x)
               else if q[0] == y then Before(q, y, x) && !Before(q', y, x)
               else Before(q, y, x) <==> Before(q', y, x)
  {
    QueueDistinct(r);
    QueueOfAdvance(r);
    if Queue(r)[0] != x {
      RotateKeepsBefore(Queue(r), y, x);
    }
  }

  lemma AddOnBefore<T>(r: Ring<T>, z: T, x: T, y: T)
    requires Ok(r) && x in r.items && y in r.items && x != y && z !in r.items
    ensures Before(Queue(r), y, x) <==> Before(Queue(InsertEnd(r, z)), y, x)
  {
    var q := Queue(r);
    QueueDistinct(r);
    QueueOfInsertEnd(r, z);
    var k := if r.pos == 0 then |q| else |q| - 1;
    assert Queue(InsertEnd(r, z)) == q[..k] + [z] + q[k..];
    hide Queue, Before, InsertEnd, Distinct;
    InsertKeepsBefore(q, k, z, y, x);
  }

  lemma DropOnBefore<T>(r: Ring<T>, k: nat, x: T, y: T)
    requires Ok(r) && x in r.items && y in r.items && x != y
    requires k < |r.items| && r.items[k] != x && r.items[k] != y
    ensures Before(Queue(r), y, x) <==> Before(Queue(RemoveAt(r, k)), y, x)
  {
    QueueDistinct(r);
    QueueOfRemoveAt(r, k);
    RemoveKeepsBefore(Queue(r), if k < r.pos then |r.items| - r.pos + k else k - r.pos, y, x);
  }

  // Until x is selected again, an item ahead of it is selected exactly once and an item
  // behind it not at all, whatever is added and whatever else is dropped meanwhile.
  lemma {:induction false} SelectedOnceIfAhead<T>(r: Ring<T>, es: seq<Event<T>>, x: T, y: T)
    requires Ok(r) && Runs(r, es)
    requires x in r.items && y in r.items && x != y
    requires Drop(x) !in es && Drop(y) !in es
    requires EndsWith(Selections(r, es), x)
    ensures multiset(Selections(r, es))[y] == if Before(Queue(r), y, x) then 1 else 0
    decreases |es|
  {
    var e, r' := es[0], Step(r, es[0]);
    var head := if e.Select? then [Selected(r')] else [];
    var rest := Selections(r', es[1..]);
    assert Selections(r, es) == head + rest;
    assert es[0] != Drop(x) && es[0] != Drop(y);
    match e {
      case Select => SelectOnBefore(r, x, y);
      case Add(z) => AddOnBefore(r, z, x, y);
      case Drop(z) => DropOnBefore(r, IndexOf(r.items, z), x, y);
    }
    if head == [x] {
      StopsAtX(rest, x);
    } else {
      RestEndsWith(head, rest, x);
      StillListed(r, e, x);
      StillListed(r, e, y);
      SelectedOnceIfAhead(r', es[1..], x, y);
      assert multiset(head + rest) == multiset(head) + multiset(rest);
    }
  }

  // x occurs in s exactly once, as its last element.
  ghost predicate EndsWith<T>(s: seq<T>, x: T) {
    s != [] && s[|s| - 1] == x && x !in s[..|s| - 1]
  }

  lemma StopsAtX<T>(rest: seq<T>, x: T)
    ensures EndsWith([x] + rest, x) ==> rest == []
  {
    var s := [x] + rest;
    if rest != [] {
      assert s[..|s| - 1][0] == x;
    }
  }

  lemma RestEndsWith<T>(head: seq<T>, rest: seq<T>, x: T)
    requires EndsWith(head + rest, x) && x !in head
    ensures EndsWith(rest, x)
  {
    if rest != [] {
      assert (head + rest)[..|head + rest| - 1] == head + rest[..|rest| - 1];
    }
  }

  lemma StillListed<T>(r: Ring<T>, e: Event<T>, x: T)
    requires Ok(r) && Enabled(r, e) && x in r.items && e != Drop(x)
    ensures x in Step(r, e).items
  {
    var i := IndexOf(r.items, x);
    match e
    case Select =>
    case Add(z) =>
      var k := if r.pos == 0 then |r.items| else r.pos - 1;
      assert Step(r, e).items[if i < k then i else i + 1] == x;
    case Drop(z) =>
      var k := IndexOf(r.items, z);
      assert Step(r, e).items[if i < k then i else i - 1] == x;
  }

  lemma RotateKeepsBefore<T>(q: seq<T>, y: T, x: T)
    requires Distinct(q) && x in q && y in q && x != y && q[0] != x
    ensures Before(q, y, x) <==> y == q[0] || Before(q[1..] + [q[0]], y, x)
    ensures y == q[0] ==> !Before(q[1..] + [q[0]], y, x)
  {
    var t := q[1..] + [q[0]];
    var i, j := IndexOf(q, y), IndexOf(q, x);
    assert t[j - 1] == x;
    if i == 0 {
      assert q[i] == y && q[j] == x;
    } else {
      assert t[i - 1] == y;
      if i < j {
        assert t[i - 1] == y && t[j - 1] == x;
      }
    }
  }

  lemma InsertKeepsBefore<T>(q: seq<T>, k: nat, z: T, y: T, x: T)
    requires Distinct(q) && k <= |q| && z !in q && x in q && y in q && x != y
    ensures Before(q, y, x) <==> Before(q[..k] + [z] + q[k..], y, x)
  {
    var t := q[..k] + [z] + q[k..];
    var i, j := IndexOf(q, y), IndexOf(q, x);
    var i', j' := if i < k then i else i + 1, if j < k then j else j + 1;
    assert t[i'] == y && t[j'] == x;
    assert forall m :: 0 <= m < |t| && t[m] == x ==> m == j';
    assert forall m :: 0 <= m < |t| && t[m] == y ==> m == i';
  }

  lemma RemoveKeepsBefore<T>(q: seq<T>, k: nat, y: T, x: T)
    requires Distinct(q) && k < |q| && x in q && y in q && x != y && q[k] != x && q[k] != y
    ensures Before(q, y, x) <==> Before(q[..k] + q[k + 1..], y, x)
  {
    var t := q[..k] + q[k + 1..];
    var i, j := IndexOf(q, y), IndexOf(q, x);
    var i', j' := if i < k then i else i - 1, if j < k then j else j - 1;
    assert t[i'] == y && t[j'] == x;
    assert forall m :: 0 <= m < |t| && t[m] == x ==> m == j';
    assert forall m :: 0 <= m < |t| && t[m] == y ==> m == i';
  }

  // Fair share: between two consecutive selections of x, every other item that stays
  // listed is selected exactly once, despite any additions and removals in between.
  lemma FairShare<T>(r: Ring<T>, es: seq<Event<T>>, x: T, y: T)
    requires Ok(r) && Runs(r, es)
    requires 0 < r.pos && Selected(r) == x
    requires y in r.items && y != x
    requires Drop(x) !in es && Drop(y) !in es
    requires EndsWith(Selections(r, es), x)
    ensures multiset(Selections(r, es))[y] == 1
  {
    SelectedOnceIfAhead(r, es, x, y);
    var q := Queue(r);
    QueueDistinct(r);
    assert q[|q| - 1] == x;
    var i := IndexOf(q, y);
    assert q[i] == y && i < |q| - 1;
  }
}
