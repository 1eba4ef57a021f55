/** extend/time_wheel/delay_queue.go: the priority queue, an array heap whose items
    know their own index. The wake-up protocol around it is module Handshake. */
module PriorityQueues {
  import opened Wrappers

  /** What the wheel queues: the bucket in the given slot of the wheel `level` steps
      above the root. */
  datatype Ref = Ref(level: nat, slot: nat)

  /** A queue item without its index. */
  datatype Entry = Entry(priority: int, ref: Ref)

  class Item {
    const value: Ref
    const priority: int
    var index: int

    constructor (value: Ref, priority: int)
      ensures this.value == value && this.priority == priority
    {
      this.value := value;
      this.priority := priority;
    }
  }

  // ----- heaps as sequences (an item's priority never changes)

  function Parent(i: nat): nat
    requires i > 0
  {
    (i - 1) / 2
  }

  ghost predicate Ordered(items: seq<Item>, i: nat)
    requires 0 < i < |items|
  {
    items[Parent(i)].priority <= items[i].priority
  }

  /** The first n items form a heap. */
  ghost predicate IsHeap(items: seq<Item>, n: nat)
    requires n <= |items|
  {
    forall i | 0 < i < n :: Ordered(items, i)
  }

  /** A heap but for j, which may be smaller than its parent. */
  ghost predicate HeapButUp(items: seq<Item>, n: nat, j: nat)
    requires n <= |items|
  {
    && (forall i | 0 < i < n && i != j :: Ordered(items, i))
    && (forall i | 0 < i < n && Parent(i) == j && 0 < j < n :: items[Parent(j)].priority <= items[i].priority)
  }

  /** A heap but for j, which may be larger than its children. */
  ghost predicate HeapButDown(items: seq<Item>, n: nat, j: nat)
    requires n <= |items|
  {
    && (forall i | 0 < i < n && Parent(i) != j :: Ordered(items, i))
    && (forall i | 0 < i < n && Parent(i) == j && 0 < j < n :: items[Parent(j)].priority <= items[i].priority)
  }

  function Swapped<T>(s: seq<T>, i: nat, j: nat): seq<T>
    requires i < |s| && j < |s|
  {
    s[i := s[j]][j := s[i]]
  }

  ghost function Entries(items: seq<Item>): (es: seq<Entry>)
    ensures |es| == |items| && forall i | 0 <= i < |es| :: es[i] == Entry(items[i].priority, items[i].value)
  {
    seq(|items|, i requires 0 <= i < |items| => Entry(items[i].priority, items[i].value))
  }

  lemma SwapConserves(items: seq<Item>, i: nat, j: nat)
    requires i < |items| && j < |items|
    ensures multiset(Entries(Swapped(items, i, j))) == multiset(Entries(items))
    ensures multiset(Swapped(items, i, j)) == multiset(items)
  {
    assert Entries(Swapped(items, i, j)) == Swapped(Entries(items), i, j);
  }

  /** The root of a heap is a minimum. */
  lemma {:induction false} RootIsMin(items: seq<Item>, n: nat, i: nat)
    requires n <= |items| && IsHeap(items, n) && i < n
    ensures items[0].priority <= items[i].priority
  {
    if i > 0 {
      assert Ordered(items, i);
      RootIsMin(items, n, Parent(i));
    }
  }

  lemma SiftUpStep(items: seq<Item>, n: nat, j: nat)
    requires 0 < j < n <= |items| && HeapButUp(items, n, j) && items[j].priority < items[Parent(j)].priority
    ensures HeapButUp(Swapped(items, Parent(j), j), n, Parent(j))
  {
    var p, t := Parent(j), Swapped(items, Parent(j), j);
    forall i | 0 < i < n && i != p ensures Ordered(t, i) {
      if i != j { assert Ordered(items, i); }
    }
    forall i | 0 < i < n && Parent(i) == p && 0 < p < n ensures t[Parent(p)].priority <= t[i].priority {
      assert Ordered(items, p);
      if i != j { assert Ordered(items, i); }
    }
  }

  lemma SiftDownStep(items: seq<Item>, n: nat, i: nat, j: nat)
    requires 0 < j < n <= |items| && Parent(j) == i && HeapButDown(items, n, i) && items[j].priority < items[i].priority
    requires forall k | 0 < k < n && Parent(k) == i :: items[j].priority <= items[k].priority
    ensures HeapButDown(Swapped(items, i, j), n, j)
  {
    var t := Swapped(items, i, j);
    forall k | 0 < k < n && Parent(k) != j ensures Ordered(t, k) {
      if Parent(k) != i { assert Ordered(items, k); }
    }
    forall k | 0 < k < n && Parent(k) == j ensures t[Parent(j)].priority <= t[k].priority {
      assert Ordered(items, k);
    }
  }

  lemma FirstIsMin(items: seq<Item>)
    requires |items| > 0 && IsHeap(items, |items|)
    ensures var e := Entry(items[0].priority, items[0].value);
      e in multiset(Entries(items)) && forall y | y in multiset(Entries(items)) :: e.priority <= y.priority
  {
    assert Entries(items)[0] in multiset(Entries(items));
    forall y | y in multiset(Entries(items)) ensures items[0].priority <= y.priority {
      var i :| 0 <= i < |items| && Entries(items)[i] == y;
      RootIsMin(items, |items|, i);
    }
  }

  /** Whether x goes before the root tells whether it goes before all items of the heap. */
  lemma SmallestIff(before: seq<Item>, x: Item, first: bool)
    requires IsHeap(before, |before|)
    requires if first then before == [] || x.priority < before[0].priority else before != [] && before[0].priority <= x.priority
    ensures first <==> forall e | e in multiset(Entries(before)) :: x.priority < e.priority
  {
    if before != [] { FirstIsMin(before); }
  }

  lemma Appended(before: seq<Item>, x: Item)
    requires IsHeap(before, |before|)
    ensures HeapButUp(before + [x], |before| + 1, |before|)
    ensures multiset(Entries(before + [x])) == multiset(Entries(before)) + multiset{Entry(x.priority, x.value)}
  {
    forall i | 0 < i < |before| ensures Ordered(before + [x], i) {
      assert Ordered(before, i);
    }
    assert Entries(before + [x]) == Entries(before) + [Entry(x.priority, x.value)];
  }

  lemma HeapSettled(items: seq<Item>, n: nat, i: nat)
    requires i < n <= |items| && HeapButDown(items, n, i)
    requires forall k | 0 < k < n && Parent(k) == i :: items[i].priority <= items[k].priority
    ensures IsHeap(items, n)
  {
    forall k | 0 < k < n ensures Ordered(items, k) {}
  }

  /** Removing the root: the last item takes its place and the root goes last. */
  lemma RootLast(items: seq<Item>)
    requires |items| > 1 && IsHeap(items, |items|)
    ensures HeapButDown(Swapped(items, 0, |items| - 1), |items| - 1, 0)
  {
    forall i | 0 < i < |items| - 1 && Parent(i) != 0 ensures Ordered(Swapped(items, 0, |items| - 1), i) {
      assert Ordered(items, i);
    }
  }

  lemma DropRoot(items: seq<Item>, rest: seq<Item>, x: Item)
    requires items == rest + [x] && IsHeap(items, |rest|)
    ensures IsHeap(rest, |rest|)
    ensures multiset(Entries(items)) == multiset(Entries(rest)) + multiset{Entry(x.priority, x.value)}
  {
    forall i | 0 < i < |rest| ensures Ordered(rest, i) {
      assert Ordered(items, i);
    }
    assert Entries(items) == Entries(rest) + [Entry(x.priority, x.value)];
  }

  // ----- the queue

  class PriorityQueue {
    var pq: array<Item?>  // the slice's backing array; its length is the capacity
    var len: nat
    ghost var items: seq<Item>
    ghost var owned: set<Item>

    /** The slice holds the items, each knowing its index. */
    ghost predicate Stored()
      reads this, pq, owned
    {
      && 1 <= pq.Length && len == |items| <= pq.Length
      && forall i | 0 <= i < len :: items[i] in owned && pq[i] == items[i] && items[i].index == i
    }

    ghost predicate Valid()
      reads this, pq, owned
    {
      Stored() && IsHeap(items, len)
    }

    ghost function Repr(): set<object>
      reads this
    {
      {this, pq} + owned
    }

    ghost function Contents(): multiset<Entry>
      reads this
    {
      multiset(Entries(items))
    }

    constructor (capacity: nat)
      requires capacity >= 1
      ensures Valid() && fresh(Repr()) && Contents() == multiset{}
    {
      pq := new Item?[capacity](_ => null);
      len := 0;
      items := [];
      owned := {};
    }

    method Swap(i: nat, j: nat)
      requires Stored() && i < len && j < len
      modifies this`items, pq, owned
      ensures Stored() && items == Swapped(old(items), i, j) && Contents() == old(Contents())
    {
      SwapConserves(items, i, j);
      pq[i], pq[j] := pq[j], pq[i];
      pq[i].index := i;
      pq[j].index := j;
      items := Swapped(items, i, j);
    }

    /** The item at `start` rises; it ends at the root exactly when it is smaller
        than every other item. */
    method Up(start: nat)
      requires Stored() && start < len && HeapButUp(items, len, start)
      modifies this`items, pq, owned
      ensures Valid() && Contents() == old(Contents()) && |items| == |old(items)|
      ensures var x := old(items[start]);
        x in owned && 0 <= x.index < len && items[x.index] == x
        && (if x.index == 0 then start == 0 || x.priority < old(items[0]).priority
            else items[0] == old(items[0]) && items[0].priority <= x.priority)
    {
      var j: nat := start;
      ghost var moved := items[start];
      while j > 0 && pq[j].priority < pq[Parent(j)].priority
        invariant j < len == |old(items)| && Stored() && HeapButUp(items, len, j)
        invariant items[j] == moved
        invariant if j > 0 then items[0] == old(items[0]) else start == 0 || moved.priority < old(items[0]).priority
        invariant Contents() == old(Contents())
        decreases j
      {
        SiftUpStep(items, len, j);
        var i := Parent(j);
        Swap(i, j);
        j := i;
      }
      assert j > 0 ==> Ordered(items, j);
      assert IsHeap(items, len) by {
        forall i | 0 < i < len ensures Ordered(items, i) {}
      }
      RootIsMin(items, len, j);
    }

    /** Restores the heap below the root among the first n items. Whether it moves anything does not
        matter: an item that stays at the root cannot move up. */
    method Down(n: nat)
      requires Stored() && 0 < n <= len && HeapButDown(items, n, 0)
      modifies this`items, pq, owned
      ensures Stored() && |items| == |old(items)| && IsHeap(items, n) && Contents() == old(Contents())
      ensures forall k | n <= k < len :: items[k] == old(items)[k]
    {
      var i: nat := 0;
      while 2 * i + 1 < n
        invariant Stored() && |items| == |old(items)| && i < n && HeapButDown(items, n, i)
        invariant forall k | n <= k < len :: items[k] == old(items)[k]
        invariant Contents() == old(Contents())
        decreases n - i
      {
        var j := SmallerChild(i, n);
        if !(pq[j].priority < pq[i].priority) {
          HeapSettled(items, n, i);
          return;
        }
        SiftDownStep(items, n, i, j);
        Swap(i, j);
        i := j;
      }
      HeapSettled(items, n, i);
    }

    method SmallerChild(i: nat, n: nat) returns (j: nat)
      requires Stored() && 2 * i + 1 < n <= len
      ensures 0 < j < n && Parent(j) == i
      ensures forall k | 0 < k < n && Parent(k) == i :: items[j].priority <= items[k].priority
    {
      j := 2 * i + 1;
      if j + 1 < n && pq[j + 1].priority < pq[j].priority { j := j + 1; }
    }

    /** `Push` of heap.Interface: append, doubling the capacity when it is full. */
    method Append(x: Item)
      requires Stored() && x !in owned
      modifies this, pq, x
      ensures Stored() && items == old(items) + [x] && owned == old(owned) + {x}
      ensures pq.Length == if old(len) + 1 > old(pq.Length) then 2 * old(pq.Length) else old(pq.Length)
      ensures pq == old(pq) || fresh(pq)
    {
      if len + 1 > pq.Length { Resize(pq.Length * 2); }
      pq[len] := x;
      x.index := len;
      items := items + [x];
      owned := owned + {x};
      len := len + 1;
    }

    /** A new backing array with the same items. */
    method Resize(capacity: nat)
      requires Stored() && len <= capacity && capacity >= 1
      modifies this`pq
      ensures Stored() && pq.Length == capacity && fresh(pq)
    {
      var npq := new Item?[capacity](_ => null);
      forall i | 0 <= i < len { npq[i] := pq[i]; }
      pq := npq;
    }

    /** `Pop` of heap.Interface: drop the last item, halving a large, mostly empty array. */
    method DropLast() returns (x: Item)
      requires Stored() && len > 0
      modifies this, pq, owned
      ensures Stored() && owned == old(owned) && items + [x] == old(items)
      ensures pq.Length == if old(len) < old(pq.Length) / 2 && old(pq.Length) > 25 then old(pq.Length) / 2 else old(pq.Length)
      ensures pq == old(pq) || fresh(pq)
    {
      if len < pq.Length / 2 && pq.Length > 25 { Resize(pq.Length / 2); }
      x := pq[len - 1];
      x.index := -1;
      len := len - 1;
      items := items[..len];
    }

    /** The locked part of `Offer`: heap.Push, and then the new item's index, which
        is 0 exactly when it comes strictly before everything queued. */
    method Offer(value: Ref, priority: int) returns (index: nat)
      requires Valid()
      modifies Repr()
      ensures Valid() && fresh(Repr() - old(Repr()))
      ensures Contents() == old(Contents()) + multiset{Entry(priority, value)}
      ensures index == 0 <==> forall e | e in old(Contents()) :: priority < e.priority
    {
      var x := new Item(value, priority);
      ghost var before := items;
      Appended(before, x);
      Append(x);
      Up(len - 1);
      index := x.index;
      SmallestIff(before, x, index == 0);
    }

    /** heap.Remove(pq, 0). */
    method RemoveFirst() returns (x: Item)
      requires Valid() && len > 0
      modifies Repr()
      ensures Valid() && fresh(Repr() - old(Repr())) && x == old(items[0])
      ensures old(Contents()) == Contents() + multiset{Entry(x.priority, x.value)}
    {
      var n := len - 1;
      if n != 0 {
        RootLast(items);
        Swap(0, n);
        Down(n);
      }
      ghost var all := items;
      assert all[n] == old(items[0]);
      x := DropLast();
      assert (items + [x])[n] == x;
      DropRoot(all, items, x);
    }

    /** Takes a minimum exactly when it is due; otherwise the exact wait, which is 0
        only for an empty queue. */
    method PeekAndShift(maxValue: int) returns (x: Item?, wait: int)
      requires Valid()
      modifies Repr()
      ensures Valid() && fresh(Repr() - old(Repr()))
      ensures x == null ==> Contents() == old(Contents())
      ensures x == null && wait == 0 <==> old(Contents()) == multiset{}
      ensures x == null && wait != 0 ==> wait > 0 && exists e ::
        e in Contents() && e.priority == maxValue + wait && forall y | y in Contents() :: e.priority <= y.priority
      ensures x != null ==>
        && wait == 0 && x.priority <= maxValue
        && old(Contents()) == Contents() + multiset{Entry(x.priority, x.value)}
        && forall y | y in old(Contents()) :: x.priority <= y.priority
    {
      if len == 0 { return null, 0; }
      var first := pq[0];
      FirstIsMin(items);
      if first.priority > maxValue {
        return null, first.priority - maxValue;
      }
      x := RemoveFirst();
      wait := 0;
    }

    /** PeekAndShift, for the loop that only wants an element that is due. */
    method TakeDue(now: int) returns (due: Option<Entry>)
      requires Valid()
      modifies Repr()
      ensures Valid() && fresh(Repr() - old(Repr()))
      ensures due.None? ==> Contents() == old(Contents()) && forall e | e in Contents() :: e.priority > now
      ensures due.Some? ==>
        && due.value in old(Contents()) && (forall y | y in old(Contents()) :: due.value.priority <= y.priority)
        && due.value.priority <= now && Contents() == old(Contents()) - multiset{due.value}
    {
      var x, _ := PeekAndShift(now);
      due := if x == null then None else Some(Entry(x.priority, x.value));
    }
  }
}
