/** The bounded priority queue that holds publications waiting to be sent.

    The ordered map of the implementation is kept as its entry list, ascending by
    priority; every bucket is a FIFO. Two readings of the buckets matter:

    - `Ascending`, lowest priority first, the order in which a full queue evicts;
    - `Drain`, highest priority first, the order in which items are dequeued.

    The class is proved against these two lists; the lemmas at the end say what the
    lists are after any sequence of insertions. */
module PriorityQueues {

  import opened Basics

  /** An item with its priority. */
  datatype Ranked<+T> = Ranked(priority: nat, item: T)

  /** One entry of the ordered map. */
  datatype Bucket<+T> = Bucket(priority: nat, items: seq<T>)

  function RankAll<T>(b: Bucket<T>): (r: seq<Ranked<T>>) {
    seq(|b.items|, i requires 0 <= i < |b.items| => Ranked(b.priority, b.items[i]))
  }

  function Ascending<T>(bs: seq<Bucket<T>>): (r: seq<Ranked<T>>) {
    if bs == [] then [] else RankAll(bs[0]) + Ascending(bs[1..])
  }

  function Drain<T>(bs: seq<Bucket<T>>): (r: seq<Ranked<T>>) {
    if bs == [] then [] else Drain(bs[1..]) + RankAll(bs[0])
  }

  ghost predicate KeysAscend<T>(bs: seq<Bucket<T>>) {
    forall i, j :: 0 <= i < j < |bs| ==> bs[i].priority < bs[j].priority
  }

  ghost predicate NoneEmpty<T>(bs: seq<Bucket<T>>) {
    forall i :: 0 <= i < |bs| ==> bs[i].items != []
  }

  /** Insertion into a list ascending by priority, after every item of the same priority. */
  function InsertAscending<T>(xs: seq<Ranked<T>>, x: Ranked<T>): (r: seq<Ranked<T>>)
    ensures |r| == |xs| + 1
  {
    if xs == [] || xs[0].priority > x.priority then [x] + xs
    else [xs[0]] + InsertAscending(xs[1..], x)
  }

  /** Insertion into a list descending by priority, after every item of the same priority. */
  function InsertDraining<T>(xs: seq<Ranked<T>>, x: Ranked<T>): (r: seq<Ranked<T>>)
    ensures |r| == |xs| + 1
  {
    if xs == [] || xs[0].priority < x.priority then [x] + xs
    else [xs[0]] + InsertDraining(xs[1..], x)
  }

  /** The last `n` elements, or all of them when there are fewer. */
  function Last<T>(xs: seq<T>, n: nat): (r: seq<T>)
    ensures |r| == if |xs| <= n then |xs| else n
  {
    if |xs| <= n then xs else xs[|xs| - n..]
  }

  /** What inserting `x` into bucket list `bs` gives, before any eviction. */
  function Place<T>(bs: seq<Bucket<T>>, x: Ranked<T>): (r: seq<Bucket<T>>) {
    if bs == [] || bs[0].priority > x.priority then [Bucket(x.priority, [x.item])] + bs
    else if bs[0].priority == x.priority then [Bucket(x.priority, bs[0].items + [x.item])] + bs[1..]
    else [bs[0]] + Place(bs[1..], x)
  }

  lemma {:induction false} PlaceNext<T>(bs: seq<Bucket<T>>, i: nat, x: Ranked<T>)
    requires i < |bs| && bs[i].priority < x.priority
    ensures bs[..i] + Place(bs[i..], x) == bs[..i + 1] + Place(bs[i + 1..], x)
  {
    assert bs[i..][1..] == bs[i + 1..];
    assert bs[..i + 1] == bs[..i] + [bs[i]];
  }

  lemma {:induction false} PlaceAbove<T>(bs: seq<Bucket<T>>, x: Ranked<T>, low: nat)
    requires x.priority >= low
    requires forall i :: 0 <= i < |bs| ==> bs[i].priority >= low
    ensures forall i :: 0 <= i < |Place(bs, x)| ==> Place(bs, x)[i].priority >= low
  {
    if bs != [] && bs[0].priority < x.priority {
      PlaceAbove(bs[1..], x, low);
    }
  }

  lemma {:induction false} PlaceKeepsShape<T>(bs: seq<Bucket<T>>, x: Ranked<T>)
    requires KeysAscend(bs) && NoneEmpty(bs)
    ensures KeysAscend(Place(bs, x)) && NoneEmpty(Place(bs, x))
  {
    if bs != [] && bs[0].priority < x.priority {
      PlaceKeepsShape(bs[1..], x);
      PlaceAbove(bs[1..], x, bs[0].priority + 1);
    }
  }

  /** The items of a bucket list all carry the priority of their bucket. */
  lemma {:induction false} AscendingPriorities<T>(bs: seq<Bucket<T>>, low: nat)
    requires forall i :: 0 <= i < |bs| ==> low <= bs[i].priority
    ensures forall i :: 0 <= i < |Ascending(bs)| ==> low <= Ascending(bs)[i].priority
    ensures forall i :: 0 <= i < |Drain(bs)| ==> low <= Drain(bs)[i].priority
  {
    if bs == [] {
    } else {
      AscendingPriorities(bs[1..], low);
    }
  }

  lemma {:induction false} InsertAscendingSkips<T>(xs: seq<Ranked<T>>, ys: seq<Ranked<T>>, x: Ranked<T>)
    requires forall i :: 0 <= i < |xs| ==> xs[i].priority <= x.priority
    ensures InsertAscending(xs + ys, x) == xs + InsertAscending(ys, x)
  {
    if xs == [] {
      assert xs + ys == ys;
    } else {
      assert (xs + ys)[1..] == xs[1..] + ys;
      InsertAscendingSkips(xs[1..], ys, x);
    }
  }

  lemma {:induction false} InsertDrainingSkips<T>(xs: seq<Ranked<T>>, ys: seq<Ranked<T>>, x: Ranked<T>)
    requires forall i :: 0 <= i < |xs| ==> xs[i].priority >= x.priority
    ensures InsertDraining(xs + ys, x) == xs + InsertDraining(ys, x)
  {
    if xs == [] {
      assert xs + ys == ys;
    } else {
      assert (xs + ys)[1..] == xs[1..] + ys;
      InsertDrainingSkips(xs[1..], ys, x);
    }
  }

  lemma {:induction false} InsertDrainingStops<T>(xs: seq<Ranked<T>>, ys: seq<Ranked<T>>, x: Ranked<T>)
    requires forall i :: 0 <= i < |ys| ==> ys[i].priority < x.priority
    ensures InsertDraining(xs + ys, x) == InsertDraining(xs, x) + ys
  {
    if xs == [] {
      assert xs + ys == ys;
    } else {
      assert (xs + ys)[1..] == xs[1..] + ys;
      InsertDrainingStops(xs[1..], ys, x);
    }
  }

  /** Placing an item in its bucket is an ordered insertion in both readings. */
  lemma {:induction false} PlaceRefines<T>(bs: seq<Bucket<T>>, x: Ranked<T>)
    requires KeysAscend(bs)
    ensures Ascending(Place(bs, x)) == InsertAscending(Ascending(bs), x)
    ensures Drain(Place(bs, x)) == InsertDraining(Drain(bs), x)
  {
    if bs == [] {
      assert RankAll(Bucket(x.priority, [x.item])) == [x];
    } else if bs[0].priority > x.priority {
      PlaceBelow(bs, x);
    } else if bs[0].priority == x.priority {
      PlaceInFirst(bs, x);
    } else {
      PlaceRefines(bs[1..], x);
      InsertAscendingSkips(RankAll(bs[0]), Ascending(bs[1..]), x);
      InsertDrainingStops(Drain(bs[1..]), RankAll(bs[0]), x);
    }
  }

  lemma {:induction false} PlaceBelow<T>(bs: seq<Bucket<T>>, x: Ranked<T>)
    requires KeysAscend(bs) && bs != [] && bs[0].priority > x.priority
    ensures Ascending(Place(bs, x)) == InsertAscending(Ascending(bs), x)
    ensures Drain(Place(bs, x)) == InsertDraining(Drain(bs), x)
  {
    var b := Bucket(x.priority, [x.item]);
    assert RankAll(b) == [x];
    assert Place(bs, x) == [b] + bs && ([b] + bs)[1..] == bs;
    AscendingPriorities(bs, x.priority + 1);
    InsertDrainingSkips(Drain(bs), [], x);
    assert Drain(bs) + [] == Drain(bs);
  }

  lemma {:induction false} PlaceInFirst<T>(bs: seq<Bucket<T>>, x: Ranked<T>)
    requires KeysAscend(bs) && bs != [] && bs[0].priority == x.priority
    ensures Ascending(Place(bs, x)) == InsertAscending(Ascending(bs), x)
    ensures Drain(Place(bs, x)) == InsertDraining(Drain(bs), x)
  {
    var b, own := Bucket(x.priority, bs[0].items + [x.item]), RankAll(bs[0]);
    var up, down := Ascending(bs[1..]), Drain(bs[1..]);
    assert RankAll(b) == own + [x];
    assert Place(bs, x) == [b] + bs[1..] && ([b] + bs[1..])[1..] == bs[1..];
    AscendingPriorities(bs[1..], x.priority + 1);
    assert Ascending(Place(bs, x)) == InsertAscending(own + up, x) by {
      InsertAscendingSkips(own, up, x);
    }
    assert Drain(Place(bs, x)) == InsertDraining(down + own, x) by {
      InsertDrainingSkips(down + own, [], x);
      assert down + own + [] == down + own;
    }
  }

  /** Removing the front item of the first bucket, and the bucket when that empties it. */
  function PopFirst<T>(bs: seq<Bucket<T>>): (r: seq<Bucket<T>>)
    requires bs != [] && bs[0].items != []
  {
    if |bs[0].items| == 1 then bs[1..] else [Bucket(bs[0].priority, bs[0].items[1..])] + bs[1..]
  }

  /** Removing the front item of the last bucket, and the bucket when that empties it. */
  function PopLast<T>(bs: seq<Bucket<T>>): (r: seq<Bucket<T>>)
    requires bs != [] && bs[|bs| - 1].items != []
  {
    var last := bs[|bs| - 1];
    if |last.items| == 1 then bs[..|bs| - 1] else bs[..|bs| - 1] + [Bucket(last.priority, last.items[1..])]
  }

  lemma PopFirstKeepsShape<T>(bs: seq<Bucket<T>>)
    requires KeysAscend(bs) && NoneEmpty(bs) && bs != []
    ensures KeysAscend(PopFirst(bs)) && NoneEmpty(PopFirst(bs))
  {
  }

  lemma {:induction false} PopFirstRefines<T>(bs: seq<Bucket<T>>)
    requires bs != [] && bs[0].items != []
    ensures Ascending(bs) != [] && Ascending(PopFirst(bs)) == Ascending(bs)[1..]
  {
    var first, rest := RankAll(bs[0]), Ascending(bs[1..]);
    assert (first + rest)[1..] == first[1..] + rest;
    if |bs[0].items| > 1 {
      var b := Bucket(bs[0].priority, bs[0].items[1..]);
      assert RankAll(b) == first[1..];
      assert ([b] + bs[1..])[1..] == bs[1..];
    } else {
      assert first[1..] == [];
    }
  }

  lemma {:induction false} DrainSplit<T>(xs: seq<Bucket<T>>, ys: seq<Bucket<T>>)
    ensures Drain(xs + ys) == Drain(ys) + Drain(xs)
    ensures Ascending(xs + ys) == Ascending(xs) + Ascending(ys)
  {
    if xs == [] {
      assert xs + ys == ys;
    } else {
      assert (xs + ys)[1..] == xs[1..] + ys;
      DrainSplit(xs[1..], ys);
    }
  }

  lemma PopLastKeepsShape<T>(bs: seq<Bucket<T>>)
    requires KeysAscend(bs) && NoneEmpty(bs) && bs != []
    ensures KeysAscend(PopLast(bs)) && NoneEmpty(PopLast(bs))
  {
  }

  lemma {:induction false} PopLastRefines<T>(bs: seq<Bucket<T>>)
    requires bs != [] && bs[|bs| - 1].items != []
    ensures Drain(bs) != [] && Drain(PopLast(bs)) == Drain(bs)[1..]
    ensures Drain(bs)[0] == Ranked(bs[|bs| - 1].priority, bs[|bs| - 1].items[0])
  {
    var init, last := bs[..|bs| - 1], bs[|bs| - 1];
    assert bs == init + [last];
    DrainEnd(init, last);
    var first, rest := RankAll(last), Drain(init);
    assert (first + rest)[1..] == first[1..] + rest;
    if |last.items| > 1 {
      var b := Bucket(last.priority, last.items[1..]);
      DrainEnd(init, b);
      assert RankAll(b) == first[1..];
    } else {
      assert first[1..] == [];
    }
  }

  lemma {:induction false} DrainEnd<T>(init: seq<Bucket<T>>, last: Bucket<T>)
    ensures Drain(init + [last]) == RankAll(last) + Drain(init)
  {
    DrainSplit(init, [last]);
    DrainOne(last);
  }

  lemma {:induction false} DrainOne<T>(b: Bucket<T>)
    ensures Drain([b]) == RankAll(b) && Ascending([b]) == RankAll(b)
  {
    assert [b][1..] == [];
  }

  /** The two readings list the same items, so they have the same length. */
  lemma {:induction false} SameItems<T>(bs: seq<Bucket<T>>)
    ensures multiset(Drain(bs)) == multiset(Ascending(bs))
    ensures |Drain(bs)| == |Ascending(bs)|
  {
    if bs == [] {
    } else {
      SameItems(bs[1..]);
    }
  }

  function MapItems<T>(xs: seq<Ranked<T>>, f: T -> T): (r: seq<Ranked<T>>)
    ensures |r| == |xs|
  {
    seq(|xs|, i requires 0 <= i < |xs| => Ranked(xs[i].priority, f(xs[i].item)))
  }

  function MapBucket<T>(b: Bucket<T>, f: T -> T): (r: Bucket<T>)
    ensures r.priority == b.priority && |r.items| == |b.items|
  {
    Bucket(b.priority, seq(|b.items|, i requires 0 <= i < |b.items| => f(b.items[i])))
  }

  function MapBuckets<T>(bs: seq<Bucket<T>>, f: T -> T): (r: seq<Bucket<T>>)
    ensures |r| == |bs|
  {
    seq(|bs|, i requires 0 <= i < |bs| => MapBucket(bs[i], f))
  }

  lemma {:induction false} MapDrain<T>(bs: seq<Bucket<T>>, f: T -> T)
    ensures Drain(MapBuckets(bs, f)) == MapItems(Drain(bs), f)
    ensures |Ascending(MapBuckets(bs, f))| == |Ascending(bs)|
  {
    if bs == [] {
    } else {
      MapDrain(bs[1..], f);
      assert MapBuckets(bs, f)[1..] == MapBuckets(bs[1..], f);
      assert MapBuckets(bs, f)[0] == MapBucket(bs[0], f);
    }
  }

  class PriorityQueue<T> {
    var buckets: seq<Bucket<T>>
    const capacity: nat
    var size: nat

    ghost predicate Valid()
      reads this
    {
      && KeysAscend(buckets) && NoneEmpty(buckets)
      && size == |Ascending(buckets)|
      && size <= capacity
    }

    ghost function Queued(): (r: seq<Ranked<T>>)
      reads this
    {
      Drain(buckets)
    }

    constructor (capacity: nat)
      ensures Valid() && this.capacity == capacity && Queued() == [] && Ascending(buckets) == []
    {
      buckets, size := [], 0;
      this.capacity := capacity;
    }

    /** The full contract is in the eviction order; while there is room the item also takes its
        place in the drain order. */
    method Enqueue(priority: nat, item: T)
      requires Valid()
      modifies this
      ensures Valid()
      ensures Ascending(buckets) == Last(InsertAscending(old(Ascending(buckets)), Ranked(priority, item)), capacity)
      ensures old(size) < capacity ==> Queued() == InsertDraining(old(Queued()), Ranked(priority, item))
      ensures size == if old(size) < capacity then old(size) + 1 else capacity
    {
      PushBack(priority, item);
      size := size + 1;
      if size > capacity {
        DropLowestPriority();
      }
    }

    /** Find or create the bucket of `priority` and append the item to it. */
    method PushBack(priority: nat, item: T)
      requires KeysAscend(buckets) && NoneEmpty(buckets)
      modifies this`buckets
      ensures KeysAscend(buckets) && NoneEmpty(buckets)
      ensures Ascending(buckets) == InsertAscending(old(Ascending(buckets)), Ranked(priority, item))
      ensures Drain(buckets) == InsertDraining(old(Drain(buckets)), Ranked(priority, item))
    {
      ghost var x := Ranked(priority, item);
      PlaceKeepsShape(buckets, x);
      PlaceRefines(buckets, x);
      buckets := Placed(priority, item);
    }

    method Placed(priority: nat, item: T) returns (r: seq<Bucket<T>>)
      requires KeysAscend(buckets)
      ensures r == Place(buckets, Ranked(priority, item))
    {
      ghost var x := Ranked(priority, item);
      var i := 0;
      while i < |buckets| && buckets[i].priority < priority
        invariant 0 <= i <= |buckets|
        invariant Place(buckets, x) == buckets[..i] + Place(buckets[i..], x)
      {
        PlaceNext(buckets, i, x);
        i := i + 1;
      }
      if i < |buckets| && buckets[i].priority == priority {
        assert buckets[i..][1..] == buckets[i + 1..];
        r := buckets[..i] + ([Bucket(priority, buckets[i].items + [item])] + buckets[i + 1..]);
      } else {
        r := buckets[..i] + ([Bucket(priority, [item])] + buckets[i..]);
      }
    }

    method DropLowestPriority()
      requires KeysAscend(buckets) && NoneEmpty(buckets) && size == |Ascending(buckets)|
      modifies this`buckets, this`size
      ensures KeysAscend(buckets) && NoneEmpty(buckets) && size == |Ascending(buckets)|
      ensures Ascending(buckets) == if old(size) == 0 then [] else old(Ascending(buckets))[1..]
    {
      if |buckets| > 0 {
        PopFirstKeepsShape(buckets);
        PopFirstRefines(buckets);
        var first := buckets[0];
        var items := first.items[1..];
        if items == [] {
          buckets := buckets[1..];
        } else {
          buckets := [Bucket(first.priority, items)] + buckets[1..];
        }
        size := size - 1;
      }
    }

    method Dequeue() returns (r: Option<Ranked<T>>)
      requires Valid()
      modifies this
      ensures Valid()
      ensures old(Queued()) == [] ==> r == None && Queued() == []
      ensures old(Queued()) != [] ==> r == Some(old(Queued())[0]) && Queued() == old(Queued())[1..]
    {
      SameItems(buckets);
      if size == 0 {
        return None;
      }
      PopLastKeepsShape(buckets);
      PopLastRefines(buckets);
      ghost var after := PopLast(buckets);
      SameItems(after);
      var n := |buckets| - 1;
      var last := buckets[n];
      var items := last.items[1..];
      if items == [] {
        buckets := buckets[..n];
      } else {
        buckets := buckets[..n] + [Bucket(last.priority, items)];
      }
      assert buckets == after;
      size := size - 1;
      r := Some(Ranked(last.priority, last.items[0]));
    }

    method Peek() returns (r: Option<Ranked<T>>)
      requires Valid()
      ensures r == if Queued() == [] then None else Some(Queued()[0])
    {
      if |buckets| == 0 {
        return None;
      }
      PopLastRefines(buckets);
      var last := buckets[|buckets| - 1];
      r := Some(Ranked(last.priority, last.items[0]));
    }

    /** Listing the buckets from the last to the first gives exactly the order of dequeueing. */
    method Iterate() returns (r: seq<Ranked<T>>)
      requires Valid()
      ensures r == Queued()
    {
      r := [];
      var i := |buckets|;
      assert buckets[..i] == buckets;
      while i > 0
        invariant 0 <= i <= |buckets|
        invariant Queued() == r + Drain(buckets[..i])
      {
        assert buckets[..i] == buckets[..i - 1] + [buckets[i - 1]];
        DrainEnd(buckets[..i - 1], buckets[i - 1]);
        i := i - 1;
        r := r + RankAll(buckets[i]);
      }
    }

    /** Visiting every item in place, the lowest priority first, changes no item's position. */
    method UpdateItems(f: T -> T)
      requires Valid()
      modifies this`buckets
      ensures Valid() && Queued() == MapItems(old(Queued()), f)
    {
      ghost var before := buckets;
      var i := 0;
      while i < |buckets|
        invariant 0 <= i <= |buckets| == |before|
        invariant forall k :: 0 <= k < i ==> buckets[k] == MapBucket(before[k], f)
        invariant forall k :: i <= k < |buckets| ==> buckets[k] == before[k]
      {
        var b := buckets[i];
        var items := [];
        for j := 0 to |b.items|
          invariant items == MapBucket(b, f).items[..j]
        {
          items := items + [f(b.items[j])];
        }
        assert MapBucket(b, f).items[..|b.items|] == MapBucket(b, f).items;
        buckets := buckets[i := Bucket(b.priority, items)];
        i := i + 1;
      }
      assert buckets == MapBuckets(before, f);
      MapDrain(before, f);
    }

    method Clear()
      requires Valid()
      modifies this
      ensures Valid() && Queued() == []
    {
      buckets, size := [], 0;
    }
  }

  // ----- What the queue holds after any insertions -----

  /** Everything that arrived, inserted in order of arrival into one unbounded list. */
  function InsertAll<T>(arrivals: seq<Ranked<T>>): (r: seq<Ranked<T>>)
    ensures |r| == |arrivals|
  {
    if arrivals == [] then []
    else InsertAscending(InsertAll(arrivals[..|arrivals| - 1]), arrivals[|arrivals| - 1])
  }

  /** The eviction order of a queue of the given capacity after the same insertions. */
  function AdmitAll<T>(arrivals: seq<Ranked<T>>, capacity: nat): (r: seq<Ranked<T>>) {
    if arrivals == [] then []
    else Last(InsertAscending(AdmitAll(arrivals[..|arrivals| - 1], capacity), arrivals[|arrivals| - 1]), capacity)
  }

  ghost predicate PrioritiesAscend<T>(xs: seq<Ranked<T>>) {
    forall i, j :: 0 <= i < j < |xs| ==> xs[i].priority <= xs[j].priority
  }

  lemma {:induction false} InsertAbove<T>(xs: seq<Ranked<T>>, x: Ranked<T>, low: nat)
    requires x.priority >= low && forall i :: 0 <= i < |xs| ==> xs[i].priority >= low
    ensures forall i :: 0 <= i < |InsertAscending(xs, x)| ==> InsertAscending(xs, x)[i].priority >= low
  {
    if xs != [] && xs[0].priority <= x.priority {
      InsertAbove(xs[1..], x, low);
    }
  }

  lemma {:induction false} InsertAscendingSorted<T>(xs: seq<Ranked<T>>, x: Ranked<T>)
    requires PrioritiesAscend(xs)
    ensures PrioritiesAscend(InsertAscending(xs, x))
  {
    if xs != [] && xs[0].priority <= x.priority {
      InsertAscendingSorted(xs[1..], x);
      InsertAbove(xs[1..], x, xs[0].priority);
    }
  }

  lemma {:induction false} InsertAscendingItems<T>(xs: seq<Ranked<T>>, x: Ranked<T>)
    ensures multiset(InsertAscending(xs, x)) == multiset(xs) + multiset{x}
  {
    if xs != [] && xs[0].priority <= x.priority {
      InsertAscendingItems(xs[1..], x);
      assert xs == [xs[0]] + xs[1..];
    }
  }

  lemma {:induction false} InsertAllSorted<T>(arrivals: seq<Ranked<T>>)
    ensures PrioritiesAscend(InsertAll(arrivals))
    ensures multiset(InsertAll(arrivals)) == multiset(arrivals)
  {
    if arrivals == [] {
    } else {
      var n := |arrivals| - 1;
      InsertAllSorted(arrivals[..n]);
      InsertAscendingSorted(InsertAll(arrivals[..n]), arrivals[n]);
      InsertAscendingItems(InsertAll(arrivals[..n]), arrivals[n]);
      assert arrivals == arrivals[..n] + [arrivals[n]];
    }
  }

  lemma {:induction false} InsertAscendingStops<T>(xs: seq<Ranked<T>>, ys: seq<Ranked<T>>, x: Ranked<T>)
    requires PrioritiesAscend(xs + ys)
    requires xs != [] && xs[|xs| - 1].priority > x.priority
    ensures InsertAscending(xs + ys, x) == InsertAscending(xs, x) + ys
    ensures InsertAscending(ys, x) == [x] + ys
  {
    assert forall k :: 0 <= k < |ys| ==> ys[k] == (xs + ys)[|xs| + k];
    assert (xs + ys)[|xs| - 1] == xs[|xs| - 1];
    if xs[0].priority <= x.priority {
      assert (xs + ys)[1..] == xs[1..] + ys;
      InsertAscendingStops(xs[1..], ys, x);
    }
  }

  /** Evicting after every insertion loses nothing that evicting once at the end would keep. */
  lemma {:induction false} EvictionCommutes<T>(xs: seq<Ranked<T>>, x: Ranked<T>, capacity: nat)
    requires PrioritiesAscend(xs)
    ensures Last(InsertAscending(Last(xs, capacity), x), capacity) == Last(InsertAscending(xs, x), capacity)
  {
    if |xs| > capacity {
      var n := |xs| - capacity;
      assert xs == xs[..n] + xs[n..];
      EvictionSplit(xs[..n], xs[n..], x);
    }
  }

  lemma {:induction false} EvictionSplit<T>(low: seq<Ranked<T>>, kept: seq<Ranked<T>>, x: Ranked<T>)
    requires low != [] && PrioritiesAscend(low + kept)
    ensures Last(InsertAscending(kept, x), |kept|) == Last(InsertAscending(low + kept, x), |kept|)
  {
    var top := |low| - 1;
    if low[top].priority <= x.priority {
      forall i | 0 <= i < |low| ensures low[i].priority <= x.priority {
        assert (low + kept)[i] == low[i] && (low + kept)[top] == low[top];
      }
      InsertAscendingSkips(low, kept, x);
    } else {
      InsertAscendingStops(low, kept, x);
    }
  }

  /** A bounded queue holds exactly the `capacity` last items of the sorted list of all arrivals. */
  lemma {:induction false} AdmitKeepsGreatest<T>(arrivals: seq<Ranked<T>>, capacity: nat)
    ensures AdmitAll(arrivals, capacity) == Last(InsertAll(arrivals), capacity)
  {
    if arrivals == [] {
    } else {
      var n := |arrivals| - 1;
      AdmitKeepsGreatest(arrivals[..n], capacity);
      InsertAllSorted(arrivals[..n]);
      EvictionCommutes(InsertAll(arrivals[..n]), arrivals[n], capacity);
    }
  }

  /** Arrivals named by their position, so that two arrivals are never confused. */
  function Numbered(priorities: seq<nat>): (r: seq<Ranked<int>>)
    ensures |r| == |priorities|
  {
    seq(|priorities|, i requires 0 <= i < |priorities| => Ranked(priorities[i], i))
  }

  /** Smaller priority, or the same priority and earlier arrival. */
  predicate Less(a: Ranked<int>, b: Ranked<int>) {
    a.priority < b.priority || (a.priority == b.priority && a.item < b.item)
  }

  /** Dequeued earlier: greater priority, or the same priority and earlier arrival. */
  predicate Sooner(a: Ranked<int>, b: Ranked<int>) {
    a.priority > b.priority || (a.priority == b.priority && a.item < b.item)
  }

  ghost predicate SortedLess(xs: seq<Ranked<int>>) {
    forall i, j :: 0 <= i < j < |xs| ==> Less(xs[i], xs[j])
  }

  ghost predicate SortedSooner(xs: seq<Ranked<int>>) {
    forall i, j :: 0 <= i < j < |xs| ==> Sooner(xs[i], xs[j])
  }

  ghost predicate ArrivedBefore(xs: seq<Ranked<int>>, n: int) {
    forall i :: 0 <= i < |xs| ==> xs[i].item < n
  }

  /** An element below everything stays below everything when a greater one is inserted. */
  lemma {:induction false} InsertAfter(a: Ranked<int>, xs: seq<Ranked<int>>, x: Ranked<int>)
    requires Less(a, x) && forall i :: 0 <= i < |xs| ==> Less(a, xs[i])
    ensures forall i :: 0 <= i < |InsertAscending(xs, x)| ==> Less(a, InsertAscending(xs, x)[i])
  {
    if xs != [] && xs[0].priority <= x.priority {
      InsertAfter(a, xs[1..], x);
    }
  }

  lemma {:induction false} InsertNewest(xs: seq<Ranked<int>>, x: Ranked<int>)
    requires SortedLess(xs) && ArrivedBefore(xs, x.item)
    ensures SortedLess(InsertAscending(xs, x))
    ensures ArrivedBefore(InsertAscending(xs, x), x.item + 1)
  {
    if xs != [] && xs[0].priority <= x.priority {
      InsertNewest(xs[1..], x);
      InsertAfter(xs[0], xs[1..], x);
    }
  }

  /** The sorted list of all arrivals is strictly ascending by priority and then arrival, so its last
      `capacity` items are the greatest ones in that order. */
  lemma {:induction false} InsertAllOrder(priorities: seq<nat>)
    ensures SortedLess(InsertAll(Numbered(priorities)))
    ensures ArrivedBefore(InsertAll(Numbered(priorities)), |priorities|)
  {
    if priorities == [] {
    } else {
      var n := |priorities| - 1;
      assert Numbered(priorities[..n]) == Numbered(priorities)[..n];
      InsertAllOrder(priorities[..n]);
      InsertNewest(InsertAll(Numbered(priorities[..n])), Numbered(priorities)[n]);
    }
  }

  /** If the eviction order is strictly sorted, the drain order is too: priority first, then arrival. */
  lemma {:induction false} DrainOrder(bs: seq<Bucket<int>>)
    requires KeysAscend(bs) && SortedLess(Ascending(bs))
    ensures SortedSooner(Drain(bs))
  {
    if bs == [] {
    } else {
      var first, up, down := RankAll(bs[0]), Ascending(bs[1..]), Drain(bs[1..]);
      assert forall i :: 0 <= i < |first| ==> (first + up)[i] == first[i];
      assert forall i :: 0 <= i < |up| ==> (first + up)[|first| + i] == up[i];
      DrainOrder(bs[1..]);
      AscendingPriorities(bs[1..], bs[0].priority + 1);
    }
  }

  /** After any enqueues into an empty queue: the `capacity` greatest arrivals are held, and they
      leave by priority and then by arrival. */
  method AfterEnqueues(capacity: nat, priorities: seq<nat>) returns (q: PriorityQueue<int>)
    ensures q.Valid() && q.capacity == capacity
    ensures Ascending(q.buckets) == Last(InsertAll(Numbered(priorities)), capacity)
    ensures SortedSooner(q.Queued()) && multiset(q.Queued()) == multiset(Ascending(q.buckets))
  {
    q := new PriorityQueue<int>(capacity);
    ghost var all := Numbered(priorities);
    for n := 0 to |priorities|
      invariant fresh(q) && q.Valid() && q.capacity == capacity
      invariant Ascending(q.buckets) == AdmitAll(all[..n], capacity)
    {
      assert all[..n + 1][..n] == all[..n];
      q.Enqueue(priorities[n], n);
    }
    assert all[..|priorities|] == all;
    AdmitKeepsGreatest(all, capacity);
    InsertAllOrder(priorities);
    DrainOrder(q.buckets);
    SameItems(q.buckets);
  }
}
