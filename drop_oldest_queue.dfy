/** The bounded FIFO queues of the application and the drop-oldest put that
    every producer uses on them: when the queue is full, exactly one oldest
    element is taken out before the new element is put at the back. */
module DropOldestQueue {
  import opened Wrappers

  /** The last n elements of s (all of s when it is shorter). */
  function LastN<T>(s: seq<T>, n: nat): (r: seq<T>)
    ensures |r| == if |s| <= n then |s| else n
    ensures r == s[|s| - |r|..]
  {
    if |s| <= n then s else s[|s| - n..]
  }

  /** The contents of a queue of capacity cap holding q after a drop-oldest
      put of x: the cap most recent of q + [x]. */
  function Pushed<T>(q: seq<T>, cap: nat, x: T): (r: seq<T>)
    requires 0 < cap && |q| <= cap
    ensures r == LastN(q + [x], cap)
    ensures 0 < |r| <= cap && r[|r| - 1] == x
    ensures |q| < cap ==> r == q + [x]
  {
    var kept := if |q| >= cap then q[1..] else q;
    kept + [x]
  }

  /** A drop-oldest put adds nothing but the new element. */
  lemma PushedKeepsOldOrNew<T>(q: seq<T>, cap: nat, x: T)
    requires 0 < cap && |q| <= cap
    ensures forall y :: y in Pushed(q, cap, x) ==> y in q || y == x
  {
    var kept := if |q| >= cap then q[1..] else q;
    assert Pushed(q, cap, x) == kept + [x];
    assert forall y :: y in kept ==> y in q;
  }

  /** The contents after drop-oldest puts of xs, in order. */
  function PushedAll<T>(q: seq<T>, cap: nat, xs: seq<T>): (r: seq<T>)
    requires 0 < cap && |q| <= cap
    ensures |r| <= cap
    decreases |xs|
  {
    if xs == [] then q else PushedAll(Pushed(q, cap, xs[0]), cap, xs[1..])
  }

  /** Taking the last n elements of a suffix t of u that is at least n long
      (or is u itself) gives the last n elements of u. */
  lemma LastNOfSuffix<T>(t: seq<T>, u: seq<T>, n: nat)
    requires |t| <= |u| && t == u[|u| - |t|..]
    requires |t| >= n || t == u
    ensures LastN(t, n) == LastN(u, n)
  {
    if t != u {
      assert t[|t| - n..] == u[|u| - n..];
    }
  }

  /** One drop-oldest put followed by more elements keeps the same last cap
      elements as keeping everything. */
  lemma PushedThenMore<T>(q: seq<T>, cap: nat, x: T, rest: seq<T>)
    requires 0 < cap && |q| <= cap
    ensures LastN(Pushed(q, cap, x) + rest, cap) == LastN(q + [x] + rest, cap)
  {
    var u := q + [x];
    var q1 := Pushed(q, cap, x);
    assert q1 + rest == (u + rest)[|u| - |q1|..];
    LastNOfSuffix(q1 + rest, u + rest, cap);
  }

  lemma SplitFirst<T>(q: seq<T>, xs: seq<T>)
    requires xs != []
    ensures q + [xs[0]] + xs[1..] == q + xs
  {
  }

  /** The drop-oldest law: whatever sequence of puts is made, the queue
      holds exactly the cap most recently put elements, in put order. */
  lemma {:induction false} DropOldestLaw<T>(q: seq<T>, cap: nat, xs: seq<T>)
    requires 0 < cap && |q| <= cap
    ensures PushedAll(q, cap, xs) == LastN(q + xs, cap)
    decreases |xs|
  {
    if xs == [] {
      assert q + xs == q;
    } else {
      DropOldestLaw(Pushed(q, cap, xs[0]), cap, xs[1..]);
      PushedThenMore(q, cap, xs[0], xs[1..]);
      SplitFirst(q, xs);
    }
  }

  /** FIFO without overflow: when the puts never exceed the capacity, nothing
      is evicted and the queue holds its old contents followed by xs. */
  lemma FifoWithoutOverflow<T>(q: seq<T>, cap: nat, xs: seq<T>)
    requires 0 < cap && |q| + |xs| <= cap
    ensures PushedAll(q, cap, xs) == q + xs
  {
    DropOldestLaw(q, cap, xs);
  }

  /** The integers lo, lo + 1, ..., hi - 1. */
  function Range(lo: int, hi: int): (r: seq<int>)
    requires lo <= hi
    ensures |r| == hi - lo
  {
    seq(hi - lo, i => lo + i)
  }

  /** Dropping the first k of lo..hi - 1 leaves lo + k..hi - 1. */
  lemma RangeSuffix(lo: int, hi: int, k: nat)
    requires lo + k <= hi
    ensures Range(lo, hi)[k..] == Range(lo + k, hi)
  {
    var s := Range(lo, hi)[k..];
    forall i | 0 <= i < |s|
      ensures s[i] == lo + k + i
    {
      assert s[i] == Range(lo, hi)[k + i];
    }
  }

  /** A burst of at least cap puts leaves exactly the last cap elements of
      the burst, in order, whatever the queue held before. */
  lemma BurstKeepsNewest<T>(q: seq<T>, cap: nat, xs: seq<T>)
    requires 0 < cap <= |xs| && |q| <= cap
    ensures PushedAll(q, cap, xs) == xs[|xs| - cap..]
  {
    DropOldestLaw(q, cap, xs);
    assert (q + xs)[|q + xs| - cap..] == xs[|xs| - cap..];
  }

  /** Frames 1..205 put into an empty queue of capacity 200 leave frames
      6..205 in order; frames 1..5 are gone. */
  lemma OverflowScenario()
    ensures PushedAll([], 200, Range(1, 206)) == Range(6, 206)
  {
    var frames := Range(1, 206);
    BurstKeepsNewest([], 200, frames);
    RangeSuffix(1, 206, 5);
  }

  /** A bounded FIFO queue (Python's `queue.Queue(maxsize)` and
      `multiprocessing.Queue(maxsize)`), used by one producer and one
      consumer at a time. */
  class BoundedQueue<T> {
    const capacity: nat
    var items: seq<T>

    ghost predicate Valid()
      reads this
    {
      0 < capacity && |items| <= capacity
    }

    constructor (capacity: nat)
      requires 0 < capacity
      ensures Valid() && this.capacity == capacity && items == []
    {
      this.capacity := capacity;
      items := [];
    }

    /** `full()`: the queue holds maxsize elements; a valid queue never
        holds more. */
    predicate Full()
      reads this
      ensures Valid() ==> (Full() <==> |items| == capacity)
    {
      |items| >= capacity
    }

    /** `empty()`: no element is queued; a valid empty queue is never full,
        because its capacity is positive. */
    predicate Empty()
      reads this
      ensures Empty() <==> |items| == 0
      ensures Valid() && Empty() ==> !Full()
    {
      items == []
    }

    /** `get_nowait()` (and a `get` whose timeout expires): the front
        element, or None where Python raises `Empty`. */
    method GetNowait() returns (r: Option<T>)
      requires Valid()
      modifies this
      ensures Valid()
      ensures old(items) == [] ==> r == None && items == []
      ensures old(items) != [] ==> r == Some(old(items)[0]) && items == old(items)[1..]
    {
      if items == [] {
        r := None;
      } else {
        r := Some(items[0]);
        items := items[1..];
      }
    }

    /** `put(x, block=False)`: appends x, or refuses it where Python raises
        `Full`. */
    method PutNowait(x: T) returns (ok: bool)
      requires Valid()
      modifies this
      ensures Valid()
      ensures ok == (|old(items)| < capacity)
      ensures items == if ok then old(items) + [x] else old(items)
    {
      ok := |items| < capacity;
      if ok {
        items := items + [x];
      }
    }

    /** The drop-oldest put the producers write out: if the queue is full,
        take one element off the front, then put x without blocking. */
    method Push(x: T)
      requires Valid()
      modifies this
      ensures Valid()
      ensures items == Pushed(old(items), capacity, x)
    {
      if Full() {
        var evicted := GetNowait();
      }
      var ok := PutNowait(x);
    }

    /** `while not q.empty(): q.get_nowait()`. */
    method Drain()
      requires Valid()
      modifies this
      ensures Valid() && items == []
    {
      while !Empty()
        invariant Valid()
        decreases |items|
      {
        var dropped := GetNowait();
      }
    }
  }
}
