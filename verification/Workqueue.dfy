// The mutex-protected ring buffer shared by the driver's threads. Each method
// is one critical section; waiting on the condition variable shows up as the
// outcome Blocked, after which the thread comes back with `resumed` set.
module Ring {
  import opened Fifo

  /** What one evaluation of a pop under the lock ends in. The two null outcomes
      differ in whether the size out-parameter has been written. */
  datatype Outcome = Blocked | NullEarly | NullAfterWait | Batch

  /** A pop past its first test does what the sequence view says. */
  ghost predicate Finds<T>(outcome: Outcome, size: nat, left: seq<T>, p: Popped<T>) {
    match p
    case Wait => outcome == Blocked
    case Nothing(n) => outcome == NullAfterWait && size == n
    case Some(items, rest) => outcome == Batch && size == |items| && left == rest
  }

  class Workqueue<T(0)> {
    const capacity: nat
    const buffer: array<T>
    var size: nat
    var end: nat
    var start: nat
    var released: bool

    ghost predicate Valid()
      reads this
    {
      && 1 <= capacity == buffer.Length
      && size < capacity
      && start <= capacity
      && (start == capacity ==> capacity == 1)
      && end == LastIndex(start, size, capacity)
    }

    /** The queued packets, oldest first. */
    ghost function Contents(): (s: seq<T>)
      requires Valid()
      reads this, buffer
      ensures |s| == size
    {
      Occupied(buffer[..], start, size)
    }

    /** A ring without a slot can be made, but nothing can be done with it. */
    constructor (capacity: nat)
      ensures this.capacity == buffer.Length == capacity && fresh(buffer)
      ensures size == 0 && end == 0 && start == 1 && !released
      ensures 1 <= capacity ==> Valid() && Contents() == []
    {
      this.capacity := capacity;
      buffer := new T[capacity];
      size, end, start, released := 0, 0, 1, false;
    }

    method AddToEnd()
      requires 1 <= capacity && end < capacity
      modifies this`end
      ensures end == if old(end) == capacity - 1 then 0 else old(end) + 1
    {
      if end == capacity - 1 {
        end := 0;
        return;
      }
      end := end + 1;
    }

    method AddToStart(n: nat)
      modifies this`start
      ensures start == if old(start) + n >= capacity then old(start) + n - capacity else old(start) + n
    {
      start := start + n;
      if start >= capacity {
        start := start - capacity;
      }
    }

    predicate AbleToInputPacket()
      requires 1 <= capacity
      reads this
    {
      !(size == capacity - 1)
    }

    predicate Empty()
      reads this
    {
      size == 0
    }

    predicate NeedsSplit(wantsToRemove: nat)
      reads this
    {
      start + wantsToRemove > capacity
    }

    /** `notified` says whether a waiter was signalled: once per accepted
        packet and never for a dropped one. */
    method Push(packet: T) returns (notified: bool)
      requires Valid()
      modifies this`size, this`end, buffer
      ensures Valid()
      ensures Contents() == Put(old(Contents()), capacity, packet)
      ensures notified == !Full(old(Contents()), capacity)
      ensures if |old(Contents())| + 1 < capacity
              then Contents() == old(Contents()) + [packet] && notified
              else Contents() == old(Contents()) && !notified
    {
      if !AbleToInputPacket() {
        return false;
      }
      ghost var before := Contents();
      AddToEnd();
      size := size + 1;
      buffer[end] := packet;
      assert Contents() == before + [packet];
      return true;
    }

    /** The standard library's range copy, from the ring into a fresh list. */
    method CopyOut(from: nat, n: nat, list: array<T>, at: nat)
      requires from + n <= buffer.Length && at + n <= list.Length && list != buffer
      modifies list
      ensures list[..at + n] == old(list[..at]) + buffer[from..from + n]
    {
      for i := 0 to n
        invariant list[..at + i] == old(list[..at]) + buffer[from..from + i]
      {
        list[at + i] := buffer[from + i];
        assert list[..at + i + 1] == list[..at + i] + [buffer[from + i]];
      }
    }

    /** The first `n` packets: one copy, or two when they wrap. */
    method CopyFront(n: nat) returns (list: array<T>)
      requires Valid() && n <= size
      ensures fresh(list) && list[..] == Contents()[..n]
    {
      FrontOfOccupied(buffer[..], start, size, n);
      list := new T[n];
      if NeedsSplit(n) {
        var fSplit := capacity - start;
        CopyOut(start, fSplit, list, 0);
        CopyOut(0, n - fSplit, list, fSplit);
        assert list[..] == list[..fSplit + (n - fSplit)];
      } else {
        CopyOut(start, n, list, 0);
        assert list[..] == list[..n];
      }
    }

    method RemoveFront(n: nat) returns (list: array<T>)
      requires Valid() && n <= size
      modifies this`size, this`start
      ensures Valid() && fresh(list)
      ensures list[..] == old(Contents())[..n]
      ensures Contents() == old(Contents())[n..]
    {
      list := CopyFront(n);
      FrontOfOccupied(buffer[..], start, size, n);
      AddToStart(n);
      size := size - n;
    }

    /** `stale` is what the caller's uninitialised size variable happens to hold. */
    method PopSize(want: nat, resumed: bool, stale: nat)
      returns (outcome: Outcome, actualSize: nat, list: array?<T>)
      requires Valid()
      modifies this`size, this`start
      ensures Valid()
      ensures outcome == NullEarly <==> released && !resumed
      ensures outcome == NullAfterWait <==> released && resumed
      ensures outcome == Blocked <==> !released && old(Contents()) == []
      ensures outcome == Batch <==> list != null
      ensures outcome == Batch ==>
                && fresh(list) && actualSize == Min(want, |old(Contents())|)
                && list[..] == old(Contents())[..actualSize]
                && Contents() == old(Contents())[actualSize..]
      ensures outcome != Batch ==> Contents() == old(Contents())
      ensures Finds(outcome, actualSize, Contents(), Pop(old(Contents()), released, want)) || outcome == NullEarly
      ensures outcome == Batch ==> list[..] == Pop(old(Contents()), released, want).items
      ensures outcome == NullEarly ==> actualSize == stale
      ensures outcome == Batch || outcome == NullAfterWait ==>
                && actualSize <= want && actualSize <= |old(Contents())|
                && (actualSize == want || actualSize == |old(Contents())|)
    {
      if released && !resumed {
        return NullEarly, stale, null;
      }
      if !(!Empty() || released) {
        return Blocked, stale, null;
      }
      actualSize := if size < want then size else want;
      if released {
        return NullAfterWait, actualSize, null;
      }
      list := RemoveFront(actualSize);
      outcome := Batch;
    }

    method PopAll(resumed: bool, stale: nat)
      returns (outcome: Outcome, actualSize: nat, list: array?<T>)
      requires Valid()
      modifies this`size, this`start
      ensures Valid()
      ensures outcome == NullEarly <==> released && !resumed
      ensures outcome == NullAfterWait <==> released && resumed
      ensures outcome == Blocked <==> !released && old(Contents()) == []
      ensures outcome == Batch <==> list != null
      ensures outcome == Batch ==>
                && fresh(list) && list[..] == old(Contents())
                && actualSize == |old(Contents())| && Contents() == []
      ensures outcome != Batch ==> Contents() == old(Contents())
      ensures var want := if released then 0 else |old(Contents())|;
              Finds(outcome, actualSize, Contents(), Pop(old(Contents()), released, want)) || outcome == NullEarly
      ensures outcome == NullEarly ==> actualSize == stale
      ensures outcome == NullAfterWait ==> actualSize == 0
    {
      if released && !resumed {
        return NullEarly, stale, null;
      }
      if !(!Empty() || released) {
        return Blocked, stale, null;
      }
      if released {
        return NullAfterWait, 0, null;
      }
      actualSize := size;
      list := RemoveFront(actualSize);
      outcome := Batch;
    }

    /** Every waiter is signalled and the flag is set under the lock. */
    method ReleaseAll()
      requires Valid()
      modifies this`released
      ensures Valid() && released && Contents() == old(Contents())
    {
      released := true;
    }
  }

  /** The slot of the newest packet, one behind `start` when the ring is empty. */
  function LastIndex(start: nat, size: nat, capacity: nat): int {
    if start + size == 0 then capacity - 1
    else if start + size - 1 < capacity then start + size - 1
    else start + size - 1 - capacity
  }

  /** In modular form: end is (start + size - 1) mod capacity. */
  lemma LastIndexIsModular(start: nat, size: nat, capacity: nat)
    requires 1 <= capacity && size < capacity && start <= capacity
    ensures LastIndex(start, size, capacity) == (start + size + capacity - 1) % capacity
  {
    var turns := if start + size == 0 then 0 else if start + size - 1 < capacity then 1 else 2;
    RemainderUnique(start + size + capacity - 1, turns, LastIndex(start, size, capacity), capacity);
  }

  lemma RemainderUnique(x: nat, q: int, r: nat, m: nat)
    requires r < m && x == q * m + r
    ensures x % m == r
  {
    var d := q - x / m;
    assert d * m == x % m - r;
    assert d == 0;
  }

  /** The `size` slots from `start` on, wrapping at the end of the buffer. */
  ghost function Occupied<T>(slots: seq<T>, start: nat, size: nat): (s: seq<T>)
    requires start <= |slots| && size <= |slots|
    ensures |s| == size
  {
    if start + size <= |slots| then slots[start..start + size]
    else slots[start..] + slots[..start + size - |slots|]
  }

  /** Taking `n` slots and moving `start` past them, wrapping when it reaches
      the end, splits the occupied slots at `n`. */
  lemma FrontOfOccupied<T>(slots: seq<T>, start: nat, size: nat, n: nat)
    requires start <= |slots| && n <= size <= |slots|
    ensures Occupied(slots, start, size)[..n]
         == if start + n > |slots| then slots[start..] + slots[..start + n - |slots|] else slots[start..start + n]
    ensures var next := if start + n >= |slots| then start + n - |slots| else start + n;
            Occupied(slots, next, size - n) == Occupied(slots, start, size)[n..]
  {
    if start + size <= |slots| {
      StraightFront(slots, start, size, n);
    } else {
      WrappedFront(slots, start, size, n);
    }
  }

  lemma StraightFront<T>(slots: seq<T>, start: nat, size: nat, n: nat)
    requires start + size <= |slots| && n <= size
    ensures Occupied(slots, start, size)[..n] == slots[start..start + n]
    ensures Occupied(slots, if start + n >= |slots| then start + n - |slots| else start + n, size - n)
         == Occupied(slots, start, size)[n..]
  {
    SliceOfSlice(slots, start, start + size, n);
  }

  lemma WrappedFront<T>(slots: seq<T>, start: nat, size: nat, n: nat)
    requires start <= |slots| < start + size && n <= size <= |slots|
    ensures Occupied(slots, start, size)[..n]
         == if start + n > |slots| then slots[start..] + slots[..start + n - |slots|] else slots[start..start + n]
    ensures Occupied(slots, if start + n >= |slots| then start + n - |slots| else start + n, size - n)
         == Occupied(slots, start, size)[n..]
  {
    var first, second := slots[start..], slots[..start + size - |slots|];
    SplitOfSum(first, second, n);
    if start + n <= |slots| {
      SliceOfSlice(slots, start, |slots|, n);
    } else {
      SliceOfSlice(slots, 0, |second|, n - |first|);
    }
  }

  lemma SliceOfSlice<T>(s: seq<T>, lo: nat, hi: nat, n: nat)
    requires lo <= hi <= |s| && n <= hi - lo
    ensures s[lo..hi][..n] == s[lo..lo + n] && s[lo..hi][n..] == s[lo + n..hi]
  {
  }

  lemma SplitOfSum<T>(a: seq<T>, b: seq<T>, n: nat)
    requires n <= |a| + |b|
    ensures (a + b)[..n] == if n <= |a| then a[..n] else a + b[..n - |a|]
    ensures (a + b)[n..] == if n <= |a| then a[n..] + b else b[n - |a|..]
  {
  }
}
