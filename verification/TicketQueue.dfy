/** A simple bounded queue of numbered places: what the ring is meant to be. */
module TicketQueue {
  import opened Counting
  import opened Modular

  /** `put` has the value put at each number, `taken` the value taken from it. */
  datatype Queue<T> = Queue(capacity: nat, put: map<int, T>, taken: map<int, T>)

  ghost predicate Put<T>(q: Queue<T>, q': Queue<T>, k: int, v: T) {
    && k >= 0 && k !in q.put
    && (k < q.capacity || k - q.capacity in q.taken)
    && q' == q.(put := q.put[k := v])
  }

  ghost predicate Take<T>(q: Queue<T>, q': Queue<T>, k: int) {
    && k in q.put && k !in q.taken
    && q' == q.(taken := q.taken[k := q.put[k]])
  }

  ghost predicate Next<T(!new)>(q: Queue<T>, q': Queue<T>) {
    || q' == q
    || (exists k, v :: Put(q, q', k, v))
    || (exists k :: Take(q, q', k))
  }

  /** Only what was put is taken, and a place is filled only after the one a lap back has been emptied. */
  ghost predicate Sound<T>(q: Queue<T>) {
    && q.capacity > 0
    && (forall k | k in q.taken :: k in q.put && q.taken[k] == q.put[k])
    && (forall k | k in q.put :: k >= 0 && (k >= q.capacity ==> k - q.capacity in q.taken))
  }

  lemma NextKeepsSound<T(!new)>(q: Queue<T>, q': Queue<T>)
    requires Sound(q) && Next(q, q')
    ensures Sound(q')
  {
    if k, v :| Put(q, q', k, v) {
      assert Sound(q');
    } else if k :| Take(q, q', k) {
      assert Sound(q');
    }
  }

  /** Of two places a whole number of laps apart, the earlier one has been emptied before the later is filled. */
  lemma {:induction false} EarlierIsTaken<T>(q: Queue<T>, j: int, k: int)
    requires Sound(q) && k in q.put && 0 <= j < k && j % q.capacity == k % q.capacity
    ensures j in q.taken
    decreases k
  {
    SameSlotGap(j, k, q.capacity);
    NextLapSameSlot(k, q.capacity);
    if j < k - q.capacity {
      EarlierIsTaken(q, j, k - q.capacity);
    }
  }

  lemma WaitingPlacesDiffer<T>(q: Queue<T>, x: int, y: int)
    requires Sound(q) && x in q.put && y in q.put && x !in q.taken && y !in q.taken
    requires x % q.capacity == y % q.capacity
    ensures x == y
  {
    if x < y {
      EarlierIsTaken(q, x, y);
    } else if y < x {
      EarlierIsTaken(q, y, x);
    }
  }

  lemma TakenWasPut<T>(q: Queue<T>)
    requires Sound(q)
    ensures q.capacity > 0 && q.taken.Keys <= q.put.Keys
  {
    forall k | k in q.taken.Keys
      ensures k in q.put.Keys
    {
      assert k in q.taken;
    }
  }

  function Slot(n: nat): int -> int {
    k => if n > 0 then k % n else 0
  }

  /** There are never more values waiting than the capacity. */
  lemma NeverOverfull<T>(q: Queue<T>)
    requires Sound(q)
    ensures |q.put| <= |q.taken| + q.capacity
  {
    hide Sound;
    TakenWasPut(q);
    var waiting := q.put.Keys - q.taken.Keys;
    forall x, y | x in waiting && y in waiting && Slot(q.capacity)(x) == Slot(q.capacity)(y)
      ensures x == y
    {
      WaitingPlacesDiffer(q, x, y);
    }
    ImageSize(waiting, Slot(q.capacity));
    SubsetSize(Image(waiting, Slot(q.capacity)), Below(q.capacity));
    SplitSize(q.put.Keys, q.taken.Keys);
    assert |q.put| == |q.put.Keys| && |q.taken| == |q.taken.Keys|;
  }
}
