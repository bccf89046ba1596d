/**
 The single-producer single-consumer ring (WFSPSC.h) shared by two threads, with the data access and the
 publication of the index as separate steps. The producer asks whether there is room, and the consumer
 whether there is an entry, before starting; the ring itself does not.
*/
module SpscThreads {
  import opened Modular

  datatype Cell<T> = Unset | Torn | Full(value: T)

  datatype Producer<T> =
    | Resting
    | Cleared(value: T)   // has seen writeIdx - readIdx < SIZE
    | Storing(value: T)   // the data write is under way
    | Stored(value: T)    // about to publish writeIdx + 1

  datatype Consumer<T> =
    | Resting
    | Cleared             // has seen !empty()
    | Loading(seen: Cell<T>)
    | Loaded(got: Cell<T>)

  /** `pushed` and `popped` log the values published and returned. */
  datatype State<T> = State(
    writeIdx: nat, readIdx: nat, blks: seq<Cell<T>>,
    producer: Producer<T>, consumer: Consumer<T>,
    pushed: seq<T>, popped: seq<Cell<T>>)
  {
    function WriteCell(): nat
      requires |blks| > 0
    {
      (writeIdx + 1) % |blks|
    }

    function ReadCell(): nat
      requires |blks| > 0
    {
      (readIdx + 1) % |blks|
    }
  }

  datatype Move<T> = Offer(value: T) | Produce | Consume

  function Next<T(==)>(s: State<T>, mv: Move<T>): (s': State<T>)
    requires |s.blks| > 0
    ensures |s'.blks| == |s.blks|
  {
    match mv
    case Offer(v) =>
      if s.producer.Resting? && s.writeIdx - s.readIdx < |s.blks| then s.(producer := Producer.Cleared(v)) else s
    case Produce =>
      (match s.producer
       case Resting => s
       case Cleared(v) => s.(blks := s.blks[s.WriteCell() := Torn], producer := Storing(v))
       case Storing(v) => s.(blks := s.blks[s.WriteCell() := Full(v)], producer := Stored(v))
       case Stored(v) =>
         s.(writeIdx := s.writeIdx + 1, pushed := s.pushed + [v], producer := Producer.Resting))
    case Consume =>
      (match s.consumer
       case Resting => if s.writeIdx - s.readIdx > 0 then s.(consumer := Consumer.Cleared) else s
       case Cleared => s.(consumer := Loading(s.blks[s.ReadCell()]))
       case Loading(seen) =>
         s.(consumer := Loaded(if s.blks[s.ReadCell()] == seen then seen else Torn))
       case Loaded(got) =>
         s.(readIdx := s.readIdx + 1, popped := s.popped + [got], consumer := Consumer.Resting))
  }

  function Run<T(==)>(s: State<T>, moves: seq<Move<T>>): (s': State<T>)
    requires |s.blks| > 0
    ensures |s'.blks| == |s.blks|
  {
    if moves == [] then s else Next(Run(s, moves[..|moves| - 1]), moves[|moves| - 1])
  }

  function Initial<T>(size: nat): State<T> {
    State(0, 0, seq(size, _ => Unset), Producer.Resting, Consumer.Resting, [], [])
  }

  /** Every published and unread entry is in its cell. */
  ghost predicate EntriesInPlace<T>(s: State<T>)
    requires |s.blks| > 0
  {
    && s.writeIdx == |s.pushed|
    && forall k | s.readIdx < k <= s.writeIdx :: s.blks[k % |s.blks|] == Full(s.pushed[k - 1])
  }

  ghost predicate Inv<T>(s: State<T>) {
    && |s.blks| > 0
    && s.readIdx == |s.popped| && s.readIdx <= s.writeIdx <= s.readIdx + |s.blks|
    && EntriesInPlace(s)
    && (forall k | 0 <= k < |s.popped| :: s.popped[k] == Full(s.pushed[k]))
    && (!s.producer.Resting? ==> s.writeIdx - s.readIdx < |s.blks|)
    && (s.producer.Stored? ==> s.blks[s.WriteCell()] == Full(s.producer.value))
    && (!s.consumer.Resting? ==> s.writeIdx > s.readIdx)
    && (s.consumer.Loading? ==> s.consumer.seen == Full(s.pushed[s.readIdx]))
    && (s.consumer.Loaded? ==> s.consumer.got == Full(s.pushed[s.readIdx]))
  }

  /** The cell being written holds no unread entry. */
  lemma WriteCellIsFree(w: nat, r: nat, k: nat, n: nat)
    requires n > 0 && r < k <= w < r + n
    ensures (w + 1) % n != k % n
  {
    if (w + 1) % n == k % n {
      SameSlotGap(k, w + 1, n);
    }
  }

  lemma ProduceKeepsInv<T>(s: State<T>)
    requires Inv(s)
    ensures Inv(Next(s, Produce))
  {
    var s' := Next(s, Produce);
    if !s.producer.Resting? {
      forall k: nat | s.readIdx < k <= s.writeIdx
        ensures s.WriteCell() != k % |s.blks|
      {
        WriteCellIsFree(s.writeIdx, s.readIdx, k, |s.blks|);
      }
    }
  }

  lemma ConsumeKeepsInv<T>(s: State<T>)
    requires Inv(s)
    ensures Inv(Next(s, Consume))
  {
  }

  lemma NextKeepsInv<T>(s: State<T>, mv: Move<T>)
    requires Inv(s)
    ensures Inv(Next(s, mv))
  {
    match mv
    case Offer(_) =>
    case Produce => ProduceKeepsInv(s);
    case Consume => ConsumeKeepsInv(s);
  }

  lemma {:induction false} RunKeepsInv<T>(size: nat, moves: seq<Move<T>>)
    requires size > 0
    ensures Inv(Run(Initial<T>(size), moves))
  {
    if moves != [] {
      RunKeepsInv(size, moves[..|moves| - 1]);
      NextKeepsInv(Run(Initial<T>(size), moves[..|moves| - 1]), moves[|moves| - 1]);
    }
  }

  // What a run does, told from its moves alone.

  /**
   The values offered when the producer was idle and there was room; how many of them have been published,
   and how far the write under way has got; how many have been returned, and how far that pop has got.
  */
  datatype Tally<T> = Tally(accepted: seq<T>, written: nat, writeStep: nat, returned: nat, readStep: nat)

  /** A write and a pop take three steps each after their guard. */
  function Count<T>(a: Tally<T>, size: nat, mv: Move<T>): Tally<T> {
    match mv
    case Offer(v) =>
      if a.writeStep == 0 && a.written - a.returned < size then a.(accepted := a.accepted + [v], writeStep := 1)
      else a
    case Produce =>
      if a.writeStep == 0 then a
      else if a.writeStep < 3 then a.(writeStep := a.writeStep + 1)
      else a.(writeStep := 0, written := a.written + 1)
    case Consume =>
      if a.readStep == 0 then (if a.returned < a.written then a.(readStep := 1) else a)
      else if a.readStep < 3 then a.(readStep := a.readStep + 1)
      else a.(readStep := 0, returned := a.returned + 1)
  }

  function Tallied<T>(size: nat, moves: seq<Move<T>>): Tally<T> {
    if moves == [] then Tally([], 0, 0, 0, 0)
    else Count(Tallied(size, moves[..|moves| - 1]), size, moves[|moves| - 1])
  }

  ghost predicate Means<T>(s: State<T>, a: Tally<T>) {
    && s.writeIdx == a.written && s.readIdx == a.returned == |s.popped|
    && a.returned <= a.written <= |a.accepted| && s.pushed == a.accepted[..a.written]
    && (forall k | 0 <= k < a.returned :: s.popped[k] == Full(a.accepted[k]))
    && (a.readStep == 0 || a.returned < a.written)
    && (match a.writeStep
        case 0 => s.producer == Producer.Resting && |a.accepted| == a.written
        case _ =>
          && |a.accepted| == a.written + 1
          && var v := a.accepted[a.written];
             match a.writeStep
             case 1 => s.producer == Producer.Cleared(v)
             case 2 => s.producer == Storing(v)
             case 3 => s.producer == Stored(v)
             case _ => false)
    && (match a.readStep
        case 0 => s.consumer == Consumer.Resting
        case 1 => s.consumer == Consumer.Cleared
        case 2 => s.consumer == Loading(Full(a.accepted[a.returned]))
        case 3 => s.consumer == Loaded(Full(a.accepted[a.returned]))
        case _ => false)
  }

  lemma OfferMeans<T>(s: State<T>, a: Tally<T>, v: T)
    requires Inv(s) && Means(s, a)
    ensures Means(Next(s, Offer(v)), Count(a, |s.blks|, Offer(v)))
  {
  }

  lemma ProduceMeans<T>(s: State<T>, a: Tally<T>)
    requires Inv(s) && Means(s, a)
    ensures Means(Next(s, Produce), Count(a, |s.blks|, Produce))
  {
  }

  lemma ConsumeMeans<T>(s: State<T>, a: Tally<T>)
    requires Inv(s) && Means(s, a)
    ensures Means(Next(s, Consume), Count(a, |s.blks|, Consume))
  {
    assert s.writeIdx > s.readIdx ==> s.blks[s.ReadCell()] == Full(s.pushed[s.readIdx]);
  }

  lemma {:induction false} RunMeans<T>(size: nat, moves: seq<Move<T>>)
    requires size > 0
    ensures Means(Run(Initial<T>(size), moves), Tallied(size, moves))
  {
    hide Next, Count;
    if moves != [] {
      var before := moves[..|moves| - 1];
      var s, a := Run(Initial<T>(size), before), Tallied(size, before);
      RunMeans(size, before);
      RunKeepsInv(size, before);
      match moves[|moves| - 1]
      case Offer(v) => OfferMeans(s, a, v);
      case Produce => ProduceMeans(s, a);
      case Consume => ConsumeMeans(s, a);
    }
  }

  /** The queue that a state stands for: the values published and not yet returned. */
  function Queue<T>(s: State<T>): seq<T>
    requires |s.popped| <= |s.pushed|
  {
    s.pushed[|s.popped|..]
  }

  /**
   In every interleaving the values published, and the one under way, are those accepted, in order, and the
   values returned are the front of them. Each third step after an acceptance publishes one, and each third
   step after finding the ring not empty returns one.
  */
  lemma ReturnsWhatWasPushed<T>(size: nat, moves: seq<Move<T>>)
    requires size > 0
    ensures var s, a := Run(Initial<T>(size), moves), Tallied(size, moves);
      && |a.accepted| == a.written + (if a.writeStep == 0 then 0 else 1) && s.pushed == a.accepted[..a.written]
      && s.writeIdx == a.written && s.readIdx == a.returned == |s.popped|
      && a.returned <= a.written <= a.returned + size
      && forall k | 0 <= k < a.returned :: s.popped[k] == Full(a.accepted[k])
  {
    RunMeans(size, moves);
    RunKeepsInv(size, moves);
  }

  /** Each step appends to the queue, takes its front, or leaves it alone. */
  lemma RefinesQueue<T>(size: nat, moves: seq<Move<T>>, mv: Move<T>)
    requires size > 0
    ensures var s, a := Run(Initial<T>(size), moves), Tallied(size, moves); var s' := Next(s, mv);
      && |s.popped| <= |s.pushed| && |s'.popped| <= |s'.pushed|
      && if mv.Produce? && a.writeStep == 3 then
           a.written < |a.accepted| && Queue(s') == Queue(s) + [a.accepted[a.written]]
         else if mv.Consume? && a.readStep == 3 then
           Queue(s) != [] && s'.popped == s.popped + [Full(Queue(s)[0])] && Queue(s') == Queue(s)[1..]
         else Queue(s') == Queue(s)
  {
    RunMeans(size, moves);
    RunKeepsInv(size, moves);
    NextKeepsInv(Run(Initial<T>(size), moves), mv);
  }

  /** While the producer is storing into a cell, the consumer is not loading from it. */
  lemma NeverSameCell<T>(size: nat, moves: seq<Move<T>>)
    requires size > 0
    ensures var s := Run(Initial<T>(size), moves);
      s.producer.Storing? && s.consumer.Loading? ==> s.WriteCell() != s.ReadCell()
  {
    RunKeepsInv(size, moves);
    var s := Run(Initial<T>(size), moves);
    if s.producer.Storing? && s.consumer.Loading? {
      WriteCellIsFree(s.writeIdx, s.readIdx, s.readIdx + 1, size);
    }
  }

  /**
   The producer's guard is needed: a write that starts with no room tears the very entry that the next
   pop is for, and one that starts with room tears no unread entry.
  */
  lemma GuardIsNeeded<T>(size: nat, moves: seq<Move<T>>, v: T)
    requires size > 0
    requires Run(Initial<T>(size), moves).producer.Resting?
    ensures var s := Run(Initial<T>(size), moves);
      var s' := Next(s.(producer := Producer.Cleared(v)), Produce);
      EntriesInPlace(s') <==> s.writeIdx - s.readIdx < size
  {
    RunKeepsInv(size, moves);
    var s := Run(Initial<T>(size), moves);
    var s' := Next(s.(producer := Producer.Cleared(v)), Produce);
    if s.writeIdx - s.readIdx < size {
      ProduceKeepsInv(s.(producer := Producer.Cleared(v)));
    } else {
      NextLapSameSlot(s.readIdx + 1, size);
      assert s'.blks[(s.readIdx + 1) % size] == Torn;
    }
  }
}
