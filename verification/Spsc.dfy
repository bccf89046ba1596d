/**
 The single-producer single-consumer ring (WFSPSC.h), one operation after another. The ring checks
 nothing: a producer may lap the consumer and a consumer may run ahead of the producer.
*/
module Spsc {
  import opened LogRing

  datatype Ring<T> = Ring(writeIdx: nat, readIdx: nat, blks: seq<T>)
  {
    function Cell(i: nat): nat
      requires |blks| > 0
    {
      i % |blks|
    }

    /** emplace and tryVisitPush: entry writeIdx + 1 is stored, then the index is published. */
    function Push(v: T): Ring<T>
      requires |blks| > 0
    {
      Ring(writeIdx + 1, readIdx, blks[Cell(writeIdx + 1) := v])
    }

    /** What pop and tryVisitPop read. */
    function Front(): T
      requires |blks| > 0
    {
      blks[Cell(readIdx + 1)]
    }

    function Pop(): Ring<T> {
      this.(readIdx := readIdx + 1)
    }

    function Reset(): Ring<T> {
      this.(writeIdx := 0, readIdx := 0)
    }
  }

  datatype Op<T> = DoPush(value: T) | DoPop | DoReset

  function Apply<T>(r: Ring<T>, op: Op<T>): (r': Ring<T>)
    requires |r.blks| > 0
    ensures |r'.blks| == |r.blks|
  {
    match op
    case DoPush(v) => r.Push(v)
    case DoPop => r.Pop()
    case DoReset => r.Reset()
  }

  function ApplyAll<T>(r: Ring<T>, ops: seq<Op<T>>): (r': Ring<T>)
    requires |r.blks| > 0
    ensures |r'.blks| == |r.blks|
  {
    if ops == [] then r else Apply(ApplyAll(r, ops[..|ops| - 1]), ops[|ops| - 1])
  }

  // The history, without the ring.

  /** The values pushed since the last reset. */
  function Entries<T>(ops: seq<Op<T>>): seq<T> {
    if ops == [] then []
    else match ops[|ops| - 1]
      case DoPush(v) => Entries(ops[..|ops| - 1]) + [v]
      case DoPop => Entries(ops[..|ops| - 1])
      case DoReset => []
  }

  /** The number of pops since the last reset. */
  function Pops<T>(ops: seq<Op<T>>): nat {
    if ops == [] then 0
    else match ops[|ops| - 1]
      case DoPush(_) => Pops(ops[..|ops| - 1])
      case DoPop => Pops(ops[..|ops| - 1]) + 1
      case DoReset => 0
  }

  /** What the cells held at the last reset, which clears the indices but not the cells. */
  function Leftover<T>(r: Ring<T>, ops: seq<Op<T>>): (s: seq<T>)
    requires |r.blks| > 0
    ensures |s| == |r.blks|
  {
    if ops == [] then r.blks
    else if ops[|ops| - 1].DoReset? then ApplyAll(r, ops).blks
    else Leftover(r, ops[..|ops| - 1])
  }

  /** What the history says that the cell of index i holds. */
  function Expected<T>(r: Ring<T>, ops: seq<Op<T>>, i: nat): T
    requires |r.blks| > 0
  {
    var k := Latest(|Entries(ops)|, i, |r.blks|);
    if 1 <= k <= |Entries(ops)| then Entries(ops)[k - 1] else Leftover(r, ops)[i % |r.blks|]
  }

  lemma HistoryAfterPush<T>(r: Ring<T>, ops: seq<Op<T>>, v: T)
    requires |r.blks| > 0
    ensures Entries(ops + [DoPush(v)]) == Entries(ops) + [v]
    ensures Leftover(r, ops + [DoPush(v)]) == Leftover(r, ops)
  {
    assert (ops + [DoPush(v)])[..|ops|] == ops;
  }

  lemma PushFollowsHistory<T>(r: Ring<T>, ops: seq<Op<T>>, v: T, i: nat)
    requires |r.blks| > 0
    requires ApplyAll(r, ops).writeIdx == |Entries(ops)|
    requires ApplyAll(r, ops).blks[i % |r.blks|] == Expected(r, ops, i)
    ensures ApplyAll(r, ops).Push(v).blks[i % |r.blks|] == Expected(r, ops + [DoPush(v)], i)
  {
    var n, w := |r.blks|, |Entries(ops)|;
    HistoryAfterPush(r, ops, v);
    LatestAfterOneMore(w, i, n);
    LatestIsGreatest(w, i, n);
  }

  /** Without any assumption on the calls, the history determines both indices and every cell. */
  lemma {:induction false} ClosedForm<T>(r: Ring<T>, ops: seq<Op<T>>)
    requires |r.blks| > 0 && r.writeIdx == 0 && r.readIdx == 0
    ensures var r' := ApplyAll(r, ops);
      && r'.writeIdx == |Entries(ops)| && r'.readIdx == Pops(ops)
      && forall i: nat :: r'.blks[i % |r.blks|] == Expected(r, ops, i)
  {
    var n := |r.blks|;
    if ops == [] {
      forall i: nat
        ensures r.blks[i % n] == Expected(r, ops, i)
      {
        LatestIsGreatest(0, i, n);
      }
    } else {
      var before, op := ops[..|ops| - 1], ops[|ops| - 1];
      assert ops == before + [op];
      ClosedForm(r, before);
      forall i: nat
        ensures ApplyAll(r, ops).blks[i % n] == Expected(r, ops, i)
      {
        match op
        case DoPush(v) => PushFollowsHistory(r, before, v, i);
        case DoPop =>
        case DoReset => LatestIsGreatest(0, i, n);
      }
    }
  }

  /**
   The next pop returns the entry at the greatest index up to writeIdx of its cell, if one has been
   pushed there since the reset. That is the entry of its own index exactly while that entry exists and
   has not been lapped.
  */
  lemma PopReturns<T>(r: Ring<T>, ops: seq<Op<T>>)
    requires |r.blks| > 0 && r.writeIdx == 0 && r.readIdx == 0
    ensures var n, w, i := |r.blks|, |Entries(ops)|, Pops(ops) + 1; var k := Latest(w, i, n);
      && (k >= 1 ==> k <= w && ApplyAll(r, ops).Front() == Entries(ops)[k - 1])
      && (k < 1 ==> ApplyAll(r, ops).Front() == Leftover(r, ops)[i % n])
      && (k == i <==> w - n < i <= w)
  {
    ClosedForm(r, ops);
    LatestIsGreatest(|Entries(ops)|, Pops(ops) + 1, |r.blks|);
    LatestIsItself(|Entries(ops)|, Pops(ops) + 1, |r.blks|);
  }

  class WfSpsc<T(0)> {
    var writeIdx: nat
    var readIdx: nat
    const blks: array<T>

    ghost predicate Valid()
      reads this
    {
      blks.Length > 0
    }

    ghost function View(): Ring<T>
      reads this, blks
    {
      Ring(writeIdx, readIdx, blks[..])
    }

    /** Zeroed shared memory. */
    constructor (size: nat)
      requires size > 0
      ensures Valid() && fresh(blks) && blks.Length == size
      ensures writeIdx == 0 && readIdx == 0
    {
      blks := new T[size];
      writeIdx, readIdx := 0, 0;
    }

    method Size() returns (n: int)
      ensures n == writeIdx - readIdx
    {
      n := writeIdx - readIdx;
    }

    method Empty() returns (b: bool)
      ensures b <==> writeIdx <= readIdx
    {
      var n := Size();
      b := n <= 0;
    }

    method Reset()
      requires Valid()
      modifies this
      ensures Valid() && View() == old(View()).Reset()
    {
      writeIdx := 0;
      readIdx := 0;
    }

    method TryVisitPush(v: T) returns (ok: bool)
      requires Valid()
      modifies this`writeIdx, blks
      ensures Valid() && ok && View() == old(View()).Push(v)
    {
      var idx := writeIdx + 1;
      blks[idx % blks.Length] := v;
      writeIdx := idx;
      ok := true;
    }

    method Pop() returns (v: T)
      requires Valid()
      modifies this`readIdx
      ensures Valid() && v == old(View()).Front() && View() == old(View()).Pop()
    {
      var idx := readIdx + 1;
      v := blks[idx % blks.Length];
      readIdx := idx;
    }
  }
}
