/**
 The queue object of WFMPMC.h with its fields. Each method that is one atomic action in the source is
 tied to that action of the machine in MpmcModel; the try calls, when nobody interrupts them, are
 tied to what MpmcSolo shows to be a run of it.
*/
module WfMpmcClass {
  import opened MpmcModel
  import opened MpmcSolo
  import opened Wrappers
  import Theorems = MpmcTheorems
  import Lifetime = MpmcLifetime

  class WfMpmc<T(!new)> {
    var writeIdx: nat
    var readIdx: nat
    const stat: array<int>
    const data: array<Datum<T>>
    const tids: array<nat>
    const writeRec: array<int>
    const readRec: array<int>

    ghost predicate Valid()
      reads this
    {
      && stat.Length > 0 && data.Length == stat.Length
      && tids.Length > 0 && writeRec.Length == tids.Length && readRec.Length == tids.Length
      && stat != writeRec && stat != readRec && writeRec != readRec
    }

    /** The shared memory as a value. */
    ghost function Shared(): (g: Ring<T>)
      requires Valid()
      reads this, stat, data, tids, writeRec, readRec
      ensures g.Shaped()
    {
      Ring(writeIdx, readIdx, stat[..], data[..], tids[..], writeRec[..], readRec[..])
    }

    constructor (size: nat, thrSize: nat)
      requires size > 0 && thrSize > 0
      ensures Valid() && Shared() == Constructed(size, thrSize)
      ensures fresh(stat) && fresh(data) && fresh(tids) && fresh(writeRec) && fresh(readRec)
    {
      writeIdx, readIdx := 0, 0;
      stat := new int[size];
      data := new Datum<T>[size](_ => Raw);
      tids := new nat[thrSize];
      writeRec := new int[thrSize];
      readRec := new int[thrSize];
      new;
      for i := 0 to size
        invariant writeIdx == readIdx == 0
        invariant forall j | 0 <= j < i :: stat[j] == j
        invariant forall j | 0 <= j < size :: data[j] == Raw
      {
        stat[i] := i;
      }
      for i := 0 to thrSize
        invariant writeIdx == readIdx == 0
        invariant stat[..] == seq(size, j => j) && data[..] == seq(size, _ => Raw)
        invariant forall j | 0 <= j < i :: tids[j] == 0 && writeRec[j] == -1 && readRec[j] == -1
      {
        tids[i] := 0;
        writeRec[i] := -1;
        readRec[i] := -1;
      }
      ghost var g := Constructed<T>(size, thrSize);
      assert stat[..] == g.stat && data[..] == g.data;
      assert tids[..] == g.tids && writeRec[..] == g.writeRec && readRec[..] == g.readRec;
    }

    method Size() returns (n: int)
      requires Valid()
      ensures n == Theorems.Size(Shared())
    {
      n := writeIdx - readIdx;
    }

    method Empty() returns (b: bool)
      requires Valid()
      ensures b <==> Theorems.Size(Shared()) <= 0
    {
      var n := Size();
      b := n <= 0;
    }

    method Full() returns (b: bool)
      requires Valid()
      ensures b <==> Theorems.Size(Shared()) >= stat.Length
    {
      var n := Size();
      b := n >= stat.Length;
    }

    method GetWriteIdx() returns (k: nat)
      requires Valid()
      modifies this`writeIdx
      ensures Valid() && k == old(writeIdx) && Shared() == old(Shared()).FetchAdd(Write)
    {
      k := writeIdx;
      writeIdx := writeIdx + 1;
    }

    method GetReadIdx() returns (k: nat)
      requires Valid()
      modifies this`readIdx
      ensures Valid() && k == old(readIdx) && Shared() == old(Shared()).FetchAdd(Read)
    {
      k := readIdx;
      readIdx := readIdx + 1;
    }

    /** The cell of write ticket k, if it is that ticket's turn. */
    method GetWritable(k: nat) returns (cell: Option<nat>)
      requires Valid()
      ensures cell == if Shared().Grants(Write, k) then Some(Shared().Slot(k)) else None
    {
      var j := k % stat.Length;
      cell := if stat[j] != k then None else Some(j);
    }

    method GetReadable(k: nat) returns (cell: Option<nat>)
      requires Valid()
      ensures cell == if Shared().Grants(Read, k) then Some(Shared().Slot(k)) else None
    {
      var j := k % stat.Length;
      cell := if stat[j] != Complement(k) then None else Some(j);
    }

    method CommitWrite(k: nat)
      requires Valid()
      modifies stat
      ensures Shared() == old(Shared()).StoreStat(k, Complement(k))
    {
      stat[k % stat.Length] := Complement(k);
    }

    /** Destroys the object in the cell, then frees the cell for the next lap. */
    method CommitRead(k: nat)
      requires Valid()
      modifies stat, data
      ensures Shared() == old(Shared()).StoreData(k, Raw).StoreStat(k, k + stat.Length)
    {
      var j := k % stat.Length;
      data[j] := Raw;
      stat[j] := k + stat.Length;
    }

    /** compare_exchange_strong of an entry from 0 to t. */
    method CompareExchange(c: nat, t: nat) returns (won: bool)
      requires Valid() && c < tids.Length
      modifies tids
      ensures won <==> old(tids[c]) == 0
      ensures Shared() == if won then old(Shared()).(tids := old(tids[..])[c := t]) else old(Shared())
    {
      won := tids[c] == 0;
      if won {
        tids[c] := t;
      }
    }

    /** The entry of thread t in the table, claimed if need be, or -1 for null. */
    method GetThrIdx(t: nat) returns (rec: int)
      requires Valid() && t != 0
      modifies tids
      ensures rec == EntryOf(old(Shared()), t)
      ensures Shared() == if rec < 0 then old(Shared()) else Claim(old(Shared()), t, rec)
    {
      var cur: nat := t % tids.Length;
      var cnt: int := tids.Length;
      while true
        invariant cur < tids.Length && 0 <= cnt && tids[..] == old(tids[..])
        invariant EntryOf(Shared(), t) == FindEntry(tids[..], t, cur, cnt)
        decreases cnt
      {
        if cnt == 0 {
          return -1;
        }
        cnt := cnt - 1;
        var tid := tids[cur];
        if tid == t {
          assert Claim(Shared(), t, cur) == Shared();
          return cur;
        }
        if tid == 0 {
          var won := CompareExchange(cur, t);
          if won {
            return cur;
          }
        }
        cur := (cur + 1) % tids.Length;
      }
    }

    method TryVisitPush(t: nat, v: T) returns (ok: bool)
      requires Valid() && t != 0
      modifies this`writeIdx, stat, data, tids, writeRec
      ensures Valid() && (Shared(), ok) == TryPush(old(Shared()), t, v)
    {
      var rec := GetThrIdx(t);
      if rec < 0 {
        return false;
      }
      if writeRec[rec] < 0 {
        var drawn := GetWriteIdx();
        writeRec[rec] := drawn;
      }
      var k := writeRec[rec];
      var cell := GetWritable(k);
      if cell.None? {
        return false;
      }
      data[cell.value] := Live(v, k);
      CommitWrite(k);
      writeRec[rec] := -1;
      return true;
    }

    method TryVisitPop(t: nat) returns (got: Option<Datum<T>>)
      requires Valid() && t != 0
      modifies this`readIdx, stat, data, tids, readRec
      ensures Valid() && (Shared(), got) == TryPop(old(Shared()), t)
    {
      var rec := GetThrIdx(t);
      if rec < 0 {
        return None;
      }
      if readRec[rec] < 0 {
        var drawn := GetReadIdx();
        readRec[rec] := drawn;
      }
      var k := readRec[rec];
      var cell := GetReadable(k);
      if cell.None? {
        return None;
      }
      got := Some(data[cell.value]);
      CommitRead(k);
      readRec[rec] := -1;
    }

    /** The destructor: destroys the object of every cell whose word is negative. */
    method Destroy() returns (ghost freed: multiset<int>)
      requires Valid()
      modifies data
      ensures freed == Lifetime.Sweep(old(Shared()), stat.Length)
      ensures forall j | 0 <= j < stat.Length :: data[j] == if stat[j] < 0 then Raw else old(data[j])
    {
      hide Lifetime.Sweep;
      ghost var g := Shared();
      Lifetime.SweepStart(g);
      freed := multiset{};
      var i := 0;
      while i < stat.Length
        invariant i <= stat.Length && freed == Lifetime.Sweep(g, i)
        invariant forall j | i <= j < stat.Length :: data[j] == old(data[j])
        invariant forall j | 0 <= j < i :: data[j] == if stat[j] < 0 then Raw else old(data[j])
      {
        Lifetime.SweepNext(g, i);
        ghost var more := DestroyCell(i);
        freed := freed + more;
        i := i + 1;
      }
    }

    /** The body of the destructor's loop. */
    method DestroyCell(i: nat) returns (ghost freed: multiset<int>)
      requires Valid() && i < stat.Length
      modifies data
      ensures freed == if stat[i] < 0 then ObjectIds(old(data[i])) else multiset{}
      ensures data[..] == old(data[..])[i := if stat[i] < 0 then Raw else old(data[i])]
    {
      freed := multiset{};
      if stat[i] < 0 {
        freed := ObjectIds(data[i]);
        data[i] := Raw;
      }
    }
  }
}
