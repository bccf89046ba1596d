/** Every step keeps the invariant of the thread table. */
module MpmcTable {
  import opened MpmcModel
  import opened MpmcInvariant
  import opened Modular

  lemma NextPlace(t: nat, i: nat, m: nat)
    requires m > 0
    ensures (Place(t, i, m) + 1) % m == Place(t, i + 1, m)
  {
    ReduceFirst(t + i, 1, m);
  }

  lemma FirstPlace(t: nat, m: nat)
    requires m > 0
    ensures t % m == Place(t, 0, m)
  {
  }

  /** The first m places are all the entries, each once. */
  lemma OffsetOfPlace(t: nat, i: nat, m: nat)
    requires i < m
    ensures Offset(t, Place(t, i, m), m) == i
  {
    var c := Place(t, i, m);
    var q := (t + i) / m;
    assert t + i == m * q + c;
    assert c - t == m * (-q) + i;
    DivisionIsUnique(c - t, m, -q, i);
  }

  lemma PlaceOfOffset(t: nat, c: nat, m: nat)
    requires c < m
    ensures Offset(t, c, m) < m && Place(t, Offset(t, c, m), m) == c
  {
    var i, q := Offset(t, c, m), (c - t) / m;
    assert c - t == m * q + i;
    assert t + i == m * (-q) + c;
    DivisionIsUnique(t + i, m, -q, c);
  }

  /** A claim of an empty entry by a thread that has passed only others' entries leaves it listed once. */
  lemma ClaimIsFresh<T>(s: State<T>, t: nat, c: nat, i: nat)
    requires s.WellFormed() && TableInv(s) && t != 0
    requires i < s.M() && c == Place(t, i, s.M()) && s.ring.tids[c] == 0 && TakenByOthers(s, t, i)
    ensures t !in s.ring.tids
  {
    if t in s.ring.tids {
      var d :| 0 <= d < s.M() && s.ring.tids[d] == t;
      PlaceOfOffset(t, d, s.M());
      assert false;
    }
  }

  /** A step that leaves the table alone only has to answer for its own thread. */
  lemma SameTable<T>(s: State<T>, s': State<T>, t: nat)
    requires s.WellFormed() && TableInv(s) && s'.WellFormed() && t != 0
    requires s'.ring.tids == s.ring.tids
    requires s'.pcs == s.pcs[t := s'.PcOf(t)] && ProbeOk(s', t)
    ensures TableInv(s')
  {
    forall c | 0 <= c < s.M() && s'.ring.tids[c] != 0
      ensures PathOccupied(s', c)
    {
      assert PathOccupied(s, c);
    }
    forall u | u in s'.pcs
      ensures ProbeOk(s', u)
    {
      assert u != t ==> ProbeOk(s, u);
    }
  }

  lemma ClaimTakesEntry<T>(s: State<T>, t: nat)
    requires s.WellFormed() && TableInv(s) && t != 0 && s.PcOf(t).Claiming?
    requires s.ring.tids[s.PcOf(t).cur] == 0
    ensures TableInv(StepClaim(s, t))
  {
    var s' := StepClaim(s, t);
    var Claiming(want, c, cnt) := s.PcOf(t);
    var i := s.M() - cnt - 1;
    ClaimIsFresh(s, t, c, i);
    OffsetOfPlace(t, i, s.M());
    assert s'.ring.tids == s.ring.tids[c := t];
    forall d | 0 <= d < s.M() && s'.ring.tids[d] != 0
      ensures PathOccupied(s', d)
    {
      assert d != c ==> PathOccupied(s, d);
    }
    forall u | u in s'.pcs
      ensures ProbeOk(s', u)
    {
      assert u != t ==> ProbeOk(s, u);
    }
  }

  lemma ClaimKeepsTable<T>(s: State<T>, t: nat)
    requires s.WellFormed() && TableInv(s) && t != 0 && s.PcOf(t).Claiming?
    ensures TableInv(StepClaim(s, t))
  {
    if s.ring.tids[s.PcOf(t).cur] == 0 {
      ClaimTakesEntry(s, t);
    } else {
      NextPlace(t, s.M() - s.PcOf(t).cnt - 1, s.M());
      SameTable(s, StepClaim(s, t), t);
    }
  }

  lemma ProbeKeepsTable<T>(s: State<T>, t: nat)
    requires s.WellFormed() && TableInv(s) && t != 0 && s.PcOf(t).Probing?
    ensures TableInv(StepProbe(s, t))
  {
    var s' := StepProbe(s, t);
    var Probing(want, c, cnt) := s.PcOf(t);
    if cnt > 0 {
      NextPlace(t, s.M() - cnt, s.M());
    }
    assert ProbeOk(s', t);
    SameTable(s, s', t);
  }

  lemma BeginKeepsTable<T>(s: State<T>, t: nat, want: Want<T>, blocking: bool)
    requires s.WellFormed() && TableInv(s) && t != 0 && s.PcOf(t).Idle?
    ensures TableInv(Begin(s, t, want, blocking))
  {
    FirstPlace(t, s.M());
    SameTable(s, Begin(s, t, want, blocking), t);
  }

  lemma ReadyKeepsTable<T>(s: State<T>, t: nat)
    requires s.WellFormed() && TableInv(s) && t != 0 && s.PcOf(t).Ready?
    ensures TableInv(StepReady(s, t))
  {
    SameTable(s, StepReady(s, t), t);
  }

  lemma HoldingKeepsTable<T>(s: State<T>, t: nat)
    requires s.WellFormed() && TableInv(s) && t != 0 && s.PcOf(t).Holding?
    ensures TableInv(Step(s, t))
  {
    var s' := Step(s, t);
    HoldingFrame(s, t);
    if s' != s {
      assert ProbeOk(s, t);
      SameTable(s, s', t);
    }
  }

  lemma ClearKeepsTable<T>(s: State<T>, t: nat)
    requires s.WellFormed() && TableInv(s) && t != 0 && s.PcOf(t).Clearing?
    ensures TableInv(StepClear(s, t))
  {
    SameTable(s, StepClear(s, t), t);
  }

  lemma StepKeepsTable<T>(s: State<T>, t: nat)
    requires s.WellFormed() && TableInv(s) && t != 0
    ensures TableInv(Step(s, t))
  {
    match s.PcOf(t)
    case Idle =>
    case Probing(_, _, _) => ProbeKeepsTable(s, t);
    case Claiming(_, _, _) => ClaimKeepsTable(s, t);
    case Ready(_, _) => ReadyKeepsTable(s, t);
    case Holding(_, _, _, _) => HoldingKeepsTable(s, t);
    case Clearing(_, _) => ClearKeepsTable(s, t);
  }
}
