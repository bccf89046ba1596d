/**
 A concrete run in which a push that has completed is overtaken by one that begins later: the later
 call resumes a ticket that its record kept from a failed attempt. Compare MpmcOrder.OrderOfCalls.
*/
module MpmcRetry {
  import opened MpmcModel
  import opened MpmcSafety
  import opened MpmcSolo
  import opened Wrappers

  /** Two cells and two entries: thread 2 at entry 0, thread 1 at entry 1. */
  function Small<T>(w: nat, r: nat, stat: seq<int>, data: seq<Datum<T>>, kept: int): Ring<T> {
    Ring(w, r, stat, data, [2, 1], [kept, -1], [-1, -1])
  }

  /** The shared memory before thread 2 has an entry. */
  function Fresh<T>(w: nat, stat: seq<int>, data: seq<Datum<T>>): Ring<T> {
    Ring(w, 0, stat, data, [0, 1], [-1, -1], [-1, -1])
  }

  lemma SameRing<T>(g: Ring<T>, h: Ring<T>)
    requires g.writeIdx == h.writeIdx && g.readIdx == h.readIdx
    requires g.stat == h.stat && g.data == h.data
    requires g.tids == h.tids && g.writeRec == h.writeRec && g.readRec == h.readRec
    ensures g == h
  {
  }

  lemma FirstPush<T>(v: T)
    ensures TryPush(Constructed(2, 2), 1, v) == (Fresh(1, [-1, 1], [Live(v, 0), Raw]), true)
    ensures TicketFor(Constructed<T>(2, 2), Write, EntryOf(Constructed<T>(2, 2), 1)) == 0
  {
    var g: Ring<T> := Ring(0, 0, [0, 1], [Raw, Raw], [0, 0], [-1, -1], [-1, -1]);
    SameRing(Constructed(2, 2), g);
    assert EntryOf(g, 1) == 1;
    SameRing(TryPush(g, 1, v).0, Fresh(1, [-1, 1], [Live(v, 0), Raw]));
  }

  lemma SecondPush<T>(v: T, w: T)
    ensures TryPush(Fresh(1, [-1, 1], [Live(v, 0), Raw]), 1, w) == (Fresh(2, [-1, -2], [Live(v, 0), Live(w, 1)]), true)
    ensures var g := Fresh(1, [-1, 1], [Live(v, 0), Raw]); TicketFor(g, Write, EntryOf(g, 1)) == 1
  {
    var g := Fresh(1, [-1, 1], [Live(v, 0), Raw]);
    assert EntryOf(g, 1) == 1;
    SameRing(TryPush(g, 1, w).0, Fresh(2, [-1, -2], [Live(v, 0), Live(w, 1)]));
  }

  /** Thread 2 draws ticket 2, is refused and keeps the ticket. */
  lemma RefusedPush<T>(v: T, w: T, x: T)
    ensures TryPush(Fresh(2, [-1, -2], [Live(v, 0), Live(w, 1)]), 2, x)
         == (Small(3, 0, [-1, -2], [Live(v, 0), Live(w, 1)], 2), false)
  {
    var g := Fresh(2, [-1, -2], [Live(v, 0), Live(w, 1)]);
    assert EntryOf(g, 2) == 0;
    SameRing(TryPush(g, 2, x).0, Small(3, 0, [-1, -2], [Live(v, 0), Live(w, 1)], 2));
  }

  lemma FirstPop<T>(v: T, w: T)
    ensures TryPop(Small(3, 0, [-1, -2], [Live(v, 0), Live(w, 1)], 2), 1)
         == (Small(3, 1, [2, -2], [Raw, Live(w, 1)], 2), Some(Live(v, 0)))
  {
    var g := Small(3, 0, [-1, -2], [Live(v, 0), Live(w, 1)], 2);
    assert EntryOf(g, 1) == 1;
    SameRing(TryPop(g, 1).0, Small(3, 1, [2, -2], [Raw, Live(w, 1)], 2));
  }

  lemma SecondPop<T>(w: T)
    ensures TryPop(Small(3, 1, [2, -2], [Raw, Live(w, 1)], 2), 1)
         == (Small<T>(3, 2, [2, 3], [Raw, Raw], 2), Some(Live(w, 1)))
  {
    var g := Small(3, 1, [2, -2], [Raw, Live(w, 1)], 2);
    assert EntryOf(g, 1) == 1;
    SameRing(TryPop(g, 1).0, Small<T>(3, 2, [2, 3], [Raw, Raw], 2));
  }

  /** Thread 1 pushes y under ticket 3. */
  lemma OvertakenPush<T>(y: T)
    ensures var g := Small<T>(3, 2, [2, 3], [Raw, Raw], 2);
      TryPush(g, 1, y) == (Small(4, 2, [2, -4], [Raw, Live(y, 3)], 2), true) && TicketFor(g, Write, EntryOf(g, 1)) == 3
  {
    var g := Small<T>(3, 2, [2, 3], [Raw, Raw], 2);
    assert EntryOf(g, 1) == 1;
    SameRing(TryPush(g, 1, y).0, Small(4, 2, [2, -4], [Raw, Live(y, 3)], 2));
  }

  /** Thread 2 pushes z under the ticket it kept. */
  lemma OvertakingPush<T>(y: T, z: T)
    ensures var g := Small(4, 2, [2, -4], [Raw, Live(y, 3)], 2);
      && TryPush(g, 2, z) == (Small(4, 2, [-3, -4], [Live(z, 2), Live(y, 3)], -1), true)
      && TicketFor(g, Write, EntryOf(g, 2)) == 2
  {
    var g := Small(4, 2, [2, -4], [Raw, Live(y, 3)], 2);
    assert EntryOf(g, 2) == 0;
    SameRing(TryPush(g, 2, z).0, Small(4, 2, [-3, -4], [Live(z, 2), Live(y, 3)], -1));
  }

  /** One uninterrupted push; the other thread stays idle. */
  lemma PushBy<T(!new)>(s: State<T>, t: nat, u: nat, v: T) returns (s': State<T>)
    requires Reachable(s) && s.WellFormed() && t != u && t != 0 && s.PcOf(t).Idle? && s.PcOf(u).Idle?
    ensures Reachable(s') && s'.WellFormed() && s'.PcOf(t).Idle? && s'.PcOf(u).Idle?
    ensures s'.ring == TryPush(s.ring, t, v).0
    ensures s'.pushed == if TryPush(s.ring, t, v).1 then s.pushed[TicketFor(s.ring, Write, EntryOf(s.ring, t)) := v]
                         else s.pushed
  {
    s' := TryPushIsRun(s, t, v);
    AloneKeepsOthers(s, s', t, Push(v), u);
  }

  lemma PopBy<T(!new)>(s: State<T>, t: nat, u: nat) returns (s': State<T>)
    requires Reachable(s) && s.WellFormed() && t != u && t != 0 && s.PcOf(t).Idle? && s.PcOf(u).Idle?
    ensures Reachable(s') && s'.WellFormed() && s'.PcOf(t).Idle? && s'.PcOf(u).Idle?
    ensures s'.ring == TryPop(s.ring, t).0 && s'.pushed == s.pushed
  {
    s' := TryPopIsRun(s, t);
    AloneKeepsOthers(s, s', t, Pop, u);
  }

  /** Thread 1's two pushes and two pops, with thread 2's refused push between them. */
  lemma UntilOvertaken<T(!new)>(v: T, w: T, x: T) returns (s: State<T>)
    ensures Reachable(s) && s.WellFormed() && s.PcOf(1).Idle? && s.PcOf(2).Idle?
    ensures s.ring == Small(3, 2, [2, 3], [Raw, Raw], 2) && s.pushed == map[0 := v, 1 := w]
  {
    hide TryPush, TryPop, Reachable, Constructed, TicketFor, EntryOf;
    s := Initial(2, 2);
    InitialIsReachable<T>(2, 2);
    FirstPush(v);
    SecondPush(v, w);
    RefusedPush(v, w, x);
    FirstPop(v, w);
    SecondPop(w);
    s := PushBy(s, 1, 2, v);
    s := PushBy(s, 1, 2, w);
    s := PushBy(s, 2, 1, x);
    s := PopBy(s, 1, 2);
    s := PopBy(s, 1, 2);
  }

  /**
   y is pushed, under ticket 3, by a call that has returned in s. In s thread 2 is idle and nothing of z is
   under way. Then thread 2 calls tryVisitPush(z), which succeeds under ticket 2: z is delivered before y.
  */
  lemma RetriedPushOvertakes<T(!new)>(v: T, w: T, x: T, y: T, z: T) returns (s: State<T>, s': State<T>)
    ensures Reachable(s) && s.WellFormed() && s.PcOf(1).Idle? && s.PcOf(2).Idle?
    ensures s.pushed == map[0 := v, 1 := w, 3 := y]
    ensures Alone(s, s', 2, Push(z)) && s'.WellFormed() && s'.PcOf(2).Idle?
    ensures s'.pushed == map[0 := v, 1 := w, 3 := y, 2 := z]
  {
    hide TryPush, TryPop, Reachable, TicketFor, EntryOf, Alone;
    s := UntilOvertaken(v, w, x);
    OvertakenPush(y);
    s := PushBy(s, 1, 2, y);
    OvertakingPush(y, z);
    s' := TryPushIsRun(s, 2, z);
  }
}
