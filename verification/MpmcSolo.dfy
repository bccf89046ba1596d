/**
 The try calls of one thread when nobody interrupts it: what they do to the shared memory, and that this
 is a run of the machine.
*/
module MpmcSolo {
  import opened MpmcModel
  import opened MpmcInvariant
  import opened MpmcSafety
  import opened MpmcTable
  import opened MpmcRuns
  import opened Wrappers

  // What the calls do.

  /** The entry that the probe loop stops at with cnt attempts left, or -1. */
  function FindEntry(tids: seq<nat>, t: nat, cur: nat, cnt: nat): (c: int)
    requires cur < |tids|
    ensures -1 <= c < |tids|
    ensures c >= 0 ==> tids[c] == t || tids[c] == 0
    decreases cnt
  {
    if cnt == 0 then -1
    else if tids[cur] == t || tids[cur] == 0 then cur
    else FindEntry(tids, t, (cur + 1) % |tids|, cnt - 1)
  }

  /** getThrIdx: the index of the thread's record, or -1 for null. */
  function EntryOf<T>(g: Ring<T>, t: nat): (c: int)
    requires g.Shaped()
    ensures -1 <= c < |g.tids|
  {
    FindEntry(g.tids, t, t % |g.tids|, |g.tids|)
  }

  function Claim<T>(g: Ring<T>, t: nat, c: nat): (g': Ring<T>)
    requires g.Shaped() && c < |g.tids|
    ensures g'.Shaped()
  {
    g.(tids := g.tids[c := t])
  }

  /** The ticket that the call works on: the kept one, or else the next one. */
  function TicketFor<T>(g: Ring<T>, side: Side, c: nat): int
    requires g.Shaped() && c < |g.tids|
  {
    if g.Record(side)[c] >= 0 then g.Record(side)[c] else g.Counter(side)
  }

  function Resume<T>(g: Ring<T>, side: Side, c: nat): (g': Ring<T>)
    requires g.Shaped() && c < |g.tids|
    ensures g'.Shaped()
  {
    if g.Record(side)[c] >= 0 then g
    else g.FetchAdd(side).StoreRecord(side, c, g.Counter(side))
  }

  /** tryVisitPush, and whether it succeeds. */
  function TryPush<T>(g: Ring<T>, t: nat, v: T): (Ring<T>, bool)
    requires g.Shaped()
  {
    var c := EntryOf(g, t);
    if c < 0 then (g, false)
    else
      var k := TicketFor(g, Write, c);
      var g' := Resume(Claim(g, t, c), Write, c);
      if !g'.Grants(Write, k) then (g', false)
      else (g'.StoreData(k, Live(v, k)).StoreStat(k, Complement(k)).StoreRecord(Write, c, -1), true)
  }

  /** tryVisitPop, and what it hands to the visitor if it succeeds. */
  function TryPop<T>(g: Ring<T>, t: nat): (Ring<T>, Option<Datum<T>>)
    requires g.Shaped()
  {
    var c := EntryOf(g, t);
    if c < 0 then (g, None)
    else
      var k := TicketFor(g, Read, c);
      var g' := Resume(Claim(g, t, c), Read, c);
      if !g'.Grants(Read, k) then (g', None)
      else
        (g'.StoreData(k, Raw).StoreStat(k, k + |g'.stat|).StoreRecord(Read, c, -1), Some(g'.data[g'.Slot(k)]))
  }

  // What the search finds.

  lemma {:induction false} SearchFails(tids: seq<nat>, t: nat, i: nat)
    requires |tids| > 0 && i <= |tids|
    ensures FindEntry(tids, t, Place(t, i, |tids|), |tids| - i) < 0
       <==> forall x: nat | i <= x < |tids| :: tids[Place(t, x, |tids|)] != 0 && tids[Place(t, x, |tids|)] != t
    decreases |tids| - i
  {
    if i < |tids| {
      NextPlace(t, i, |tids|);
      SearchFails(tids, t, i + 1);
    }
  }

  /** getThrIdx returns null exactly when every entry is taken by another thread. */
  lemma NullExactlyWhenFull<T>(g: Ring<T>, t: nat)
    requires g.Shaped()
    ensures EntryOf(g, t) < 0 <==> forall c | 0 <= c < |g.tids| :: g.tids[c] != 0 && g.tids[c] != t
  {
    var m := |g.tids|;
    SearchFails(g.tids, t, 0);
    if EntryOf(g, t) < 0 {
      forall c | 0 <= c < m
        ensures g.tids[c] != 0 && g.tids[c] != t
      {
        PlaceOfOffset(t, c, m);
      }
    }
  }

  /** The first empty place on the search path of a thread that has an entry lies behind that entry. */
  lemma {:induction false} SearchReaches(tids: seq<nat>, t: nat, i: nat, o: nat)
    requires |tids| > 0 && i <= o < |tids| && tids[Place(t, o, |tids|)] == t
    requires forall x: nat | i <= x < o :: tids[Place(t, x, |tids|)] != 0
    ensures var c := FindEntry(tids, t, Place(t, i, |tids|), |tids| - i); c >= 0 && tids[c] == t
    decreases o - i
  {
    if i < o && tids[Place(t, i, |tids|)] != t {
      NextPlace(t, i, |tids|);
      SearchReaches(tids, t, i + 1, o);
    }
  }

  lemma PathLeadsToEntry<T>(s: State<T>, t: nat, c: nat)
    requires s.WellFormed() && TableInv(s) && t != 0 && c < s.M() && s.ring.tids[c] == t
    ensures var i := EntryOf(s.ring, t); i >= 0 && s.ring.tids[i] == t
  {
    PlaceOfOffset(t, c, s.M());
    assert PathOccupied(s, c);
    SearchReaches(s.ring.tids, t, 0, Offset(t, c, s.M()));
  }

  /** In a reachable state a thread that has an entry finds that entry again. */
  lemma EntryIsFoundAgain<T(!new)>(s: State<T>, t: nat, c: nat)
    requires Reachable(s) && s.WellFormed() && t != 0 && c < s.M() && s.ring.tids[c] == t
    ensures EntryOf(s.ring, t) == c
  {
    hide EntryOf;
    ReachableInv(s);
    PathLeadsToEntry(s, t, c);
  }

  // That this is a run of the machine.

  /** A try call of thread t and its next n steps, uninterrupted. */
  function SoloCall<T>(t: nat, want: Want<T>, n: nat): seq<Move<T>> {
    [Call(t, want, false)] + seq(n, _ => Go(t))
  }

  /** Thread t, starting a try call in s and running alone, can be in s'. */
  ghost predicate Alone<T>(s: State<T>, s': State<T>, t: nat, want: Want<T>)
    requires s.WellFormed()
  {
    exists n: nat :: s' == Run(s, SoloCall(t, want, n))
  }

  lemma Start<T>(s: State<T>, t: nat, want: Want<T>)
    requires s.WellFormed() && s.PcOf(t).Idle? && t != 0
    ensures var s' := Begin(s, t, want, false);
      Alone(s, s', t, want) && s'.ring == s.ring && s'.PcOf(t) == Probing(want, t % s.M(), s.M())
  {
    assert SoloCall(t, want, 0) == [Call(t, want, false)];
    assert SoloCall(t, want, 0)[..0] == [];
    assert Run(s, SoloCall(t, want, 0)) == Next(s, Call(t, want, false));
  }

  /** The machine follows along by one step of t. */
  lemma Follow<T>(s: State<T>, s': State<T>, t: nat, want: Want<T>)
    requires s.WellFormed() && t != 0 && Alone(s, s', t, want) && s'.WellFormed()
    ensures Alone(s, Step(s', t), t, want) && Step(s', t).WellFormed()
  {
    hide Step;
    var n: nat :| s' == Run(s, SoloCall(t, want, n));
    var longer := SoloCall(t, want, n + 1);
    assert longer[..n + 1] == SoloCall(t, want, n) && longer[n + 1] == Go(t);
    assert Run(s, longer) == Next(s', Go(t));
  }

  lemma AloneKeepsOthers<T>(s: State<T>, s': State<T>, t: nat, want: Want<T>, u: nat)
    requires s.WellFormed() && u != t && Alone(s, s', t, want)
    ensures s'.PcOf(u) == s.PcOf(u)
  {
    var n: nat :| s' == Run(s, SoloCall(t, want, n));
    RunKeepsOthers(s, SoloCall(t, want, n), u);
  }

  /** A state reached alone from a reachable state is reachable. */
  lemma AloneIsReachable<T(!new)>(s: State<T>, s': State<T>, t: nat, want: Want<T>)
    requires Reachable(s) && s.WellFormed() && Alone(s, s', t, want)
    ensures Reachable(s')
  {
    var n: nat :| s' == Run(s, SoloCall(t, want, n));
    RunIsReachable(s, SoloCall(t, want, n));
  }

  /** What the probe loop's load leads to. */
  lemma FollowProbe<T>(s: State<T>, s': State<T>, t: nat, want: Want<T>) returns (s'': State<T>)
    requires s.WellFormed() && t != 0 && Alone(s, s', t, want) && s'.WellFormed() && s'.PcOf(t).Probing?
    ensures s''.WellFormed() && Alone(s, s'', t, want) && s''.ring == s'.ring
    ensures s''.pushed == s'.pushed && s''.delivered == s'.delivered
    ensures var Probing(w, cur, cnt) := s'.PcOf(t);
      s''.PcOf(t) == if cnt == 0 then Idle
                     else if s'.ring.tids[cur] == t then Ready(w, cur)
                     else if s'.ring.tids[cur] == 0 then Claiming(w, cur, cnt - 1)
                     else Probing(w, (cur + 1) % s'.M(), cnt - 1)
  {
    Follow(s, s', t, want);
    s'' := StepProbe(s', t);
  }

  lemma FollowClaim<T>(s: State<T>, s': State<T>, t: nat, want: Want<T>) returns (s'': State<T>)
    requires s.WellFormed() && t != 0 && Alone(s, s', t, want) && s'.WellFormed() && s'.PcOf(t).Claiming?
    requires s'.ring.tids[s'.PcOf(t).cur] == 0
    ensures s''.WellFormed() && Alone(s, s'', t, want)
    ensures s''.pushed == s'.pushed && s''.delivered == s'.delivered
    ensures var Claiming(w, cur, _) := s'.PcOf(t);
      s''.ring == s'.ring.(tids := s'.ring.tids[cur := t]) && s''.PcOf(t) == Ready(w, cur)
  {
    Follow(s, s', t, want);
    s'' := StepClaim(s', t);
  }

  /** Running alone, the probe loop stops where FindEntry says. */
  lemma {:induction false} SoloProbe<T>(s: State<T>, s': State<T>, t: nat, want: Want<T>) returns (s'': State<T>)
    requires s.WellFormed() && t != 0 && Alone(s, s', t, want) && s'.WellFormed() && s'.PcOf(t).Probing?
    ensures s''.WellFormed() && Alone(s, s'', t, want)
    ensures s''.pushed == s'.pushed && s''.delivered == s'.delivered
    ensures var Probing(w, cur, cnt) := s'.PcOf(t); var c := FindEntry(s'.ring.tids, t, cur, cnt);
      if c < 0 then s''.ring == s'.ring && s''.PcOf(t) == Idle
      else s''.ring == Claim(s'.ring, t, c) && s''.PcOf(t) == Ready(w, c)
    decreases s'.PcOf(t).cnt
  {
    hide Step, Run;
    var Probing(w, cur, cnt) := s'.PcOf(t);
    s'' := FollowProbe(s, s', t, want);
    if cnt > 0 {
      if s'.ring.tids[cur] == 0 {
        s'' := FollowClaim(s, s'', t, want);
      } else if s'.ring.tids[cur] != t {
        s'' := SoloProbe(s, s'', t, want);
      } else {
        assert Claim(s'.ring, t, cur) == s'.ring;
      }
    }
  }

  lemma FollowReady<T>(s: State<T>, s': State<T>, t: nat, want: Want<T>) returns (s'': State<T>)
    requires s.WellFormed() && t != 0 && Alone(s, s', t, want) && s'.WellFormed()
    requires s'.PcOf(t).Ready? && s'.PcOf(t).want == want && s'.PcOf(t).rec >= 0
    ensures s''.WellFormed() && Alone(s, s'', t, want)
    ensures s''.pushed == s'.pushed && s''.delivered == s'.delivered
    ensures var c, side := s'.PcOf(t).rec, want.Side();
      s''.ring == Resume(s'.ring, side, c) && s''.PcOf(t) == Holding(want, c, TicketFor(s'.ring, side, c), Checking)
  {
    Follow(s, s', t, want);
    s'' := StepReady(s', t);
  }

  lemma FollowCheck<T>(s: State<T>, s': State<T>, t: nat, want: Want<T>) returns (s'': State<T>)
    requires s.WellFormed() && t != 0 && Alone(s, s', t, want) && s'.WellFormed()
    requires s'.PcOf(t).Holding? && s'.PcOf(t).stage.Checking? && s'.PcOf(t).rec >= 0
    ensures s''.WellFormed() && Alone(s, s'', t, want) && s''.ring == s'.ring
    ensures s''.pushed == s'.pushed && s''.delivered == s'.delivered
    ensures var Holding(w, c, k, _) := s'.PcOf(t);
      s''.PcOf(t) == if s'.ring.Grants(w.Side(), k) then Holding(w, c, k, Granted) else Idle
  {
    Follow(s, s', t, want);
    s'' := StepCheck(s', t);
  }

  /** A writer let into its cell constructs the object. */
  lemma FollowBuild<T>(s: State<T>, s': State<T>, t: nat, v: T) returns (s'': State<T>)
    requires s.WellFormed() && t != 0 && Alone(s, s', t, Push(v)) && s'.WellFormed()
    requires s'.PcOf(t).Holding? && s'.PcOf(t).stage.Granted? && s'.PcOf(t).want == Push(v)
    ensures s''.WellFormed() && Alone(s, s'', t, Push(v))
    ensures var Holding(_, c, k, _) := s'.PcOf(t);
      && s''.PcOf(t) == Holding(Push(v), c, k, Accessed)
      && s''.ring == s'.ring.StoreData(k, Live(v, k))
      && s''.pushed == s'.pushed && s''.delivered == s'.delivered
  {
    hide Run, Alone;
    Follow(s, s', t, Push(v));
    var s1 := StepOpen(s', t);
    Follow(s, s1, t, Push(v));
    s'' := StepClose(s1, t);
  }

  /** Then it publishes the cell and resets its record. */
  lemma FollowPublish<T>(s: State<T>, s': State<T>, t: nat, v: T) returns (s'': State<T>)
    requires s.WellFormed() && t != 0 && Alone(s, s', t, Push(v)) && s'.WellFormed()
    requires s'.PcOf(t).Holding? && s'.PcOf(t).stage.Accessed? && s'.PcOf(t).rec >= 0 && s'.PcOf(t).want == Push(v)
    ensures s''.WellFormed() && Alone(s, s'', t, Push(v)) && s''.PcOf(t) == Idle
    ensures var Holding(_, c, k, _) := s'.PcOf(t);
      && s''.ring == s'.ring.StoreStat(k, Complement(k)).StoreRecord(Write, c, -1)
      && s''.pushed == s'.pushed[k := v] && s''.delivered == s'.delivered
  {
    hide Run, Alone;
    Follow(s, s', t, Push(v));
    var s1 := StepAfter(s', t);
    Follow(s, s1, t, Push(v));
    s'' := StepClear(s1, t);
  }

  /** A reader let into its cell sees the data and moves the value out. */
  lemma FollowMove<T>(s: State<T>, s': State<T>, t: nat) returns (s'': State<T>)
    requires s.WellFormed() && t != 0 && Alone(s, s', t, Pop) && s'.WellFormed()
    requires s'.PcOf(t).Holding? && s'.PcOf(t).stage.Granted? && s'.PcOf(t).want == Pop
    ensures s''.WellFormed() && Alone(s, s'', t, Pop)
    ensures var Holding(_, c, k, _) := s'.PcOf(t); var d := s'.ring.data[s'.ring.Slot(k)];
      && s''.PcOf(t) == Holding(Pop, c, k, Accessed)
      && s''.ring == s'.ring.StoreData(k, if d.Live? then Husk(d.id) else d)
      && s''.pushed == s'.pushed && s''.delivered == s'.delivered[k := d]
  {
    hide Run, Alone;
    Follow(s, s', t, Pop);
    var s1 := StepOpen(s', t);
    Follow(s, s1, t, Pop);
    s'' := StepClose(s1, t);
  }

  /** Then it destroys the object, releases the cell and resets its record. */
  lemma FollowRelease<T>(s: State<T>, s': State<T>, t: nat) returns (s'': State<T>)
    requires s.WellFormed() && t != 0 && Alone(s, s', t, Pop) && s'.WellFormed()
    requires s'.PcOf(t).Holding? && s'.PcOf(t).stage.Accessed? && s'.PcOf(t).rec >= 0 && s'.PcOf(t).want == Pop
    ensures s''.WellFormed() && Alone(s, s'', t, Pop) && s''.PcOf(t) == Idle
    ensures var Holding(_, c, k, _) := s'.PcOf(t);
      && s''.ring == s'.ring.StoreData(k, Raw).StoreStat(k, k + |s'.ring.stat|).StoreRecord(Read, c, -1)
      && s''.pushed == s'.pushed && s''.delivered == s'.delivered
  {
    hide Run, Alone;
    Follow(s, s', t, Pop);
    var s1 := StepAfter(s', t);
    Follow(s, s1, t, Pop);
    var s2 := StepRelease(s1, t);
    Follow(s, s2, t, Pop);
    s'' := StepClear(s2, t);
  }

  /** The steps before the cell is entered change neither log. */
  lemma AloneUntilReady<T>(s: State<T>, t: nat, want: Want<T>) returns (s': State<T>)
    requires s.WellFormed() && t != 0 && s.PcOf(t).Idle?
    ensures s'.WellFormed() && Alone(s, s', t, want)
    ensures s'.pushed == s.pushed && s'.delivered == s.delivered
    ensures var c := EntryOf(s.ring, t);
      if c < 0 then s'.ring == s.ring && s'.PcOf(t) == Idle
      else var side := want.Side(); var g := Resume(Claim(s.ring, t, c), side, c); var k := TicketFor(s.ring, side, c);
        && s'.ring == g
        && s'.PcOf(t) == if g.Grants(side, k) then Holding(want, c, k, Granted) else Idle
  {
    hide Step, Run, StepProbe, StepClaim, StepReady, StepCheck;
    Start(s, t, want);
    s' := SoloProbe(s, Begin(s, t, want, false), t, want);
    if EntryOf(s.ring, t) >= 0 {
      s' := FollowReady(s, s', t, want);
      s' := FollowCheck(s, s', t, want);
    }
  }

  /** tryVisitPush, uninterrupted, is a run of the machine; it commits its ticket exactly when it succeeds. */
  lemma TryPushIsRun<T(!new)>(s: State<T>, t: nat, v: T) returns (s': State<T>)
    requires Reachable(s) && s.WellFormed() && t != 0 && s.PcOf(t).Idle?
    ensures Reachable(s') && s'.WellFormed() && Alone(s, s', t, Push(v)) && s'.PcOf(t) == Idle
    ensures s'.ring == TryPush(s.ring, t, v).0
    ensures s'.pushed == if TryPush(s.ring, t, v).1 then s.pushed[TicketFor(s.ring, Write, EntryOf(s.ring, t)) := v]
                         else s.pushed
    ensures s'.delivered == s.delivered
  {
    hide Step, Run, Reachable, Alone, EntryOf, Resume, Claim, TicketFor;
    s' := AloneUntilReady(s, t, Push(v));
    if s'.PcOf(t).Holding? {
      s' := FollowBuild(s, s', t, v);
      s' := FollowPublish(s, s', t, v);
    }
    AloneIsReachable(s, s', t, Push(v));
  }

  /** tryVisitPop, uninterrupted, is a run of the machine; the visitor gets what the ticket is delivered. */
  lemma TryPopIsRun<T(!new)>(s: State<T>, t: nat) returns (s': State<T>)
    requires Reachable(s) && s.WellFormed() && t != 0 && s.PcOf(t).Idle?
    ensures Reachable(s') && s'.WellFormed() && Alone(s, s', t, Pop) && s'.PcOf(t) == Idle
    ensures s'.ring == TryPop(s.ring, t).0
    ensures s'.delivered == match TryPop(s.ring, t).1
                            case Some(d) => s.delivered[TicketFor(s.ring, Read, EntryOf(s.ring, t)) := d]
                            case None => s.delivered
    ensures s'.pushed == s.pushed
  {
    hide Step, Run, Reachable, Alone, EntryOf, Resume, Claim, TicketFor;
    s' := AloneUntilReady(s, t, Pop);
    if s'.PcOf(t).Holding? {
      s' := FollowMove(s, s', t);
      s' := FollowRelease(s, s', t);
    }
    AloneIsReachable(s, s', t, Pop);
  }
}
