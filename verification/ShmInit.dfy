/**
 shmInit of WFMPMC.h: any number of callers race to construct one queue in zeroed shared memory.

 The winner runs the constructor over the whole object, init_state included. Whether that resets
 init_state depends on the language: std::atomic's default constructor leaves the value alone before
 C++20 and stores 0 from C++20 on. `resets` tells the two apart.
*/
module ShmInit {
  import opened Counting

  datatype Pc =
    | Outside             // has not called, or is about to call again
    | Constructing(left: nat)
    | Publishing          // about to store 2
    | Waiting             // spins until init_state is 2
    | Returned

  /** `started` and `finished` count the runs of the constructor. */
  datatype State = State(initState: int, pcs: map<nat, Pc>, started: nat, finished: nat)
  {
    function PcOf(t: nat): Pc {
      if t in pcs then pcs[t] else Outside
    }
  }

  const ZEROED := State(0, map[], 0, 0)

  predicate Busy(pc: Pc) {
    pc.Constructing? || pc.Publishing?
  }

  /** The next atomic action of caller t. The constructor writes `fields` fields, the first being init_state. */
  function Next(s: State, t: nat, fields: nat, resets: bool): State {
    match s.PcOf(t)
    case Constructing(left) =>
      if left == 0 then s.(pcs := s.pcs[t := Publishing], finished := s.finished + 1)
      else s.(pcs := s.pcs[t := Constructing(left - 1)],
              initState := if resets && left == fields then 0 else s.initState)
    case Publishing => s.(initState := 2, pcs := s.pcs[t := Returned])
    case Waiting => if s.initState == 2 then s.(pcs := s.pcs[t := Returned]) else s
    case _ =>
      if s.initState == 0 then s.(initState := 1, pcs := s.pcs[t := Constructing(fields)], started := s.started + 1)
      else s.(pcs := s.pcs[t := Waiting])
  }

  function Run(s: State, moves: seq<nat>, fields: nat, resets: bool): State {
    if moves == [] then s
    else Next(Run(s, moves[..|moves| - 1], fields, resets), moves[|moves| - 1], fields, resets)
  }

  /** The constructor has run at most once, and whoever has returned came after its one complete run. */
  ghost predicate Safe(s: State) {
    && s.started <= 1
    && forall t | t in s.pcs && s.pcs[t].Returned? :: s.started == s.finished == 1
  }

  // When construction leaves init_state alone.

  ghost predicate Inv(s: State) {
    && (s.initState == 0 ==> s.started == 0 && s.finished == 0)
    && (s.initState != 0 ==> s.started == 1)
    && 0 <= s.initState <= 2
    && (s.initState == 2 ==> s.finished == 1)
    && (forall t | t in s.pcs && Busy(s.pcs[t]) ::
          s.initState == 1 && s.finished == if s.pcs[t].Publishing? then 1 else 0)
    && (forall t, u | t in s.pcs && u in s.pcs && Busy(s.pcs[t]) && Busy(s.pcs[u]) :: t == u)
    && (forall t | t in s.pcs && s.pcs[t].Returned? :: s.initState == 2)
  }

  lemma {:induction false} RunKeepsInv(moves: seq<nat>, fields: nat)
    ensures Inv(Run(ZEROED, moves, fields, false))
  {
    if moves != [] {
      RunKeepsInv(moves[..|moves| - 1], fields);
    }
  }

  function Steps(moves: seq<nat>, t: nat): nat {
    if moves == [] then 0
    else Steps(moves[..|moves| - 1], t) + if moves[|moves| - 1] == t then 1 else 0
  }

  /** Where the first caller is after n of its steps, until it publishes. */
  function WinnerPc(n: nat, fields: nat): Pc
    requires n >= 1
  {
    if n <= fields + 1 then Constructing(fields + 1 - n) else Publishing
  }

  /** The first caller constructs the object, in fields + 3 steps, whatever the others do meanwhile. */
  lemma {:induction false} FirstCallerConstructs(moves: seq<nat>, fields: nat)
    requires moves != []
    ensures var s, n := Run(ZEROED, moves, fields, false), Steps(moves, moves[0]);
      n >= 1 && if n <= fields + 2 then s.initState == 1 && s.PcOf(moves[0]) == WinnerPc(n, fields)
                else s.initState == 2 && s.started == s.finished == 1
  {
    var before := moves[..|moves| - 1];
    RunKeepsInv(moves, fields);
    if before == [] {
      assert Steps(before, moves[0]) == 0;
    } else {
      FirstCallerConstructs(before, fields);
      RunKeepsInv(before, fields);
    }
  }

  lemma {:induction false} StepsGrow(moves: seq<nat>, n: nat, t: nat)
    requires n <= |moves|
    ensures Steps(moves[..n], t) <= Steps(moves, t)
  {
    if n < |moves| {
      StepsGrow(moves[..|moves| - 1], n, t);
      assert moves[..|moves| - 1][..n] == moves[..n];
    } else {
      assert moves[..n] == moves;
    }
  }

  /** Caller t has returned at some time from move n on. */
  ghost predicate ReturnsFrom(moves: seq<nat>, n: nat, t: nat, fields: nat) {
    exists i :: n <= i <= |moves| && Run(ZEROED, moves[..i], fields, false).PcOf(t).Returned?
  }

  lemma {:induction false} Comes(moves: seq<nat>, n: nat, t: nat, fields: nat)
    requires moves != [] && 1 <= n <= |moves| && Steps(moves[..n], moves[0]) >= fields + 3
    ensures var k, s := Steps(moves, t) - Steps(moves[..n], t), Run(ZEROED, moves, fields, false);
      ReturnsFrom(moves, n, t, fields) || k <= 0 || (k == 1 && s.PcOf(t).Waiting?)
  {
    assert moves[..|moves|] == moves;
    if n < |moves| {
      var before := moves[..|moves| - 1];
      assert before[..n] == moves[..n] && before[0] == moves[0];
      Comes(before, n, t, fields);
      StepsGrow(before, n, moves[0]);
      FirstCallerConstructs(before, fields);
      RunKeepsInv(before, fields);
      if ReturnsFrom(before, n, t, fields) {
        var i :| n <= i <= |before| && Run(ZEROED, before[..i], fields, false).PcOf(t).Returned?;
        assert before[..i] == moves[..i];
      } else {
        assert before[..|before|] == before;
        assert !Run(ZEROED, before, fields, false).PcOf(t).Returned?;
      }
    }
  }

  /** Once the first caller has taken fields + 3 steps, every caller returns within two steps of its own. */
  lemma EveryCallerReturns(moves: seq<nat>, n: nat, t: nat, fields: nat)
    requires moves != [] && 1 <= n <= |moves| && Steps(moves[..n], moves[0]) >= fields + 3
    requires Steps(moves, t) >= Steps(moves[..n], t) + 2
    ensures ReturnsFrom(moves, n, t, fields)
  {
    Comes(moves, n, t, fields);
  }

  // When construction resets init_state.

  /** A lone caller is safe even so. */
  ghost predicate AloneInv(s: State, t: nat, fields: nat) {
    && s.pcs.Keys <= {t}
    && match s.PcOf(t)
       case Outside => s == ZEROED
       case Constructing(left) => s.started == 1 && s.finished == 0 && left <= fields
       case Publishing => s.started == s.finished == 1
       case Waiting => s.started == s.finished == 1 && s.initState == 2
       case Returned => s.started == s.finished == 1 && s.initState == 2
  }

  lemma {:induction false} RunAlone(moves: seq<nat>, t: nat, fields: nat, resets: bool)
    requires forall i | 0 <= i < |moves| :: moves[i] == t
    ensures AloneInv(Run(ZEROED, moves, fields, resets), t, fields)
  {
    if moves != [] {
      RunAlone(moves[..|moves| - 1], t, fields, resets);
    }
  }

  /** Two callers: the second one sees the reset word and constructs the object again. */
  lemma TwoConstructions(t: nat, u: nat, fields: nat)
    requires t != u && fields > 0
    ensures Run(ZEROED, [t, t, u], fields, true).started == 2
  {
    var s1 := Next(ZEROED, t, fields, true);
    var s2 := Next(s1, t, fields, true);
    var m3, m2, m1 := [t, t, u], [t, t], [t];
    assert m3[..2] == m2 && m2[..1] == m1 && m1[..0] == [];
    assert Run(ZEROED, m1, fields, true) == s1;
    assert Run(ZEROED, m2, fields, true) == s2;
  }

  /** The race is safe for a set of callers exactly when construction leaves init_state alone or there is one caller. */
  lemma SafeExactlyWhen(callers: set<nat>, fields: nat, resets: bool)
    requires fields > 0
    ensures (forall moves: seq<nat> ::
               (forall i | 0 <= i < |moves| :: moves[i] in callers) ==> Safe(Run(ZEROED, moves, fields, resets)))
       <==> !resets || |callers| <= 1
  {
    if !resets {
      forall moves: seq<nat>
        ensures Safe(Run(ZEROED, moves, fields, resets))
      {
        RunKeepsInv(moves, fields);
      }
    } else if |callers| <= 1 {
      forall moves: seq<nat> | forall i | 0 <= i < |moves| :: moves[i] in callers
        ensures Safe(Run(ZEROED, moves, fields, resets))
      {
        if moves != [] {
          OnlyCaller(callers, moves);
          RunAlone(moves, moves[0], fields, resets);
        }
      }
    } else {
      var t := Pick(callers);
      assert |callers - {t}| == |callers| - 1;
      var u := Pick(callers - {t});
      TwoConstructions(t, u, fields);
      var moves := [t, t, u];
      assert forall i | 0 <= i < |moves| :: moves[i] in callers;
      assert !Safe(Run(ZEROED, moves, fields, resets));
    }
  }

  lemma OnlyCaller(callers: set<nat>, moves: seq<nat>)
    requires |callers| <= 1 && moves != [] && forall i | 0 <= i < |moves| :: moves[i] in callers
    ensures forall i | 0 <= i < |moves| :: moves[i] == moves[0]
  {
    forall i | 0 <= i < |moves|
      ensures moves[i] == moves[0]
    {
      if moves[i] != moves[0] {
        SubsetSize({moves[i], moves[0]}, callers);
      }
    }
  }
}
