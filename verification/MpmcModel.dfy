/**
 The multi-producer multi-consumer ring (WFMPMC.h) as a small-step machine.

 `Ring` is the shared memory of one queue. The functions on it are the single atomic actions of the
 source. `State` adds what every thread is doing and logs of what has happened. A `Move` lets one
 thread start a call or take its next step, so a sequence of moves is one interleaving.
*/
module MpmcModel {

  /** A ticket is drawn either to write or to read. */
  datatype Side = Write | Read

  /** What one cell's storage holds. `id` is the write ticket under which the object was constructed. */
  datatype Datum<T> =
    | Raw                        // no object
    | Torn                       // a constructor is at work
    | Live(value: T, id: int)    // an object with its value
    | Husk(id: int)              // an object whose value was moved out, not yet destroyed
  {
    predicate IsObject(k: int) {
      (Live? || Husk?) && id == k
    }
  }

  /** The shared memory: both counters, the cells, and the table of per-thread tickets. */
  datatype Ring<T> = Ring(
    writeIdx: nat, readIdx: nat,
    stat: seq<int>, data: seq<Datum<T>>,
    tids: seq<nat>, writeRec: seq<int>, readRec: seq<int>)
  {
    predicate Shaped() {
      && |stat| > 0 && |data| == |stat|
      && |tids| > 0 && |writeRec| == |tids| && |readRec| == |tids|
    }

    function Counter(side: Side): nat {
      if side.Write? then writeIdx else readIdx
    }

    function Record(side: Side): seq<int> {
      if side.Write? then writeRec else readRec
    }

    function Slot(k: int): nat
      requires Shaped()
    {
      k % |stat|
    }

    /** getWriteIdx and getReadIdx: fetch_add on one of the counters. */
    function FetchAdd(side: Side): Ring<T> {
      if side.Write? then this.(writeIdx := writeIdx + 1) else this.(readIdx := readIdx + 1)
    }

    /** getWritable and getReadable: whether the cell's word says that it is ticket k's turn. */
    predicate Grants(side: Side, k: int)
      requires Shaped()
    {
      stat[Slot(k)] == if side.Write? then k else Complement(k)
    }

    function StoreStat(k: int, word: int): Ring<T>
      requires Shaped()
    {
      this.(stat := stat[Slot(k) := word])
    }

    function StoreData(k: int, d: Datum<T>): Ring<T>
      requires Shaped()
    {
      this.(data := data[Slot(k) := d])
    }

    function StoreRecord(side: Side, c: nat, k: int): Ring<T>
      requires Shaped() && c < |tids|
    {
      if side.Write? then this.(writeRec := writeRec[c := k]) else this.(readRec := readRec[c := k])
    }
  }

  /** The bitwise complement of a two's complement word. */
  function Complement(k: int): int {
    -k - 1
  }

  /** The constructor's image: cell i is free for ticket i, the thread table is empty. */
  function Constructed<T>(size: nat, thrSize: nat): (g: Ring<T>)
    requires size > 0 && thrSize > 0
    ensures g.Shaped()
  {
    Ring(0, 0, seq(size, i => i), seq(size, _ => Raw),
         seq(thrSize, _ => 0), seq(thrSize, _ => -1), seq(thrSize, _ => -1))
  }

  /** What a call wants: to push a value or to pop one. */
  datatype Want<T> = Push(value: T) | Pop
  {
    function Side(): Side {
      if Push? then Write else Read
    }
  }

  /** The record index of a call that keeps its ticket to itself (emplace and pop). */
  const NO_RECORD := -1

  /** Where a ticket's holder stands between drawing the ticket and committing it. */
  datatype Stage<T> =
    | Checking                   // about to load stat
    | Granted                    // the cell is its own, data not yet touched
    | Accessing(seen: Datum<T>)  // data access under way
    | Accessed                   // object constructed, or value moved out
    | Destroyed                  // reader only: ~T has run, stat not yet stored
  {
    predicate Inside() {
      !Checking?
    }
  }

  datatype Pc<T> =
    | Idle
    | Probing(want: Want<T>, cur: nat, cnt: nat)          // getThrIdx, about to load tids[cur]
    | Claiming(want: Want<T>, cur: nat, cnt: nat)         // getThrIdx, about to CAS tids[cur]
    | Ready(want: Want<T>, rec: int)                      // about to draw or resume a ticket
    | Holding(want: Want<T>, rec: int, idx: int, stage: Stage<T>)
    | Clearing(want: Want<T>, rec: int)                   // committed, record not yet reset to -1

  /** Who drew a ticket: a blocking call of thread t, or the record at table entry c. */
  datatype Holder = InCall(tid: nat) | InRecord(entry: nat)

  /**
   The whole system. Everything after `pcs` is a log that no step ever looks at: who drew each
   ticket, the value committed by each write ticket, the read tickets committed, what each read
   ticket delivered, which thread is inside each cell (0 for none), and every construction and
   destruction by object id.
  */
  datatype State<T> = State(
    ring: Ring<T>, pcs: map<nat, Pc<T>>,
    writeDraws: seq<Holder>, readDraws: seq<Holder>,
    pushed: map<int, T>, popped: set<int>, delivered: map<int, Datum<T>>,
    guest: seq<nat>, built: multiset<int>, freed: multiset<int>)
  {
    function N(): nat { |ring.stat| }
    function M(): nat { |ring.tids| }

    function PcOf(t: nat): Pc<T> {
      if t in pcs then pcs[t] else Idle
    }

    function Goto(t: nat, pc: Pc<T>): State<T> {
      this.(pcs := pcs[t := pc])
    }

    function Draws(side: Side): seq<Holder> {
      if side.Write? then writeDraws else readDraws
    }

    function Committed(side: Side): set<int> {
      if side.Write? then pushed.Keys else popped
    }

    predicate WellFormed() {
      && ring.Shaped() && |guest| == N()
      && (forall t | t in pcs :: PcInRange(pcs[t], M()))
    }
  }

  predicate PcInRange<T>(pc: Pc<T>, m: nat) {
    match pc
    case Idle => true
    case Probing(_, cur, _) => cur < m
    case Claiming(_, cur, _) => cur < m
    case Ready(_, rec) => NO_RECORD <= rec < m
    case Holding(_, rec, _, _) => NO_RECORD <= rec < m
    case Clearing(_, rec) => 0 <= rec < m
  }

  function Initial<T>(size: nat, thrSize: nat): (s: State<T>)
    requires size > 0 && thrSize > 0
    ensures s.WellFormed()
  {
    State(Constructed(size, thrSize), map[], [], [], map[], {}, map[],
          seq(size, _ => 0), multiset{}, multiset{})
  }

  /** No step resizes anything. */
  predicate Keeps<T>(s: State<T>, s': State<T>) {
    s'.WellFormed() && s'.N() == s.N() && s'.M() == s.M()
  }

  // One step of thread t, by the kind of step.

  /** The head of the probe loop: out of attempts, own entry, empty entry, or someone else's. */
  function StepProbe<T>(s: State<T>, t: nat): (s': State<T>)
    requires s.WellFormed() && s.PcOf(t).Probing?
    ensures Keeps(s, s')
  {
    var Probing(want, cur, cnt) := s.PcOf(t);
    if cnt == 0 then s.Goto(t, Idle)
    else if s.ring.tids[cur] == t then s.Goto(t, Ready(want, cur))
    else if s.ring.tids[cur] == 0 then s.Goto(t, Claiming(want, cur, cnt - 1))
    else s.Goto(t, Probing(want, (cur + 1) % s.M(), cnt - 1))
  }

  /** The compare-and-swap on an entry that was seen empty. */
  function StepClaim<T>(s: State<T>, t: nat): (s': State<T>)
    requires s.WellFormed() && s.PcOf(t).Claiming?
    ensures Keeps(s, s')
  {
    var Claiming(want, cur, cnt) := s.PcOf(t);
    if s.ring.tids[cur] == 0 then
      s.(ring := s.ring.(tids := s.ring.tids[cur := t])).Goto(t, Ready(want, cur))
    else s.Goto(t, Probing(want, (cur + 1) % s.M(), cnt))
  }

  /** A record that still holds a ticket reuses it; otherwise a new ticket is drawn. */
  function StepReady<T>(s: State<T>, t: nat): (s': State<T>)
    requires s.WellFormed() && s.PcOf(t).Ready?
    ensures Keeps(s, s')
  {
    var Ready(want, rec) := s.PcOf(t);
    var side := want.Side();
    if rec != NO_RECORD && s.ring.Record(side)[rec] >= 0 then
      s.Goto(t, Holding(want, rec, s.ring.Record(side)[rec], Checking))
    else
      var k := s.ring.Counter(side);
      var ring := s.ring.FetchAdd(side);
      var ring' := if rec == NO_RECORD then ring else ring.StoreRecord(side, rec, k);
      LogDraw(s.(ring := ring'), side, if rec == NO_RECORD then InCall(t) else InRecord(rec))
      .Goto(t, Holding(want, rec, k, Checking))
  }

  function LogDraw<T>(s: State<T>, side: Side, h: Holder): State<T> {
    if side.Write? then s.(writeDraws := s.writeDraws + [h]) else s.(readDraws := s.readDraws + [h])
  }

  /** Loading stat: enter the cell, spin in a blocking call, or fail in a try call. */
  function StepCheck<T>(s: State<T>, t: nat): (s': State<T>)
    requires s.WellFormed() && s.PcOf(t).Holding? && s.PcOf(t).stage.Checking?
    ensures Keeps(s, s')
  {
    var Holding(want, rec, k, _) := s.PcOf(t);
    if s.ring.Grants(want.Side(), k) then
      s.(guest := s.guest[s.ring.Slot(k) := t]).Goto(t, Holding(want, rec, k, Granted))
    else if rec == NO_RECORD then s
    else s.Goto(t, Idle)
  }

  /** The data access starts: a constructor tears the storage, a reader sees what is there. */
  function StepOpen<T>(s: State<T>, t: nat): (s': State<T>)
    requires s.WellFormed() && s.PcOf(t).Holding? && s.PcOf(t).stage.Granted?
    ensures Keeps(s, s')
  {
    var Holding(want, rec, k, _) := s.PcOf(t);
    var seen := s.ring.data[s.ring.Slot(k)];
    var s' := s.Goto(t, Holding(want, rec, k, Accessing(seen)));
    if want.Push? then s'.(ring := s.ring.StoreData(k, Torn)) else s'
  }

  /**
   The data access ends. A constructor leaves a live object. A reader delivers what it saw when
   nothing changed meanwhile, and garbage otherwise; moving the value out leaves a husk.
  */
  function StepClose<T(==)>(s: State<T>, t: nat): (s': State<T>)
    requires s.WellFormed() && s.PcOf(t).Holding? && s.PcOf(t).stage.Accessing?
    ensures Keeps(s, s')
  {
    var Holding(want, rec, k, Accessing(seen)) := s.PcOf(t);
    var now := s.ring.data[s.ring.Slot(k)];
    var s' := s.Goto(t, Holding(want, rec, k, Accessed));
    if want.Push? then
      s'.(ring := s.ring.StoreData(k, Live(want.value, k)), built := s.built + multiset{k})
    else
      s'.(ring := s.ring.StoreData(k, if now.Live? then Husk(now.id) else now),
          delivered := s.delivered[k := if now == seen then now else Torn])
  }

  /** After the access a writer publishes the cell; a reader runs the destructor in place. */
  function StepAfter<T>(s: State<T>, t: nat): (s': State<T>)
    requires s.WellFormed() && s.PcOf(t).Holding? && s.PcOf(t).stage.Accessed?
    ensures Keeps(s, s')
  {
    var Holding(want, rec, k, _) := s.PcOf(t);
    var now := s.ring.data[s.ring.Slot(k)];
    if want.Push? then
      s.(ring := s.ring.StoreStat(k, Complement(k)), pushed := s.pushed[k := want.value],
         guest := s.guest[s.ring.Slot(k) := 0])
      .Goto(t, if rec == NO_RECORD then Idle else Clearing(want, rec))
    else
      s.(ring := s.ring.StoreData(k, Raw), freed := s.freed + ObjectIds(now))
      .Goto(t, Holding(want, rec, k, Destroyed))
  }

  /** The id of the object that a destructor call destroys, if there is one. */
  function ObjectIds<T>(d: Datum<T>): multiset<int> {
    if d.Live? || d.Husk? then multiset{d.id} else multiset{}
  }

  /** The reader hands the cell to the write ticket of the next lap. */
  function StepRelease<T>(s: State<T>, t: nat): (s': State<T>)
    requires s.WellFormed() && s.PcOf(t).Holding? && s.PcOf(t).stage.Destroyed?
    ensures Keeps(s, s')
  {
    var Holding(want, rec, k, _) := s.PcOf(t);
    s.(ring := s.ring.StoreStat(k, k + s.N()), popped := s.popped + {k},
       guest := s.guest[s.ring.Slot(k) := 0])
    .Goto(t, if rec == NO_RECORD then Idle else Clearing(want, rec))
  }

  function StepClear<T>(s: State<T>, t: nat): (s': State<T>)
    requires s.WellFormed() && s.PcOf(t).Clearing?
    ensures Keeps(s, s')
  {
    var Clearing(want, rec) := s.PcOf(t);
    s.(ring := s.ring.StoreRecord(want.Side(), rec, -1)).Goto(t, Idle)
  }

  /** The next step of thread t inside its current call. */
  function Step<T(==)>(s: State<T>, t: nat): (s': State<T>)
    requires s.WellFormed()
    ensures Keeps(s, s')
  {
    match s.PcOf(t)
    case Idle => s
    case Probing(_, _, _) => StepProbe(s, t)
    case Claiming(_, _, _) => StepClaim(s, t)
    case Ready(_, _) => StepReady(s, t)
    case Holding(_, _, _, Checking) => StepCheck(s, t)
    case Holding(_, _, _, Granted) => StepOpen(s, t)
    case Holding(_, _, _, Accessing(_)) => StepClose(s, t)
    case Holding(_, _, _, Accessed) => StepAfter(s, t)
    case Holding(_, _, _, Destroyed) => StepRelease(s, t)
    case Clearing(_, _) => StepClear(s, t)
  }

  /** An idle thread starts emplace or pop (blocking), or tryVisitPush or tryVisitPop. */
  function Begin<T>(s: State<T>, t: nat, want: Want<T>, blocking: bool): (s': State<T>)
    requires s.WellFormed() && s.PcOf(t).Idle?
    ensures Keeps(s, s')
  {
    s.Goto(t, if blocking then Ready(want, NO_RECORD) else Probing(want, t % s.M(), s.M()))
  }

  datatype Move<T> = Call(tid: nat, want: Want<T>, blocking: bool) | Go(tid: nat)

  /** A move by thread id 0 does not exist; a call on a busy thread has no effect. */
  function Next<T(==)>(s: State<T>, mv: Move<T>): (s': State<T>)
    requires s.WellFormed()
    ensures Keeps(s, s')
  {
    if mv.tid == 0 then s
    else if mv.Go? then Step(s, mv.tid)
    else if s.PcOf(mv.tid).Idle? then Begin(s, mv.tid, mv.want, mv.blocking)
    else s
  }

  /** The state after an interleaving. */
  function Run<T(==)>(s: State<T>, moves: seq<Move<T>>): (s': State<T>)
    requires s.WellFormed()
    ensures Keeps(s, s')
    decreases |moves|
  {
    if moves == [] then s else Next(Run(s, moves[..|moves| - 1]), moves[|moves| - 1])
  }
}
