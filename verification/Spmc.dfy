/**
 The single-producer multi-consumer ring (WFSPMC.h): one writer, any number of readers with cursors of
 their own. The writer stores the data and then publishes the index; readers index the shared cells.
*/
module Spmc {
  import opened Modular
  import opened LogRing
  import opened Wrappers

  /** `idx` and `epoch` record under which index a value was written, after how many setWriteIdx calls. */
  datatype Cell<T> = Unset | Torn | Full(value: T, idx: int, epoch: nat)

  datatype Writer<T> =
    | Resting
    | Storing(value: T)   // the data write of entry writeIdx + 1 is under way
    | Stored(value: T)    // about to publish it

  /** A reader of index idx. `since` and `published` record the epoch and writeIdx when it began. */
  datatype Reader<T> =
    | Waiting
    | Loading(idx: nat, seen: Cell<T>, since: nat, published: int)
    | Loaded(idx: nat, got: Cell<T>)

  /**
   `start` is the index given to the last setWriteIdx, `epoch` the number of such calls, `entries` the
   values published since, entries[i] at index start + 1 + i. All three are logs.
  */
  datatype State<T> = State(
    writeIdx: int, blks: seq<Cell<T>>, writer: Writer<T>, readers: map<nat, Reader<T>>,
    start: int, epoch: nat, entries: seq<T>)
  {
    function WriteCell(): nat
      requires |blks| > 0
    {
      (writeIdx + 1) % |blks|
    }

    function ReaderAt(t: nat): Reader<T> {
      if t in readers then readers[t] else Waiting
    }

    /** Index k has been published since the last setWriteIdx. */
    predicate Published(k: int) {
      start < k <= start + |entries|
    }

    function EntryAt(k: int): Cell<T>
      requires Published(k)
    {
      Full(entries[k - start - 1], k, epoch)
    }

    /** The greatest index whose data write has begun. */
    function Begun(): int {
      if writer.Resting? then writeIdx else writeIdx + 1
    }
  }

  /**
   A resting writer begins a push or calls setWriteIdx. A push at an index below -1 would store in front of
   the cells, C++'s remainder having the sign of the dividend, so there it is no move.
  */
  datatype Move<T> = BeginPush(value: T) | Write | SetIndex(to: int) | BeginRead(t: nat, idx: nat) | EndRead(t: nat)

  function Next<T(==)>(s: State<T>, mv: Move<T>): (s': State<T>)
    requires |s.blks| > 0
    ensures |s'.blks| == |s.blks|
  {
    match mv
    case BeginPush(v) =>
      if s.writer.Resting? && s.writeIdx >= -1 then s.(blks := s.blks[s.WriteCell() := Torn], writer := Storing(v))
      else s
    case Write =>
      (match s.writer
       case Resting => s
       case Storing(v) => s.(blks := s.blks[s.WriteCell() := Full(v, s.writeIdx + 1, s.epoch)], writer := Stored(v))
       case Stored(v) => s.(writeIdx := s.writeIdx + 1, entries := s.entries + [v], writer := Resting))
    case SetIndex(to) =>
      if s.writer.Resting? then s.(writeIdx := to, start := to, epoch := s.epoch + 1, entries := []) else s
    case BeginRead(t, idx) =>
      s.(readers := s.readers[t := Loading(idx, s.blks[idx % |s.blks|], s.epoch, s.writeIdx)])
    case EndRead(t) =>
      (match s.ReaderAt(t)
       case Loading(idx, seen, _, _) =>
         var now := s.blks[idx % |s.blks|];
         s.(readers := s.readers[t := Loaded(idx, if now == seen then now else Torn)])
       case _ => s)
  }

  function Run<T(==)>(s: State<T>, moves: seq<Move<T>>): (s': State<T>)
    requires |s.blks| > 0
    ensures |s'.blks| == |s.blks|
  {
    if moves == [] then s else Next(Run(s, moves[..|moves| - 1]), moves[|moves| - 1])
  }

  function Initial<T>(size: nat): State<T> {
    State(0, seq(size, _ => Unset), Resting, map[], 0, 0, [])
  }

  /** What the cell of the latest index k holds. */
  ghost function Content<T>(s: State<T>, k: int): Cell<T>
    requires s.start < k <= s.Begun() && s.writeIdx == s.start + |s.entries|
  {
    if k <= s.writeIdx then s.EntryAt(k)
    else if s.writer.Storing? then Torn
    else Full(s.writer.value, k, s.epoch)
  }

  /** Every cell that has been written since the last setWriteIdx holds the latest entry of its class. */
  ghost predicate CellOk<T>(s: State<T>, k: int)
    requires |s.blks| > 0 && s.writeIdx == s.start + |s.entries|
  {
    var n := |s.blks|;
    s.start < k <= s.Begun() && s.Begun() < k + n ==> s.blks[k % n] == Content(s, k)
  }

  ghost predicate ReaderOk<T>(s: State<T>, t: nat)
    requires |s.blks| > 0
  {
    var r := s.ReaderAt(t);
    r.Loading? && r.since == s.epoch ==>
      && r.published <= s.start + |s.entries|
      && (s.start < r.idx <= r.published && s.Begun() < r.idx + |s.blks| ==> r.seen == s.EntryAt(r.idx))
  }

  ghost predicate Inv<T>(s: State<T>) {
    && |s.blks| > 0
    && s.writeIdx == s.start + |s.entries|
    && (forall k :: CellOk(s, k))
    && (forall t | t in s.readers :: ReaderOk(s, t) && (s.readers[t].Loading? ==> s.readers[t].since <= s.epoch))
  }

  lemma WriterKeepsCells<T>(s: State<T>, mv: Move<T>)
    requires Inv(s) && (mv.BeginPush? || mv.Write?)
    ensures var s' := Next(s, mv); s'.writeIdx == s'.start + |s'.entries| && forall k :: CellOk(s', k)
  {
    var s' := Next(s, mv);
    forall k
      ensures CellOk(s', k)
    {
      assert CellOk(s, k);
      if k <= s.writeIdx && s.writeIdx + 1 < k + |s.blks| {
        if k % |s.blks| == s.WriteCell() {
          SameSlotGap(k, s.writeIdx + 1, |s.blks|);
        }
      }
    }
  }

  lemma NextKeepsInv<T>(s: State<T>, mv: Move<T>)
    requires Inv(s)
    ensures Inv(Next(s, mv))
  {
    var s' := Next(s, mv);
    if mv.BeginPush? || mv.Write? {
      WriterKeepsCells(s, mv);
    } else {
      forall k
        ensures CellOk(s', k)
      {
        assert CellOk(s, k);
      }
    }
    forall t | t in s'.readers
      ensures ReaderOk(s', t)
    {
      if t in s.readers {
        assert ReaderOk(s, t);
      }
      if mv.BeginRead? && mv.t == t {
        assert CellOk(s, mv.idx);
      }
    }
  }

  lemma {:induction false} RunKeepsInv<T>(s: State<T>, moves: seq<Move<T>>)
    requires Inv(s)
    ensures Inv(Run(s, moves))
  {
    if moves != [] {
      RunKeepsInv(s, moves[..|moves| - 1]);
      NextKeepsInv(Run(s, moves[..|moves| - 1]), moves[|moves| - 1]);
    }
  }

  lemma InitialInv<T>(size: nat)
    requires size > 0
    ensures Inv(Initial<T>(size))
  {
  }

  // What a run does, told from its moves alone.

  /**
   Since the last setWriteIdx, which gave index `start`: the values whose pushes have begun, and how far the
   last of these pushes has got, 0 if it is published.
  */
  datatype Script<T> = Script(start: int, calls: nat, begun: seq<T>, writeStep: nat)
  {
    function Complete(): seq<T>
      requires writeStep == 0 || begun != []
    {
      if writeStep == 0 then begun else begun[..|begun| - 1]
    }
  }

  function Continued<T>(a: Script<T>, mv: Move<T>): Script<T> {
    match mv
    case BeginPush(v) =>
      if a.writeStep == 0 && a.start + |a.begun| >= -1 then a.(begun := a.begun + [v], writeStep := 1) else a
    case Write => a.(writeStep := if a.writeStep == 1 then 2 else 0)
    case SetIndex(to) => if a.writeStep == 0 then Script(to, a.calls + 1, [], 0) else a
    case _ => a
  }

  function Scripted<T>(moves: seq<Move<T>>): Script<T> {
    if moves == [] then Script(0, 0, [], 0) else Continued(Scripted(moves[..|moves| - 1]), moves[|moves| - 1])
  }

  ghost predicate Means<T>(s: State<T>, a: Script<T>) {
    && a.writeStep <= 2 && (a.writeStep == 0 || a.begun != [])
    && s.start == a.start && s.epoch == a.calls && s.entries == a.Complete()
    && s.writeIdx == a.start + |a.Complete()|
    && s.writer == match a.writeStep
                   case 0 => Resting
                   case 1 => Storing(a.begun[|a.begun| - 1])
                   case _ => Stored(a.begun[|a.begun| - 1])
  }

  lemma NextMeans<T>(s: State<T>, a: Script<T>, mv: Move<T>)
    requires |s.blks| > 0 && Means(s, a)
    ensures Means(Next(s, mv), Continued(a, mv))
  {
    if mv.BeginPush? {
      assert (a.begun + [mv.value])[..|a.begun|] == a.begun;
    }
  }

  /** Exactly the values pushed since the last setWriteIdx are published, in order, and the index counts them. */
  lemma {:induction false} EntriesArePushed<T>(size: nat, moves: seq<Move<T>>)
    requires size > 0
    ensures Means(Run(Initial<T>(size), moves), Scripted(moves))
  {
    hide Next, Continued, Means;
    if moves == [] {
      InitialMeans<T>(size);
    } else {
      EntriesArePushed(size, moves[..|moves| - 1]);
      NextMeans(Run(Initial<T>(size), moves[..|moves| - 1]), Scripted(moves[..|moves| - 1]), moves[|moves| - 1]);
    }
  }

  lemma InitialMeans<T>(size: nat)
    ensures Means(Initial<T>(size), Script(0, 0, [], 0))
  {
  }

  /** The index that reader t asked for last, if any. */
  function Asked<T>(moves: seq<Move<T>>, t: nat): Option<nat> {
    if moves == [] then None
    else
      var mv := moves[|moves| - 1];
      if mv.BeginRead? && mv.t == t then Some(mv.idx) else Asked(moves[..|moves| - 1], t)
  }

  /** Reader t has asked and not ended since. */
  predicate Reading<T>(moves: seq<Move<T>>, t: nat) {
    moves != [] &&
    (var mv := moves[|moves| - 1];
     (mv.BeginRead? && mv.t == t) || (!(mv.EndRead? && mv.t == t) && Reading(moves[..|moves| - 1], t)))
  }

  /** A reader is reading, or has read, the index that it asked for. */
  lemma {:induction false} ReadersReadWhatTheyAsk<T>(size: nat, moves: seq<Move<T>>, t: nat)
    requires size > 0
    ensures var r := Run(Initial<T>(size), moves).ReaderAt(t);
      match Asked(moves, t)
      case None => r == Waiting
      case Some(idx) => !r.Waiting? && r.idx == idx && (r.Loading? <==> Reading(moves, t))
  {
    if moves != [] {
      ReadersReadWhatTheyAsk(size, moves[..|moves| - 1], t);
    }
  }

  // What readers get.

  /** A cell that has been lapped no longer holds the entry. */
  lemma LappedCell<T>(s: State<T>, k: int)
    requires Inv(s) && s.Published(k) && s.Begun() >= k + |s.blks|
    ensures s.blks[k % |s.blks|] != s.EntryAt(k)
  {
    var n := |s.blks|;
    var l := Latest(s.Begun(), k, n);
    LatestIsGreatest(s.Begun(), k, n);
    assert CellOk(s, l);
  }

  /** Between two calls of setWriteIdx the log only grows at its end. */
  lemma {:induction false} LogOnlyGrows<T>(s: State<T>, moves: seq<Move<T>>)
    requires |s.blks| > 0
    ensures var s' := Run(s, moves);
      && s.epoch <= s'.epoch
      && (s'.epoch == s.epoch ==> s'.start == s.start && s.entries <= s'.entries)
  {
    if moves != [] {
      LogOnlyGrows(s, moves[..|moves| - 1]);
    }
  }

  /** Reader t neither begins nor ends a read. */
  predicate LeavesReader<T>(moves: seq<Move<T>>, t: nat) {
    forall i | 0 <= i < |moves| :: (moves[i].BeginRead? || moves[i].EndRead?) ==> moves[i].t != t
  }

  lemma {:induction false} ReaderStays<T>(s: State<T>, moves: seq<Move<T>>, t: nat)
    requires |s.blks| > 0 && LeavesReader(moves, t)
    ensures Run(s, moves).ReaderAt(t) == s.ReaderAt(t)
  {
    if moves != [] {
      ReaderStays(s, moves[..|moves| - 1], t);
    }
  }

  /** The state after reader t has begun to read idx and the others have made their moves. */
  function DuringRead<T(==)>(s: State<T>, t: nat, idx: nat, between: seq<Move<T>>): (s': State<T>)
    requires |s.blks| > 0
    ensures |s'.blks| == |s.blks|
  {
    Run(Next(s, BeginRead(t, idx)), between)
  }

  /**
   A reader that asks for a published entry idx gets exactly that entry if and only if, when it ends, the
   writer has not begun to write the entry one lap later.
  */
  lemma ReadExactlyInWindow<T>(size: nat, before: seq<Move<T>>, t: nat, idx: nat, between: seq<Move<T>>)
    requires size > 0 && LeavesReader(between, t)
    requires var s := Run(Initial<T>(size), before);
      s.Published(idx) && DuringRead(s, t, idx, between).epoch == s.epoch
    ensures var s := Run(Initial<T>(size), before); var s' := DuringRead(s, t, idx, between);
      Next(s', EndRead(t)).ReaderAt(t) == Loaded(idx, s.EntryAt(idx)) <==> s'.Begun() < idx + size
  {
    var s := Run(Initial<T>(size), before);
    var s1 := Next(s, BeginRead(t, idx));
    var s' := Run(s1, between);
    InitialInv<T>(size);
    RunKeepsInv(Initial<T>(size), before);
    NextKeepsInv(s, BeginRead(t, idx));
    RunKeepsInv(s1, between);
    ReaderStays(s1, between, t);
    LogOnlyGrows(s1, between);
    assert ReaderOk(s', t) && CellOk(s', idx);
    if s'.Begun() >= idx + size {
      LappedCell(s', idx);
    }
  }

  /** In particular a reader in (writeIdx + 1 - SIZE, writeIdx] gets its entry, even in the middle of a push. */
  lemma WindowSuffices<T>(size: nat, before: seq<Move<T>>, t: nat, idx: nat, between: seq<Move<T>>)
    requires size > 0 && LeavesReader(between, t)
    requires var s := Run(Initial<T>(size), before); var s' := DuringRead(s, t, idx, between);
      s.Published(idx) && s'.epoch == s.epoch && s'.writeIdx + 1 - size < idx
    ensures var s := Run(Initial<T>(size), before); var s' := DuringRead(s, t, idx, between);
      Next(s', EndRead(t)).ReaderAt(t) == Loaded(idx, s.EntryAt(idx))
  {
    ReadExactlyInWindow(size, before, t, idx, between);
  }

  lemma RunInv<T>(size: nat, moves: seq<Move<T>>)
    requires size > 0
    ensures Inv(Run(Initial<T>(size), moves))
  {
    InitialInv<T>(size);
    RunKeepsInv(Initial<T>(size), moves);
  }

  /** Two readers of one index that both stay in the window get the same value, whenever they read it. */
  lemma ReadersAgree<T>(size: nat, before: seq<Move<T>>, between: seq<Move<T>>, t: nat, u: nat)
    requires size > 0
    requires var s := Run(Initial<T>(size), before); var s' := Run(s, between);
      var r, r' := s.ReaderAt(t), s'.ReaderAt(u);
      && r.Loading? && r'.Loading? && r.idx == r'.idx && s'.epoch == s.epoch
      && r.since == s.epoch && s.start < r.idx <= r.published && s.Begun() < r.idx + size
      && r'.since == s'.epoch && r'.idx <= r'.published && s'.Begun() < r.idx + size
    ensures var s := Run(Initial<T>(size), before); var s' := Run(s, between);
      var got, got' := Next(s, EndRead(t)).ReaderAt(t), Next(s', EndRead(u)).ReaderAt(u);
      got.Loaded? && got'.Loaded? && got.got.Full? && got'.got.Full? && got.got.value == got'.got.value
  {
    var s := Run(Initial<T>(size), before);
    var s' := Run(s, between);
    RunInv(size, before);
    RunKeepsInv(s, between);
    LogOnlyGrows(s, between);
    var idx := s.ReaderAt(t).idx;
    assert ReaderOk(s, t) && CellOk(s, idx);
    assert ReaderOk(s', u) && CellOk(s', idx);
  }

  // The object, one operation after another.

  /** emplace and tryVisitPush, uninterrupted. */
  function Pushed<T(==)>(s: State<T>, v: T): (s': State<T>)
    requires |s.blks| > 0
    ensures |s'.blks| == |s.blks|
  {
    Next(Next(Next(s, BeginPush(v)), Write), Write)
  }

  class WfSpmc<T(0,!new)> {
    var writeIdx: int
    const blks: array<T>
    ghost var log: State<T>

    /** Between two operations the machine's state says what the fields hold, as far as it has been written. */
    ghost predicate Valid()
      reads this, blks
    {
      && blks.Length == |log.blks| && log.writer.Resting? && log.writeIdx == writeIdx && Inv(log)
      && forall j | 0 <= j < blks.Length && log.blks[j].Full? :: blks[j] == log.blks[j].value
    }

    /** Zeroed shared memory. */
    constructor (size: nat)
      requires size > 0
      ensures Valid() && fresh(blks) && blks.Length == size && log == Initial(size)
    {
      blks := new T[size];
      writeIdx := 0;
      log := Initial(size);
      InitialInv<T>(size);
    }

    method SetWriteIdx(idx: int)
      requires Valid()
      modifies this
      ensures Valid() && writeIdx == idx && log == Next(old(log), SetIndex(idx))
    {
      NextKeepsInv(log, SetIndex(idx));
      writeIdx := idx;
      log := Next(log, SetIndex(idx));
    }

    method GetCurrentWriteIdx() returns (idx: int)
      ensures idx == writeIdx
    {
      idx := writeIdx;
    }

    method TryVisitPush(v: T) returns (ok: bool)
      requires Valid() && writeIdx >= -1
      modifies this, blks
      ensures Valid() && ok && writeIdx == old(writeIdx) + 1 && log == Pushed(old(log), v)
      ensures log.entries == old(log.entries) + [v] && log.start == old(log.start)
      ensures blks[..] == old(blks[..])[writeIdx % blks.Length := v]
    {
      NextKeepsInv(log, BeginPush(v));
      NextKeepsInv(Next(log, BeginPush(v)), Write);
      NextKeepsInv(Next(Next(log, BeginPush(v)), Write), Write);
      var idx := writeIdx + 1;
      blks[idx % blks.Length] := v;
      writeIdx := idx;
      ok := true;
      log := Pushed(log, v);
    }

    /** The cell of the index; entry idx itself while it is published and has not been lapped. */
    method Pop(idx: nat) returns (v: T)
      requires Valid()
      ensures v == blks[idx % blks.Length]
      ensures log.Published(idx) && writeIdx < idx + blks.Length ==> v == log.entries[idx - log.start - 1]
    {
      v := blks[idx % blks.Length];
      assert CellOk(log, idx);
    }
  }
}
