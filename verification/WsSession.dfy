/**
 The send side of a websocket session (WSConnection.hpp): a queue of messages, written one at a time.
 The network decides when the handshake completes and how each write ends.
*/
module WsSession {

  /**
   `pending` says that an asynchronous write has been started and has not called back. `started`,
   `completed` and `sent` log the writes started, the writes that succeeded and the calls of send;
   `errors` counts the calls of onError.
  */
  datatype View<M> = View(
    queue: seq<M>, connected: bool, sending: bool, pending: bool,
    started: seq<M>, completed: seq<M>, sent: seq<M>, errors: nat)

  function New<M>(): View<M> {
    View([], false, false, false, [], [], [], 0)
  }

  /** check_send, with initiate_tx in it. */
  function AfterCheckSend<M>(s: View<M>): View<M> {
    if !s.connected || s.sending || s.queue == [] then s
    else s.(sending := true, pending := true, started := s.started + [s.queue[0]])
  }

  function AfterSend<M>(s: View<M>, m: M): View<M> {
    AfterCheckSend(s.(queue := s.queue + [m], sent := s.sent + [m]))
  }

  function AfterSendAll<M>(s: View<M>, ms: seq<M>): View<M> {
    if ms == [] then s else AfterSend(AfterSendAll(s, ms[..|ms| - 1]), ms[|ms| - 1])
  }

  function AfterFail<M>(s: View<M>): View<M> {
    s.(errors := s.errors + 1)
  }

  /** on_handshake. `greetings` are the messages that the listeners send from onConnect. */
  function AfterHandshake<M>(s: View<M>, ok: bool, greetings: seq<M>): View<M> {
    if !ok then AfterFail(s) else AfterSendAll(AfterCheckSend(s.(connected := true)), greetings)
  }

  /** handle_tx, called back once for each write started. */
  function AfterHandleTx<M>(s: View<M>, ok: bool): View<M>
    requires s.queue != []
  {
    if !ok then AfterFail(s.(pending := false))
    else
      AfterCheckSend(s.(queue := s.queue[1..], sending := false, pending := false,
                        completed := s.completed + [s.queue[0]]))
  }

  /** What happens to a session between two callback boundaries. */
  datatype Event<M> =
    | Sends(message: M)
    | Handshake(ok: bool, greetings: seq<M>)
    | WriteEnds(ok: bool)
    | ReadFails

  /** A write can only end if one is pending. */
  function Next<M>(s: View<M>, e: Event<M>): View<M> {
    match e
    case Sends(m) => AfterSend(s, m)
    case Handshake(ok, greetings) => AfterHandshake(s, ok, greetings)
    case WriteEnds(ok) => if s.pending && s.queue != [] then AfterHandleTx(s, ok) else s
    case ReadFails => AfterFail(s)
  }

  function Run<M>(s: View<M>, es: seq<Event<M>>): View<M> {
    if es == [] then s else Next(Run(s, es[..|es| - 1]), es[|es| - 1])
  }

  /** Every message sent is completed or queued, in order, and the front of the queue is the one write started. */
  ghost predicate Conserved<M>(s: View<M>) {
    && s.completed + s.queue == s.sent
    && (s.sending ==> s.queue != [] && s.started == s.completed + [s.queue[0]])
    && (!s.sending ==> s.started == s.completed)
    && (s.pending ==> s.sending)
  }

  /** At a callback boundary a connected session with something to send is sending it. */
  ghost predicate NoStall<M>(s: View<M>) {
    s.connected && s.queue != [] ==> s.sending
  }

  lemma SoundAtFirst<M>()
    ensures Conserved(New<M>()) && NoStall(New<M>())
  {
  }

  lemma CheckSendKeeps<M>(s: View<M>)
    requires Conserved(s)
    ensures Conserved(AfterCheckSend(s)) && NoStall(AfterCheckSend(s))
  {
  }

  lemma SendKeeps<M>(s: View<M>, m: M)
    requires Conserved(s)
    ensures Conserved(AfterSend(s, m)) && NoStall(AfterSend(s, m))
  {
    var s1 := s.(queue := s.queue + [m], sent := s.sent + [m]);
    assert s1.completed + s1.queue == s1.sent;
    CheckSendKeeps(s1);
  }

  lemma {:induction false} SendAllKeeps<M>(s: View<M>, ms: seq<M>)
    requires Conserved(s) && NoStall(s)
    ensures Conserved(AfterSendAll(s, ms)) && NoStall(AfterSendAll(s, ms))
  {
    if ms != [] {
      SendAllKeeps(s, ms[..|ms| - 1]);
      SendKeeps(AfterSendAll(s, ms[..|ms| - 1]), ms[|ms| - 1]);
    }
  }

  lemma HandleTxKeeps<M>(s: View<M>, ok: bool)
    requires Conserved(s) && NoStall(s) && s.pending
    ensures s.queue != [] && Conserved(AfterHandleTx(s, ok)) && NoStall(AfterHandleTx(s, ok))
  {
    if ok {
      var s1 := s.(queue := s.queue[1..], sending := false, pending := false, completed := s.completed + [s.queue[0]]);
      assert s.queue == [s.queue[0]] + s1.queue;
      assert s1.completed + s1.queue == s.completed + ([s.queue[0]] + s1.queue);
      CheckSendKeeps(s1);
    }
  }

  lemma NextKeeps<M>(s: View<M>, e: Event<M>)
    requires Conserved(s) && NoStall(s)
    ensures Conserved(Next(s, e)) && NoStall(Next(s, e))
  {
    match e
    case Sends(m) => SendKeeps(s, m);
    case Handshake(ok, greetings) =>
      if ok {
        CheckSendKeeps(s.(connected := true));
        SendAllKeeps(AfterCheckSend(s.(connected := true)), greetings);
      }
    case WriteEnds(ok) =>
      if s.pending {
        HandleTxKeeps(s, ok);
      }
    case ReadFails =>
  }

  // What a run does, told from its events alone.

  /** The messages given to the session: by send at any time, and by the listeners on a successful handshake. */
  function Messages<M>(es: seq<Event<M>>): seq<M> {
    if es == [] then []
    else match es[|es| - 1]
      case Sends(m) => Messages(es[..|es| - 1]) + [m]
      case Handshake(true, greetings) => Messages(es[..|es| - 1]) + greetings
      case _ => Messages(es[..|es| - 1])
  }

  predicate Shaken<M>(es: seq<Event<M>>) {
    exists i :: 0 <= i < |es| && es[i].Handshake? && es[i].ok
  }

  /** A connected session that has not failed a write is writing whenever a message is left. */
  predicate InFlight<M>(es: seq<Event<M>>)
    decreases |es|, 1
  {
    Shaken(es) && !WriteFailed(es) && Delivered(es) < |Messages(es)|
  }

  predicate WriteFailed<M>(es: seq<Event<M>>)
    decreases |es|, 0
  {
    es != [] &&
    (var before, e := es[..|es| - 1], es[|es| - 1];
     WriteFailed(before) || (e.WriteEnds? && !e.ok && InFlight(before)))
  }

  /** The number of writes that have succeeded. */
  function Delivered<M>(es: seq<Event<M>>): nat
    decreases |es|, 0
  {
    if es == [] then 0
    else
      var before, e := es[..|es| - 1], es[|es| - 1];
      Delivered(before) + if e.WriteEnds? && e.ok && InFlight(before) then 1 else 0
  }

  /** The number of failures reported to the listeners. */
  function Failures<M>(es: seq<Event<M>>): nat {
    if es == [] then 0
    else
      var before, e := es[..|es| - 1], es[|es| - 1];
      Failures(before) +
      if (e.Handshake? && !e.ok) || e.ReadFails? || (e.WriteEnds? && !e.ok && InFlight(before)) then 1 else 0
  }

  /** The session has been given ms and has delivered the first n of them. */
  ghost predicate Means<M>(s: View<M>, ms: seq<M>, n: nat, shaken: bool, failed: bool) {
    && s.sent == ms && n <= |ms| && s.completed == ms[..n] && s.queue == ms[n..]
    && s.connected == shaken
    && (s.sending <==> shaken && n < |ms|)
    && s.pending == (s.sending && !failed)
    && (failed ==> s.sending)
    && s.started == if s.sending then ms[..n + 1] else ms[..n]
  }

  lemma SendMeans<M>(s: View<M>, m: M, ms: seq<M>, n: nat, shaken: bool, failed: bool)
    requires Means(s, ms, n, shaken, failed)
    ensures Means(AfterSend(s, m), ms + [m], n, shaken, failed) && AfterSend(s, m).errors == s.errors
  {
    assert (ms + [m])[n..] == ms[n..] + [m];
    assert (ms + [m])[..n] == ms[..n];
    assert n < |ms| ==> (ms + [m])[..n + 1] == ms[..n + 1];
    assert n == |ms| ==> (ms + [m])[..n + 1] == ms + [m];
  }

  lemma {:induction false} SendAllMeans<M>(s: View<M>, gs: seq<M>, ms: seq<M>, n: nat, shaken: bool, failed: bool)
    requires Means(s, ms, n, shaken, failed)
    ensures Means(AfterSendAll(s, gs), ms + gs, n, shaken, failed) && AfterSendAll(s, gs).errors == s.errors
  {
    hide Means;
    if gs == [] {
      assert ms + gs == ms;
    } else {
      SendAllMeans(s, gs[..|gs| - 1], ms, n, shaken, failed);
      SendMeans(AfterSendAll(s, gs[..|gs| - 1]), gs[|gs| - 1], ms + gs[..|gs| - 1], n, shaken, failed);
      assert ms + gs == ms + gs[..|gs| - 1] + [gs[|gs| - 1]];
    }
  }

  lemma HandshakeMeans<M>(s: View<M>, gs: seq<M>, ms: seq<M>, n: nat, shaken: bool, failed: bool)
    requires Means(s, ms, n, shaken, failed)
    ensures Means(AfterHandshake(s, true, gs), ms + gs, n, true, failed)
    ensures AfterHandshake(s, true, gs).errors == s.errors
  {
    var s1 := AfterCheckSend(s.(connected := true));
    assert Means(s1, ms, n, true, failed);
    SendAllMeans(s1, gs, ms, n, true, failed);
  }

  lemma WriteMeans<M>(s: View<M>, ok: bool, ms: seq<M>, n: nat, shaken: bool, failed: bool)
    requires Means(s, ms, n, shaken, failed) && s.pending
    ensures s.queue != [] && Means(AfterHandleTx(s, ok), ms, if ok then n + 1 else n, shaken, !ok)
    ensures AfterHandleTx(s, ok).errors == s.errors + if ok then 0 else 1
  {
    if ok {
      assert ms[..n] + [ms[n]] == ms[..n + 1];
    }
  }

  lemma ShakenNext<M>(es: seq<Event<M>>)
    requires es != []
    ensures var before, e := es[..|es| - 1], es[|es| - 1];
      Shaken(es) <==> Shaken(before) || (e.Handshake? && e.ok)
  {
    var before := es[..|es| - 1];
    if i :| 0 <= i < |before| && before[i].Handshake? && before[i].ok {
      assert es[i].Handshake? && es[i].ok;
    }
  }

  lemma {:induction false} RunMeans<M>(es: seq<Event<M>>)
    ensures Means(Run(New<M>(), es), Messages(es), Delivered(es), Shaken(es), WriteFailed(es))
    ensures Run(New<M>(), es).errors == Failures(es)
  {
    if es != [] {
      var before, e := es[..|es| - 1], es[|es| - 1];
      var s, ms, n, failed := Run(New<M>(), before), Messages(before), Delivered(before), WriteFailed(before);
      RunMeans(before);
      ShakenNext(es);
      match e
      case Sends(m) => SendMeans(s, m, ms, n, Shaken(before), failed);
      case Handshake(ok, gs) =>
        if ok {
          HandshakeMeans(s, gs, ms, n, Shaken(before), failed);
        }
      case WriteEnds(ok) =>
        assert InFlight(before) <==> s.pending;
        if s.pending {
          WriteMeans(s, ok, ms, n, Shaken(before), failed);
        }
      case ReadFails =>
    }
  }

  /**
   In every run the messages delivered and queued are together the messages given, in order. The session is
   connected exactly if a handshake has succeeded, and then, as long as no write fails, each success of a
   write delivers one message and starts the write of the next one.
  */
  lemma WhatARunDoes<M>(es: seq<Event<M>>)
    ensures var s, ms, n := Run(New<M>(), es), Messages(es), Delivered(es);
      && n <= |ms| && s.completed == ms[..n] && s.queue == ms[n..]
      && (s.connected <==> exists i :: 0 <= i < |es| && es[i].Handshake? && es[i].ok)
      && s.started == (if s.connected && n < |ms| then ms[..n + 1] else ms[..n])
      && (s.pending <==> s.connected && n < |ms| && !WriteFailed(es))
      && s.errors == Failures(es)
  {
    RunMeans(es);
  }

  /** In every run nothing is lost, duplicated or reordered, at most one write is in flight, and nothing stalls. */
  lemma {:induction false} NothingLostOrStalled<M>(es: seq<Event<M>>)
    ensures var s := Run(New<M>(), es);
      && s.completed + s.queue == Messages(es) && Conserved(s) && NoStall(s)
      && s.started <= Messages(es) && |s.completed| <= |s.started| <= |s.completed| + 1
  {
    RunMeans(es);
    if es != [] {
      NothingLostOrStalled(es[..|es| - 1]);
      NextKeeps(Run(New<M>(), es[..|es| - 1]), es[|es| - 1]);
    }
  }

  /** A write has failed: the session still counts as sending, but nothing is in flight. */
  ghost predicate Broken<M>(s: View<M>) {
    s.sending && !s.pending
  }

  lemma {:induction false} SendAllBroken<M>(s: View<M>, ms: seq<M>)
    requires Broken(s)
    ensures var b := AfterSendAll(s, ms); Broken(b) && b.started == s.started && b.completed == s.completed
  {
    if ms != [] {
      SendAllBroken(s, ms[..|ms| - 1]);
    }
  }

  /** After a failed write no further write is ever started on the session, whatever is sent. */
  lemma {:induction false} FailedWriteIsFinal<M>(s: View<M>, es: seq<Event<M>>)
    requires s.pending && s.sending && s.queue != []
    ensures var b := AfterHandleTx(s, false); var b' := Run(b, es);
      Broken(b) && Broken(b') && b'.started == b.started == s.started && b'.completed == s.completed
  {
    var b := AfterHandleTx(s, false);
    if es != [] {
      FailedWriteIsFinal(s, es[..|es| - 1]);
      if es[|es| - 1].Handshake? {
        SendAllBroken(Run(b, es[..|es| - 1]).(connected := true), es[|es| - 1].greetings);
      }
    }
  }

  /** While writes succeed and nothing new is sent, each one takes the next message until none is left. */
  lemma {:induction false} QueueDrains<M>(s: View<M>, n: nat)
    requires Conserved(s) && NoStall(s) && s.connected && !Broken(s) && n <= |s.queue|
    ensures var s' := Run(s, seq(n, _ => WriteEnds(true)));
      && Conserved(s') && NoStall(s') && s'.connected && !Broken(s')
      && s'.queue == s.queue[n..] && s'.completed == s.completed + s.queue[..n] && s'.sent == s.sent
  {
    if n > 0 {
      var es: seq<Event<M>> := seq(n, _ => WriteEnds(true));
      assert es[..n - 1] == seq(n - 1, _ => WriteEnds(true));
      QueueDrains(s, n - 1);
      var s1 := Run(s, es[..n - 1]);
      NextKeeps(s1, WriteEnds(true));
      assert s1.queue[0] == s.queue[n - 1];
      assert s.queue[..n] == s.queue[..n - 1] + [s.queue[n - 1]];
    }
  }

  // The session object.

  class Session<M> {
    var writeQueue: seq<M>
    var connected: bool
    var sending: bool
    ghost var log: View<M>

    /** The logs agree with the fields. */
    ghost predicate Valid()
      reads this
    {
      && log.queue == writeQueue && log.connected == connected && log.sending == sending
      && Conserved(log)
    }

    constructor ()
      ensures Valid() && log == New()
    {
      writeQueue, connected, sending := [], false, false;
      log := New();
    }

    method Send(m: M)
      requires Valid()
      modifies this
      ensures Valid() && NoStall(log) && log == AfterSend(old(log), m)
    {
      SendKeeps(log, m);
      writeQueue := writeQueue + [m];
      log := log.(queue := writeQueue, sent := log.sent + [m]);
      assert log.completed + log.queue == log.sent;
      CheckSend();
    }

    method CheckSend()
      requires Valid()
      modifies this
      ensures Valid() && NoStall(log) && log == AfterCheckSend(old(log))
    {
      CheckSendKeeps(log);
      if !connected || sending || writeQueue == [] {
        return;
      }
      InitiateTx();
    }

    method InitiateTx()
      requires Valid() && connected && !sending && writeQueue != []
      modifies this
      ensures Valid()
      ensures log == old(log).(sending := true, pending := true, started := old(log).started + [old(log).queue[0]])
    {
      sending := true;
      log := log.(sending := true, pending := true, started := log.started + [writeQueue[0]]);
    }

    method HandleTx(ok: bool)
      requires Valid() && NoStall(log) && log.pending
      modifies this
      ensures Valid() && NoStall(log) && log == AfterHandleTx(old(log), ok)
    {
      HandleTxKeeps(log, ok);
      if !ok {
        log := AfterFail(log.(pending := false));
      } else {
        log := log.(queue := writeQueue[1..], sending := false, pending := false,
                    completed := log.completed + [writeQueue[0]]);
        writeQueue := writeQueue[1..];
        sending := false;
        CheckSend();
      }
    }

    method OnHandshake(ok: bool, greetings: seq<M>)
      requires Valid() && NoStall(log)
      modifies this
      ensures Valid() && NoStall(log) && log == AfterHandshake(old(log), ok, greetings)
    {
      if !ok {
        log := AfterFail(log);
        return;
      }
      connected := true;
      log := log.(connected := true);
      CheckSend();
      ghost var begun := log;
      for i := 0 to |greetings|
        invariant Valid() && NoStall(log) && log == AfterSendAll(begun, greetings[..i])
      {
        assert greetings[..i + 1][..i] == greetings[..i];
        Send(greetings[i]);
      }
      assert greetings[..|greetings|] == greetings;
    }
  }
}
