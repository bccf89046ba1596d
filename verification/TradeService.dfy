/**
 Request ids and websocket sessions of TradeService.hpp: authentication when connecting and on every
 reconnect, heartbeats, and the reply that is taken as acceptance.
*/
module TradeProtocol {
  import opened Wrappers
  import S = WsSession

  datatype Request = Auth(id: int) | Subscribe(id: int) | Heartbeat(id: int)

  /** A request and the session it was sent on. */
  datatype Issue = Issue(req: Request, session: nat)

  const FIRST_ID := 1000
  const HEARTBEAT_INTERVAL := 29000

  /**
   The last session is the current one; earlier ones may still call back. `connecting` says that Connect
   has been called. `issued` logs all requests, and `authAt` where in it the current auth request is, or
   -1. The source leaves authId uninitialised until the first auth request.
  */
  datatype Service = Service(
    id: int, authId: int, needReconnect: bool, lastHeartbeat: int, connecting: bool,
    sessions: seq<S.View<Request>>, issued: seq<Issue>, authAt: int)
  {
    function Current(): nat
      requires sessions != []
    {
      |sessions| - 1
    }
  }

  function Initial(authId: int): Service {
    Service(FIRST_ID, authId, false, 0, false, [S.New()], [], -1)
  }

  /** ws_session->send. */
  function Posted(s: Service, r: Request): (s': Service)
    requires s.sessions != []
    ensures |s'.sessions| == |s.sessions|
  {
    s.(sessions := s.sessions[s.Current() := S.AfterSend(s.sessions[s.Current()], r)],
       issued := s.issued + [Issue(r, s.Current())])
  }

  function AuthSent(s: Service): (s': Service)
    requires s.sessions != []
    ensures |s'.sessions| == |s.sessions|
  {
    Posted(s.(id := s.id + 1, authId := s.id + 1, authAt := |s.issued|), Auth(s.id + 1))
  }

  function SubscribeSent(s: Service): (s': Service)
    requires s.sessions != []
    ensures |s'.sessions| == |s.sessions|
  {
    Posted(s.(id := s.id + 1), Subscribe(s.id + 1))
  }

  /** Unlike the other two, the heartbeat takes the id before incrementing. */
  function HeartbeatSent(s: Service): (s': Service)
    requires s.sessions != []
    ensures |s'.sessions| == |s.sessions|
  {
    Posted(s.(id := s.id + 1), Heartbeat(s.id))
  }

  function Connected(s: Service): (s': Service)
    requires s.sessions != []
    ensures s'.sessions != []
  {
    AuthSent(s.(connecting := true))
  }

  function Reconnected(s: Service): (s': Service)
    requires s.sessions != []
    ensures s'.sessions != []
  {
    AuthSent(s.(sessions := s.sessions + [S.New()])).(needReconnect := false)
  }

  /** What one call of poll_one delivers, to session i. A message has an id or has none. */
  datatype Callback =
    | Nothing
    | Handshake(i: nat, ok: bool)
    | WriteEnds(i: nat, ok: bool)
    | ReadFails(i: nat)
    | Message(i: nat, reply: Option<int>)

  /** onMessage: the reply to the current auth request leads to a subscription. */
  function MessageHandled(s: Service, reply: Option<int>): (s': Service)
    requires s.sessions != []
    ensures s'.sessions != []
  {
    if reply == Some(s.authId) then SubscribeSent(s) else s
  }

  /** Session i handles the event; onError asks for a reconnect. */
  function OnSession(s: Service, i: nat, e: S.Event<Request>): (s': Service)
    requires i < |s.sessions|
    ensures s'.sessions != []
  {
    var after := S.Next(s.sessions[i], e);
    s.(sessions := s.sessions[i := after],
       needReconnect := s.needReconnect || after.errors > s.sessions[i].errors)
  }

  /** Nothing is delivered before Connect, which is what starts the first session's operations. */
  function Polled(s: Service, c: Callback): (s': Service)
    requires s.sessions != []
    ensures s'.sessions != []
  {
    if c.Nothing? || !s.connecting || c.i >= |s.sessions| then s
    else match c
      case Handshake(i, ok) => OnSession(s, i, S.Handshake(ok, []))
      case WriteEnds(i, ok) => OnSession(s, i, S.WriteEnds(ok))
      case ReadFails(i) => OnSession(s, i, S.ReadFails)
      case Message(_, reply) => MessageHandled(s, reply)
  }

  /** RunOnce after poll_one. */
  function Maintained(s: Service, now: int): (s': Service)
    requires s.sessions != []
    ensures s'.sessions != []
  {
    var s1 := if s.needReconnect then Reconnected(s) else s;
    if now > s1.lastHeartbeat + HEARTBEAT_INTERVAL then HeartbeatSent(s1).(lastHeartbeat := now) else s1
  }

  datatype Move = CallConnect | RunOnce(delivered: Callback, now: int)

  function Next(s: Service, mv: Move): (s': Service)
    requires s.sessions != []
    ensures s'.sessions != []
  {
    match mv
    case CallConnect => if s.connecting then s else Connected(s)
    case RunOnce(c, now) => Maintained(Polled(s, c), now)
  }

  function Run(s: Service, moves: seq<Move>): (s': Service)
    requires s.sessions != []
    ensures s'.sessions != []
  {
    if moves == [] then s else Next(Run(s, moves[..|moves| - 1]), moves[|moves| - 1])
  }

  // What a call does, told from the guards of the source and the calls made so far.

  /** The time of the last heartbeat: they are due when more than the interval has passed. */
  function LastBeat(moves: seq<Move>): int {
    if moves == [] then 0
    else
      var before := moves[..|moves| - 1];
      match moves[|moves| - 1]
      case CallConnect => LastBeat(before)
      case RunOnce(_, now) => if now > LastBeat(before) + HEARTBEAT_INTERVAL then now else LastBeat(before)
  }

  predicate HeartbeatDue(lastBeat: int, mv: Move) {
    mv.RunOnce? && mv.now > lastBeat + HEARTBEAT_INTERVAL
  }

  /** The callback is delivered to a session. */
  predicate Reaches(s: Service, c: Callback) {
    s.connecting && !c.Nothing? && c.i < |s.sessions|
  }

  /** The callback reports a failure. */
  predicate Fails(s: Service, c: Callback) {
    Reaches(s, c) &&
    match c
    case Handshake(_, ok) => !ok
    case WriteEnds(i, ok) => !ok && s.sessions[i].pending
    case ReadFails(_) => true
    case _ => false
  }

  /** The callback is a reply that is taken as acceptance. */
  predicate Accepts(s: Service, c: Callback) {
    Reaches(s, c) && c.Message? && c.reply == Some(s.authId)
  }

  /** The requests that a call sends, with their ids, on which session. */
  function Requests(s: Service, lastBeat: int, mv: Move): seq<Issue>
    requires s.sessions != []
  {
    var n, cur := FIRST_ID + |s.issued|, s.Current();
    match mv
    case CallConnect => if s.connecting then [] else [Issue(Auth(n + 1), cur)]
    case RunOnce(c, _) =>
      var first := if Accepts(s, c) then [Issue(Subscribe(n + 1), cur)]
                   else if Fails(s, c) then [Issue(Auth(n + 1), cur + 1)]
                   else [];
      var last := if Fails(s, c) then cur + 1 else cur;
      if HeartbeatDue(lastBeat, mv) then first + [Issue(Heartbeat(n + |first|), last)] else first
  }

  /** Ids count the requests, nothing is left over from one call to the next, and every session is sound. */
  ghost predicate CallOk(s: Service) {
    && s.sessions != [] && s.id == FIRST_ID + |s.issued| && !s.needReconnect
    && (s.connecting || |s.sessions| == 1)
    && forall i | 0 <= i < |s.sessions| :: S.Conserved(s.sessions[i]) && S.NoStall(s.sessions[i])
  }

  /** After the callback of a RunOnce. */
  lemma PollDoes(s: Service, c: Callback)
    requires CallOk(s)
    ensures var p := Polled(s, c);
      && p.issued == s.issued + (if Accepts(s, c) then [Issue(Subscribe(s.id + 1), s.Current())] else [])
      && p.id == FIRST_ID + |p.issued| && p.needReconnect == Fails(s, c) && |p.sessions| == |s.sessions|
      && p.lastHeartbeat == s.lastHeartbeat && p.connecting == s.connecting
  {
  }

  lemma PollIsSound(s: Service, c: Callback)
    requires CallOk(s)
    ensures forall i | 0 <= i < |Polled(s, c).sessions| ::
              S.Conserved(Polled(s, c).sessions[i]) && S.NoStall(Polled(s, c).sessions[i])
  {
    if Reaches(s, c) {
      match c
      case Handshake(i, ok) => S.NextKeeps(s.sessions[i], S.Handshake(ok, []));
      case WriteEnds(i, ok) => S.NextKeeps(s.sessions[i], S.WriteEnds(ok));
      case ReadFails(i) => S.NextKeeps(s.sessions[i], S.ReadFails);
      case Message(_, _) => S.SendKeeps(s.sessions[s.Current()], Subscribe(s.id + 1));
    }
  }

  lemma PostIsSound(s: Service, r: Request)
    requires s.sessions != []
    requires forall i | 0 <= i < |s.sessions| :: S.Conserved(s.sessions[i]) && S.NoStall(s.sessions[i])
    ensures var p := Posted(s, r);
      && (forall i | 0 <= i < |p.sessions| :: S.Conserved(p.sessions[i]) && S.NoStall(p.sessions[i]))
      && p == s.(sessions := p.sessions, issued := s.issued + [Issue(r, s.Current())])
  {
    S.SendKeeps(s.sessions[s.Current()], r);
  }

  /** The part of RunOnce after the callback. */
  lemma MaintenanceDoes(s: Service, now: int)
    requires CallOk(s.(needReconnect := false)) && (s.needReconnect ==> s.connecting)
    ensures var s', hb := Maintained(s, now), now > s.lastHeartbeat + HEARTBEAT_INTERVAL;
      var last := if s.needReconnect then s.Current() + 1 else s.Current();
      var auth := if s.needReconnect then [Issue(Auth(s.id + 1), last)] else [];
      && CallOk(s') && s'.connecting == s.connecting && s'.Current() == last
      && s'.lastHeartbeat == (if hb then now else s.lastHeartbeat)
      && s'.issued == s.issued + auth + if hb then [Issue(Heartbeat(s.id + |auth|), last)] else []
  {
    hide S.AfterSend, S.Conserved, S.NoStall, Posted;
    var s1 := s;
    if s.needReconnect {
      S.SoundAtFirst<Request>();
      s1 := s.(sessions := s.sessions + [S.New()], id := s.id + 1, authId := s.id + 1, authAt := |s.issued|);
      PostIsSound(s1, Auth(s.id + 1));
      s1 := Reconnected(s);
    }
    PostIsSound(s1.(id := s1.id + 1), Heartbeat(s1.id));
  }

  lemma ConnectDoes(s: Service)
    requires CallOk(s)
    ensures var s' := Connected(s);
      && CallOk(s') && s'.connecting && s'.lastHeartbeat == s.lastHeartbeat && s'.Current() == s.Current()
      && s'.issued == s.issued + [Issue(Auth(s.id + 1), s.Current())]
  {
    hide S.AfterSend, S.Conserved, S.NoStall, Posted;
    PostIsSound(s.(connecting := true, id := s.id + 1, authId := s.id + 1, authAt := |s.issued|), Auth(s.id + 1));
  }

  lemma NextDoes(s: Service, mv: Move)
    requires CallOk(s)
    ensures var s' := Next(s, mv);
      && CallOk(s') && s'.issued == s.issued + Requests(s, s.lastHeartbeat, mv)
      && s'.lastHeartbeat == (if HeartbeatDue(s.lastHeartbeat, mv) then mv.now else s.lastHeartbeat)
      && (s'.connecting <==> s.connecting || mv.CallConnect?)
      && |s'.sessions| == |s.sessions| + if mv.RunOnce? && Fails(s, mv.delivered) then 1 else 0
  {
    hide S.Conserved, S.NoStall, Polled, Maintained, Connected;
    match mv
    case CallConnect => ConnectDoes(s);
    case RunOnce(c, now) =>
      PollDoes(s, c);
      PollIsSound(s, c);
      MaintenanceDoes(Polled(s, c), now);
  }

  /** The number of calls whose callback reported a failure. */
  function FailingCalls(authId: int, moves: seq<Move>): nat {
    if moves == [] then 0
    else
      var before, mv := moves[..|moves| - 1], moves[|moves| - 1];
      FailingCalls(authId, before) + if mv.RunOnce? && Fails(Run(Initial(authId), before), mv.delivered) then 1 else 0
  }

  lemma {:induction false} RunDoes(authId: int, moves: seq<Move>)
    ensures var s := Run(Initial(authId), moves);
      && CallOk(s) && s.lastHeartbeat == LastBeat(moves) && (s.connecting <==> CallConnect in moves)
      && |s.sessions| == 1 + FailingCalls(authId, moves)
  {
    hide Next, S.Conserved, S.NoStall, Requests, Fails;
    if moves == [] {
      S.SoundAtFirst<Request>();
    } else {
      var before, mv := moves[..|moves| - 1], moves[|moves| - 1];
      RunDoes(authId, before);
      NextDoes(Run(Initial(authId), before), mv);
      assert moves == before + [mv];
    }
  }

  /** Every call sends exactly the requests that its guards ask for, and nothing is left to the next call. */
  lemma EachCallSends(authId: int, before: seq<Move>, mv: Move)
    ensures var s, s' := Run(Initial(authId), before), Run(Initial(authId), before + [mv]);
      && s'.issued == s.issued + Requests(s, LastBeat(before), mv) && !s'.needReconnect
      && s'.id == FIRST_ID + |s'.issued|
  {
    hide Next, Requests, LastBeat, S.Conserved, S.NoStall;
    RunDoes(authId, before);
    NextDoes(Run(Initial(authId), before), mv);
    assert (before + [mv])[..|before|] == before;
  }

  // What every session is given.

  /** A request is sent on a session, or on a new one. */
  function Add(h: seq<seq<S.Event<Request>>>, i: Issue): seq<seq<S.Event<Request>>> {
    if i.session < |h| then h[i.session := h[i.session] + [S.Sends(i.req)]] else h + [[S.Sends(i.req)]]
  }

  function AddAll(h: seq<seq<S.Event<Request>>>, rs: seq<Issue>): seq<seq<S.Event<Request>>> {
    if rs == [] then h else Add(AddAll(h, rs[..|rs| - 1]), rs[|rs| - 1])
  }

  /** The event that a callback is to its session; a message is none. */
  function EventOf(c: Callback): seq<S.Event<Request>> {
    match c
    case Handshake(_, ok) => [S.Handshake(ok, [])]
    case WriteEnds(_, ok) => [S.WriteEnds(ok)]
    case ReadFails(_) => [S.ReadFails]
    case _ => []
  }

  function Delivered(s: Service, h: seq<seq<S.Event<Request>>>, mv: Move): seq<seq<S.Event<Request>>> {
    if mv.RunOnce? && Reaches(s, mv.delivered) && mv.delivered.i < |h| then
      h[mv.delivered.i := h[mv.delivered.i] + EventOf(mv.delivered)]
    else h
  }

  /** What has happened to each session: the callbacks delivered to it and the requests sent on it. */
  function Histories(authId: int, moves: seq<Move>): seq<seq<S.Event<Request>>> {
    if moves == [] then [[]]
    else
      var before, mv := moves[..|moves| - 1], moves[|moves| - 1];
      var s := Run(Initial(authId), before);
      AddAll(Delivered(s, Histories(authId, before), mv), Requests(s, LastBeat(before), mv))
  }

  ghost predicate Recorded(sessions: seq<S.View<Request>>, h: seq<seq<S.Event<Request>>>) {
    |h| == |sessions| && forall i | 0 <= i < |h| :: sessions[i] == S.Run(S.New(), h[i])
  }

  lemma OneMoreEvent(v: S.View<Request>, es: seq<S.Event<Request>>, e: S.Event<Request>)
    requires v == S.Run(S.New(), es)
    ensures S.Next(v, e) == S.Run(S.New(), es + [e])
  {
    assert (es + [e])[..|es|] == es;
  }

  lemma PostIsRecorded(s: Service, r: Request, h: seq<seq<S.Event<Request>>>)
    requires s.sessions != [] && Recorded(s.sessions, h)
    ensures Recorded(Posted(s, r).sessions, Add(h, Issue(r, s.Current())))
  {
    hide S.AfterSend;
    OneMoreEvent(s.sessions[s.Current()], h[s.Current()], S.Sends(r));
  }

  lemma PollIsRecorded(s: Service, c: Callback, now: int, h: seq<seq<S.Event<Request>>>)
    requires s.sessions != [] && Recorded(s.sessions, h)
    ensures var p, d := Polled(s, c), Delivered(s, h, RunOnce(c, now));
      Recorded(p.sessions, if Accepts(s, c) then Add(d, Issue(Subscribe(s.id + 1), s.Current())) else d)
  {
    hide S.AfterSend, S.Next, S.Run;
    if Reaches(s, c) {
      match c
      case Handshake(i, ok) => OneMoreEvent(s.sessions[i], h[i], S.Handshake(ok, []));
      case WriteEnds(i, ok) => OneMoreEvent(s.sessions[i], h[i], S.WriteEnds(ok));
      case ReadFails(i) => OneMoreEvent(s.sessions[i], h[i], S.ReadFails);
      case Message(i, _) =>
        assert h[i] + [] == h[i];
        PostIsRecorded(s.(id := s.id + 1), Subscribe(s.id + 1), h);
    }
  }

  lemma ReconnectIsRecorded(s: Service, h: seq<seq<S.Event<Request>>>)
    requires s.sessions != [] && Recorded(s.sessions, h)
    ensures Recorded(Reconnected(s).sessions, Add(h, Issue(Auth(s.id + 1), |s.sessions|)))
  {
    hide S.AfterSend;
    var none: seq<S.Event<Request>> := [];
    OneMoreEvent(S.New(), none, S.Sends(Auth(s.id + 1)));
    assert none + [S.Sends(Auth(s.id + 1))] == [S.Sends(Auth(s.id + 1))];
  }

  lemma NextIsRecorded(s: Service, mv: Move, h: seq<seq<S.Event<Request>>>)
    requires CallOk(s) && Recorded(s.sessions, h)
    ensures Recorded(Next(s, mv).sessions, AddAll(Delivered(s, h, mv), Requests(s, s.lastHeartbeat, mv)))
  {
    hide S.AfterSend, S.Next, S.Run, S.Conserved, S.NoStall, Recorded, Polled, Posted, Add;
    match mv
    case CallConnect =>
      if !s.connecting {
        var s1 := s.(connecting := true, id := s.id + 1, authId := s.id + 1, authAt := |s.issued|);
        PostIsRecorded(s1, Auth(s.id + 1), h);
      }
    case RunOnce(c, now) =>
      var p, d := Polled(s, c), Delivered(s, h, mv);
      var first: seq<Issue> := [];
      PollDoes(s, c);
      PollIsRecorded(s, c, now, h);
      if Accepts(s, c) {
        first := [Issue(Subscribe(s.id + 1), s.Current())];
      } else if Fails(s, c) {
        first := [Issue(Auth(s.id + 1), |s.sessions|)];
        ReconnectIsRecorded(p, d);
        ReconnectCounts(p);
        p := Reconnected(p);
      }
      AddLast(d, first, Issue(Heartbeat(p.id), p.Current()));
      assert Recorded(p.sessions, AddAll(d, first));
      PostIsRecorded(p.(id := p.id + 1), Heartbeat(p.id), AddAll(d, first));
  }

  lemma AddLast(h: seq<seq<S.Event<Request>>>, rs: seq<Issue>, i: Issue)
    ensures AddAll(h, rs + [i]) == Add(AddAll(h, rs), i)
  {
  }

  lemma ReconnectCounts(s: Service)
    requires s.sessions != []
    ensures |Reconnected(s).sessions| == |s.sessions| + 1
    ensures Reconnected(s).id == s.id + 1 && Reconnected(s).lastHeartbeat == s.lastHeartbeat
  {
  }

  /**
   Every session is a run of WsSession on exactly the callbacks delivered to it and the requests that the
   calls sent on it, in order. So WsSession.WhatARunDoes says what each one has written.
  */
  lemma {:induction false} EverySessionIsARun(authId: int, moves: seq<Move>)
    ensures Recorded(Run(Initial(authId), moves).sessions, Histories(authId, moves))
  {
    hide Next, S.Conserved, S.NoStall, Recorded, Requests, Delivered, AddAll;
    if moves == [] {
      FirstIsRecorded();
    } else {
      var before := moves[..|moves| - 1];
      EverySessionIsARun(authId, before);
      RunDoes(authId, before);
      NextIsRecorded(Run(Initial(authId), before), moves[|moves| - 1], Histories(authId, before));
    }
  }

  lemma FirstIsRecorded()
    ensures Recorded([S.New()], [[]])
  {
  }

  /** There is one session, and one more for every call whose callback reported a failure. */
  lemma EveryFailureReconnects(authId: int, moves: seq<Move>)
    ensures |Run(Initial(authId), moves).sessions| == 1 + FailingCalls(authId, moves)
  {
    hide Run, FailingCalls;
    RunDoes(authId, moves);
  }

  // Ids.

  /** What the ids issued before and after the current auth request are. */
  ghost predicate IdsOk(s: Service) {
    && s.sessions != []
    && -1 <= s.authAt < |s.issued|
    && (s.connecting <==> s.authAt >= 0)
    && (forall j | 0 <= j < |s.issued| :: s.issued[j].req.id <= s.id && s.issued[j].session <= s.Current())
    && (s.authAt < 0 ==> |s.sessions| == 1 && !s.needReconnect)
    && (s.authAt >= 0 ==>
          && s.issued[s.authAt] == Issue(Auth(s.authId), s.Current())
          && (s.authAt == |s.issued| - 1 ==> s.id == s.authId)
          && (s.authAt < |s.issued| - 1 ==> s.id > s.authId)
          && (forall j | 0 <= j < s.authAt :: s.issued[j].req.id < s.authId)
          && (forall j | s.authAt < j < |s.issued| ::
                s.issued[j].session == s.Current() && !s.issued[j].req.Auth?
                && (s.issued[j].req.id == s.authId <==> j == s.authAt + 1 && s.issued[j].req.Heartbeat?)))
  }

  lemma AuthKeepsIds(s: Service, s': Service)
    requires s.sessions != [] && s'.sessions != [] && |s'.sessions| >= |s.sessions|
    requires forall j | 0 <= j < |s.issued| :: s.issued[j].req.id <= s.id && s.issued[j].session <= s.Current()
    requires s'.id == s'.authId == s.id + 1 && s'.authAt == |s.issued| && s'.connecting
    requires s'.issued == s.issued + [Issue(Auth(s.id + 1), s'.Current())]
    ensures IdsOk(s')
  {
  }

  lemma SubscribeKeepsIds(s: Service)
    requires IdsOk(s) && s.connecting
    ensures IdsOk(SubscribeSent(s))
  {
  }

  lemma HeartbeatKeepsIds(s: Service, now: int)
    requires IdsOk(s)
    ensures IdsOk(HeartbeatSent(s).(lastHeartbeat := now))
  {
  }

  lemma PollKeepsIds(s: Service, c: Callback)
    requires IdsOk(s)
    ensures IdsOk(Polled(s, c))
  {
    if c.Message? && s.connecting && c.i < |s.sessions| && c.reply == Some(s.authId) {
      SubscribeKeepsIds(s);
    }
  }

  lemma NextKeepsIds(s: Service, mv: Move)
    requires IdsOk(s)
    ensures IdsOk(Next(s, mv))
  {
    match mv
    case CallConnect =>
      if !s.connecting {
        AuthKeepsIds(s, Connected(s));
      }
    case RunOnce(c, now) =>
      PollKeepsIds(s, c);
      var s1 := Polled(s, c);
      if s1.needReconnect {
        AuthKeepsIds(s1, Reconnected(s1));
        HeartbeatKeepsIds(Reconnected(s1), now);
      } else {
        HeartbeatKeepsIds(s1, now);
      }
  }

  lemma {:induction false} RunKeepsIds(authId: int, moves: seq<Move>)
    ensures IdsOk(Run(Initial(authId), moves))
  {
    if moves != [] {
      RunKeepsIds(authId, moves[..|moves| - 1]);
      NextKeepsIds(Run(Initial(authId), moves[..|moves| - 1]), moves[|moves| - 1]);
    }
  }

  /** A reply to a request of an earlier session, however late, is never taken as acceptance. */
  lemma LateReplyIsIgnored(authId: int, moves: seq<Move>, j: nat)
    requires var s := Run(Initial(authId), moves); j < |s.issued| && s.issued[j].session < s.Current()
    ensures var s := Run(Initial(authId), moves);
      s.issued[j].req.id < s.authId && MessageHandled(s, Some(s.issued[j].req.id)) == s
  {
    hide Next;
    RunKeepsIds(authId, moves);
  }

  /** Every id issued before the current auth request is strictly smaller than its id. */
  lemma IdsBeforeAuthAreSmaller(authId: int, moves: seq<Move>, j: nat)
    requires var s := Run(Initial(authId), moves); j < s.authAt
    ensures var s := Run(Initial(authId), moves); s.authAt < |s.issued| && s.issued[j].req.id < s.authId
  {
    RunKeepsIds(authId, moves);
  }

  // When a heartbeat repeats the auth id, told from the guards of the calls.

  /** The call will send an auth request: it is the first Connect, or its callback reports a failure. */
  predicate AuthDue(s: Service, mv: Move) {
    match mv
    case CallConnect => !s.connecting
    case RunOnce(c, _) => Fails(s, c)
  }

  predicate Accepted(s: Service, mv: Move) {
    mv.RunOnce? && Accepts(s, mv.delivered)
  }

  /** No heartbeat and no acceptance has been due since the last auth request. */
  predicate QuietSinceAuth(authId: int, moves: seq<Move>) {
    moves != [] &&
    (var before, mv := moves[..|moves| - 1], moves[|moves| - 1];
     var s := Run(Initial(authId), before);
     if AuthDue(s, mv) then !HeartbeatDue(LastBeat(before), mv)
     else QuietSinceAuth(authId, before) && !HeartbeatDue(LastBeat(before), mv) && !Accepted(s, mv))
  }

  /**
   Since the last auth request a heartbeat has been due before any acceptance, be it in the very RunOnce
   that sent the auth request.
  */
  predicate HeartbeatBeforeAcceptance(authId: int, moves: seq<Move>) {
    moves != [] &&
    (var before, mv := moves[..|moves| - 1], moves[|moves| - 1];
     var s := Run(Initial(authId), before);
     if AuthDue(s, mv) then HeartbeatDue(LastBeat(before), mv)
     else
       || HeartbeatBeforeAcceptance(authId, before)
       || (QuietSinceAuth(authId, before) && HeartbeatDue(LastBeat(before), mv) && !Accepted(s, mv)))
  }

  predicate HeartbeatFollows(s: Service) {
    0 <= s.authAt && s.authAt + 1 < |s.issued| && s.issued[s.authAt + 1].req.Heartbeat?
  }

  ghost predicate FollowsOk(s: Service, quiet: bool, heartbeat: bool) {
    && (quiet <==> 0 <= s.authAt == |s.issued| - 1)
    && (heartbeat <==> HeartbeatFollows(s))
  }

  lemma PollFollows(s: Service, c: Callback, now: int, quiet: bool, heartbeat: bool)
    requires IdsOk(s) && FollowsOk(s, quiet, heartbeat)
    ensures FollowsOk(Polled(s, c), quiet && !Accepted(s, RunOnce(c, now)), heartbeat)
  {
  }

  lemma HeartbeatFollowsAuth(s: Service, now: int, quiet: bool, heartbeat: bool)
    requires IdsOk(s) && FollowsOk(s, quiet, heartbeat)
    ensures FollowsOk(HeartbeatSent(s).(lastHeartbeat := now), false, heartbeat || quiet)
  {
  }

  lemma AuthFollows(s: Service)
    requires s.sessions != []
    ensures FollowsOk(AuthSent(s), true, false) && FollowsOk(Reconnected(s), true, false)
  {
  }

  /** What one call does to the request that follows the auth request. */
  lemma NextFollows(s: Service, mv: Move, quiet: bool, heartbeat: bool)
    requires CallOk(s) && IdsOk(s) && FollowsOk(s, quiet, heartbeat)
    ensures var hb, ok := HeartbeatDue(s.lastHeartbeat, mv), Accepted(s, mv);
      if AuthDue(s, mv) then FollowsOk(Next(s, mv), !hb, hb)
      else FollowsOk(Next(s, mv), quiet && !hb && !ok, heartbeat || (quiet && hb && !ok))
  {
    hide IdsOk, FollowsOk, AuthSent, HeartbeatSent;
    match mv
    case CallConnect => AuthFollows(s.(connecting := true));
    case RunOnce(c, now) =>
      var p := Polled(s, c);
      PollKeepsIds(s, c);
      PollFollows(s, c, now, quiet, heartbeat);
      PollDoes(s, c);
      if p.needReconnect {
        ReconnectKeepsIds(p);
        AuthFollows(p);
        HeartbeatFollowsAuth(Reconnected(p), now, true, false);
      } else {
        HeartbeatFollowsAuth(p, now, quiet && !Accepted(s, mv), heartbeat);
      }
  }

  lemma ReconnectKeepsIds(s: Service)
    requires IdsOk(s) && s.needReconnect
    ensures IdsOk(Reconnected(s)) && Reconnected(s).lastHeartbeat == s.lastHeartbeat
  {
    AuthKeepsIds(s, Reconnected(s));
  }

  lemma {:induction false} RunFollows(authId: int, moves: seq<Move>)
    ensures var quiet, heartbeat := QuietSinceAuth(authId, moves), HeartbeatBeforeAcceptance(authId, moves);
      FollowsOk(Run(Initial(authId), moves), quiet, heartbeat)
  {
    hide Next, IdsOk;
    if moves != [] {
      var before := moves[..|moves| - 1];
      RunKeepsIds(authId, before);
      RunDoes(authId, before);
      RunFollows(authId, before);
      NextFollows(Run(Initial(authId), before), moves[|moves| - 1],
                  QuietSinceAuth(authId, before), HeartbeatBeforeAcceptance(authId, before));
    }
  }

  /**
   The reply with the current auth id answers the auth request only, exactly unless a heartbeat has been
   due since, before any acceptance: that heartbeat carries the same id.
  */
  lemma AuthIdIsUniqueExactlyWhen(authId: int, moves: seq<Move>)
    requires CallConnect in moves
    ensures var s := Run(Initial(authId), moves);
      && 0 <= s.authAt < |s.issued| && s.issued[s.authAt] == Issue(Auth(s.authId), s.Current())
      && ((forall j | 0 <= j < |s.issued| && j != s.authAt :: s.issued[j].req.id != s.authId)
          <==> !HeartbeatBeforeAcceptance(authId, moves))
  {
    hide Next, Run, HeartbeatBeforeAcceptance, QuietSinceAuth;
    RunKeepsIds(authId, moves);
    RunFollows(authId, moves);
    RunDoes(authId, moves);
    var s := Run(Initial(authId), moves);
    if HeartbeatFollows(s) {
      assert s.issued[s.authAt + 1].req.id == s.authId;
    }
  }

  /** The first RunOnce after Connect is such a case: its heartbeat repeats the id of the auth request. */
  lemma FirstHeartbeatRepeatsAuthId(authId: int, now: int)
    requires now > HEARTBEAT_INTERVAL
    ensures var s := Run(Initial(authId), [CallConnect, RunOnce(Nothing, now)]);
      s.issued == [Issue(Auth(1001), 0), Issue(Heartbeat(1001), 0)] && s.authId == 1001
  {
    var m2, m1 := [CallConnect, RunOnce(Nothing, now)], [CallConnect];
    assert m2[..1] == m1 && m1[..0] == [];
    var s1 := Next(Initial(authId), CallConnect);
    assert Run(Initial(authId), m1) == s1;
    assert s1.issued == [Issue(Auth(1001), 0)];
  }

  // The first message of a session.

  /** RunOnce sends a heartbeat before Connect has been called. */
  predicate EarlyHeartbeat(moves: seq<Move>) {
    moves != [] &&
    (var before, mv := moves[..|moves| - 1], moves[|moves| - 1];
     EarlyHeartbeat(before) || (mv.RunOnce? && mv.now > HEARTBEAT_INTERVAL && CallConnect !in before))
  }

  /** The first message given to the session is an auth request. */
  predicate AuthFirst(v: S.View<Request>) {
    v.sent != [] && v.sent[0].Auth?
  }

  ghost predicate FirstsOk(s: Service, early: bool) {
    && s.sessions != []
    && (forall i | 0 <= i < |s.sessions| :: S.Conserved(s.sessions[i]) && S.NoStall(s.sessions[i]))
    && (forall i | 1 <= i < |s.sessions| :: AuthFirst(s.sessions[i]))
    && (if early then s.sessions[0].sent != [] && !s.sessions[0].sent[0].Auth?
        else if s.connecting then AuthFirst(s.sessions[0])
        else s.sessions[0].sent == [] && s.lastHeartbeat == 0)
    && (!s.connecting ==> |s.sessions| == 1 && !s.needReconnect)
  }

  /** Posting on a session that has a first message, or an auth request on one that has none. */
  lemma PostKeepsFirsts(s: Service, r: Request, early: bool)
    requires FirstsOk(s, early) && s.connecting
    ensures FirstsOk(Posted(s, r), early)
  {
    S.SendKeeps(s.sessions[s.Current()], r);
  }

  lemma OnSessionKeepsFirsts(s: Service, i: nat, e: S.Event<Request>, early: bool)
    requires FirstsOk(s, early) && s.connecting && i < |s.sessions|
    requires e.WriteEnds? || e.ReadFails? || (e.Handshake? && e.greetings == [])
    ensures FirstsOk(OnSession(s, i, e), early)
  {
    S.NextKeeps(s.sessions[i], e);
    assert S.Next(s.sessions[i], e).sent == s.sessions[i].sent;
  }

  lemma SubscribeKeepsFirsts(s: Service, early: bool)
    requires FirstsOk(s, early) && s.connecting
    ensures FirstsOk(SubscribeSent(s), early)
  {
    hide S.AfterSend, S.Conserved, S.NoStall, AuthFirst;
    PostKeepsFirsts(s.(id := s.id + 1), Subscribe(s.id + 1), early);
  }

  lemma PollKeepsFirsts(s: Service, c: Callback, early: bool)
    requires s.sessions != [] && FirstsOk(s, early)
    ensures FirstsOk(Polled(s, c), early) && Polled(s, c).connecting == s.connecting
  {
    hide FirstsOk, S.Next, S.AfterSend;
    if c.Nothing? || !s.connecting || c.i >= |s.sessions| {
      return;
    }
    match c
    case Handshake(i, ok) => OnSessionKeepsFirsts(s, i, S.Handshake(ok, []), early);
    case WriteEnds(i, ok) => OnSessionKeepsFirsts(s, i, S.WriteEnds(ok), early);
    case ReadFails(i) => OnSessionKeepsFirsts(s, i, S.ReadFails, early);
    case Message(_, reply) =>
      if reply == Some(s.authId) {
        SubscribeKeepsFirsts(s, early);
      }
  }

  lemma ReconnectKeepsFirsts(s: Service, early: bool)
    requires FirstsOk(s, early) && s.connecting
    ensures FirstsOk(Reconnected(s), early)
  {
    S.SendKeeps(S.New<Request>(), Auth(s.id + 1));
  }

  lemma UpkeepKeepsFirsts(s: Service, now: int, early: bool)
    requires FirstsOk(s, early) && s.connecting
    ensures FirstsOk(Maintained(s, now), early) && Maintained(s, now).connecting
  {
    if s.needReconnect {
      ReconnectKeepsFirsts(s, early);
    }
    var s1 := if s.needReconnect then Reconnected(s) else s;
    PostKeepsFirsts(s1.(id := s1.id + 1), Heartbeat(s1.id), early);
  }

  /** Before Connect, upkeep does nothing but send heartbeats on the first session. */
  lemma EarlyUpkeep(s: Service, now: int, early: bool)
    requires FirstsOk(s, early) && !s.connecting
    ensures FirstsOk(Maintained(s, now), early || now > HEARTBEAT_INTERVAL) && !Maintained(s, now).connecting
  {
    S.SendKeeps(s.sessions[0], Heartbeat(s.id));
  }

  lemma ConnectKeepsFirsts(s: Service, early: bool)
    requires FirstsOk(s, early) && !s.connecting
    ensures FirstsOk(Connected(s), early)
  {
    S.SendKeeps(s.sessions[0], Auth(s.id + 1));
  }

  lemma {:induction false} RunKeepsFirsts(authId: int, moves: seq<Move>)
    ensures var s := Run(Initial(authId), moves);
      FirstsOk(s, EarlyHeartbeat(moves)) && (s.connecting <==> CallConnect in moves)
  {
    if moves != [] {
      var before, mv := moves[..|moves| - 1], moves[|moves| - 1];
      RunKeepsFirsts(authId, before);
      var s, early := Run(Initial(authId), before), EarlyHeartbeat(before);
      assert moves == before + [mv];
      match mv
      case CallConnect =>
        if !s.connecting {
          ConnectKeepsFirsts(s, early);
        }
      case RunOnce(c, now) =>
        PollKeepsFirsts(s, c, early);
        if s.connecting {
          UpkeepKeepsFirsts(Polled(s, c), now, early);
        } else {
          EarlyUpkeep(s, now, early);
        }
    }
  }

  /** A RunOnce before Connect is such a case: a heartbeat is the first message given to the first session. */
  lemma HeartbeatGivenFirst(authId: int, now: int)
    requires now > HEARTBEAT_INTERVAL
    ensures var s := Run(Initial(authId), [RunOnce(Nothing, now), CallConnect]);
      |s.sessions| == 1 && s.sessions[0].sent == [Heartbeat(1000), Auth(1002)]
  {
    var m2, m1 := [RunOnce(Nothing, now), CallConnect], [RunOnce(Nothing, now)];
    assert m2[..1] == m1 && m1[..0] == [];
    var s1 := Next(Initial(authId), RunOnce(Nothing, now));
    assert Run(Initial(authId), m1) == s1;
    assert s1.sessions[0].sent == [Heartbeat(1000)];
  }

  /**
   Over any number of reconnects, the first message given to every session is its auth request, and so is
   the first one written on it, exactly if RunOnce has sent no heartbeat before Connect.
  */
  lemma AuthIsFirstExactlyWhen(authId: int, moves: seq<Move>)
    ensures var s := Run(Initial(authId), moves);
      && ((forall i | 0 <= i < |s.sessions| && s.sessions[i].sent != [] :: AuthFirst(s.sessions[i]))
          <==> !EarlyHeartbeat(moves))
      && (forall i | 1 <= i < |s.sessions| :: AuthFirst(s.sessions[i]))
      && (forall i | 0 <= i < |s.sessions| && s.sessions[i].started != [] ::
            s.sessions[i].sent != [] && s.sessions[i].started[0] == s.sessions[i].sent[0])
  {
    hide Next;
    RunKeepsFirsts(authId, moves);
    var s := Run(Initial(authId), moves);
    forall i | 0 <= i < |s.sessions| && s.sessions[i].started != []
      ensures s.sessions[i].sent != [] && s.sessions[i].started[0] == s.sessions[i].sent[0]
    {
      assert S.Conserved(s.sessions[i]);
    }
  }

  // The service object.

  class TradeService {
    var id: int
    var authId: int
    var needReconnect: bool
    var lastHeartbeat: int
    var wsSession: S.Session<Request>
    ghost var log: Service

    /** The logs agree with the fields. */
    ghost predicate Valid()
      reads this, wsSession
    {
      && log.sessions != [] && wsSession.Valid() && log.sessions[log.Current()] == wsSession.log
      && log.id == id && log.authId == authId
      && log.needReconnect == needReconnect && log.lastHeartbeat == lastHeartbeat
    }

    constructor (uninitialised: int)
      ensures Valid() && fresh(wsSession) && log == Initial(uninitialised)
    {
      var first := new S.Session<Request>();
      id, authId, needReconnect, lastHeartbeat := FIRST_ID, uninitialised, false, 0;
      wsSession := first;
      log := Initial(uninitialised);
    }

    method SendAuth()
      requires Valid()
      modifies this, wsSession
      ensures Valid() && wsSession == old(wsSession) && log == AuthSent(old(log))
    {
      id := id + 1;
      wsSession.Send(Auth(id));
      authId := id;
      log := AuthSent(log);
    }

    method SendSubscribe()
      requires Valid()
      modifies this, wsSession
      ensures Valid() && wsSession == old(wsSession) && log == SubscribeSent(old(log))
    {
      id := id + 1;
      wsSession.Send(Subscribe(id));
      log := SubscribeSent(log);
    }

    method SendHeartbeat()
      requires Valid()
      modifies this, wsSession
      ensures Valid() && wsSession == old(wsSession) && log == HeartbeatSent(old(log))
    {
      var mine := id;
      id := id + 1;
      wsSession.Send(Heartbeat(mine));
      log := HeartbeatSent(log);
    }

    method Connect()
      requires Valid()
      modifies this, wsSession
      ensures Valid() && wsSession == old(wsSession) && log == Connected(old(log))
    {
      log := log.(connecting := true);
      SendAuth();
    }

    method OnError()
      requires Valid()
      modifies this
      ensures Valid() && wsSession == old(wsSession) && log == old(log).(needReconnect := true)
    {
      needReconnect := true;
      log := log.(needReconnect := true);
    }

    /** The branch of onMessage for messages with an id. */
    method OnReply(reply: int)
      requires Valid()
      modifies this, wsSession
      ensures Valid() && wsSession == old(wsSession) && log == MessageHandled(old(log), Some(reply))
    {
      if reply == authId {
        SendSubscribe();
      }
    }

    method Reconnect()
      requires Valid()
      modifies this
      ensures Valid() && fresh(wsSession) && log == Reconnected(old(log))
    {
      wsSession := new S.Session<Request>();
      log := log.(sessions := log.sessions + [S.New()]);
      SendAuth();
      needReconnect := false;
      log := log.(needReconnect := false);
    }

    /** RunOnce after poll_one has delivered its callback. */
    method Upkeep(now: int)
      requires Valid()
      modifies this, wsSession
      ensures Valid() && (wsSession == old(wsSession) || fresh(wsSession)) && log == Maintained(old(log), now)
    {
      if needReconnect {
        Reconnect();
      }
      if now > lastHeartbeat + HEARTBEAT_INTERVAL {
        SendHeartbeat();
        lastHeartbeat := now;
        log := log.(lastHeartbeat := now);
      }
    }
  }
}
