/**
 * The reconnecting WebSocket client `WebSocketClient`: it opens a session
 * for its address, pings every `pingInterval` while open, and on every close
 * stops pinging and schedules one reconnect after `retryInterval`.
 *
 * `Client` is the client's fields together with the browser state it
 * touches; the `After*` functions say what each handler leaves behind, and
 * the class `WebSocketClient` is proved to do exactly that.
 */
module SocketClient {
  import opened Wrappers
  import opened Host
  import opened Inscriptions

  const DefaultRetryInterval := 2000
  const DefaultPingInterval := 30000

  /** The keep-alive text sent on every ping tick. */
  const PingPayload := "{\"type\":\"ping\"}"

  /** A client's fields (`url`, `retryInterval`, `pingInterval`, `ws`, `pingIntervalId`) and its browser state. */
  datatype Client = Client(url: string, retryInterval: int, pingInterval: int,
                           ws: Option<SessionId>, pingIntervalId: Option<TimerId>, world: World)

  /** Handles point at what they name, and the only timers are the client's pings and reconnects. */
  predicate Valid(c: Client)
  {
    Issued(c.world) &&
    (c.ws.Some? ==> c.ws.value < |c.world.sessions|) &&
    (c.pingIntervalId.Some? ==>
      c.pingIntervalId.value in c.world.timers && c.world.timers[c.pingIntervalId.value] == Interval(c.pingInterval, Ping)) &&
    (forall t :: t in c.world.timers ==>
      c.world.timers[t] == Interval(c.pingInterval, Ping) || c.world.timers[t] == Timeout(c.retryInterval, Reconnect))
  }

  /** The current session, when there is one, is OPEN. */
  predicate CurrentOpen(c: Client)
    requires Valid(c)
  {
    c.ws.Some? && c.world.sessions[c.ws.value].readyState == OPEN
  }

  /** A newly constructed client: configuration stored, no session, no ping timer. */
  function Fresh(url: string, retryInterval: int := DefaultRetryInterval, pingInterval: int := DefaultPingInterval): (c: Client)
    ensures Valid(c)
    ensures c.url == url && c.retryInterval == retryInterval && c.pingInterval == pingInterval
    ensures c.ws.None? && c.pingIntervalId.None? && c.world.sessions == [] && c.world.timers == map[]
  {
    Client(url, retryInterval, pingInterval, None, None, Blank)
  }

  /** `connect()`: `ws` becomes a fresh CONNECTING session for `url`; nothing else changes. */
  function AfterConnect(c: Client): (r: Client)
    requires Valid(c)
    ensures Valid(r)
    ensures r.ws == Some(|c.world.sessions|)
    ensures r.world.sessions == c.world.sessions + [Session(c.url, CONNECTING, [])]
    ensures r == c.(ws := r.ws, world := c.world.(sessions := r.world.sessions))
  {
    var (w, sid) := NewSession(c.world, c.url);
    c.(ws := Some(sid), world := w)
  }

  /** `startPinging()`: `pingIntervalId` names a newly scheduled ping interval. */
  function AfterStartPinging(c: Client): (r: Client)
    requires Valid(c)
    ensures Valid(r)
    ensures r.pingIntervalId == Some(c.world.nextTimer) && c.world.nextTimer !in c.world.timers
    ensures Running(r.world.timers, Ping) == Running(c.world.timers, Ping) + {c.world.nextTimer}
    ensures Running(r.world.timers, Reconnect) == Running(c.world.timers, Reconnect)
    ensures r.world.timers == c.world.timers[c.world.nextTimer := Interval(c.pingInterval, Ping)]
    ensures r == c.(pingIntervalId := r.pingIntervalId, world := c.world.(timers := r.world.timers, nextTimer := r.world.nextTimer))
  {
    var (w, t) := SetInterval(c.world, c.pingInterval, Ping);
    RunningAdd(c.world.timers, t, Interval(c.pingInterval, Ping), Ping);
    RunningAdd(c.world.timers, t, Interval(c.pingInterval, Ping), Reconnect);
    c.(pingIntervalId := Some(t), world := w)
  }

  /** `stopPinging()`: the ping interval is cleared and the handle nulled; with no handle nothing changes. */
  function AfterStopPinging(c: Client): (r: Client)
    requires Valid(c)
    ensures Valid(r)
    ensures r.pingIntervalId.None?
    ensures c.pingIntervalId.None? ==> r == c
    ensures Running(r.world.timers, Ping) ==
      Running(c.world.timers, Ping) - (if c.pingIntervalId.Some? then {c.pingIntervalId.value} else {})
    ensures Running(r.world.timers, Reconnect) == Running(c.world.timers, Reconnect)
    ensures c.pingIntervalId.Some? ==> r.world.timers == c.world.timers - {c.pingIntervalId.value}
    ensures r == c.(pingIntervalId := None, world := c.world.(timers := r.world.timers))
  {
    match c.pingIntervalId
    case Some(t) =>
      RunningClear(c.world.timers, t, Ping);
      RunningClear(c.world.timers, t, Reconnect);
      c.(world := Clear(c.world, t), pingIntervalId := None)
    case None => c
  }

  /** A ping tick: the ping text goes to `ws` exactly when `ws` is OPEN; nothing else changes. */
  function AfterPingTick(c: Client): (r: Client)
    requires Valid(c)
    ensures Valid(r)
    ensures r == c.(world := c.world.(sessions := r.world.sessions))
    ensures |r.world.sessions| == |c.world.sessions|
    ensures forall i :: 0 <= i < |c.world.sessions| && Some(i) != c.ws ==> r.world.sessions[i] == c.world.sessions[i]
    ensures CurrentOpen(c) ==>
      var cur := c.world.sessions[c.ws.value];
      r.world.sessions[c.ws.value] == cur.(sent := cur.sent + [PingPayload])
    ensures !CurrentOpen(c) ==> r == c
  {
    if c.ws.Some? && c.world.sessions[c.ws.value].readyState == OPEN
    then c.(world := Send(c.world, c.ws.value, PingPayload))
    else c
  }

  /** The open handler: the session is OPEN and a new ping interval runs. */
  function AfterOpen(c: Client, sid: SessionId): (r: Client)
    requires Valid(c) && CanOpen(c.world, sid)
    ensures Valid(r)
    ensures |r.world.sessions| == |c.world.sessions| && r.world.sessions[sid].readyState == OPEN
    ensures r.world.sessions[sid] == c.world.sessions[sid].(readyState := OPEN)
    ensures forall i :: 0 <= i < |c.world.sessions| && i != sid ==> r.world.sessions[i] == c.world.sessions[i]
    ensures r.pingIntervalId == Some(c.world.nextTimer) && c.world.nextTimer !in c.world.timers
    ensures r.world.timers == c.world.timers[c.world.nextTimer := Interval(c.pingInterval, Ping)]
    ensures Running(r.world.timers, Ping) == Running(c.world.timers, Ping) + {r.pingIntervalId.value}
    ensures Running(r.world.timers, Reconnect) == Running(c.world.timers, Reconnect)
    ensures r == c.(pingIntervalId := r.pingIntervalId,
                    world := c.world.(sessions := r.world.sessions, timers := r.world.timers, nextTimer := r.world.nextTimer))
  {
    AfterStartPinging(c.(world := Mark(c.world, sid, OPEN)))
  }

  /** The message handler: only the console log changes, by the filter's lines; a parse error changes nothing. */
  function AfterMessage(c: Client, sid: SessionId, data: string, codec: Codec): (r: Client)
    requires Valid(c) && CanReceive(c.world, sid)
    ensures Valid(r)
    ensures r == c.(world := c.world.(log := r.world.log))
    ensures HandleMessage(data, codec).Success? ==> r.world.log == c.world.log + HandleMessage(data, codec).value
    ensures HandleMessage(data, codec).Failure? ==> r == c
  {
    match HandleMessage(data, codec)
    case Success(lines) => c.(world := Log(c.world, lines))
    case Failure(_) => c
  }

  /**
   * The close handler: the session is CLOSED, no ping interval is left
   * running or named, and exactly one new reconnect timer of `retryInterval` runs.
   */
  function AfterClose(c: Client, sid: SessionId): (r: Client)
    requires Valid(c) && CanClose(c.world, sid)
    ensures Valid(r)
    ensures |r.world.sessions| == |c.world.sessions| && r.world.sessions[sid].readyState == CLOSED
    ensures r.world.sessions[sid] == c.world.sessions[sid].(readyState := CLOSED)
    ensures forall i :: 0 <= i < |c.world.sessions| && i != sid ==> r.world.sessions[i] == c.world.sessions[i]
    ensures r.pingIntervalId.None?
    ensures Running(r.world.timers, Ping) ==
      Running(c.world.timers, Ping) - (if c.pingIntervalId.Some? then {c.pingIntervalId.value} else {})
    ensures c.world.nextTimer !in c.world.timers
    ensures c.world.nextTimer in r.world.timers && r.world.timers[c.world.nextTimer] == Timeout(c.retryInterval, Reconnect)
    ensures Running(r.world.timers, Reconnect) == Running(c.world.timers, Reconnect) + {c.world.nextTimer}
    ensures r.world.timers ==
      (if c.pingIntervalId.Some? then c.world.timers - {c.pingIntervalId.value} else c.world.timers)
        [c.world.nextTimer := Timeout(c.retryInterval, Reconnect)]
    ensures r == c.(pingIntervalId := None,
                    world := c.world.(sessions := r.world.sessions, timers := r.world.timers, nextTimer := r.world.nextTimer))
  {
    var stopped := AfterStopPinging(c.(world := Mark(c.world, sid, CLOSED)));
    var (w, t) := SetTimeout(stopped.world, c.retryInterval, Reconnect);
    RunningAdd(stopped.world.timers, t, Timeout(c.retryInterval, Reconnect), Ping);
    RunningAdd(stopped.world.timers, t, Timeout(c.retryInterval, Reconnect), Reconnect);
    stopped.(world := w)
  }

  /** A scheduled timer fires: a ping interval ticks; a reconnect timeout is used up and calls `connect()`. */
  function AfterFire(c: Client, t: TimerId): (r: Client)
    requires Valid(c) && t in c.world.timers
    ensures Valid(r)
    ensures c.world.timers[t].job == Ping ==> r == AfterPingTick(c)
    ensures c.world.timers[t].job == Reconnect ==> r == AfterConnect(c.(world := Clear(c.world, t)))
  {
    if c.world.timers[t].job == Ping then AfterPingTick(c)
    else AfterConnect(c.(world := Clear(c.world, t)))
  }

  /** What can happen to a client: a `connect()` call, a transport event of a session, a timer firing. */
  datatype Event =
    | ConnectCalled
    | Opened(sid: SessionId)
    | Received(sid: SessionId, data: string)
    | Errored(sid: SessionId)
    | Closed(sid: SessionId)
    | Fired(t: TimerId)

  /** One event; an event the transport or the timer table cannot deliver changes nothing. */
  function Step(c: Client, e: Event, codec: Codec): (r: Client)
    requires Valid(c)
    ensures Valid(r)
  {
    match e
    case ConnectCalled => AfterConnect(c)
    case Opened(sid) => if CanOpen(c.world, sid) then AfterOpen(c, sid) else c
    case Received(sid, data) => if CanReceive(c.world, sid) then AfterMessage(c, sid, data, codec) else c
    case Errored(_) => c
    case Closed(sid) => if CanClose(c.world, sid) then AfterClose(c, sid) else c
    case Fired(t) => if t in c.world.timers then AfterFire(c, t) else c
  }

  /** A trace of events, in order. */
  function Run(c: Client, trace: seq<Event>, codec: Codec): (r: Client)
    requires Valid(c)
    ensures Valid(r)
    decreases |trace|
  {
    if trace == [] then c else Run(Step(c, trace[0], codec), trace[1..], codec)
  }

  /**
   * The lifecycle the client keeps when `connect()` is called once and every
   * later session comes from a reconnect: every earlier session is CLOSED; the
   * current one is never CLOSING; a ping interval runs, and is the one named
   * by `pingIntervalId`, exactly when the current session is OPEN; and exactly
   * one reconnect is pending exactly when the current session is CLOSED.
   */
  predicate Steady(c: Client)
  {
    Valid(c) && c.ws.Some? &&
    var cur := c.ws.value;
    var st := c.world.sessions[cur].readyState;
    (forall i :: 0 <= i < |c.world.sessions| && i != cur ==> c.world.sessions[i].readyState == CLOSED) &&
    st != CLOSING &&
    (c.pingIntervalId.Some? <==> st == OPEN) &&
    Running(c.world.timers, Ping) == (if st == OPEN then {c.pingIntervalId.value} else {}) &&
    |Running(c.world.timers, Reconnect)| == (if st == CLOSED then 1 else 0)
  }

  /** Construction followed by the first `connect()` reaches the lifecycle. */
  lemma SteadyAfterFirstConnect(url: string, retryInterval: int, pingInterval: int)
    ensures Steady(AfterConnect(Fresh(url, retryInterval, pingInterval)))
    ensures !CurrentOpen(AfterConnect(Fresh(url, retryInterval, pingInterval)))
  {
    var c := AfterConnect(Fresh(url, retryInterval, pingInterval));
    assert Running(c.world.timers, Ping) == {};
    assert Running(c.world.timers, Reconnect) == {};
  }

  /** "open" keeps the lifecycle: only the current session can still open. */
  lemma OpenKeepsSteady(c: Client, sid: SessionId)
    requires Steady(c) && CanOpen(c.world, sid)
    ensures Steady(AfterOpen(c, sid))
  {
    assert sid == c.ws.value;
  }

  /** A message changes only the console log. */
  lemma MessageKeepsSteady(c: Client, sid: SessionId, data: string, codec: Codec)
    requires Steady(c) && CanReceive(c.world, sid)
    ensures Steady(AfterMessage(c, sid, data, codec))
  {
    var r := AfterMessage(c, sid, data, codec);
    assert r.world.sessions == c.world.sessions && r.world.timers == c.world.timers;
  }

  /** "close" keeps the lifecycle: the current session closes with one reconnect pending. */
  lemma CloseKeepsSteady(c: Client, sid: SessionId)
    requires Steady(c) && CanClose(c.world, sid)
    ensures Steady(AfterClose(c, sid))
  {
    assert sid == c.ws.value;
    var r := AfterClose(c, sid);
    assert Running(r.world.timers, Reconnect) == {c.world.nextTimer};
  }

  /** A timer firing keeps the lifecycle: a tick only sends; a reconnect replaces the closed session. */
  lemma FireKeepsSteady(c: Client, t: TimerId)
    requires Steady(c) && t in c.world.timers
    ensures Steady(AfterFire(c, t))
  {
    if c.world.timers[t].job == Reconnect {
      var pending := Running(c.world.timers, Reconnect);
      assert t in pending;
      assert |pending - {t}| == 0;
      var cleared := c.(world := Clear(c.world, t));
      RunningClear(c.world.timers, t, Ping);
      RunningClear(c.world.timers, t, Reconnect);
      assert Running(cleared.world.timers, Reconnect) == {};
    } else {
      var r := AfterPingTick(c);
      assert r.world.timers == c.world.timers;
    }
  }

  /** Every transport event and timer firing keeps the lifecycle. */
  lemma StepKeepsSteady(c: Client, e: Event, codec: Codec)
    requires Steady(c) && !e.ConnectCalled?
    ensures Steady(Step(c, e, codec))
  {
    match e
    case Opened(sid) =>
      if CanOpen(c.world, sid) { OpenKeepsSteady(c, sid); }
    case Received(sid, data) =>
      if CanReceive(c.world, sid) { MessageKeepsSteady(c, sid, data, codec); }
    case Errored(_) =>
    case Closed(sid) =>
      if CanClose(c.world, sid) { CloseKeepsSteady(c, sid); }
    case Fired(t) =>
      if t in c.world.timers { FireKeepsSteady(c, t); }
  }

  /** The lifecycle holds after any trace of transport events and timer firings. */
  lemma {:induction false} RunKeepsSteady(c: Client, trace: seq<Event>, codec: Codec)
    requires Steady(c)
    requires forall i :: 0 <= i < |trace| ==> !trace[i].ConnectCalled?
    ensures Steady(Run(c, trace, codec))
    decreases |trace|
  {
    if trace != [] {
      StepKeepsSteady(c, trace[0], codec);
      RunKeepsSteady(Step(c, trace[0], codec), trace[1..], codec);
    }
  }

  /** In the lifecycle, the keep-alive runs exactly when the session is OPEN. */
  lemma {:induction false} KeepAliveIffOpen(url: string, retryInterval: int, pingInterval: int, trace: seq<Event>, codec: Codec)
    requires forall i :: 0 <= i < |trace| ==> !trace[i].ConnectCalled?
    ensures var r := Run(AfterConnect(Fresh(url, retryInterval, pingInterval)), trace, codec);
      Running(r.world.timers, Ping) != {} <==> CurrentOpen(r)
    ensures var r := Run(AfterConnect(Fresh(url, retryInterval, pingInterval)), trace, codec);
      Running(r.world.timers, Reconnect) != {} <==> (r.ws.Some? && r.world.sessions[r.ws.value].readyState == CLOSED)
  {
    SteadyAfterFirstConnect(url, retryInterval, pingInterval);
    RunKeepsSteady(AfterConnect(Fresh(url, retryInterval, pingInterval)), trace, codec);
  }

  /** Once pinging is stopped, stopping again changes nothing. */
  lemma StopPingingIdempotent(c: Client)
    requires Valid(c)
    ensures AfterStopPinging(AfterStopPinging(c)) == AfterStopPinging(c)
  {
  }

  /**
   * `connect()` is public and does not close the session it replaces: called
   * a second time while a session is OPEN, the old session's ping interval
   * keeps running beside the new one once the new session opens.
   */
  lemma SecondConnectLeaksPing(c: Client, codec: Codec)
    requires Steady(c) && CurrentOpen(c)
    ensures var c2 := Step(c, ConnectCalled, codec);
      var c3 := Step(c2, Opened(c2.ws.value), codec);
      |Running(c3.world.timers, Ping)| == 2 && !Steady(c3)
  {
    var c2 := Step(c, ConnectCalled, codec);
    var c3 := Step(c2, Opened(c2.ws.value), codec);
    assert CanOpen(c2.world, c2.ws.value);
    assert c.pingIntervalId.value != c3.pingIntervalId.value;
  }

  /** A reconnect timer's firing opens a new session for the same address. */
  lemma ReconnectOpensSession(c: Client, t: TimerId, codec: Codec)
    requires Valid(c) && t in c.world.timers && c.world.timers[t].job == Reconnect
    ensures var r := Step(c, Fired(t), codec);
      r.ws == Some(|c.world.sessions|) && |r.world.sessions| == |c.world.sessions| + 1 &&
      r.world.sessions[|c.world.sessions|] == Session(c.url, CONNECTING, []) &&
      t !in r.world.timers
  {
  }

  /** The client object; `world` stands for the browser's sessions and timers. */
  class WebSocketClient {
    var url: string
    var ws: Option<SessionId>
    const retryInterval: int
    const pingInterval: int
    var pingIntervalId: Option<TimerId>
    var world: World

    ghost function Model(): Client
      reads this
    {
      Client(url, retryInterval, pingInterval, ws, pingIntervalId, world)
    }

    constructor (url: string, retryInterval: int := DefaultRetryInterval, pingInterval: int := DefaultPingInterval)
      ensures Model() == Fresh(url, retryInterval, pingInterval)
      ensures ws.None? && pingIntervalId.None?
    {
      this.url := url;
      this.retryInterval := retryInterval;
      this.pingInterval := pingInterval;
      ws := None;
      pingIntervalId := None;
      world := Blank;
    }

    method Connect()
      requires Valid(Model())
      modifies this
      ensures Model() == AfterConnect(old(Model()))
    {
      var (w, sid) := NewSession(world, url);
      world := w;
      ws := Some(sid);
    }

    method OnOpen(sid: SessionId)
      requires Valid(Model()) && CanOpen(world, sid)
      modifies this
      ensures Model() == AfterOpen(old(Model()), sid)
    {
      world := Mark(world, sid, OPEN);
      StartPinging();
    }

    method OnMessage(sid: SessionId, data: string, codec: Codec) returns (outcome: Result<seq<string>, HandlerError>)
      requires Valid(Model()) && CanReceive(world, sid)
      modifies this
      ensures outcome == HandleMessage(data, codec)
      ensures Model() == AfterMessage(old(Model()), sid, data, codec)
    {
      if data == Ack {
        outcome := Success([]);
      } else {
        match codec.parse(data)
        case None =>
          outcome := Failure(SyntaxError);
        case Some(Mempool(ordinals)) =>
          var lines := FilterBitmaps(ordinals, codec.decode);
          world := Log(world, lines);
          outcome := Success(lines);
        case Some(Other) =>
          outcome := Success([]);
      }
    }

    method OnError(sid: SessionId)
      requires Valid(Model()) && CanClose(world, sid)
      ensures Model() == old(Model())
    {
    }

    method OnClose(sid: SessionId)
      requires Valid(Model()) && CanClose(world, sid)
      modifies this
      ensures Model() == AfterClose(old(Model()), sid)
    {
      world := Mark(world, sid, CLOSED);
      StopPinging();
      var (w, t) := SetTimeout(world, retryInterval, Reconnect);
      world := w;
    }

    method StartPinging()
      requires Valid(Model())
      modifies this
      ensures Model() == AfterStartPinging(old(Model()))
    {
      var (w, t) := SetInterval(world, pingInterval, Ping);
      world := w;
      pingIntervalId := Some(t);
    }

    method StopPinging()
      requires Valid(Model())
      modifies this
      ensures Model() == AfterStopPinging(old(Model()))
    {
      if pingIntervalId.Some? {
        world := Clear(world, pingIntervalId.value);
        pingIntervalId := None;
      }
    }

    method PingTick()
      requires Valid(Model())
      modifies this
      ensures Model() == AfterPingTick(old(Model()))
    {
      if ws.Some? && world.sessions[ws.value].readyState == OPEN {
        world := Send(world, ws.value, PingPayload);
      }
    }

    method Fire(t: TimerId)
      requires Valid(Model()) && t in world.timers
      modifies this
      ensures Model() == AfterFire(old(Model()), t)
    {
      if world.timers[t].job == Ping {
        PingTick();
      } else {
        world := Clear(world, t);
        Connect();
      }
    }
  }
}
