/**
 * The Vue composable `useWebSocket`: the same reconnecting session, kept in
 * the closure variables `ws`, `retryTimeoutId` and `pingIntervalId`, opened
 * when the component mounts and torn down when it unmounts.
 *
 * Teardown closes the socket and clears whichever timers are named at that
 * moment, but keeps the handles and the `onclose` handler; the close event
 * that the teardown itself causes therefore schedules a reconnect, and the
 * composable goes on reconnecting after the component is gone.
 */
module UseWebSocket {
  import opened Wrappers
  import opened Host

  const DefaultRetryTimeout := 2000
  const DefaultPingInterval := 10000
  const DefaultPingMessage := "ping"

  /** `SocketOptions`, with the defaults of the destructuring pattern. */
  datatype Options = Options(url: string, retryTimeout: int := DefaultRetryTimeout,
                             pingInterval: int := DefaultPingInterval, pingMessage: string := DefaultPingMessage)

  /** One `useWebSocket` call: its options, its closure variables and the browser state. */
  datatype Hook = Hook(options: Options, ws: Option<SessionId>, retryTimeoutId: Option<TimerId>,
                       pingIntervalId: Option<TimerId>, world: World)

  /** The session handle is valid and the only timers are the composable's pings and retries. */
  predicate Valid(h: Hook)
  {
    Issued(h.world) &&
    (h.ws.Some? ==> h.ws.value < |h.world.sessions|) &&
    (forall t :: t in h.world.timers ==>
      h.world.timers[t] == Interval(h.options.pingInterval, Ping) ||
      h.world.timers[t] == Timeout(h.options.retryTimeout, Reconnect))
  }

  /** `useWebSocket(options)` before mounting: every closure variable null. */
  function Setup(options: Options): (h: Hook)
    ensures Valid(h) && h.options == options
    ensures h.ws.None? && h.retryTimeoutId.None? && h.pingIntervalId.None?
    ensures h.world.sessions == [] && h.world.timers == map[]
  {
    Hook(options, None, None, None, Blank)
  }

  /** `connect()`: `ws.value` becomes a fresh CONNECTING session for `url`; nothing else changes. */
  function AfterConnect(h: Hook): (r: Hook)
    requires Valid(h)
    ensures Valid(r)
    ensures r.ws == Some(|h.world.sessions|)
    ensures r.world.sessions == h.world.sessions + [Session(h.options.url, CONNECTING, [])]
    ensures r == h.(ws := r.ws, world := h.world.(sessions := r.world.sessions))
  {
    var (w, sid) := NewSession(h.world, h.options.url);
    h.(ws := Some(sid), world := w)
  }

  /**
   * The open handler: the session is OPEN, `retryTimeoutId` is nulled without
   * any timer being cancelled (`clearTimeout` is handed the delay, not the
   * handle), and a new ping interval runs.
   */
  function AfterOpen(h: Hook, sid: SessionId): (r: Hook)
    requires Valid(h) && CanOpen(h.world, sid)
    ensures Valid(r)
    ensures |r.world.sessions| == |h.world.sessions| && r.world.sessions[sid].readyState == OPEN
    ensures r.world.sessions[sid] == h.world.sessions[sid].(readyState := OPEN)
    ensures forall i :: 0 <= i < |h.world.sessions| && i != sid ==> r.world.sessions[i] == h.world.sessions[i]
    ensures r.retryTimeoutId.None?
    ensures h.world.nextTimer !in h.world.timers && r.pingIntervalId == Some(h.world.nextTimer)
    ensures r.world.timers == h.world.timers[h.world.nextTimer := Interval(h.options.pingInterval, Ping)]
    ensures r == h.(retryTimeoutId := None, pingIntervalId := r.pingIntervalId,
                    world := h.world.(sessions := r.world.sessions, timers := r.world.timers, nextTimer := r.world.nextTimer))
  {
    var (w, t) := SetInterval(Mark(h.world, sid, OPEN), h.options.pingInterval, Ping);
    h.(retryTimeoutId := None, pingIntervalId := Some(t), world := w)
  }

  /** The ping interval's callback: `pingMessage` goes to `ws.value` exactly when it is OPEN. */
  function AfterPingTick(h: Hook): (r: Hook)
    requires Valid(h)
    ensures Valid(r)
    ensures r.world == h.world.(sessions := r.world.sessions)
    ensures r == h.(world := r.world)
    ensures |r.world.sessions| == |h.world.sessions|
    ensures forall i :: 0 <= i < |h.world.sessions| && Some(i) != h.ws ==> r.world.sessions[i] == h.world.sessions[i]
    ensures h.ws.Some? && h.world.sessions[h.ws.value].readyState == OPEN ==>
      var cur := h.world.sessions[h.ws.value];
      r.world.sessions[h.ws.value] == cur.(sent := cur.sent + [h.options.pingMessage])
    ensures !(h.ws.Some? && h.world.sessions[h.ws.value].readyState == OPEN) ==> r == h
  {
    if h.ws.Some? && h.world.sessions[h.ws.value].readyState == OPEN
    then h.(world := Send(h.world, h.ws.value, h.options.pingMessage))
    else h
  }

  /**
   * The close handler: the session is CLOSED, a named ping interval is
   * cleared and its handle nulled, and `retryTimeoutId` names one new retry
   * timer of `retryTimeout`.
   */
  function AfterClose(h: Hook, sid: SessionId): (r: Hook)
    requires Valid(h) && CanClose(h.world, sid)
    ensures Valid(r)
    ensures |r.world.sessions| == |h.world.sessions| && r.world.sessions[sid].readyState == CLOSED
    ensures r.world.sessions[sid] == h.world.sessions[sid].(readyState := CLOSED)
    ensures forall i :: 0 <= i < |h.world.sessions| && i != sid ==> r.world.sessions[i] == h.world.sessions[i]
    ensures r.pingIntervalId.None?
    ensures h.world.nextTimer !in h.world.timers && r.retryTimeoutId == Some(h.world.nextTimer)
    ensures r.world.timers ==
      (if h.pingIntervalId.Some? then h.world.timers - {h.pingIntervalId.value} else h.world.timers)
        [h.world.nextTimer := Timeout(h.options.retryTimeout, Reconnect)]
    ensures r == h.(pingIntervalId := None, retryTimeoutId := r.retryTimeoutId,
                    world := h.world.(sessions := r.world.sessions, timers := r.world.timers, nextTimer := r.world.nextTimer))
  {
    var closed := Mark(h.world, sid, CLOSED);
    var stopped := if h.pingIntervalId.Some? then Clear(closed, h.pingIntervalId.value) else closed;
    var (w, t) := SetTimeout(stopped, h.options.retryTimeout, Reconnect);
    h.(pingIntervalId := None, retryTimeoutId := Some(t), world := w)
  }

  /** A scheduled timer fires: a ping interval ticks; a retry timeout is used up and calls `connect()`. */
  function AfterFire(h: Hook, t: TimerId): (r: Hook)
    requires Valid(h) && t in h.world.timers
    ensures Valid(r)
    ensures h.world.timers[t].job == Ping ==> r == AfterPingTick(h)
    ensures h.world.timers[t].job == Reconnect ==> r == AfterConnect(h.(world := Clear(h.world, t)))
  {
    if h.world.timers[t].job == Ping then AfterPingTick(h)
    else AfterConnect(h.(world := Clear(h.world, t)))
  }

  /**
   * The unmount hook: a present socket is asked to close and the named retry
   * and ping timers are cleared; the handles keep their values.
   */
  function AfterUnmount(h: Hook): (r: Hook)
    requires Valid(h)
    ensures Valid(r)
    ensures r == h.(world := h.world.(sessions := r.world.sessions, timers := r.world.timers))
    ensures h.retryTimeoutId.Some? ==> h.retryTimeoutId.value !in r.world.timers
    ensures h.pingIntervalId.Some? ==> h.pingIntervalId.value !in r.world.timers
    ensures forall t :: t in r.world.timers <==> t in h.world.timers && Some(t) != h.retryTimeoutId && Some(t) != h.pingIntervalId
    ensures forall t :: t in r.world.timers ==> r.world.timers[t] == h.world.timers[t]
    ensures |r.world.sessions| == |h.world.sessions|
    ensures h.ws.Some? && h.world.sessions[h.ws.value].readyState in {CONNECTING, OPEN} ==>
      r.world.sessions[h.ws.value] == h.world.sessions[h.ws.value].(readyState := CLOSING)
    ensures forall i :: 0 <= i < |h.world.sessions| && (Some(i) != h.ws || h.world.sessions[i].readyState in {CLOSING, CLOSED}) ==>
      r.world.sessions[i] == h.world.sessions[i]
  {
    var closing := if h.ws.Some? then RequestClose(h.world, h.ws.value) else h.world;
    var noRetry := if h.retryTimeoutId.Some? then Clear(closing, h.retryTimeoutId.value) else closing;
    var noPing := if h.pingIntervalId.Some? then Clear(noRetry, h.pingIntervalId.value) else noRetry;
    h.(world := noPing)
  }

  /** What can happen to the composable: the component's lifecycle, transport events, timer firings. */
  datatype Event =
    | Mounted
    | Unmounted
    | Opened(sid: SessionId)
    | Errored(sid: SessionId)
    | Closed(sid: SessionId)
    | Fired(t: TimerId)

  /** One event; an event the transport or the timer table cannot deliver changes nothing. */
  function Step(h: Hook, e: Event): (r: Hook)
    requires Valid(h)
    ensures Valid(r)
  {
    match e
    case Mounted => AfterConnect(h)
    case Unmounted => AfterUnmount(h)
    case Opened(sid) => if CanOpen(h.world, sid) then AfterOpen(h, sid) else h
    case Errored(_) => h
    case Closed(sid) => if CanClose(h.world, sid) then AfterClose(h, sid) else h
    case Fired(t) => if t in h.world.timers then AfterFire(h, t) else h
  }

  /** A trace of events, in order. */
  function Run(h: Hook, trace: seq<Event>): (r: Hook)
    requires Valid(h)
    ensures Valid(r)
    decreases |trace|
  {
    if trace == [] then h else Run(Step(h, trace[0]), trace[1..])
  }

  /**
   * The lifecycle while the component is mounted: earlier sessions are
   * CLOSED, the current one is never CLOSING; a ping interval runs, named by
   * `pingIntervalId`, exactly when it is OPEN; a retry timer runs, named by
   * `retryTimeoutId`, exactly when it is CLOSED; and `retryTimeoutId` is null
   * while it is OPEN.
   */
  predicate Live(h: Hook)
  {
    Valid(h) && h.ws.Some? &&
    var cur := h.ws.value;
    var st := h.world.sessions[cur].readyState;
    (forall i :: 0 <= i < |h.world.sessions| && i != cur ==> h.world.sessions[i].readyState == CLOSED) &&
    st != CLOSING &&
    (h.pingIntervalId.Some? <==> st == OPEN) &&
    (st == CLOSED ==> h.retryTimeoutId.Some?) &&
    (st == OPEN ==> h.retryTimeoutId.None?) &&
    Running(h.world.timers, Ping) == (if st == OPEN then {h.pingIntervalId.value} else {}) &&
    Running(h.world.timers, Reconnect) == (if st == CLOSED then {h.retryTimeoutId.value} else {})
  }

  /** Nothing is left that could open or use a session: every session is CLOSED and no timer runs. */
  predicate Quiet(h: Hook)
  {
    Valid(h) &&
    (forall i :: 0 <= i < |h.world.sessions| ==> h.world.sessions[i].readyState == CLOSED) &&
    h.world.timers == map[]
  }

  /** Mounting calls `connect()` once and reaches the lifecycle. */
  lemma LiveAfterMount(options: Options)
    ensures Live(Step(Setup(options), Mounted))
    ensures Step(Setup(options), Mounted).world.sessions == [Session(options.url, CONNECTING, [])]
  {
    var h := Step(Setup(options), Mounted);
    assert Running(h.world.timers, Ping) == {};
    assert Running(h.world.timers, Reconnect) == {};
  }

  /** Every transport event and timer firing keeps the lifecycle. */
  lemma StepKeepsLive(h: Hook, e: Event)
    requires Live(h) && !e.Mounted? && !e.Unmounted?
    ensures Live(Step(h, e))
  {
    var cur := h.ws.value;
    var r := Step(h, e);
    match e
    case Opened(sid) =>
      if CanOpen(h.world, sid) {
        assert sid == cur;
        RunningAdd(h.world.timers, h.world.nextTimer, Interval(h.options.pingInterval, Ping), Ping);
        RunningAdd(h.world.timers, h.world.nextTimer, Interval(h.options.pingInterval, Ping), Reconnect);
      }
    case Errored(_) =>
    case Closed(sid) =>
      if CanClose(h.world, sid) {
        assert sid == cur;
        var stopped := if h.pingIntervalId.Some? then h.world.timers - {h.pingIntervalId.value} else h.world.timers;
        if h.pingIntervalId.Some? {
          RunningClear(h.world.timers, h.pingIntervalId.value, Ping);
          RunningClear(h.world.timers, h.pingIntervalId.value, Reconnect);
        }
        RunningAdd(stopped, h.world.nextTimer, Timeout(h.options.retryTimeout, Reconnect), Ping);
        RunningAdd(stopped, h.world.nextTimer, Timeout(h.options.retryTimeout, Reconnect), Reconnect);
      }
    case Fired(t) =>
      if t in h.world.timers && h.world.timers[t].job == Reconnect {
        assert t in Running(h.world.timers, Reconnect);
        RunningClear(h.world.timers, t, Ping);
        RunningClear(h.world.timers, t, Reconnect);
      }
  }

  /** The lifecycle holds after any trace of transport events and timer firings. */
  lemma {:induction false} RunKeepsLive(h: Hook, trace: seq<Event>)
    requires Live(h)
    requires forall i :: 0 <= i < |trace| ==> !trace[i].Mounted? && !trace[i].Unmounted?
    ensures Live(Run(h, trace))
    decreases |trace|
  {
    if trace != [] {
      StepKeepsLive(h, trace[0]);
      RunKeepsLive(Step(h, trace[0]), trace[1..]);
    }
  }

  /** Tearing down twice has no effect beyond the first teardown. */
  lemma UnmountIdempotent(h: Hook)
    requires Valid(h)
    ensures AfterUnmount(AfterUnmount(h)) == AfterUnmount(h)
  {
    var u := AfterUnmount(h);
    assert u.world.sessions == AfterUnmount(u).world.sessions;
    assert u.world.timers == AfterUnmount(u).world.timers;
  }

  /**
   * Unmounting while the session is connecting or open does not stop the
   * composable: the close event it causes names a new retry timer, and that
   * timer's firing opens a new session for the same address.
   */
  lemma UnmountThenCloseReconnects(h: Hook)
    requires Live(h) && h.world.sessions[h.ws.value].readyState != CLOSED
    ensures var u := Step(h, Unmounted);
      var c := Step(u, Closed(h.ws.value));
      c.retryTimeoutId.Some? && c.retryTimeoutId.value in c.world.timers &&
      c.world.timers[c.retryTimeoutId.value] == Timeout(h.options.retryTimeout, Reconnect) &&
      var f := Step(c, Fired(c.retryTimeoutId.value));
      |f.world.sessions| == |h.world.sessions| + 1 && f.ws == Some(|h.world.sessions|) &&
      f.world.sessions[|h.world.sessions|] == Session(h.options.url, CONNECTING, [])
  {
    var u := Step(h, Unmounted);
    assert u.world.sessions[h.ws.value].readyState == CLOSING;
    assert CanClose(u.world, h.ws.value);
  }

  /** Unmounting during the wait before a retry does stop the composable: nothing is left running. */
  lemma UnmountDuringRetryWaitIsQuiet(h: Hook)
    requires Live(h) && h.world.sessions[h.ws.value].readyState == CLOSED
    ensures Quiet(Step(h, Unmounted))
  {
    var u := Step(h, Unmounted);
    forall t | t in h.world.timers
      ensures Some(t) == h.retryTimeoutId
    {
      assert t in Running(h.world.timers, h.world.timers[t].job);
    }
    assert u.world.timers == map[];
  }

  /** From a quiet state, no trace without a new mount opens a session or sends anything. */
  lemma {:induction false} QuietStaysQuiet(h: Hook, trace: seq<Event>)
    requires Quiet(h)
    requires forall i :: 0 <= i < |trace| ==> !trace[i].Mounted?
    ensures Quiet(Run(h, trace))
    ensures Run(h, trace).world.sessions == h.world.sessions
    decreases |trace|
  {
    if trace != [] {
      var r := Step(h, trace[0]);
      assert r.world.sessions == h.world.sessions;
      QuietStaysQuiet(r, trace[1..]);
    }
  }

  /** The closure variables of one `useWebSocket` call; `world` stands for the browser's sessions and timers. */
  class WebSocketHook {
    const url: string
    const retryTimeout: int
    const pingInterval: int
    const pingMessage: string
    var ws: Option<SessionId>
    var retryTimeoutId: Option<TimerId>
    var pingIntervalId: Option<TimerId>
    var world: World

    ghost function Model(): Hook
      reads this
    {
      Hook(Options(url, retryTimeout, pingInterval, pingMessage), ws, retryTimeoutId, pingIntervalId, world)
    }

    constructor (options: Options)
      ensures Model() == Setup(options)
    {
      url := options.url;
      retryTimeout := options.retryTimeout;
      pingInterval := options.pingInterval;
      pingMessage := options.pingMessage;
      ws := None;
      retryTimeoutId := None;
      pingIntervalId := None;
      world := Blank;
    }

    method Connect()
      requires Valid(Model())
      modifies this
      ensures Model() == AfterConnect(old(Model()))
    {
      var (w, sid) := NewSession(world, url);
      world := w;
      ws := Some(sid);
    }

    method OnOpen(sid: SessionId)
      requires Valid(Model()) && CanOpen(world, sid)
      modifies this
      ensures Model() == AfterOpen(old(Model()), sid)
    {
      world := Mark(world, sid, OPEN);
      if retryTimeoutId.Some? {
        // `clearTimeout(retryTimeout)` names the delay, so no timer is cancelled.
        retryTimeoutId := None;
      }
      var (w, t) := SetInterval(world, pingInterval, Ping);
      world := w;
      pingIntervalId := Some(t);
    }

    method PingTick()
      requires Valid(Model())
      modifies this
      ensures Model() == AfterPingTick(old(Model()))
    {
      if ws.Some? && world.sessions[ws.value].readyState == OPEN {
        world := Send(world, ws.value, pingMessage);
      }
    }

    method OnClose(sid: SessionId)
      requires Valid(Model()) && CanClose(world, sid)
      modifies this
      ensures Model() == AfterClose(old(Model()), sid)
    {
      world := Mark(world, sid, CLOSED);
      if pingIntervalId.Some? {
        world := Clear(world, pingIntervalId.value);
        pingIntervalId := None;
      }
      var (w, t) := SetTimeout(world, retryTimeout, Reconnect);
      world := w;
      retryTimeoutId := Some(t);
    }

    method OnError(sid: SessionId)
      requires Valid(Model()) && CanClose(world, sid)
      ensures Model() == old(Model())
    {
    }

    method Fire(t: TimerId)
      requires Valid(Model()) && t in world.timers
      modifies this
      ensures Model() == AfterFire(old(Model()), t)
    {
      if world.timers[t].job == Ping {
        PingTick();
      } else {
        world := Clear(world, t);
        Connect();
      }
    }

    method Mount()
      requires Valid(Model())
      modifies this
      ensures Model() == AfterConnect(old(Model()))
    {
      Connect();
    }

    method Unmount()
      requires Valid(Model())
      modifies this
      ensures Model() == AfterUnmount(old(Model()))
    {
      if ws.Some? {
        world := RequestClose(world, ws.value);
      }
      if retryTimeoutId.Some? {
        world := Clear(world, retryTimeoutId.value);
      }
      if pingIntervalId.Some? {
        world := Clear(world, pingIntervalId.value);
      }
    }
  }
}
