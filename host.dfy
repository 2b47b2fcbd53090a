/**
 * The part of the browser that both WebSocket clients act on: transport
 * sessions created by `new WebSocket(url)`, the timer table behind
 * `setInterval`/`setTimeout`/`clearInterval`/`clearTimeout`, and the console
 * lines that carry the observable output of the message filter.
 *
 * Handles are opaque: a session handle is its position in `sessions`, a timer
 * handle is drawn from the counter `nextTimer`, so every new handle is fresh.
 */
module Host {

  type SessionId = nat
  type TimerId = nat

  /** `WebSocket.readyState`: CONNECTING, OPEN, CLOSING, CLOSED. */
  datatype ReadyState = CONNECTING | OPEN | CLOSING | CLOSED

  /** One transport session: the address it was opened for, its state, and the texts sent on it. */
  datatype Session = Session(url: string, readyState: ReadyState, sent: seq<string>)

  /** The callback a timer runs; what it does is fixed by the client that scheduled it. */
  datatype Job = Ping | Reconnect

  /** A repeating timer from `setInterval` or a one-shot timer from `setTimeout`. */
  datatype Timer = Interval(period: int, job: Job) | Timeout(delay: int, job: Job)

  /** Every session ever opened, the timers still scheduled, the next timer handle, the console lines. */
  datatype World = World(sessions: seq<Session>, timers: map<TimerId, Timer>, nextTimer: TimerId, log: seq<string>)

  /** The browser before the client has done anything. */
  const Blank := World([], map[], 0, [])

  /** Every scheduled timer has a handle that was handed out. */
  predicate Issued(w: World)
  {
    forall t :: t in w.timers ==> t < w.nextTimer
  }

  /** The scheduled timers that run the given job. */
  function Running(timers: map<TimerId, Timer>, job: Job): set<TimerId>
  {
    set t | t in timers && timers[t].job == job
  }

  /** Scheduling a timer under a fresh handle adds that handle to the timers running its job. */
  lemma RunningAdd(timers: map<TimerId, Timer>, t: TimerId, timer: Timer, job: Job)
    requires t !in timers
    ensures Running(timers[t := timer], job) == Running(timers, job) + (if timer.job == job then {t} else {})
  {
  }

  /** Clearing a handle removes it from the running timers and from nothing else. */
  lemma RunningClear(timers: map<TimerId, Timer>, t: TimerId, job: Job)
    ensures Running(timers - {t}, job) == Running(timers, job) - {t}
  {
  }

  /** `new WebSocket(url)`: a fresh session in state CONNECTING. */
  function NewSession(w: World, url: string): (World, SessionId)
  {
    (w.(sessions := w.sessions + [Session(url, CONNECTING, [])]), |w.sessions|)
  }

  /** `setInterval(job, period)`. */
  function SetInterval(w: World, period: int, job: Job): (World, TimerId)
  {
    (w.(timers := w.timers[w.nextTimer := Interval(period, job)], nextTimer := w.nextTimer + 1), w.nextTimer)
  }

  /** `setTimeout(job, delay)`. */
  function SetTimeout(w: World, delay: int, job: Job): (World, TimerId)
  {
    (w.(timers := w.timers[w.nextTimer := Timeout(delay, job)], nextTimer := w.nextTimer + 1), w.nextTimer)
  }

  /** `clearInterval(t)` or `clearTimeout(t)`: a handle that is no longer scheduled is ignored. */
  function Clear(w: World, t: TimerId): World
  {
    w.(timers := w.timers - {t})
  }

  /** `session.send(text)`. */
  function Send(w: World, sid: SessionId, text: string): World
    requires sid < |w.sessions|
  {
    w.(sessions := w.sessions[sid := w.sessions[sid].(sent := w.sessions[sid].sent + [text])])
  }

  /** `session.close()`: starts the closing handshake; a session already closing or closed is left as it is. */
  function RequestClose(w: World, sid: SessionId): World
    requires sid < |w.sessions|
  {
    var s := w.sessions[sid];
    if s.readyState == CONNECTING || s.readyState == OPEN
    then w.(sessions := w.sessions[sid := s.(readyState := CLOSING)])
    else w
  }

  /** The transport moving a session to a new state before it runs the matching handler. */
  function Mark(w: World, sid: SessionId, st: ReadyState): World
    requires sid < |w.sessions|
  {
    w.(sessions := w.sessions[sid := w.sessions[sid].(readyState := st)])
  }

  /** `console.log` of each line, in order. */
  function Log(w: World, lines: seq<string>): World
  {
    w.(log := w.log + lines)
  }

  /** The transport emits "open" only for a session still connecting. */
  predicate CanOpen(w: World, sid: SessionId)
  {
    sid < |w.sessions| && w.sessions[sid].readyState == CONNECTING
  }

  /** The transport delivers messages only on an open (or closing) session. */
  predicate CanReceive(w: World, sid: SessionId)
  {
    sid < |w.sessions| && (w.sessions[sid].readyState == OPEN || w.sessions[sid].readyState == CLOSING)
  }

  /** The transport emits "error" and "close" only for a session not yet closed. */
  predicate CanClose(w: World, sid: SessionId)
  {
    sid < |w.sessions| && w.sessions[sid].readyState != CLOSED
  }
}
