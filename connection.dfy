/** The connection and reconnection state of the push-channel client, as a
    value, with one function per thing that can happen to it.

    Sockets are numbered in creation order and `sockets[i]` is the ready
    state of socket `i`; every socket ever created keeps its callbacks, which
    all refer to the client rather than to their own socket.  Timers are
    numbered likewise; `reconnectTimer` is the client's field, holding the
    number of a timer or nothing. */
module Connection {
  import opened Wrappers

  type SocketId = nat
  type TimerId = nat

  /** `WebSocket.readyState`. */
  datatype ReadyState = Connecting | Open | Closing | Closed

  /** A `setTimeout` handle: waiting to fire, already fired, or cleared
      before firing. */
  datatype TimerState = Armed | Fired | Cancelled

  datatype Conn = Conn(
    ws: Option<SocketId>,
    sockets: seq<ReadyState>,
    timers: seq<TimerState>,
    reconnectTimer: Option<TimerId>)

  /** The state of a client just constructed. */
  const Initial: Conn := Conn(None, [], [], None)

  /** The reconnect delay in milliseconds (`reconnectInterval`). */
  const ReconnectIntervalMs: nat := 5000

  /** The field invariant: `ws` and `reconnectTimer` name things that
      exist, the handle in the field was never cleared, and the only timer
      that can still fire is the one in the field. */
  predicate Valid(c: Conn) {
    && (c.ws.Some? ==> c.ws.value < |c.sockets|)
    && (c.reconnectTimer.Some? ==> c.reconnectTimer.value < |c.timers| && c.timers[c.reconnectTimer.value] != Cancelled)
    && (forall t :: 0 <= t < |c.timers| && c.timers[t] == Armed ==> c.reconnectTimer == Some(t))
  }

  /** `this.ws?.readyState === WebSocket.OPEN`. */
  predicate IsOpen(c: Conn) {
    c.ws.Some? && c.ws.value < |c.sockets| && c.sockets[c.ws.value] == Open
  }

  /** The number of timers that can still fire. */
  function ArmedCount(ts: seq<TimerState>): nat {
    if ts == [] then 0 else (if ts[0] == Armed then 1 else 0) + ArmedCount(ts[1..])
  }

  /** `scheduleReconnect()`: arms a new timer only when the field is empty. */
  function ScheduleReconnect(c: Conn): (r: Conn)
    ensures r.ws == c.ws && r.sockets == c.sockets
    ensures c.reconnectTimer.Some? ==> r == c
    ensures c.reconnectTimer.None? ==>
      r.timers == c.timers + [Armed] && r.reconnectTimer == Some(|c.timers|)
  {
    if c.reconnectTimer.Some? then c
    else c.(timers := c.timers + [Armed], reconnectTimer := Some(|c.timers|))
  }

  /** `connect()`.  `throws` tells whether `new WebSocket(url)` throws, in
      which case `ws` keeps its old value and a reconnect is scheduled. */
  function Connect(c: Conn, throws: bool): (r: Conn)
    ensures IsOpen(c) ==> r == c
    ensures throws ==> r.ws == c.ws && r.sockets == c.sockets
    ensures !IsOpen(c) && throws ==> r == ScheduleReconnect(c)
    ensures !IsOpen(c) && !throws ==>
      && r.ws == Some(|c.sockets|) && r.sockets == c.sockets + [Connecting]
      && r.timers == c.timers && r.reconnectTimer == c.reconnectTimer
  {
    if IsOpen(c) then c
    else if throws then ScheduleReconnect(c)
    else c.(ws := Some(|c.sockets|), sockets := c.sockets + [Connecting])
  }

  /** `clearTimeout(timer)`: a timer that has not fired yet never will. */
  function Clear(ts: seq<TimerState>, t: TimerId): (r: seq<TimerState>)
    requires t < |ts|
    ensures |r| == |ts| && r[t] != Armed
    ensures forall u :: 0 <= u < |ts| && u != t ==> r[u] == ts[u]
  {
    if ts[t] == Armed then ts[t := Cancelled] else ts
  }

  /** The `open` event of socket `id` and the `onopen` callback: clears and
      empties the timer field. */
  function SocketOpened(c: Conn, id: SocketId): (r: Conn)
    requires id < |c.sockets| && c.sockets[id] == Connecting
    requires Valid(c)
    ensures r.ws == c.ws && r.sockets == c.sockets[id := Open]
    ensures r.reconnectTimer.None? && |r.timers| == |c.timers|
    ensures forall t :: 0 <= t < |r.timers| ==> r.timers[t] != Armed
  {
    var c' := c.(sockets := c.sockets[id := Open]);
    match c.reconnectTimer
    case None => c'
    case Some(t) => c'.(timers := Clear(c.timers, t), reconnectTimer := None)
  }

  /** The `close` event of socket `id` and the `onclose` callback. */
  function SocketClosed(c: Conn, id: SocketId): (r: Conn)
    requires id < |c.sockets| && c.sockets[id] != Closed
    ensures r.ws == c.ws && r.sockets == c.sockets[id := Closed]
    ensures c.reconnectTimer.Some? ==> r.timers == c.timers && r.reconnectTimer == c.reconnectTimer
    ensures c.reconnectTimer.None? ==> r.timers == c.timers + [Armed] && r.reconnectTimer == Some(|c.timers|)
  {
    ScheduleReconnect(c.(sockets := c.sockets[id := Closed]))
  }

  /** The reconnect timer fires and its callback calls `connect()`; the
      field keeps the spent handle. */
  function TimerFired(c: Conn, throws: bool): (r: Conn)
    requires Valid(c)
    requires c.reconnectTimer.Some? && c.timers[c.reconnectTimer.value] == Armed
    ensures r.reconnectTimer == c.reconnectTimer
    ensures r.timers == c.timers[c.reconnectTimer.value := Fired]
    ensures !IsOpen(c) && !throws ==> r.ws == Some(|c.sockets|) && r.sockets == c.sockets + [Connecting]
    ensures IsOpen(c) || throws ==> r.ws == c.ws && r.sockets == c.sockets
  {
    Connect(c.(timers := c.timers[c.reconnectTimer.value := Fired]), throws)
  }

  /** `WebSocket.close()`: a connecting or open socket starts closing; a
      closing or closed one is left alone. */
  function CloseCall(s: ReadyState): (r: ReadyState)
    ensures r != Connecting && r != Open
    ensures s == Closing || s == Closed ==> r == s
  {
    if s == Connecting || s == Open then Closing else s
  }

  /** `disconnect()`. */
  function Disconnect(c: Conn): (r: Conn)
    requires Valid(c)
    ensures r.ws.None? && r.reconnectTimer.None?
    ensures |r.timers| == |c.timers| && forall t :: 0 <= t < |r.timers| ==> r.timers[t] != Armed
    ensures |r.sockets| == |c.sockets|
    ensures c.ws.Some? ==> r.sockets[c.ws.value] == CloseCall(c.sockets[c.ws.value])
    ensures forall i :: 0 <= i < |c.sockets| && c.ws != Some(i) ==> r.sockets[i] == c.sockets[i]
  {
    var timers := if c.reconnectTimer.Some? then Clear(c.timers, c.reconnectTimer.value) else c.timers;
    var sockets := if c.ws.Some? then c.sockets[c.ws.value := CloseCall(c.sockets[c.ws.value])] else c.sockets;
    Conn(None, sockets, timers, None)
  }

  // ----- The invariant is kept by everything that can happen -----

  lemma InitialValid()
    ensures Valid(Initial) && ArmedCount(Initial.timers) == 0
  {
  }

  lemma ScheduleReconnectValid(c: Conn)
    requires Valid(c)
    ensures Valid(ScheduleReconnect(c))
  {
  }

  lemma ConnectValid(c: Conn, throws: bool)
    requires Valid(c)
    ensures Valid(Connect(c, throws))
  {
  }

  lemma OpenedValid(c: Conn, id: SocketId)
    requires Valid(c) && id < |c.sockets| && c.sockets[id] == Connecting
    ensures Valid(SocketOpened(c, id))
  {
  }

  lemma ClosedValid(c: Conn, id: SocketId)
    requires Valid(c) && id < |c.sockets| && c.sockets[id] != Closed
    ensures Valid(SocketClosed(c, id))
  {
  }

  lemma TimerFiredValid(c: Conn, throws: bool)
    requires Valid(c) && c.reconnectTimer.Some? && c.timers[c.reconnectTimer.value] == Armed
    ensures Valid(TimerFired(c, throws))
  {
  }

  lemma DisconnectValid(c: Conn)
    requires Valid(c)
    ensures Valid(Disconnect(c))
  {
  }

  // ----- What the transitions promise -----

  /** At most one reconnect timer is ever armed. */
  lemma AtMostOneArmed(c: Conn)
    requires Valid(c)
    ensures ArmedCount(c.timers) <= 1
    ensures ArmedCount(c.timers) == 1 <==> c.reconnectTimer.Some? && c.timers[c.reconnectTimer.value] == Armed
  {
    match c.reconnectTimer
    case None => NoneArmed(c.timers);
    case Some(t) =>
      if c.timers[t] == Armed {
        OnlyOneArmed(c.timers, t);
      } else {
        NoneArmed(c.timers);
      }
  }

  lemma {:induction false} NoneArmed(ts: seq<TimerState>)
    requires forall u :: 0 <= u < |ts| ==> ts[u] != Armed
    ensures ArmedCount(ts) == 0
  {
    if ts != [] {
      assert ts[0] != Armed;
      NoneArmed(ts[1..]);
    }
  }

  lemma {:induction false} OnlyOneArmed(ts: seq<TimerState>, t: TimerId)
    requires t < |ts| && ts[t] == Armed
    requires forall u :: 0 <= u < |ts| && u != t ==> ts[u] != Armed
    ensures ArmedCount(ts) == 1
  {
    if t == 0 {
      NoneArmed(ts[1..]);
    } else {
      assert ts[0] != Armed;
      OnlyOneArmed(ts[1..], t - 1);
    }
  }

  /** `connect()` on an open socket changes nothing. */
  lemma ConnectWhenOpenIsNoop(c: Conn, throws: bool)
    requires IsOpen(c)
    ensures Connect(c, throws) == c
  {
  }

  /** In every other case (no socket, or one connecting, closing or closed)
      `connect()` creates a fresh socket, and the previous sockets stay as
      they were, callbacks included; the timer state is untouched. */
  lemma ConnectOtherwiseCreatesSocket(c: Conn)
    requires !IsOpen(c)
    ensures var r := Connect(c, false);
      && r.ws == Some(|c.sockets|)
      && |r.sockets| == |c.sockets| + 1 && r.sockets[|c.sockets|] == Connecting
      && (forall i :: 0 <= i < |c.sockets| ==> r.sockets[i] == c.sockets[i])
      && r.timers == c.timers && r.reconnectTimer == c.reconnectTimer
  {
  }

  /** Calling `connect()` while the socket is still connecting leaves two
      connecting sockets. */
  lemma ConnectWhileConnectingDuplicates(c: Conn)
    requires Valid(c) && c.ws.Some? && c.sockets[c.ws.value] == Connecting
    ensures var r := Connect(c, false);
      r.ws.value != c.ws.value && r.sockets[c.ws.value] == Connecting && r.sockets[r.ws.value] == Connecting
  {
  }

  /** An open event clears the field, so no retry is pending afterwards. */
  lemma OpenedClearsTimer(c: Conn, id: SocketId)
    requires Valid(c) && id < |c.sockets| && c.sockets[id] == Connecting
    ensures SocketOpened(c, id).reconnectTimer.None?
    ensures ArmedCount(SocketOpened(c, id).timers) == 0
  {
    OpenedValid(c, id);
    AtMostOneArmed(SocketOpened(c, id));
  }

  /** A close event of a socket arms a retry exactly when the field is
      empty; when the field already holds a handle (armed or spent) the
      timers do not change. */
  lemma ClosedArmsIffFieldEmpty(c: Conn, id: SocketId)
    requires Valid(c) && id < |c.sockets| && c.sockets[id] != Closed
    ensures c.reconnectTimer.None? ==> ArmedCount(SocketClosed(c, id).timers) == 1
    ensures c.reconnectTimer.Some? ==> SocketClosed(c, id).timers == c.timers
  {
    ClosedValid(c, id);
    AtMostOneArmed(SocketClosed(c, id));
  }

  /** After a retry has fired, the field still holds the spent handle: if
      the socket it created then closes without having opened, no further
      retry is armed. */
  lemma FailedRetryArmsNothing(c: Conn)
    requires Valid(c) && !IsOpen(c) && c.reconnectTimer.Some? && c.timers[c.reconnectTimer.value] == Armed
    ensures var f := TimerFired(c, false);
      && f.reconnectTimer == c.reconnectTimer
      && f.ws.Some? && f.sockets[f.ws.value] == Connecting
      && ArmedCount(SocketClosed(f, f.ws.value).timers) == 0
  {
    var f := TimerFired(c, false);
    TimerFiredValid(c, false);
    ClosedValid(f, f.ws.value);
    AtMostOneArmed(SocketClosed(f, f.ws.value));
  }

  /** `disconnect()` leaves no socket, an empty field and nothing armed. */
  lemma DisconnectClears(c: Conn)
    requires Valid(c)
    ensures Disconnect(c).ws.None? && Disconnect(c).reconnectTimer.None?
    ensures ArmedCount(Disconnect(c).timers) == 0
  {
    DisconnectValid(c);
    AtMostOneArmed(Disconnect(c));
  }

  /** Calling `disconnect()` twice is the same as calling it once. */
  lemma DisconnectIdempotent(c: Conn)
    requires Valid(c)
    ensures Disconnect(Disconnect(c)) == Disconnect(c)
  {
  }

  /** `disconnect()` does not detach `onclose`: the close event the old
      socket delivers afterwards arms a reconnect all the same. */
  lemma CloseAfterDisconnectArms(c: Conn)
    requires Valid(c) && c.ws.Some? && (c.sockets[c.ws.value] == Connecting || c.sockets[c.ws.value] == Open)
    ensures var d := Disconnect(c);
      && d.sockets[c.ws.value] == Closing
      && SocketClosed(d, c.ws.value).reconnectTimer.Some?
      && ArmedCount(SocketClosed(d, c.ws.value).timers) == 1
  {
    var d := Disconnect(c);
    DisconnectValid(c);
    ClosedArmsIffFieldEmpty(d, c.ws.value);
  }

  // ----- Runs of events -----

  /** Something that can happen to the client.  `Connect` is a call of
      `connect()` by a component. */
  datatype Event =
    | ConnectCall(throws: bool)
    | OpenEvent(id: SocketId)
    | CloseEvent(id: SocketId)
    | TimerEvent(throws: bool)
    | DisconnectCall

  /** Whether the browser can deliver `e` in state `c`. */
  predicate Admissible(c: Conn, e: Event) {
    match e
    case OpenEvent(id) => id < |c.sockets| && c.sockets[id] == Connecting
    case CloseEvent(id) => id < |c.sockets| && c.sockets[id] != Closed
    case TimerEvent(_) => c.reconnectTimer.Some? && c.reconnectTimer.value < |c.timers| && c.timers[c.reconnectTimer.value] == Armed
    case _ => true
  }

  /** One event; an event the browser cannot deliver in `c` is ignored. */
  function Step(c: Conn, e: Event): (r: Conn)
    requires Valid(c)
    ensures Valid(r)
  {
    if !Admissible(c, e) then c
    else match e
      case ConnectCall(throws) => ConnectValid(c, throws); Connect(c, throws)
      case OpenEvent(id) => OpenedValid(c, id); SocketOpened(c, id)
      case CloseEvent(id) => ClosedValid(c, id); SocketClosed(c, id)
      case TimerEvent(throws) => TimerFiredValid(c, throws); TimerFired(c, throws)
      case DisconnectCall => DisconnectValid(c); Disconnect(c)
  }

  function Run(c: Conn, evs: seq<Event>): (r: Conn)
    requires Valid(c)
    ensures Valid(r)
    decreases |evs|
  {
    if evs == [] then c else Run(Step(c, evs[0]), evs[1..])
  }

  predicate Revives(e: Event) {
    e.OpenEvent? || e.DisconnectCall?
  }

  /** Once the field holds a spent handle, no run of events without an open
      event or a `disconnect()` ever arms a timer again: component calls of
      `connect()`, close events and failing constructors all leave the timers
      alone, so the client never retries by itself. */
  lemma {:induction false} StuckUntilOpened(c: Conn, evs: seq<Event>)
    requires Valid(c) && c.reconnectTimer.Some? && c.timers[c.reconnectTimer.value] == Fired
    requires forall i :: 0 <= i < |evs| ==> !Revives(evs[i])
    ensures Run(c, evs).timers == c.timers && Run(c, evs).reconnectTimer == c.reconnectTimer
    ensures ArmedCount(Run(c, evs).timers) == 0
    decreases |evs|
  {
    if evs == [] {
      AtMostOneArmed(c);
    } else {
      var c' := Step(c, evs[0]);
      assert !Revives(evs[0]);
      assert c'.timers == c.timers && c'.reconnectTimer == c.reconnectTimer;
      StuckUntilOpened(c', evs[1..]);
    }
  }
}
