/** The push-channel client (`WebSocketClient`): the handler registry, the
    dispatcher and the connection/reconnection fields, updated in place.

    Things the browser does are methods too: `SocketOpened`, `SocketClosed`,
    `FrameArrived` and `TimerFired` run the callbacks the client installed.
    Every callback refers to the client, not to the socket it was installed
    on, so events of superseded sockets drive the client like any other. */
module WebSocket {
  import opened Wrappers
  import opened Registry
  import opened Dispatch
  import Connection
  import Endpoint

  type SocketId = Connection.SocketId
  type TimerId = Connection.TimerId

  /** The `forEach` of `emit`: calls the handlers of `hs` in turn with
      `data`, and stops after the first one in `throwing`, whose exception
      leaves the iteration. */
  method CallHandlers<P>(hs: seq<HandlerId>, data: P, throwing: set<HandlerId>)
    returns (called: seq<Delivery<P>>, threw: bool)
    ensures called == Deliver(hs, data, throwing)
    ensures threw == Throws(hs, throwing)
  {
    called := [];
    var i := 0;
    threw := false;
    while i < |hs| && !threw
      invariant 0 <= i <= |hs|
      invariant !threw ==> forall j :: 0 <= j < i ==> hs[j] !in throwing
      invariant !threw ==> called == Deliver(hs[..i], data, throwing)
      invariant threw ==> called == Deliver(hs, data, throwing) && Throws(hs, throwing)
    {
      DeliverPrefixStep(hs, data, throwing, i);
      called := called + [Delivery(hs[i], data)];
      threw := hs[i] in throwing;
      i := i + 1;
    }
    if !threw {
      assert hs[..i] == hs;
    }
  }

  class Client<P> {
    /** Endpoint derived from the API base URL. */
    const url: string
    /** Reconnect delay in milliseconds; firing is the `TimerFired` event. */
    const reconnectInterval: nat

    /** The current socket (`ws`), if any. */
    var ws: Option<SocketId>
    /** The ready state of every socket ever created, by number. */
    var sockets: seq<Connection.ReadyState>
    /** The state of every timer ever armed, by number. */
    var timers: seq<Connection.TimerState>
    /** The pending reconnect handle (`reconnectTimer`), if any. */
    var reconnectTimer: Option<TimerId>
    /** `handlers`. */
    var handlers: Handlers

    /** Every handler call made so far, in order. */
    var deliveries: seq<Delivery<P>>
    /** Every payload handed to `ws.send`, in order. */
    var sent: seq<P>
    /** Exceptions caught and logged by `onmessage`. */
    var caughtErrors: nat

    /** The connection fields as a value. */
    function State(): Connection.Conn
      reads this
    {
      Connection.Conn(ws, sockets, timers, reconnectTimer)
    }

    ghost predicate Valid()
      reads this
    {
      Connection.Valid(State()) && WellFormed(handlers)
    }

    /** The constructor; `env` is `NEXT_PUBLIC_API_URL`. */
    constructor (env: Option<string>)
      ensures Valid()
      ensures url == Endpoint.Url(env) && reconnectInterval == Connection.ReconnectIntervalMs
      ensures State() == Connection.Initial && handlers == map[]
      ensures deliveries == [] && sent == [] && caughtErrors == 0
    {
      url := Endpoint.Url(env);
      reconnectInterval := Connection.ReconnectIntervalMs;
      ws := None;
      sockets := [];
      timers := [];
      reconnectTimer := None;
      handlers := map[];
      deliveries := [];
      sent := [];
      caughtErrors := 0;
    }

    /** `connect()`; `throws` tells whether `new WebSocket(url)` throws. */
    method Connect(throws: bool)
      requires Valid()
      modifies this
      ensures Valid()
      ensures State() == Connection.Connect(old(State()), throws)
      ensures handlers == old(handlers) && deliveries == old(deliveries)
      ensures sent == old(sent) && caughtErrors == old(caughtErrors)
    {
      if ws.Some? && sockets[ws.value] == Connection.Open {
        return;
      }
      if throws {
        ScheduleReconnect();
      } else {
        ws := Some(|sockets|);
        sockets := sockets + [Connection.Connecting];
      }
    }

    /** `scheduleReconnect()`. */
    method ScheduleReconnect()
      requires Valid()
      modifies this
      ensures Valid()
      ensures State() == Connection.ScheduleReconnect(old(State()))
      ensures handlers == old(handlers) && deliveries == old(deliveries)
      ensures sent == old(sent) && caughtErrors == old(caughtErrors)
    {
      if reconnectTimer.Some? {
        return;
      }
      reconnectTimer := Some(|timers|);
      timers := timers + [Connection.Armed];
    }

    /** `clearTimeout(t)`. */
    method ClearTimeout(t: TimerId)
      requires t < |timers|
      modifies this
      ensures timers == Connection.Clear(old(timers), t)
      ensures ws == old(ws) && sockets == old(sockets) && reconnectTimer == old(reconnectTimer)
      ensures handlers == old(handlers) && deliveries == old(deliveries)
      ensures sent == old(sent) && caughtErrors == old(caughtErrors)
    {
      if timers[t] == Connection.Armed {
        timers := timers[t := Connection.Cancelled];
      }
    }

    /** Socket `id` opens and `onopen` runs. */
    method SocketOpened(id: SocketId)
      requires Valid() && id < |sockets| && sockets[id] == Connection.Connecting
      modifies this
      ensures Valid()
      ensures State() == Connection.SocketOpened(old(State()), id)
      ensures handlers == old(handlers) && deliveries == old(deliveries)
      ensures sent == old(sent) && caughtErrors == old(caughtErrors)
    {
      Connection.OpenedValid(State(), id);
      sockets := sockets[id := Connection.Open];
      if reconnectTimer.Some? {
        ClearTimeout(reconnectTimer.value);
        reconnectTimer := None;
      }
    }

    /** Socket `id` closes and `onclose` runs. */
    method SocketClosed(id: SocketId)
      requires Valid() && id < |sockets| && sockets[id] != Connection.Closed
      modifies this
      ensures Valid()
      ensures State() == Connection.SocketClosed(old(State()), id)
      ensures handlers == old(handlers) && deliveries == old(deliveries)
      ensures sent == old(sent) && caughtErrors == old(caughtErrors)
    {
      sockets := sockets[id := Connection.Closed];
      ScheduleReconnect();
    }

    /** The reconnect timer fires and its callback calls `connect()`. */
    method TimerFired(throws: bool)
      requires Valid() && reconnectTimer.Some? && timers[reconnectTimer.value] == Connection.Armed
      modifies this
      ensures Valid()
      ensures State() == Connection.TimerFired(old(State()), throws)
      ensures handlers == old(handlers) && deliveries == old(deliveries)
      ensures sent == old(sent) && caughtErrors == old(caughtErrors)
    {
      timers := timers[reconnectTimer.value := Connection.Fired];
      Connect(throws);
    }

    /** `disconnect()`. */
    method Disconnect()
      requires Valid()
      modifies this
      ensures Valid()
      ensures State() == Connection.Disconnect(old(State()))
      ensures handlers == old(handlers) && deliveries == old(deliveries)
      ensures sent == old(sent) && caughtErrors == old(caughtErrors)
    {
      Connection.DisconnectValid(State());
      if reconnectTimer.Some? {
        ClearTimeout(reconnectTimer.value);
        reconnectTimer := None;
      }
      if ws.Some? {
        sockets := sockets[ws.value := Connection.CloseCall(sockets[ws.value])];
      }
      ws := None;
    }

    /** `on(event, handler)`. */
    method On(event: string, h: HandlerId)
      requires Valid()
      modifies this
      ensures Valid()
      ensures handlers == Registry.On(old(handlers), event, h)
      ensures State() == old(State()) && deliveries == old(deliveries)
      ensures sent == old(sent) && caughtErrors == old(caughtErrors)
    {
      if event !in handlers {
        handlers := handlers[event := []];
      }
      handlers := handlers[event := Insert(handlers[event], h)];
    }

    /** `off(event, handler)`. */
    method Off(event: string, h: HandlerId)
      requires Valid()
      modifies this
      ensures Valid()
      ensures handlers == Registry.Off(old(handlers), event, h)
      ensures State() == old(State()) && deliveries == old(deliveries)
      ensures sent == old(sent) && caughtErrors == old(caughtErrors)
    {
      if event in handlers {
        handlers := handlers[event := Delete(handlers[event], h)];
      }
    }

    /** `emit(event, data)`: calls the handlers of `event` in order; the
        first one in `throwing` throws, which ends the iteration and is
        reported in `threw`. */
    method Emit(event: string, data: P, throwing: set<HandlerId>) returns (threw: bool)
      modifies this
      ensures deliveries == old(deliveries) + Deliver(Lookup(handlers, event), data, throwing)
      ensures threw == Throws(Lookup(handlers, event), throwing)
      ensures State() == old(State()) && handlers == old(handlers)
      ensures sent == old(sent) && caughtErrors == old(caughtErrors)
    {
      var called;
      called, threw := CallHandlers(Lookup(handlers, event), data, throwing);
      deliveries := deliveries + called;
    }

    /** A frame arrives on socket `id` and `onmessage` runs: `decoded` is
        what `JSON.parse` returns, and `undefined` the payload a primitive
        frame carries. */
    method FrameArrived(id: SocketId, decoded: Decoded<P>, undefined: P, throwing: set<HandlerId>)
      requires Valid() && id < |sockets| && sockets[id] == Connection.Open
      modifies this
      ensures Valid()
      ensures deliveries == old(deliveries) + Dispatch.Dispatch(old(handlers), Frame(decoded, undefined), throwing).deliveries
      ensures caughtErrors == old(caughtErrors) + if Dispatch.Dispatch(old(handlers), Frame(decoded, undefined), throwing).caught then 1 else 0
      ensures State() == old(State()) && handlers == old(handlers) && sent == old(sent)
    {
      match Frame(decoded, undefined)
      case None =>
        caughtErrors := caughtErrors + 1;
      case Some(e) =>
        var threw := Emit(RouteKey(e), e.data, throwing);
        if threw {
          caughtErrors := caughtErrors + 1;
        }
    }

    /** `send(data)`: transmitted only while the current socket is open. */
    method Send(data: P)
      requires Valid()
      modifies this
      ensures Valid()
      ensures sent == old(sent) + if Connection.IsOpen(old(State())) then [data] else []
      ensures State() == old(State()) && handlers == old(handlers)
      ensures deliveries == old(deliveries) && caughtErrors == old(caughtErrors)
    {
      if ws.Some? && sockets[ws.value] == Connection.Open {
        sent := sent + [data];
      }
    }
  }

  /** A subscriber survives a server restart: after the close, the retry and
      the new open, the same registration receives the next frame, without
      registering again. */
  method ReconnectTransparencyScenario()
  {
    var key := "stats_update";
    var c := new Client<int>(None);
    c.On(key, 1);
    var registered := c.handlers;
    c.Connect(false);
    c.SocketOpened(0);
    c.SocketClosed(0);
    c.TimerFired(false);
    c.SocketOpened(1);
    assert c.ws == Some(1) && c.reconnectTimer.None? && c.handlers == registered;
    Registry.OnAppendsLast(map[], key, 1);
    Dispatch.DispatchNamed(c.handlers, key, 13, "t1", {});
    c.FrameArrived(1, Object(Envelope(Some(key), 13, "t1")), 0, {});
    assert c.deliveries == [Delivery(1, 13)];
  }

  /** A throwing first handler keeps the second from seeing the frame. */
  method ThrowingHandlerScenario()
  {
    var key := "log";
    var c := new Client<int>(None);
    c.On(key, 1);
    Registry.OnAppendsLast(map[], key, 1);
    var one := c.handlers;
    c.On(key, 2);
    Registry.OnAppendsLast(one, key, 2);
    assert Lookup(c.handlers, key) == [1, 2];
    c.Connect(false);
    c.SocketOpened(0);
    FirstOfTwoThrows(c.handlers, key);
    c.FrameArrived(0, Object(Envelope(Some(key), 7, "t0")), 0, {1});
    assert c.deliveries == [Delivery(1, 7)];
    assert c.caughtErrors == 1;
  }

  /** With handlers 1 then 2 and handler 1 throwing, a frame reaches 1 only
      and the exception is caught. */
  lemma FirstOfTwoThrows(reg: Handlers, key: string)
    requires key != "" && Lookup(reg, key) == [1, 2]
    ensures Dispatch.Dispatch(reg, Frame(Object(Envelope(Some(key), 7, "t0")), 0), {1}) == Outcome([Delivery(1, 7)], true)
  {
    Dispatch.DispatchNamed(reg, key, 7, "t0", {1});
    assert Deliver([1, 2], 7, {1}) == [Delivery(1, 7)];
    assert Throws([1, 2], {1}) by { assert [1, 2][0] in {1}; }
  }

  /** A retry that closes without opening leaves the client disconnected
      for good, with no timer armed. */
  method StuckRetryScenario()
  {
    var c := new Client<int>(None);
    c.Connect(false);
    c.SocketClosed(0);
    c.TimerFired(false);
    c.SocketClosed(1);
    assert c.reconnectTimer == Some(0) && c.timers == [Connection.Fired];
  }

  /** `disconnect()` is followed by the old socket's close event, which
      arms a reconnect. */
  method CloseAfterDisconnectScenario()
  {
    var c := new Client<int>(None);
    c.Connect(false);
    c.SocketOpened(0);
    c.Disconnect();
    c.Disconnect();
    assert c.ws.None? && c.reconnectTimer.None? && c.sockets == [Connection.Closing];
    c.SocketClosed(0);
    assert c.reconnectTimer == Some(0) && c.timers == [Connection.Armed];
    c.TimerFired(false);
    assert c.ws == Some(1);
  }
}
