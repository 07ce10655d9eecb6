/** The client's connection service (frontend/src/services/websocket.js): one
    object that owns the browser socket, a listener table keyed by event name,
    and a bounded reconnect counter.

    The browser is the environment. Its callbacks (`onopen`, `onmessage`,
    `onclose`, `onerror`) and the expiry of a reconnect timer are methods the
    environment calls; every socket object ever constructed keeps its own
    ready-state, because callbacks of a socket that `ws` no longer holds still
    act on the service. What the service does to the outside world is recorded
    in two logs: the calls it makes on sockets, and the listener invocations
    made by `emit`. */
module Connection {
  import opened Values

  const DefaultUrl: string := "ws://localhost:8080"

  /** `WebSocket.readyState` of one socket object. */
  datatype ReadyState = Connecting | Open | Closing | Closed

  /** Identity of a registered callback function. */
  type ListenerId = nat

  /** The object `{ type, payload }` that `send` hands to `JSON.stringify`;
      `payload` is `undefined` when the caller gives none. */
  datatype Frame = Frame(tag: string, payload: Value)

  /** A call the service makes on a socket object (sockets are numbered in
      order of construction). */
  datatype TransportCall =
    | Construct(socket: nat, url: string)
    | Transmit(socket: nat, frame: Frame)
    | Close(socket: nat)

  /** One call `callback(data)` made by `emit(event, data)`. */
  datatype Delivery = Delivery(listener: ListenerId, event: string, data: Value)

  /** One `emit(event, data)` call. */
  datatype Emission = Emission(event: string, data: Value)

  /** The callbacks `emit` walks for an event; an event never registered has none. */
  function Registered(listeners: map<string, seq<ListenerId>>, event: string): seq<ListenerId> {
    if event in listeners then listeners[event] else []
  }

  /** The invocations `forEach(callback => callback(data))` makes, in list order. */
  function Deliveries(callbacks: seq<ListenerId>, event: string, data: Value): seq<Delivery> {
    seq(|callbacks|, i requires 0 <= i < |callbacks| => Delivery(callbacks[i], event, data))
  }

  /** The invocations made by a series of `emit` calls. */
  function DeliverAll(listeners: map<string, seq<ListenerId>>, emissions: seq<Emission>): seq<Delivery> {
    if emissions == [] then []
    else
      Deliveries(Registered(listeners, emissions[0].event), emissions[0].event, emissions[0].data)
      + DeliverAll(listeners, emissions[1..])
  }

  /** `callbacks.filter(cb => cb !== callback)`. */
  function Without(callbacks: seq<ListenerId>, callback: ListenerId): seq<ListenerId> {
    if callbacks == [] then []
    else if callbacks[0] == callback then Without(callbacks[1..], callback)
    else [callbacks[0]] + Without(callbacks[1..], callback)
  }

  /** `r` is `s` with some elements dropped and the rest in their original order. */
  ghost predicate Subsequence(r: seq<ListenerId>, s: seq<ListenerId>) {
    if r == [] then true
    else if s == [] then false
    else (r[0] == s[0] && Subsequence(r[1..], s[1..])) || Subsequence(r, s[1..])
  }

  /** The events `onmessage` emits for one inbound frame, given what
      `JSON.parse` made of it (`None`: it threw). A parsed frame emits
      `message` with the whole value; then, only if its `type` is truthy,
      the event named by that `type` with its `payload`. */
  function Classify(parsed: Option<Value>): (emitted: seq<Emission>)
    ensures parsed.None? ==> emitted == []
    ensures parsed.Some? ==> 1 <= |emitted| <= 2 && emitted[0] == Emission("message", parsed.value)
    ensures |emitted| == 2 <==> parsed.Some? && Truthy(Get(parsed.value, "type"))
    ensures |emitted| == 2 ==>
      emitted[1] == Emission(PropertyKey(Get(parsed.value, "type")), Get(parsed.value, "payload"))
  {
    match parsed
    case None => []
    case Some(data) =>
      var kind := Get(data, "type");
      [Emission("message", data)]
      + (if Truthy(kind) then [Emission(PropertyKey(kind), Get(data, "payload"))] else [])
  }

  /** What `close()` does to a socket's ready-state. */
  function AfterClose(state: ReadyState): ReadyState {
    if state == Connecting || state == Open then Closing else state
  }

  class WebSocketService {
    /** `this.ws`: the number of the socket it holds, or `null`. */
    var ws: Option<nat>
    var reconnectAttempts: nat
    const maxReconnectAttempts: nat := 5
    /** Milliseconds between a close and the reconnect it schedules. Timers are
        modelled as a count of armed reconnects, so this is documentation only. */
    const reconnectInterval: nat := 3000
    /** `this.listeners`: event name to callbacks in registration order. */
    var listeners: map<string, seq<ListenerId>>

    /** Ready-state of every socket constructed so far, by number. */
    var sockets: seq<ReadyState>
    /** Reconnect timers armed and not yet fired. */
    var pendingReconnects: nat
    /** Calls made on socket objects, oldest first. */
    var transport: seq<TransportCall>
    /** Listener invocations made by `emit`, oldest first. */
    var delivered: seq<Delivery>

    /** The counter never passes its bound, and `ws`, when set, holds the
        socket constructed last. */
    ghost predicate Valid()
      reads this
    {
      && reconnectAttempts <= maxReconnectAttempts
      && (ws.Some? ==> ws.value == |sockets| - 1)
    }

    /** `this.ws && this.ws.readyState === WebSocket.OPEN`. */
    predicate IsOpen()
      requires Valid()
      reads this
    {
      ws.Some? && sockets[ws.value] == Open
    }

    constructor ()
      ensures Valid()
      ensures ws == None && reconnectAttempts == 0 && listeners == map[]
      ensures sockets == [] && pendingReconnects == 0 && transport == [] && delivered == []
    {
      ws := None;
      reconnectAttempts := 0;
      listeners := map[];
      sockets := [];
      pendingReconnects := 0;
      transport := [];
      delivered := [];
    }

    /** `on(event, callback)`: appends the callback to the event's list,
        creating the list when the event has none. */
    method On(event: string, callback: ListenerId)
      modifies this`listeners
      ensures listeners == old(listeners)[event := Registered(old(listeners), event) + [callback]]
    {
      if event !in listeners {
        listeners := listeners[event := []];
      }
      listeners := listeners[event := listeners[event] + [callback]];
    }

    /** `off(event, callback)`: drops every registration of the callback for
        that event; an event without a list is left alone. */
    method Off(event: string, callback: ListenerId)
      modifies this`listeners
      ensures event in old(listeners) ==>
        listeners == old(listeners)[event := Without(old(listeners)[event], callback)]
      ensures event !in old(listeners) ==> listeners == old(listeners)
    {
      if event in listeners {
        listeners := listeners[event := Without(listeners[event], callback)];
      }
    }

    /** `emit(event, data)`: calls each callback of the event once, in
        registration order, with the same data. */
    method Emit(event: string, data: Value)
      modifies this`delivered
      ensures delivered == old(delivered) + Deliveries(Registered(listeners, event), event, data)
    {
      if event in listeners {
        var callbacks := listeners[event];
        var i := 0;
        while i < |callbacks|
          invariant 0 <= i <= |callbacks|
          invariant delivered == old(delivered) + Deliveries(callbacks[..i], event, data)
        {
          assert Deliveries(callbacks[..i + 1], event, data)
              == Deliveries(callbacks[..i], event, data) + [Delivery(callbacks[i], event, data)];
          delivered := delivered + [Delivery(callbacks[i], event, data)];
          i := i + 1;
        }
        assert callbacks[..i] == callbacks;
      }
    }

    /** `connect(url)`: constructs a new socket and makes it `ws`. When the
        `WebSocket` constructor throws (`failure`), `ws` keeps its old value and
        `error` is emitted with the thrown value. There is no guard against a
        socket that is already connecting or open. */
    method Connect(url: string, failure: Option<Value>)
      requires Valid()
      modifies this`ws, this`sockets, this`transport, this`delivered
      ensures Valid()
      ensures failure.None? ==>
        && ws == Some(old(|sockets|))
        && sockets == old(sockets) + [Connecting]
        && transport == old(transport) + [Construct(old(|sockets|), url)]
        && delivered == old(delivered)
      ensures failure.Some? ==>
        && ws == old(ws) && sockets == old(sockets) && transport == old(transport)
        && delivered == old(delivered) + Deliveries(Registered(listeners, "error"), "error", failure.value)
    {
      match failure {
        case None =>
          var socket := |sockets|;
          sockets := sockets + [Connecting];
          transport := transport + [Construct(socket, url)];
          ws := Some(socket);
        case Some(error) =>
          Emit("error", error);
      }
    }

    /** `onopen` of a socket: resets the counter and emits `connected` with `true`. */
    method OnOpen(socket: nat)
      requires Valid() && socket < |sockets| && sockets[socket] == Connecting
      modifies this`sockets, this`reconnectAttempts, this`delivered
      ensures Valid()
      ensures sockets == old(sockets)[socket := Open]
      ensures reconnectAttempts == 0
      ensures delivered == old(delivered) + Deliveries(Registered(listeners, "connected"), "connected", Bool(true))
    {
      sockets := sockets[socket := Open];
      reconnectAttempts := 0;
      Emit("connected", Bool(true));
    }

    /** `onmessage` of a socket, given what `JSON.parse` made of the frame. A
        frame that does not parse emits nothing and changes nothing. */
    method OnMessage(socket: nat, parsed: Option<Value>)
      requires socket < |sockets| && sockets[socket] == Open
      modifies this`delivered
      ensures delivered == old(delivered) + DeliverAll(listeners, Classify(parsed))
    {
      match parsed {
        case None =>
        case Some(data) =>
          Emit("message", data);
          var kind := Get(data, "type");
          if Truthy(kind) {
            var second := Emission(PropertyKey(kind), Get(data, "payload"));
            assert Classify(parsed)[1..] == [second];
            assert DeliverAll(listeners, [second])
                == Deliveries(Registered(listeners, second.event), second.event, second.data);
            Emit(second.event, second.data);
          }
      }
    }

    /** `onclose` of a socket: emits `connected` with `false`, then tries to
        reconnect. */
    method OnClose(socket: nat)
      requires Valid() && socket < |sockets| && sockets[socket] != Closed
      modifies this`sockets, this`reconnectAttempts, this`pendingReconnects, this`delivered
      ensures Valid()
      ensures sockets == old(sockets)[socket := Closed]
      ensures old(reconnectAttempts) < maxReconnectAttempts ==>
        && reconnectAttempts == old(reconnectAttempts) + 1
        && pendingReconnects == old(pendingReconnects) + 1
        && delivered == old(delivered) + Deliveries(Registered(listeners, "connected"), "connected", Bool(false))
      ensures old(reconnectAttempts) == maxReconnectAttempts ==>
        && reconnectAttempts == old(reconnectAttempts)
        && pendingReconnects == old(pendingReconnects)
        && delivered == old(delivered)
             + Deliveries(Registered(listeners, "connected"), "connected", Bool(false))
             + Deliveries(Registered(listeners, "maxReconnectAttemptsReached"), "maxReconnectAttemptsReached", Undefined)
    {
      sockets := sockets[socket := Closed];
      Emit("connected", Bool(false));
      AttemptReconnect();
    }

    /** `onerror` of a socket: emits `error` with the event. */
    method OnError(socket: nat, error: Value)
      requires socket < |sockets|
      modifies this`delivered
      ensures delivered == old(delivered) + Deliveries(Registered(listeners, "error"), "error", error)
    {
      Emit("error", error);
    }

    /** `attemptReconnect()`: below the bound, counts one more attempt and arms
        one timer; at the bound, emits `maxReconnectAttemptsReached` instead. */
    method AttemptReconnect()
      requires Valid()
      modifies this`reconnectAttempts, this`pendingReconnects, this`delivered
      ensures Valid()
      ensures old(reconnectAttempts) < maxReconnectAttempts ==>
        && reconnectAttempts == old(reconnectAttempts) + 1
        && pendingReconnects == old(pendingReconnects) + 1
        && delivered == old(delivered)
      ensures old(reconnectAttempts) == maxReconnectAttempts ==>
        && reconnectAttempts == old(reconnectAttempts)
        && pendingReconnects == old(pendingReconnects)
        && delivered == old(delivered)
             + Deliveries(Registered(listeners, "maxReconnectAttemptsReached"), "maxReconnectAttemptsReached", Undefined)
    {
      if reconnectAttempts < maxReconnectAttempts {
        reconnectAttempts := reconnectAttempts + 1;
        pendingReconnects := pendingReconnects + 1;
      } else {
        Emit("maxReconnectAttemptsReached", Undefined);
      }
    }

    /** A timer armed by `attemptReconnect` fires: `connect()` with the default url. */
    method ReconnectTimerFires(failure: Option<Value>)
      requires Valid() && pendingReconnects > 0
      modifies this`ws, this`sockets, this`transport, this`delivered, this`pendingReconnects
      ensures Valid()
      ensures pendingReconnects == old(pendingReconnects) - 1
      ensures failure.None? ==>
        && ws == Some(old(|sockets|))
        && sockets == old(sockets) + [Connecting]
        && transport == old(transport) + [Construct(old(|sockets|), DefaultUrl)]
        && delivered == old(delivered)
      ensures failure.Some? ==>
        && ws == old(ws) && sockets == old(sockets) && transport == old(transport)
        && delivered == old(delivered) + Deliveries(Registered(listeners, "error"), "error", failure.value)
    {
      pendingReconnects := pendingReconnects - 1;
      Connect(DefaultUrl, failure);
    }

    /** `send(type, payload)`: transmits one frame on `ws` when it is open;
        otherwise transmits nothing. */
    method Send(tag: string, payload: Value)
      requires Valid()
      modifies this`transport
      ensures IsOpen() ==> transport == old(transport) + [Transmit(ws.value, Frame(tag, payload))]
      ensures !IsOpen() ==> transport == old(transport)
    {
      if ws.Some? && sockets[ws.value] == Open {
        transport := transport + [Transmit(ws.value, Frame(tag, payload))];
      }
    }

    /** `disconnect()`: closes and forgets `ws` if there is one; with no `ws`
        it does nothing. Pending reconnect timers are not cancelled. */
    method Disconnect()
      requires Valid()
      modifies this`ws, this`sockets, this`transport
      ensures Valid() && ws == None
      ensures old(ws).None? ==> sockets == old(sockets) && transport == old(transport)
      ensures old(ws).Some? ==>
        && sockets == old(sockets)[old(ws).value := AfterClose(old(sockets)[old(ws).value])]
        && transport == old(transport) + [Close(old(ws).value)]
    {
      if ws.Some? {
        var socket := ws.value;
        sockets := sockets[socket := AfterClose(sockets[socket])];
        transport := transport + [Close(socket)];
        ws := None;
      }
    }

    /** `startGame(config)`: `send('START_GAME', config)`. */
    method StartGame(config: Value)
      requires Valid()
      modifies this`transport
      ensures IsOpen() ==> transport == old(transport) + [Transmit(ws.value, Frame("START_GAME", config))]
      ensures !IsOpen() ==> transport == old(transport)
    {
      Send("START_GAME", config);
    }

    /** `sendInput(key)`: `send('PLAYER_INPUT', { key })`. */
    method SendInput(key: string)
      requires Valid()
      modifies this`transport
      ensures IsOpen() ==>
        transport == old(transport) + [Transmit(ws.value, Frame("PLAYER_INPUT", Obj(map["key" := Str(key)])))]
      ensures !IsOpen() ==> transport == old(transport)
    {
      Send("PLAYER_INPUT", Obj(map["key" := Str(key)]));
    }

    /** `restartGame()`: `send('RESTART_GAME')`, with no payload. */
    method RestartGame()
      requires Valid()
      modifies this`transport
      ensures IsOpen() ==> transport == old(transport) + [Transmit(ws.value, Frame("RESTART_GAME", Undefined))]
      ensures !IsOpen() ==> transport == old(transport)
    {
      Send("RESTART_GAME", Undefined);
    }
  }

  /** `off` filters by identity: no registration of the callback is left,
      every other registration is kept as many times as it was made, and the
      kept ones stay in their original order. */
  lemma {:induction false} OffFiltersByIdentity(callbacks: seq<ListenerId>, callback: ListenerId)
    ensures callback !in Without(callbacks, callback)
    ensures forall other :: other != callback ==>
      multiset(Without(callbacks, callback))[other] == multiset(callbacks)[other]
    ensures Subsequence(Without(callbacks, callback), callbacks)
  {
    if callbacks != [] {
      var rest := callbacks[1..];
      OffFiltersByIdentity(rest, callback);
      assert callbacks == [callbacks[0]] + rest;
      if callbacks[0] != callback {
        var kept := Without(callbacks, callback);
        assert kept[0] == callbacks[0] && kept[1..] == Without(rest, callback);
      }
    }
  }

  /** `off` for a callback that is not registered leaves the list as it is. */
  lemma {:induction false} OffUnregisteredKeepsList(callbacks: seq<ListenerId>, callback: ListenerId)
    requires callback !in callbacks
    ensures Without(callbacks, callback) == callbacks
  {
    if callbacks != [] {
      OffUnregisteredKeepsList(callbacks[1..], callback);
      assert callbacks == [callbacks[0]] + callbacks[1..];
    }
  }

  /** `on` followed by `off` of the same callback leaves the list that `off`
      alone would have left. */
  lemma {:induction false} OffUndoesOn(callbacks: seq<ListenerId>, callback: ListenerId)
    ensures Without(callbacks + [callback], callback) == Without(callbacks, callback)
  {
    if callbacks == [] {
      assert [] + [callback] == [callback];
    } else {
      assert (callbacks + [callback])[1..] == callbacks[1..] + [callback];
      OffUndoesOn(callbacks[1..], callback);
    }
  }

  /** After `off(event, callback)`, emitting the event no longer calls the callback. */
  lemma OffSilencesCallback(callbacks: seq<ListenerId>, callback: ListenerId, event: string, data: Value)
    ensures forall d :: d in Deliveries(Without(callbacks, callback), event, data) ==> d.listener != callback
  {
    OffFiltersByIdentity(callbacks, callback);
  }

  /** After `disconnect()`, the old socket's `onclose` still arms a reconnect,
      and when that timer fires a new socket is constructed: disconnecting
      does not stop reconnection. */
  method DisconnectDoesNotStopReconnect() returns (armed: nat, reopened: Option<nat>, calls: seq<TransportCall>)
    ensures armed == 1
    ensures reopened == Some(1)
    ensures calls == [Construct(0, DefaultUrl), Close(0), Construct(1, DefaultUrl)]
  {
    var service := new WebSocketService();
    service.Connect(DefaultUrl, None);
    service.OnOpen(0);
    service.Disconnect();
    service.OnClose(0);
    armed := service.pendingReconnects;
    service.ReconnectTimerFires(None);
    reopened, calls := service.ws, service.transport;
  }

  /** The socket `ws` holds closes before opening and the timer this arms
      fires: one more attempt is counted and the next socket is constructed. */
  method CloseAndReconnect(service: WebSocketService, socket: nat)
    requires service.Valid() && service.ws == Some(socket) && service.sockets[socket] == Connecting
    requires service.reconnectAttempts == socket < service.maxReconnectAttempts && service.pendingReconnects == 0
    requires Registered(service.listeners, "connected") == []
    modifies service`ws, service`sockets, service`transport, service`delivered, service`pendingReconnects,
      service`reconnectAttempts
    ensures service.Valid() && service.ws == Some(socket + 1) && service.sockets[socket + 1] == Connecting
    ensures service.reconnectAttempts == socket + 1 && service.pendingReconnects == 0
    ensures service.delivered == old(service.delivered)
  {
    service.OnClose(socket);
    service.ReconnectTimerFires(None);
  }

  /** Closes without an open in between: the first five each arm one
      reconnect, the sixth arms none and emits `maxReconnectAttemptsReached`. */
  method ReconnectGivesUpAfterFive() returns (attempts: nat, armed: nat, calls: seq<Delivery>)
    ensures attempts == 5 && armed == 0
    ensures calls == [Delivery(7, "maxReconnectAttemptsReached", Undefined)]
  {
    var service := new WebSocketService();
    service.On("maxReconnectAttemptsReached", 7);
    assert Registered(service.listeners, "connected") == [];
    service.Connect(DefaultUrl, None);
    CloseAndReconnect(service, 0);
    CloseAndReconnect(service, 1);
    CloseAndReconnect(service, 2);
    CloseAndReconnect(service, 3);
    CloseAndReconnect(service, 4);
    service.OnClose(5);
    attempts, armed, calls := service.reconnectAttempts, service.pendingReconnects, service.delivered;
  }

  /** Two callbacks registered for one event are each called once, in
      registration order, for one inbound frame carrying that `type`. */
  method TwoListenersInOrder(payload: Value) returns (calls: seq<Delivery>)
    ensures calls == [Delivery(1, "GAME_STATE", payload), Delivery(2, "GAME_STATE", payload)]
  {
    var service := new WebSocketService();
    service.On("GAME_STATE", 1);
    service.On("GAME_STATE", 2);
    service.Connect(DefaultUrl, None);
    service.OnOpen(0);
    var frame := Obj(map["type" := Str("GAME_STATE"), "payload" := payload]);
    var emitted := [Emission("message", frame), Emission("GAME_STATE", payload)];
    assert Classify(Some(frame)) == emitted;
    assert emitted[1..][1..] == [];
    assert DeliverAll(service.listeners, emitted[1..])
        == Deliveries(Registered(service.listeners, "GAME_STATE"), "GAME_STATE", payload) + [];
    assert DeliverAll(service.listeners, emitted)
        == Deliveries(Registered(service.listeners, "message"), "message", frame)
         + Deliveries(Registered(service.listeners, "GAME_STATE"), "GAME_STATE", payload);
    assert Registered(service.listeners, "message") == [];
    service.OnMessage(0, Some(frame));
    calls := service.delivered;
  }

  /** A frame that does not parse emits nothing; the next frame is still
      classified: `message` first, then its `type`. */
  method MalformedFrameIsDropped(payload: Value) returns (afterBad: seq<Delivery>, afterGood: seq<Delivery>)
    ensures afterBad == []
    ensures afterGood == [
      Delivery(1, "message", Obj(map["type" := Str("GAME_OVER"), "payload" := payload])),
      Delivery(2, "GAME_OVER", payload)]
  {
    var service := new WebSocketService();
    service.On("message", 1);
    service.On("GAME_OVER", 2);
    service.Connect(DefaultUrl, None);
    service.OnOpen(0);
    service.OnMessage(0, None);
    afterBad := service.delivered;
    var frame := Obj(map["type" := Str("GAME_OVER"), "payload" := payload]);
    var emitted := [Emission("message", frame), Emission("GAME_OVER", payload)];
    assert Classify(Some(frame)) == emitted;
    assert emitted[1..][1..] == [];
    assert DeliverAll(service.listeners, emitted[1..])
        == Deliveries(Registered(service.listeners, "GAME_OVER"), "GAME_OVER", payload) + [];
    assert DeliverAll(service.listeners, emitted)
        == Deliveries(Registered(service.listeners, "message"), "message", frame)
         + Deliveries(Registered(service.listeners, "GAME_OVER"), "GAME_OVER", payload);
    service.OnMessage(0, Some(frame));
    afterGood := service.delivered;
  }

  /** `connect` has no guard: a second call while the first socket is open
      constructs another socket and leaves the first one open. */
  method ConnectTwiceKeepsBothSockets() returns (states: seq<ReadyState>, current: Option<nat>)
    ensures states == [Open, Connecting] && current == Some(1)
  {
    var service := new WebSocketService();
    service.Connect(DefaultUrl, None);
    service.OnOpen(0);
    service.Connect(DefaultUrl, None);
    states, current := service.sockets, service.ws;
  }
}
