/**
 * `WebSocketService` (`src/services/websocket.ts`): a connection lifecycle over
 * the ready states of the WHATWG WebSocket interface, a registry of message
 * listeners keyed by message type, a bounded exponential-backoff reconnect
 * counter and a fan-out dispatch of inbound messages.
 *
 * The socket itself is outside the model. Its events (`open`, `close` with a
 * code, `error`, `message`) are methods the environment calls; the frames the
 * service transmits are appended to `outbox`; timers are returned as values
 * (the reconnect delay) or kept as a flag (the heartbeat interval). Callbacks
 * are opaque identities that do not touch the registry while it is dispatched.
 */
module WebSocket {
  import opened Wrappers
  import Types

  /** `maxReconnectAttempts`. */
  const MaxReconnectAttempts: nat := 5
  /** `reconnectDelay`, in milliseconds. */
  const ReconnectDelay: nat := 1000
  /** The "normal closure" code of section 7.4.1 of RFC 6455, the service's deliberate-close code. */
  const NormalClosure: int := 1000
  /** The code a browser reports when a connection fails before opening (section 7.1.7 of RFC 6455). */
  const AbnormalClosure: int := 1006
  /** The heartbeat interval, in milliseconds. */
  const HeartbeatPeriod: nat := 30000
  const DefaultUrl: string := "ws://localhost:8080/ws"

  datatype ReadyState = Connecting | Open | Closing | Closed

  /** A socket object: `serial` tells the sockets one service created apart. */
  datatype Socket = Socket(serial: nat, readyState: ReadyState)

  /** The identity of a listener function. */
  type CallbackId = nat

  /** The payloads the service builds itself, and the ones it only passes on. */
  datatype Payload =
    | PriceSymbols(symbols: seq<string>)
    | PingTime(timestamp: int)
    | PriceData(update: Types.PriceUpdate)
    | Opaque(value: string)

  /** A `WebSocketMessage`, inbound or outbound. */
  datatype Message = Message(kind: string, payload: Payload, timestamp: string)

  /** What the service hands to the socket: a text frame, or a close request. */
  datatype Outbound = Frame(message: Message) | CloseRequest(code: int, reason: string)

  /** An inbound text frame after `JSON.parse`: a message, or text that failed to parse. */
  datatype InboundFrame = Parsed(message: Message) | Malformed

  /** One call of a listener during dispatch, and whether that call threw. */
  datatype Invocation = Invocation(callback: CallbackId, payload: Payload, raised: bool)

  /** The closure `subscribe` returns: it remembers the type and the callback. */
  datatype Unsubscriber = Unsubscriber(kind: string, callback: CallbackId)

  /** How a call of `connect` settles its promise at once, or that it is left pending. */
  datatype ConnectOutcome =
    | AlreadyOpen   // resolved: the socket is open
    | Waiting       // an attempt is under way; the promise polls it
    | Started       // a new socket was created; `open` or `error` settles the promise
    | Failed        // constructing the socket threw; rejected

  // ----- the listener registry -------------------------------------------

  /** The listeners of `Map<string, Set<callback>>`, each set in insertion order. */
  type Registry = map<string, seq<CallbackId>>

  predicate NoDuplicates(s: seq<CallbackId>)
  {
    forall i, j :: 0 <= i < j < |s| ==> s[i] != s[j]
  }

  /** A listed type has a non-empty set: the unsubscriber deletes a type whose set empties. */
  predicate RegistryValid(m: Registry)
  {
    forall t :: t in m ==> m[t] != [] && NoDuplicates(m[t])
  }

  /** The listeners of `t`, none when `t` has no entry. */
  function ListenersOf(m: Registry, t: string): seq<CallbackId>
  {
    if t in m then m[t] else []
  }

  predicate Registered(m: Registry, t: string, cb: CallbackId)
  {
    t in m && cb in m[t]
  }

  /** `s` without `x`, order kept (`Set.prototype.delete`). */
  function Without(s: seq<CallbackId>, x: CallbackId): (r: seq<CallbackId>)
    ensures forall y :: y in r <==> y in s && y != x
    ensures NoDuplicates(s) ==> NoDuplicates(r)
    ensures x !in s ==> r == s
    ensures |r| <= |s|
  {
    if s == [] then []
    else if s[0] == x then Without(s[1..], x)
    else
      var rest := Without(s[1..], x);
      assert NoDuplicates(s) ==> NoDuplicates([s[0]] + rest) by {
        if NoDuplicates(s) {
          assert s[0] !in s[1..];
          NoDuplicatesCons(s[0], rest);
        }
      }
      [s[0]] + rest
  }

  lemma NoDuplicatesCons(x: CallbackId, s: seq<CallbackId>)
    requires NoDuplicates(s) && x !in s
    ensures NoDuplicates([x] + s)
  {
    forall i, j | 0 <= i < j < |[x] + s|
      ensures ([x] + s)[i] != ([x] + s)[j]
    {
      assert ([x] + s)[j] == s[j - 1];
      if i > 0 { assert ([x] + s)[i] == s[i - 1]; }
    }
  }

  /** The registry after `subscribe(t, cb)`. */
  function Subscribed(m: Registry, t: string, cb: CallbackId): (r: Registry)
    ensures Registered(r, t, cb)
    ensures RegistryValid(m) ==> RegistryValid(r)
    ensures forall u :: u != t ==> (u in r <==> u in m) && (u in m ==> r[u] == m[u])
    ensures Registered(m, t, cb) ==> r == m
    ensures !Registered(m, t, cb) ==> ListenersOf(r, t) == ListenersOf(m, t) + [cb]
  {
    var s := ListenersOf(m, t);
    if cb in s then m else m[t := s + [cb]]
  }

  /** The registry after the unsubscriber of `(t, cb)` runs. */
  function Unsubscribed(m: Registry, t: string, cb: CallbackId): (r: Registry)
    ensures !Registered(r, t, cb)
    ensures RegistryValid(m) ==> RegistryValid(r)
    ensures forall u :: u != t ==> (u in r <==> u in m) && (u in m ==> r[u] == m[u])
    ensures ListenersOf(r, t) == Without(ListenersOf(m, t), cb)
    ensures RegistryValid(m) && !Registered(m, t, cb) ==> r == m
    ensures RegistryValid(m) && t in m ==> (t !in r <==> m[t] == [cb])
  {
    if t in m then
      var s := Without(m[t], cb);
      if s == [] then
        m - {t}
      else
        m[t := s]
    else m
  }

  /** A second call of an unsubscriber changes nothing. */
  lemma UnsubscribeTwice(m: Registry, t: string, cb: CallbackId)
    requires RegistryValid(m)
    ensures Unsubscribed(Unsubscribed(m, t, cb), t, cb) == Unsubscribed(m, t, cb)
  {
  }

  /** Subscribing twice leaves the registry as subscribing once does. */
  lemma SubscribeTwice(m: Registry, t: string, cb: CallbackId)
    ensures Subscribed(Subscribed(m, t, cb), t, cb) == Subscribed(m, t, cb)
    ensures |ListenersOf(Subscribed(m, t, cb), t)| == |ListenersOf(m, t)| + (if Registered(m, t, cb) then 0 else 1)
  {
  }

  /** A subscribe undone by its unsubscriber restores a registry where `cb` was not listed under `t`. */
  lemma {:induction false} SubscribeThenUnsubscribe(m: Registry, t: string, cb: CallbackId)
    requires RegistryValid(m) && !Registered(m, t, cb)
    ensures Unsubscribed(Subscribed(m, t, cb), t, cb) == m
  {
    var s := ListenersOf(m, t);
    WithoutAppended(s, cb);
    var m1 := m[t := s + [cb]];
    assert Subscribed(m, t, cb) == m1;
    assert Without(m1[t], cb) == s;
    if t in m {
      assert Unsubscribed(m1, t, cb) == m1[t := s];
      assert m1[t := s] == m;
    } else {
      assert Unsubscribed(m1, t, cb) == m1 - {t};
      assert m1 - {t} == m;
    }
  }

  lemma {:induction false} WithoutAppended(s: seq<CallbackId>, x: CallbackId)
    requires x !in s
    ensures Without(s + [x], x) == s
  {
    if s != [] {
      assert (s + [x])[1..] == s[1..] + [x];
      WithoutAppended(s[1..], x);
      assert s == [s[0]] + s[1..];
    } else {
      assert [x][1..] == [];
    }
  }

  /** One call on the registry, as a sequence of calls records it. */
  datatype RegistryOp = Sub(kind: string, callback: CallbackId) | Unsub(kind: string, callback: CallbackId)

  function Step(m: Registry, op: RegistryOp): Registry
  {
    match op
    case Sub(t, cb) => Subscribed(m, t, cb)
    case Unsub(t, cb) => Unsubscribed(m, t, cb)
  }

  /** The registry after the calls `ops`, in order. */
  function Replay(m: Registry, ops: seq<RegistryOp>): (r: Registry)
    ensures RegistryValid(m) ==> RegistryValid(r)
  {
    if ops == [] then m else Step(Replay(m, ops[..|ops| - 1]), ops[|ops| - 1])
  }

  /** Whether `(t, cb)` is listed after `ops`, read off the last call about it; `init` when there is none. */
  function LastCallSays(ops: seq<RegistryOp>, t: string, cb: CallbackId, init: bool): bool
  {
    if ops == [] then init
    else if ops[|ops| - 1] == Sub(t, cb) then true
    else if ops[|ops| - 1] == Unsub(t, cb) then false
    else LastCallSays(ops[..|ops| - 1], t, cb, init)
  }

  /** A call about another type or another callback leaves `(t, cb)` as it was. */
  lemma StepKeeps(m: Registry, op: RegistryOp, t: string, cb: CallbackId)
    requires op != Sub(t, cb) && op != Unsub(t, cb)
    ensures Registered(Step(m, op), t, cb) == Registered(m, t, cb)
  {
    var r := Step(m, op);
    assert Registered(r, t, cb) <==> cb in ListenersOf(r, t);
    assert Registered(m, t, cb) <==> cb in ListenersOf(m, t);
  }

  lemma {:induction false} ReplayRegistered(m: Registry, ops: seq<RegistryOp>, t: string, cb: CallbackId)
    ensures Registered(Replay(m, ops), t, cb) == LastCallSays(ops, t, cb, Registered(m, t, cb))
  {
    if ops != [] {
      var n := |ops| - 1;
      ReplayRegistered(m, ops[..n], t, cb);
      if ops[n] != Sub(t, cb) && ops[n] != Unsub(t, cb) {
        StepKeeps(Replay(m, ops[..n]), ops[n], t, cb);
      }
    }
  }

  /**
   * The last-call reading spelled out: `cb` ends up listed under `t` exactly when
   * some subscribe of `(t, cb)` is followed by no unsubscribe of it, or `init`
   * holds and no unsubscribe of it occurs at all.
   */
  lemma {:induction false} LastCallSaysMeans(ops: seq<RegistryOp>, t: string, cb: CallbackId, init: bool)
    ensures LastCallSays(ops, t, cb, init) <==>
      (exists i :: 0 <= i < |ops| && ops[i] == Sub(t, cb) && NoUnsubAfter(ops, t, cb, i + 1)) ||
      (init && NoUnsubAfter(ops, t, cb, 0))
  {
    if ops != [] {
      var n := |ops| - 1;
      var pre := ops[..n];
      LastCallSaysMeans(pre, t, cb, init);
      forall i | 0 <= i <= n
        ensures NoUnsubAfter(ops, t, cb, i) <==> NoUnsubAfter(pre, t, cb, i) && ops[n] != Unsub(t, cb)
      {
        assert forall j :: i <= j < n ==> pre[j] == ops[j];
      }
      if ops[n] == Sub(t, cb) {
        assert NoUnsubAfter(ops, t, cb, n + 1);
      } else if ops[n] == Unsub(t, cb) {
        assert !NoUnsubAfter(ops, t, cb, 0);
        forall i | 0 <= i < |ops| && ops[i] == Sub(t, cb)
          ensures !NoUnsubAfter(ops, t, cb, i + 1)
        {
          assert i < n;
        }
      } else {
        if exists i :: 0 <= i < |ops| && ops[i] == Sub(t, cb) && NoUnsubAfter(ops, t, cb, i + 1) {
          var i :| 0 <= i < |ops| && ops[i] == Sub(t, cb) && NoUnsubAfter(ops, t, cb, i + 1);
          assert i < n && pre[i] == Sub(t, cb);
        }
        if exists i :: 0 <= i < |pre| && pre[i] == Sub(t, cb) && NoUnsubAfter(pre, t, cb, i + 1) {
          var i :| 0 <= i < |pre| && pre[i] == Sub(t, cb) && NoUnsubAfter(pre, t, cb, i + 1);
          assert ops[i] == Sub(t, cb);
        }
      }
    }
  }

  /** No unsubscribe of `(t, cb)` among `ops[from..]`. */
  predicate NoUnsubAfter(ops: seq<RegistryOp>, t: string, cb: CallbackId, from: int)
  {
    forall j :: from <= j < |ops| && 0 <= j ==> ops[j] != Unsub(t, cb)
  }

  // ----- reconnect policy ------------------------------------------------

  function Pow2(n: nat): (r: nat)
    ensures r >= 1
  {
    if n == 0 then 1 else 2 * Pow2(n - 1)
  }

  /** The delay `scheduleReconnect` waits for its `n`-th attempt (`n >= 1`). */
  function BackoffDelay(n: nat): (r: nat)
    requires n >= 1
    ensures r >= ReconnectDelay
    ensures n == 1 ==> r == ReconnectDelay
    ensures n > 1 ==> r == 2 * BackoffDelay(n - 1)
  {
    ReconnectDelay * Pow2(n - 1)
  }

  /**
   * The delays of `n` successive `scheduleReconnect` calls starting from
   * `attempts` attempts, with `None` for a call that gave up.
   */
  function Schedule(attempts: nat, n: nat): (r: seq<Option<nat>>)
    ensures |r| == n
    decreases n
  {
    if n == 0 then []
    else if attempts >= MaxReconnectAttempts then [None] + Schedule(attempts, n - 1)
    else [Some(BackoffDelay(attempts + 1))] + Schedule(attempts + 1, n - 1)
  }

  /** From a fresh counter the delays are 1000, 2000, 4000, 8000, 16000, then none. */
  lemma BackoffSequence()
    ensures Schedule(0, 7) == [Some(1000), Some(2000), Some(4000), Some(8000), Some(16000), None, None]
  {
    assert Pow2(4) == 16;
  }

  /** Each delay doubles the one before, until the budget is spent; after that none is scheduled. */
  lemma {:induction false} ScheduleShape(attempts: nat, n: nat, i: nat)
    requires attempts <= MaxReconnectAttempts && i < n
    decreases n
    ensures attempts + i < MaxReconnectAttempts ==> Schedule(attempts, n)[i] == Some(BackoffDelay(attempts + i + 1))
    ensures attempts + i >= MaxReconnectAttempts ==> Schedule(attempts, n)[i] == None
  {
    if i > 0 {
      if attempts < MaxReconnectAttempts {
        ScheduleShape(attempts + 1, n - 1, i - 1);
      } else {
        ScheduleShape(attempts, n - 1, i - 1);
      }
    }
  }

  /** The status names `getConnectionStatus` returns. */
  function StatusName(s: ReadyState): (r: string)
    ensures r in {"connecting", "open", "closing", "closed"}
  {
    match s
    case Connecting => "connecting"
    case Open => "open"
    case Closing => "closing"
    case Closed => "closed"
  }

  lemma StatusNameInjective(a: ReadyState, b: ReadyState)
    ensures StatusName(a) == StatusName(b) ==> a == b
  {
  }

  class WebSocketService {
    const url: string
    var ws: Option<Socket>
    /** The number of sockets this service has created; the next one's serial. */
    var created: nat
    var reconnectAttempts: nat
    var listeners: Registry
    var isConnecting: bool
    /** Whether a heartbeat interval is installed (`heartbeatInterval !== null`). */
    var heartbeatActive: bool
    /** Everything handed to the socket, oldest first. */
    var outbox: seq<Outbound>

    ghost predicate Valid()
      reads this
    {
      reconnectAttempts <= MaxReconnectAttempts &&
      RegistryValid(listeners) &&
      (ws.Some? ==> ws.value.serial < created)
    }

    /** The status the service reports is "open". */
    function IsOpen(): (r: bool)
      reads this
      ensures r <==> ws.Some? && StatusName(ws.value.readyState) == "open"
    {
      ws.Some? && ws.value.readyState == Open
    }

    constructor (url: string)
      ensures Valid()
      ensures this.url == url && ws == None && created == 0 && reconnectAttempts == 0
      ensures listeners == map[] && !isConnecting && !heartbeatActive && outbox == []
    {
      this.url := url;
      ws := None;
      created := 0;
      reconnectAttempts := 0;
      listeners := map[];
      isConnecting := false;
      heartbeatActive := false;
      outbox := [];
    }

    /** `connect()`: `creationFails` stands for `new WebSocket(url)` throwing. */
    method Connect(creationFails: bool) returns (outcome: ConnectOutcome)
      requires Valid()
      modifies this`ws, this`created, this`isConnecting
      ensures Valid()
      ensures old(IsOpen()) ==> outcome == AlreadyOpen && ws == old(ws) && created == old(created) && isConnecting == old(isConnecting)
      ensures !old(IsOpen()) && old(isConnecting) ==> outcome == Waiting && ws == old(ws) && created == old(created) && isConnecting
      ensures !old(IsOpen()) && !old(isConnecting) && creationFails ==>
        outcome == Failed && ws == old(ws) && created == old(created) && !isConnecting
      ensures !old(IsOpen()) && !old(isConnecting) && !creationFails ==>
        outcome == Started && ws == Some(Socket(old(created), Connecting)) && created == old(created) + 1 && isConnecting
    {
      if IsOpen() {
        return AlreadyOpen;
      }
      if isConnecting {
        return Waiting;
      }
      isConnecting := true;
      if creationFails {
        isConnecting := false;
        return Failed;
      }
      ws := Some(Socket(created, Connecting));
      created := created + 1;
      outcome := Started;
    }

    /** The socket's `open` event. */
    method OnOpen()
      requires Valid()
      modifies this`ws, this`isConnecting, this`reconnectAttempts, this`heartbeatActive
      ensures Valid()
      ensures ws == (if old(ws).Some? then Some(old(ws).value.(readyState := Open)) else None)
      ensures !isConnecting && reconnectAttempts == 0 && heartbeatActive
    {
      if ws.Some? {
        ws := Some(ws.value.(readyState := Open));
      }
      isConnecting := false;
      reconnectAttempts := 0;
      heartbeatActive := true;
    }

    /** The socket's `close` event: returns the delay of the reconnect it schedules, if any. */
    method OnClose(code: int) returns (reconnect: Option<nat>)
      requires Valid()
      modifies this`ws, this`isConnecting, this`heartbeatActive, this`reconnectAttempts
      ensures Valid()
      ensures ws == (if old(ws).Some? then Some(old(ws).value.(readyState := Closed)) else None)
      ensures !isConnecting && !heartbeatActive
      ensures code == NormalClosure ==> reconnect == None && reconnectAttempts == old(reconnectAttempts)
      ensures code != NormalClosure && old(reconnectAttempts) < MaxReconnectAttempts ==>
        reconnectAttempts == old(reconnectAttempts) + 1 && reconnect == Some(BackoffDelay(reconnectAttempts))
      ensures code != NormalClosure && old(reconnectAttempts) >= MaxReconnectAttempts ==>
        reconnect == None && reconnectAttempts == old(reconnectAttempts)
    {
      if ws.Some? {
        ws := Some(ws.value.(readyState := Closed));
      }
      isConnecting := false;
      StopHeartbeat();
      if code != NormalClosure && reconnectAttempts < MaxReconnectAttempts {
        reconnect := ScheduleReconnect();
      } else {
        reconnect := None;
      }
    }

    /**
     * A close handler that reconnects only for the socket the service still
     * holds. A close event from the socket numbered `serial` after the service
     * has let go of it schedules nothing; it only clears a pending `connect`
     * that no held socket owns.
     */
    method OnCloseOf(serial: nat, code: int) returns (reconnect: Option<nat>)
      requires Valid()
      modifies this`ws, this`isConnecting, this`heartbeatActive, this`reconnectAttempts
      ensures Valid()
      ensures old(ws).Some? && old(ws).value.serial == serial ==>
        ws == Some(old(ws).value.(readyState := Closed)) && !isConnecting && !heartbeatActive &&
        (code == NormalClosure ==> reconnect == None && reconnectAttempts == old(reconnectAttempts)) &&
        (code != NormalClosure && old(reconnectAttempts) < MaxReconnectAttempts ==>
          reconnectAttempts == old(reconnectAttempts) + 1 && reconnect == Some(BackoffDelay(reconnectAttempts))) &&
        (code != NormalClosure && old(reconnectAttempts) >= MaxReconnectAttempts ==>
          reconnect == None && reconnectAttempts == old(reconnectAttempts))
      ensures !(old(ws).Some? && old(ws).value.serial == serial) ==>
        reconnect == None && ws == old(ws) && reconnectAttempts == old(reconnectAttempts) &&
        heartbeatActive == old(heartbeatActive) && isConnecting == (old(isConnecting) && old(ws).Some?)
    {
      if ws.Some? && ws.value.serial == serial {
        reconnect := OnClose(code);
      } else {
        if ws.None? {
          isConnecting := false;
        }
        reconnect := None;
      }
    }

    /** The socket's `error` event: the pending `connect` promise is rejected. */
    method OnError()
      requires Valid()
      modifies this`isConnecting
      ensures Valid() && !isConnecting
    {
      isConnecting := false;
    }

    /** The socket's `message` event: a frame that does not parse is dropped. */
    method OnMessage(frame: InboundFrame, throws: set<CallbackId>) returns (calls: seq<Invocation>)
      requires Valid()
      ensures frame.Malformed? ==> calls == []
      ensures frame.Parsed? ==> |calls| == |ListenersOf(listeners, frame.message.kind)|
      ensures frame.Parsed? ==> forall i :: 0 <= i < |calls| ==>
        calls[i] == Invocation(ListenersOf(listeners, frame.message.kind)[i], frame.message.payload,
                               ListenersOf(listeners, frame.message.kind)[i] in throws)
    {
      match frame
      case Malformed => calls := [];
      case Parsed(message) => calls := HandleMessage(message, throws);
    }

    /** `disconnect()`: closes the socket with the normal-closure code and forgets it. */
    method Disconnect()
      requires Valid()
      modifies this`ws, this`outbox, this`heartbeatActive
      ensures Valid()
      ensures ws == None && !heartbeatActive
      ensures outbox == old(outbox) + (if old(ws).Some? then [CloseRequest(NormalClosure, "Deliberate disconnect")] else [])
    {
      if ws.Some? {
        outbox := outbox + [CloseRequest(NormalClosure, "Deliberate disconnect")];
        ws := None;
      }
      StopHeartbeat();
    }

    /** `send(type, payload)`: `now` is the ISO timestamp, `sendFails` stands for `ws.send` throwing. */
    method Send(kind: string, payload: Payload, now: string, sendFails: bool) returns (ok: bool)
      requires Valid()
      modifies this`outbox
      ensures ok <==> old(IsOpen()) && !sendFails
      ensures outbox == old(outbox) + (if ok then [Frame(Message(kind, payload, now))] else [])
    {
      if IsOpen() {
        if sendFails {
          return false;
        }
        outbox := outbox + [Frame(Message(kind, payload, now))];
        return true;
      }
      return false;
    }

    /** `subscribe(type, callback)`; the returned value is the unsubscribe closure. */
    method Subscribe(kind: string, callback: CallbackId) returns (unsubscribe: Unsubscriber)
      requires Valid()
      modifies this`listeners
      ensures Valid()
      ensures listeners == Subscribed(old(listeners), kind, callback)
      ensures unsubscribe == Unsubscriber(kind, callback)
    {
      listeners := Subscribed(listeners, kind, callback);
      unsubscribe := Unsubscriber(kind, callback);
    }

    /** Calling the closure `subscribe` returned. */
    method Unsubscribe(u: Unsubscriber)
      requires Valid()
      modifies this`listeners
      ensures Valid()
      ensures listeners == Unsubscribed(old(listeners), u.kind, u.callback)
    {
      listeners := Unsubscribed(listeners, u.kind, u.callback);
    }

    /** Sends the `subscribe_prices` request (whether or not it goes out) and listens for `price_update`. */
    method SubscribeToPriceUpdates(symbols: seq<string>, callback: CallbackId, now: string, sendFails: bool)
      returns (unsubscribe: Unsubscriber)
      requires Valid()
      modifies this`outbox, this`listeners
      ensures Valid()
      ensures outbox == old(outbox) +
        (if old(IsOpen()) && !sendFails then [Frame(Message("subscribe_prices", PriceSymbols(symbols), now))] else [])
      ensures listeners == Subscribed(old(listeners), "price_update", callback)
      ensures unsubscribe == Unsubscriber("price_update", callback)
    {
      var _ := Send("subscribe_prices", PriceSymbols(symbols), now, sendFails);
      unsubscribe := Subscribe("price_update", callback);
    }

    method SubscribeToTradeUpdates(callback: CallbackId) returns (unsubscribe: Unsubscriber)
      requires Valid()
      modifies this`listeners
      ensures Valid()
      ensures listeners == Subscribed(old(listeners), "trade_update", callback)
      ensures unsubscribe == Unsubscriber("trade_update", callback)
    {
      unsubscribe := Subscribe("trade_update", callback);
    }

    method SubscribeToPortfolioUpdates(callback: CallbackId) returns (unsubscribe: Unsubscriber)
      requires Valid()
      modifies this`listeners
      ensures Valid()
      ensures listeners == Subscribed(old(listeners), "portfolio_update", callback)
      ensures unsubscribe == Unsubscriber("portfolio_update", callback)
    {
      unsubscribe := Subscribe("portfolio_update", callback);
    }

    /** `getConnectionStatus()`. */
    function GetConnectionStatus(): (r: string)
      reads this
      ensures r == "closed" <==> ws.None? || ws.value.readyState == Closed
      ensures ws.Some? ==> r == StatusName(ws.value.readyState)
    {
      if ws.None? then "closed" else StatusName(ws.value.readyState)
    }

    /**
     * `handleMessage`: every listener of the message's type, in insertion order,
     * receives the payload; a listener that throws does not stop the ones after it.
     */
    method HandleMessage(message: Message, throws: set<CallbackId>) returns (calls: seq<Invocation>)
      requires Valid()
      ensures |calls| == |ListenersOf(listeners, message.kind)|
      ensures forall i :: 0 <= i < |calls| ==>
        calls[i] == Invocation(ListenersOf(listeners, message.kind)[i], message.payload,
                               ListenersOf(listeners, message.kind)[i] in throws)
      ensures calls == [] <==> message.kind !in listeners
    {
      calls := [];
      if message.kind in listeners {
        var typeListeners := listeners[message.kind];
        var i := 0;
        while i < |typeListeners|
          invariant 0 <= i <= |typeListeners|
          invariant |calls| == i
          invariant forall k :: 0 <= k < i ==>
            calls[k] == Invocation(typeListeners[k], message.payload, typeListeners[k] in throws)
        {
          calls := calls + [Invocation(typeListeners[i], message.payload, typeListeners[i] in throws)];
          i := i + 1;
        }
      }
    }

    /** `scheduleReconnect`: counts the attempt and returns the timer's delay, or gives up. */
    method ScheduleReconnect() returns (delay: Option<nat>)
      requires Valid()
      modifies this`reconnectAttempts
      ensures Valid()
      ensures old(reconnectAttempts) >= MaxReconnectAttempts ==> delay == None && reconnectAttempts == old(reconnectAttempts)
      ensures old(reconnectAttempts) < MaxReconnectAttempts ==>
        reconnectAttempts == old(reconnectAttempts) + 1 && delay == Some(BackoffDelay(reconnectAttempts))
      ensures [delay] == Schedule(old(reconnectAttempts), 1)
    {
      if reconnectAttempts >= MaxReconnectAttempts {
        return None;
      }
      reconnectAttempts := reconnectAttempts + 1;
      delay := Some(BackoffDelay(reconnectAttempts));
    }

    /** `stopHeartbeat`. */
    method StopHeartbeat()
      modifies this`heartbeatActive
      ensures !heartbeatActive
    {
      heartbeatActive := false;
    }

    /** One firing of the heartbeat interval: a `ping` with `Date.now()` while the socket is open. */
    method HeartbeatTick(nowMs: int, now: string, sendFails: bool) returns (sent: bool)
      requires Valid()
      modifies this`outbox
      ensures sent <==> heartbeatActive && IsOpen() && !sendFails
      ensures outbox == old(outbox) + (if sent then [Frame(Message("ping", PingTime(nowMs), now))] else [])
    {
      sent := false;
      if heartbeatActive && IsOpen() {
        sent := Send("ping", PingTime(nowMs), now, sendFails);
      }
    }
  }

  /** `connect` while open creates no socket and changes nothing. */
  method ConnectWhileOpen(s: WebSocketService) returns (outcome: ConnectOutcome)
    requires s.Valid() && s.IsOpen()
    modifies s
    ensures outcome == AlreadyOpen && s.ws == old(s.ws) && s.created == old(s.created)
  {
    outcome := s.Connect(false);
  }

  /** After `disconnect` the status is `closed`, and a close event with code 1000 never reconnects. */
  method DisconnectThenClose(s: WebSocketService) returns (reconnect: Option<nat>)
    requires s.Valid()
    modifies s
    ensures s.GetConnectionStatus() == "closed"
    ensures reconnect == None && s.reconnectAttempts == old(s.reconnectAttempts)
  {
    s.Disconnect();
    reconnect := s.OnClose(NormalClosure);
  }

  /**
   * `disconnect` while the socket is still connecting: the browser fails the
   * connection and reports code 1006 instead of 1000, so the close handler
   * counts an attempt and schedules a reconnect the caller did not want.
   */
  method DisconnectWhileConnecting(s: WebSocketService) returns (reconnect: Option<nat>)
    requires s.Valid() && !s.IsOpen() && !s.isConnecting && s.reconnectAttempts < MaxReconnectAttempts
    modifies s
    ensures s.outbox == old(s.outbox) + [CloseRequest(NormalClosure, "Deliberate disconnect")]
    ensures s.reconnectAttempts == old(s.reconnectAttempts) + 1
    ensures reconnect == Some(BackoffDelay(old(s.reconnectAttempts) + 1))
  {
    var outcome := s.Connect(false);
    s.Disconnect();
    reconnect := s.OnClose(AbnormalClosure);
  }

  /**
   * With the close handler that ignores sockets the service has let go of,
   * `disconnect` is final whatever code the close event carries: no reconnect,
   * no attempt counted, nothing left pending.
   */
  method DisconnectThenAnyClose(s: WebSocketService, serial: nat, code: int) returns (reconnect: Option<nat>)
    requires s.Valid()
    modifies s
    ensures s.GetConnectionStatus() == "closed" && !s.isConnecting && !s.heartbeatActive
    ensures reconnect == None && s.reconnectAttempts == old(s.reconnectAttempts)
  {
    s.Disconnect();
    reconnect := s.OnCloseOf(serial, code);
  }

  /**
   * However many close events arrive, the attempt counter stays within its
   * budget, and when every code is abnormal the delays follow the backoff schedule.
   */
  method CloseRepeatedly(s: WebSocketService, codes: seq<int>) returns (delays: seq<Option<nat>>)
    requires s.Valid()
    modifies s
    ensures s.Valid() && s.reconnectAttempts <= MaxReconnectAttempts
    ensures |delays| == |codes|
    ensures (forall c :: c in codes ==> c != NormalClosure) ==> delays == Schedule(old(s.reconnectAttempts), |codes|)
  {
    ghost var abnormal := forall c :: c in codes ==> c != NormalClosure;
    ghost var start := s.reconnectAttempts;
    delays := [];
    var i := 0;
    while i < |codes|
      invariant 0 <= i <= |codes| && |delays| == i
      invariant s.Valid()
      invariant abnormal ==> delays == Schedule(start, i) && s.reconnectAttempts == AttemptsAfter(start, i)
    {
      ghost var before := s.reconnectAttempts;
      var d := s.OnClose(codes[i]);
      if abnormal {
        assert codes[i] in codes;
        ScheduleSnoc(start, i);
        assert d == NextDelay(before) && s.reconnectAttempts == Bump(before);
      }
      delays := delays + [d];
      i := i + 1;
    }
  }

  /** The counter after one scheduling. */
  function Bump(attempts: nat): nat
  {
    if attempts >= MaxReconnectAttempts then attempts else attempts + 1
  }

  /** The delay one scheduling returns. */
  function NextDelay(attempts: nat): Option<nat>
  {
    if attempts >= MaxReconnectAttempts then None else Some(BackoffDelay(attempts + 1))
  }

  /** The counter after `n` schedulings. */
  function AttemptsAfter(attempts: nat, n: nat): nat
  {
    if n == 0 then attempts else Bump(AttemptsAfter(attempts, n - 1))
  }

  lemma {:induction false} AttemptsAfterShift(attempts: nat, n: nat)
    requires n > 0
    ensures AttemptsAfter(attempts, n) == AttemptsAfter(Bump(attempts), n - 1)
  {
    if n > 1 {
      AttemptsAfterShift(attempts, n - 1);
    }
  }

  /** A run of `n + 1` schedulings is the run of `n` followed by one more. */
  lemma {:induction false} ScheduleSnoc(attempts: nat, n: nat)
    ensures Schedule(attempts, n + 1) == Schedule(attempts, n) + [NextDelay(AttemptsAfter(attempts, n))]
    decreases n
  {
    ScheduleStep(attempts, n + 1);
    if n > 0 {
      ScheduleStep(attempts, n);
      ScheduleSnoc(Bump(attempts), n - 1);
      AttemptsAfterShift(attempts, n);
      var x := NextDelay(AttemptsAfter(attempts, n));
      assert [NextDelay(attempts)] + (Schedule(Bump(attempts), n - 1) + [x]) ==
        ([NextDelay(attempts)] + Schedule(Bump(attempts), n - 1)) + [x];
    }
  }

  /** The first scheduling of a run and the run that follows it. */
  lemma ScheduleStep(attempts: nat, n: nat)
    requires n > 0
    ensures attempts >= MaxReconnectAttempts ==> Schedule(attempts, n) == [None] + Schedule(attempts, n - 1)
    ensures attempts < MaxReconnectAttempts ==>
      Schedule(attempts, n) == [Some(BackoffDelay(attempts + 1))] + Schedule(attempts + 1, n - 1)
  {
  }
}
