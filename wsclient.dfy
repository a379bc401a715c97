/** The WebSocket session of the client (src/clients/wsclient.ts): the
    `WSClient` factory that picks the credential and caches one session, and
    the `WebSocketClient` session with its heartbeat, reconnect counter and
    frame dispatch.

    The socket is abstracted to its ready state; each timer is a field that
    says whether it is armed; event emission, frames sent, socket closes,
    connections and scheduled reconnects are appended to a log. The
    scheduler's firing of a timer and the socket's events are the methods
    named after them. Elapsed time is not modelled. */
module WsClients {
  import opened Js
  import opened Uris

  const MaxReconnectAttempts: nat := 5
  const PingIntervalMs: nat := 30000
  const PongTimeoutMs: nat := 5000
  /** `JSON.stringify({text: "ping"})` and `JSON.stringify({text: "pong"})`. */
  const PingFrame: string := "{\"text\":\"ping\"}"
  const PongFrame: string := "{\"text\":\"pong\"}"
  const LostCode: int := 1000
  const LostReason: string := "Connection lost - no pong received"

  /** The `readyState` of the underlying socket. */
  datatype ReadyState = Connecting | Open | Closing | Closed

  datatype ErrorKind = SocketError | SocketClosed | FailedRetry

  /** A frame payload: `string | Uint8Array`. */
  datatype Data = Text(s: string) | Binary(bytes: seq<bv8>)

  /** The `WebSocket.ErrorEvent` the socket passes to `onerror`, reduced to the two fields a
      listener can read from it (a browser's plain `Event` has neither: both are undefined). */
  datatype SocketErrorEvent = SocketErrorEvent(message: NullableString, error: Value)

  /** What the session emits to its listeners. An `error` emitted by `onerror` carries the
      socket's event as its second argument; one emitted for an error frame has none. */
  datatype Event =
    | OpenEvent
    | CloseEvent(code: int, reason: string)
    | ErrorEvent(error: Value, event: Option<SocketErrorEvent>)
    | MessageEvent(payload: Value)
    | PongEvent

  /** One observable effect of the session, in the order it happens. */
  datatype Action =
    | Connect(url: string)
    | Send(data: Data)
    | NativePing
    | SocketClose(code: Option<int>, reason: Option<string>)
    | ClearPingInterval
    | ClearPongTimeout
    | ScheduleReconnect(delay: nat)
    | Emit(event: Event)

  /** A reconnect delay allowed by the linear backoff: 1000 ms times an attempt number from 1 to 5. */
  predicate BackoffDelay(d: nat)
  {
    d % 1000 == 0 && 1000 <= d <= 1000 * MaxReconnectAttempts
  }

  /** The abstract state of a session: the fields of `WebSocketClient` plus the log. */
  datatype Session = Session(
    readyState: ReadyState,
    reconnectAttempts: nat,
    /** The ping interval is set and not cleared. */
    pingIntervalArmed: bool,
    /** The `pongTimeout` field holds a timer id (it is truthy). */
    pongTimeoutRef: bool,
    /** The timer that field holds has neither fired nor been cleared. */
    pongTimeoutArmed: bool,
    /** Pong timeouts still armed whose id was overwritten by a later ping. */
    orphanPongTimeouts: nat,
    /** The delays of the reconnects scheduled and not yet run, in scheduling order. */
    reconnectTimers: seq<nat>,
    log: seq<Action>)
  {
    predicate Valid()
    {
      && reconnectAttempts <= MaxReconnectAttempts
      && (pongTimeoutArmed ==> pongTimeoutRef)
      && forall i :: 0 <= i < |reconnectTimers| ==> BackoffDelay(reconnectTimers[i])
    }
  }

  /** The state right after the constructor: the socket is connecting and the ping interval is set. */
  function Initial(url: string): (s: Session)
    ensures s.Valid() && s.reconnectAttempts == 0 && s.readyState == Connecting
    ensures s.pingIntervalArmed && !s.pongTimeoutArmed && s.reconnectTimers == []
    ensures s.log == [Connect(url)]
  {
    Session(Connecting, 0, true, false, false, 0, [], [Connect(url)])
  }

  /** The new ready state after `ws.close()`: a closed socket stays closed, any other starts closing. */
  function AfterSocketClose(rs: ReadyState): (r: ReadyState)
    ensures r == Closed || r == Closing
    ensures r == Closed <==> rs == Closed
  {
    if rs == Closed then Closed else Closing
  }

  /** The reconnect step shared by the close handler and the lost-connection handler:
      below the limit, count one more attempt and schedule a reconnect after 1000 ms
      times the new count; at the limit, do nothing. */
  function ScheduleReconnectSpec(s: Session): (t: Session)
    requires s.Valid()
    ensures t.Valid()
    ensures s.reconnectAttempts < MaxReconnectAttempts ==>
      && t.reconnectAttempts == s.reconnectAttempts + 1
      && t.reconnectTimers == s.reconnectTimers + [1000 * t.reconnectAttempts]
      && t.log == s.log + [ScheduleReconnect(1000 * t.reconnectAttempts)]
    ensures s.reconnectAttempts >= MaxReconnectAttempts ==> t == s
    ensures t.readyState == s.readyState && t.pingIntervalArmed == s.pingIntervalArmed
    ensures t.pongTimeoutRef == s.pongTimeoutRef && t.pongTimeoutArmed == s.pongTimeoutArmed
    ensures t.orphanPongTimeouts == s.orphanPongTimeouts
  {
    if s.reconnectAttempts < MaxReconnectAttempts then
      var n := s.reconnectAttempts + 1;
      s.(reconnectAttempts := n,
         reconnectTimers := s.reconnectTimers + [1000 * n],
         log := s.log + [ScheduleReconnect(1000 * n)])
    else s
  }

  /** `onopen`: the counter is reset before `open` is emitted. */
  function OpenedSpec(s: Session, current: bool): (t: Session)
    requires s.Valid()
    ensures t.Valid() && t.reconnectAttempts == 0
    ensures t.log == s.log + [Emit(OpenEvent)]
    ensures t.readyState == if current then Open else s.readyState
    ensures t.reconnectTimers == s.reconnectTimers && t.pingIntervalArmed == s.pingIntervalArmed
  {
    s.(readyState := if current then Open else s.readyState,
       reconnectAttempts := 0,
       log := s.log + [Emit(OpenEvent)])
  }

  /** `handleClose`: both timers are cleared, then `close` is emitted, then the reconnect step runs. */
  function CloseHandledSpec(s: Session, code: int, reason: string): (t: Session)
    requires s.Valid()
    ensures t.Valid()
    ensures !t.pingIntervalArmed && !t.pongTimeoutArmed
    ensures t == ScheduleReconnectSpec(s.(
      pingIntervalArmed := false,
      pongTimeoutArmed := false,
      log := s.log + [ClearPingInterval] + (if s.pongTimeoutRef then [ClearPongTimeout] else []) + [Emit(CloseEvent(code, reason))]))
  {
    var cleared := s.(pingIntervalArmed := false,
                      pongTimeoutArmed := false,
                      log := s.log + [ClearPingInterval] + (if s.pongTimeoutRef then [ClearPongTimeout] else []));
    ScheduleReconnectSpec(cleared.(log := cleared.log + [Emit(CloseEvent(code, reason))]))
  }

  /** `onclose` of the current socket, or of a socket a reconnect has already replaced. */
  function ClosedSpec(s: Session, code: int, reason: string, current: bool): (t: Session)
    requires s.Valid()
    ensures t.Valid()
    ensures current ==> t.readyState == Closed
    ensures !current ==> t.readyState == s.readyState
    ensures !t.pingIntervalArmed && !t.pongTimeoutArmed
    ensures |t.log| > |s.log| && t.log[|s.log|] == ClearPingInterval
  {
    CloseHandledSpec(s.(readyState := if current then Closed else s.readyState), code, reason)
  }

  /** `handleConnectionLost`: the socket is closed with code 1000, then the reconnect step runs. */
  function ConnectionLostSpec(s: Session): (t: Session)
    requires s.Valid()
    ensures t.Valid()
    ensures t.readyState == AfterSocketClose(s.readyState)
    ensures t == ScheduleReconnectSpec(s.(readyState := AfterSocketClose(s.readyState),
                                          log := s.log + [SocketClose(Some(LostCode), Some(LostReason))]))
  {
    ScheduleReconnectSpec(s.(readyState := AfterSocketClose(s.readyState),
                             log := s.log + [SocketClose(Some(LostCode), Some(LostReason))]))
  }

  /** The kind `onerror` reports: FailedRetry once the attempts are used up, whatever the
      socket's state; otherwise SocketClosed for a closed socket and SocketError else. */
  function ErrorKindOf(rs: ReadyState, attempts: nat): (k: ErrorKind)
    ensures k == FailedRetry <==> attempts >= MaxReconnectAttempts
    ensures k == SocketClosed <==> attempts < MaxReconnectAttempts && rs == Closed
    ensures k == SocketError <==> attempts < MaxReconnectAttempts && rs != Closed
  {
    if attempts >= MaxReconnectAttempts then FailedRetry
    else if rs == Closed then SocketClosed
    else SocketError
  }

  function KindName(k: ErrorKind): string
  {
    match k
    case SocketError => "SocketError"
    case SocketClosed => "SocketClosed"
    case FailedRetry => "FailedRetry"
  }

  /** `event.message || "Unknown error"`. */
  function Description(message: NullableString): (d: string)
    ensures d != ""
    ensures Truthy(message) ==> d == message.s
    ensures !Truthy(message) ==> d == "Unknown error"
  {
    if Truthy(message) then message.s else "Unknown error"
  }

  /** The `{name, description}` object `onerror` emits. */
  function ErrorObject(k: ErrorKind, description: string): Value
  {
    Obj([("name", Str(KindName(k))), ("description", Str(description))])
  }

  /** `onerror`: emits one error whose kind is chosen from the socket state and the counter,
      described by the event's message, with the event itself passed along unchanged. */
  function ErroredSpec(s: Session, event: SocketErrorEvent): (t: Session)
    requires s.Valid()
    ensures t.Valid() && t.(log := s.log) == s
    ensures t.log == s.log + [Emit(ErrorEvent(ErrorObject(ErrorKindOf(s.readyState, s.reconnectAttempts), Description(event.message)), Some(event)))]
  {
    s.(log := s.log + [Emit(ErrorEvent(ErrorObject(ErrorKindOf(s.readyState, s.reconnectAttempts), Description(event.message)), Some(event)))])
  }

  /** How `onmessage` treats one inbound frame. */
  datatype Inbound =
    | NotText
    /** `JSON.parse` throws. */
    | Unparsable
    /** The parsed value is a primitive or null, so the `in` test throws. */
    | NotAnObject
    | PingControl
    | PongControl
    | ChatMessage(payload: Value)
    | ErrorFrame(payload: Value)

  /** Values the `in` operator accepts. */
  predicate IsObject(v: Value)
  {
    v.Obj? || v.Arr? || v.Dto?
  }

  /** `data[k]` when `k in data`; an array has neither `text` nor `type`. */
  function Field(v: Value, k: string): Option<Value>
  {
    match v
    case Obj(e) => Get(e, k)
    case Dto(_, e) => Get(e, k)
    case _ => None
  }

  predicate IsPing(v: Value) { Field(v, "text") == Some(Str("ping")) }
  predicate IsPong(v: Value) { Field(v, "text") == Some(Str("pong")) }
  /** Has a `type` other than the string "error". */
  predicate IsChat(v: Value) { Field(v, "type").Some? && Field(v, "type") != Some(Str("error")) }

  /** Classification of an inbound frame, `parse` standing for `JSON.parse` (None: it throws).
      Every text frame that parses to an object falls in exactly one of ping, pong,
      message or error, tried in that order. */
  function Classify(data: Data, parse: string -> Option<Value>): (c: Inbound)
    ensures c.NotText? <==> data.Binary?
    ensures c.Unparsable? <==> data.Text? && parse(data.s).None?
    ensures c.NotAnObject? <==> data.Text? && parse(data.s).Some? && !IsObject(parse(data.s).value)
    ensures c.PingControl? || c.PongControl? || c.ChatMessage? || c.ErrorFrame? ==>
      data.Text? && parse(data.s).Some? && IsObject(parse(data.s).value)
    ensures c.PingControl? ==> IsPing(parse(data.s).value)
    ensures c.PongControl? ==> IsPong(parse(data.s).value) && !IsPing(parse(data.s).value)
    ensures c.ChatMessage? ==> var v := parse(data.s).value;
      c.payload == v && IsChat(v) && !IsPing(v) && !IsPong(v)
    ensures c.ErrorFrame? ==> var v := parse(data.s).value;
      c.payload == v && !IsChat(v) && !IsPing(v) && !IsPong(v)
  {
    match data
    case Binary(_) => NotText
    case Text(raw) =>
      match parse(raw)
      case None => Unparsable
      case Some(v) =>
        if !IsObject(v) then NotAnObject
        else if IsPing(v) then PingControl
        else if IsPong(v) then PongControl
        else if IsChat(v) then ChatMessage(v)
        else ErrorFrame(v)
  }

  /** The frames on which `onmessage` throws out of the handler, given the ready state of the
      current socket: an unparsable frame or a primitive, and a ping while the current socket is
      still connecting, whose pong `ws.send` refuses by throwing. */
  predicate Throws(rs: ReadyState, c: Inbound)
  {
    c.Unparsable? || c.NotAnObject? || (c.PingControl? && rs == Connecting)
  }

  /** `onmessage`: a ping is answered with a pong frame on the current socket and emits nothing
      (the socket sends only while open and drops the frame once closing); a pong clears the
      pending timeout and emits `pong`; a typed frame other than an error emits `message`;
      every other object emits `error`; other input changes nothing. */
  function MessageHandledSpec(s: Session, c: Inbound): (t: Session)
    requires s.Valid()
    ensures t.Valid()
    ensures t.readyState == s.readyState && t.reconnectAttempts == s.reconnectAttempts
    ensures t.reconnectTimers == s.reconnectTimers && t.pingIntervalArmed == s.pingIntervalArmed
    ensures !c.PongControl? ==> t.pongTimeoutArmed == s.pongTimeoutArmed
    ensures c.PongControl? ==> !t.pongTimeoutArmed && !t.pongTimeoutRef
    ensures |t.log| >= |s.log| && t.log[..|s.log|] == s.log
    ensures c.PingControl? ==> t.log[|s.log|..] == (if s.readyState == Open then [Send(Text(PongFrame))] else [])
    ensures c.PongControl? ==> t.log[|s.log|..] == (if s.pongTimeoutRef then [ClearPongTimeout] else []) + [Emit(PongEvent)]
    ensures c.ChatMessage? ==> t.log[|s.log|..] == [Emit(MessageEvent(c.payload))]
    ensures c.ErrorFrame? ==> t.log[|s.log|..] == [Emit(ErrorEvent(c.payload, None))]
    ensures c.NotText? || Throws(s.readyState, c) ==> t == s
    ensures c.PingControl? && s.readyState != Open ==> t == s
  {
    match c
    case NotText => s
    case Unparsable => s
    case NotAnObject => s
    case PingControl => if s.readyState == Open then s.(log := s.log + [Send(Text(PongFrame))]) else s
    case PongControl =>
      s.(pongTimeoutRef := false,
         pongTimeoutArmed := false,
         log := s.log + (if s.pongTimeoutRef then [ClearPongTimeout] else []) + [Emit(PongEvent)])
    case ChatMessage(v) => s.(log := s.log + [Emit(MessageEvent(v))])
    case ErrorFrame(v) => s.(log := s.log + [Emit(ErrorEvent(v, None))])
  }

  /** The ping interval fires: on an open socket, either a native ping, or a ping frame and a
      new 5-second pong timeout (an earlier one still armed stays armed, unreferenced). */
  function PingTickedSpec(s: Session, native: bool): (t: Session)
    requires s.Valid()
    ensures t.Valid()
    ensures !s.pingIntervalArmed || s.readyState != Open ==> t == s
    ensures s.pingIntervalArmed && s.readyState == Open && !native ==>
      t.pongTimeoutArmed && t.log == s.log + [Send(Text(PingFrame))]
    ensures s.pingIntervalArmed && s.readyState == Open && native ==>
      t == s.(log := s.log + [NativePing])
    ensures t.reconnectAttempts == s.reconnectAttempts && t.reconnectTimers == s.reconnectTimers
  {
    if s.pingIntervalArmed && s.readyState == Open then
      if native then s.(log := s.log + [NativePing])
      else
        s.(orphanPongTimeouts := if s.pongTimeoutArmed then s.orphanPongTimeouts + 1 else s.orphanPongTimeouts,
           pongTimeoutRef := true,
           pongTimeoutArmed := true,
           log := s.log + [Send(Text(PingFrame))])
    else s
  }

  /** A pong timeout fires (`orphan`: one whose id was overwritten): the connection is declared lost. */
  function PongTimedOutSpec(s: Session, orphan: bool): (t: Session)
    requires s.Valid()
    ensures t.Valid()
    ensures orphan && s.orphanPongTimeouts > 0 ==>
      t == ConnectionLostSpec(s.(orphanPongTimeouts := s.orphanPongTimeouts - 1))
    ensures !orphan && s.pongTimeoutArmed ==> t == ConnectionLostSpec(s.(pongTimeoutArmed := false))
    ensures (if orphan then s.orphanPongTimeouts == 0 else !s.pongTimeoutArmed) ==> t == s
  {
    if orphan then
      if s.orphanPongTimeouts > 0 then ConnectionLostSpec(s.(orphanPongTimeouts := s.orphanPongTimeouts - 1)) else s
    else
      if s.pongTimeoutArmed then ConnectionLostSpec(s.(pongTimeoutArmed := false)) else s
  }

  /** Scheduled reconnect number `i` runs: a new socket to the same URL replaces the old one. */
  function ReconnectFiredSpec(s: Session, i: nat, url: string): (t: Session)
    requires s.Valid()
    ensures t.Valid()
    ensures i < |s.reconnectTimers| ==>
      && t.readyState == Connecting
      && t.reconnectTimers == s.reconnectTimers[..i] + s.reconnectTimers[i + 1..]
      && t.log == s.log + [Connect(url)]
      && t.reconnectAttempts == s.reconnectAttempts
      && t.pingIntervalArmed == s.pingIntervalArmed
    ensures i >= |s.reconnectTimers| ==> t == s
  {
    if i < |s.reconnectTimers| then
      s.(readyState := Connecting,
         reconnectTimers := s.reconnectTimers[..i] + s.reconnectTimers[i + 1..],
         log := s.log + [Connect(url)])
    else s
  }

  /** `send`: forwards the data unchanged iff the socket is open (otherwise the call throws). */
  function SentSpec(s: Session, data: Data): (t: Session)
    requires s.Valid()
    ensures t.Valid()
    ensures s.readyState == Open <==> t.log == s.log + [Send(data)]
    ensures s.readyState != Open <==> t == s
  {
    s.(log := s.log + if s.readyState == Open then [Send(data)] else [])
  }

  /** The longest close reason either transport sends, in UTF-8 bytes. */
  const MaxCloseReasonBytes: nat := 123

  /** The number of bytes `s` takes in UTF-8. */
  function Utf8Length(s: string): (n: nat)
    ensures |s| <= n <= 4 * |s|
  {
    if s == "" then 0
    else
      (if s[0] as int < 0x80 then 1 else if s[0] as int < 0x800 then 2 else if s[0] as int < 0x10000 then 3 else 4)
      + Utf8Length(s[1..])
  }

  /** Every character of `s` is ASCII, so it takes one byte. */
  predicate Ascii(s: string)
  {
    forall i :: 0 <= i < |s| ==> s[i] as int < 0x80
  }

  lemma {:induction false} AsciiUtf8Length(s: string)
    requires Ascii(s)
    ensures Utf8Length(s) == |s|
    decreases |s|
  {
    if s != "" {
      AsciiUtf8Length(s[1..]);
    }
  }

  lemma AsciiConcat(a: string, b: string)
    requires Ascii(a) && Ascii(b)
    ensures Ascii(a + b)
  {
  }

  lemma LostReasonWords()
    ensures LostReason == "Connection" + " lost - " + "no pong " + "received"
  {
  }

  lemma LostReasonAscii()
    ensures Ascii(LostReason)
  {
    assert Ascii("Connection") && Ascii(" lost - ") && Ascii("no pong ") && Ascii("received");
    AsciiConcat("Connection", " lost - ");
    AsciiConcat("Connection" + " lost - ", "no pong ");
    AsciiConcat("Connection" + " lost - " + "no pong ", "received");
    LostReasonWords();
  }

  /** The arguments a browser's `WebSocket.close` throws on, whatever the socket's state: a
      code other than 1000 or 3000..4999, or a reason longer than 123 bytes. */
  predicate BrowserRefuses(code: Option<int>, reason: Option<string>)
  {
    || (code.Some? && code.value != 1000 && !(3000 <= code.value <= 4999))
    || (reason.Some? && Utf8Length(reason.value) > MaxCloseReasonBytes)
  }

  /** `isValidStatusCode` of the `ws` library. */
  predicate WsStatusCode(code: int)
  {
    || (1000 <= code <= 1014 && code != 1004 && code != 1005 && code != 1006)
    || (3000 <= code <= 4999)
  }

  /** The arguments the `ws` library's `close` throws on. It checks them only on an OPEN
      socket, after marking it CLOSING, and only when a code is given (the reason is dropped
      without one): a code `isValidStatusCode` rejects, or a reason longer than 123 bytes. */
  predicate WsRefuses(rs: ReadyState, code: Option<int>, reason: Option<string>)
  {
    && rs == Open
    && code.Some?
    && (!WsStatusCode(code.value) || (reason.Some? && Utf8Length(reason.value) > MaxCloseReasonBytes))
  }

  /** Whether the transport's `close` throws: the `ws` library when `native`, a browser otherwise. */
  predicate CloseRefused(rs: ReadyState, code: Option<int>, reason: Option<string>, native: bool)
  {
    if native then WsRefuses(rs, code, reason) else BrowserRefuses(code, reason)
  }

  /** `close`: clears the ping interval, then hands the caller's code and reason to the socket.
      A transport that refuses them throws before any close frame goes out: a browser leaves
      the socket as it was, and `ws` has already made it CLOSING. The method sets no flag and
      leaves the pong timeout and the counter alone, so a close event that follows still
      reconnects. */
  function CallerClosedSpec(s: Session, code: Option<int>, reason: Option<string>, native: bool): (t: Session)
    requires s.Valid()
    ensures t.Valid() && !t.pingIntervalArmed
    ensures !CloseRefused(s.readyState, code, reason, native) ==>
      t.readyState == AfterSocketClose(s.readyState) && t.log == s.log + [ClearPingInterval, SocketClose(code, reason)]
    ensures CloseRefused(s.readyState, code, reason, native) ==>
      t.readyState == (if native then Closing else s.readyState) && t.log == s.log + [ClearPingInterval]
    ensures t.reconnectAttempts == s.reconnectAttempts && t.reconnectTimers == s.reconnectTimers
    ensures t.pongTimeoutArmed == s.pongTimeoutArmed && t.orphanPongTimeouts == s.orphanPongTimeouts
  {
    var cleared := s.(pingIntervalArmed := false, log := s.log + [ClearPingInterval]);
    if !CloseRefused(s.readyState, code, reason, native) then
      cleared.(readyState := AfterSocketClose(s.readyState), log := cleared.log + [SocketClose(code, reason)])
    else if native then cleared.(readyState := Closing)
    else cleared
  }

  /** Whatever a browser accepts, `ws` accepts too. */
  lemma BrowserAcceptedWsAccepts(rs: ReadyState, code: Option<int>, reason: Option<string>)
    requires !CloseRefused(rs, code, reason, false)
    ensures !CloseRefused(rs, code, reason, true)
  {
  }

  /** Code 1000 with a reason that fits is accepted by either transport in any state. */
  lemma NormalCloseAccepted(rs: ReadyState, reason: string, native: bool)
    requires Utf8Length(reason) <= MaxCloseReasonBytes
    ensures !CloseRefused(rs, Some(LostCode), Some(reason), native)
  {
  }

  lemma LostReasonBytes()
    ensures Utf8Length(LostReason) <= MaxCloseReasonBytes
  {
    LostReasonAscii();
    AsciiUtf8Length(LostReason);
  }

  /** The close `handleConnectionLost` makes, code 1000 with its ASCII reason of 34 bytes, is
      accepted by either transport in any state. */
  lemma LostCloseAccepted(rs: ReadyState, native: bool)
    ensures !CloseRefused(rs, Some(LostCode), Some(LostReason), native)
  {
    LostReasonBytes();
    NormalCloseAccepted(rs, LostReason, native);
  }

  /** `close(1006)` on an open session: 1006 is reserved, so both transports throw. The ping
      interval is cleared all the same and no close frame goes out; a browser leaves the
      socket OPEN, `ws` leaves it CLOSING. */
  lemma ReservedCodeCloseScenario(url: string, native: bool)
    ensures CloseRefused(Open, Some(1006), None, native)
    ensures CallerClosedSpec(OpenedSpec(Initial(url), true), Some(1006), None, native).log ==
      [Connect(url), Emit(OpenEvent), ClearPingInterval]
    ensures CallerClosedSpec(OpenedSpec(Initial(url), true), Some(1006), None, native).readyState ==
      (if native then Closing else Open)
  {
  }

  /** A native pong reaches the listener registered when the transport has `on`. */
  function NativePongedSpec(s: Session, native: bool): (t: Session)
    requires s.Valid()
    ensures t.Valid() && t.(log := s.log) == s
    ensures native ==> t.log == s.log + [Emit(PongEvent)]
    ensures !native ==> t == s
  {
    if native then s.(log := s.log + [Emit(PongEvent)]) else s
  }

  /** The order in which a socket's ready state can move: it never goes back. */
  function Rank(rs: ReadyState): nat
  {
    match rs
    case Connecting => 0
    case Open => 1
    case Closing => 2
    case Closed => 3
  }

  /** A ready-state change the socket makes on its own, before the event that reports it: a
      browser marks a refused connection CLOSED before firing `error`, and a close handshake the
      server starts makes the socket CLOSING before `close` arrives. Only the ready state changes,
      and only forward; a move backwards is not something a socket does and changes nothing. */
  function TransportMovedSpec(s: Session, rs: ReadyState): (t: Session)
    requires s.Valid()
    ensures t.Valid()
    ensures Rank(t.readyState) >= Rank(s.readyState)
    ensures Rank(s.readyState) <= Rank(rs) ==> t.readyState == rs
    ensures t.(readyState := s.readyState) == s
  {
    if Rank(s.readyState) <= Rank(rs) then s.(readyState := rs) else s
  }

  /** One thing that can happen to a session: a socket event, a change of the socket's own
      state, a timer firing, or a call by its owner. */
  datatype Input =
    | OpenIn(current: bool)
    | CloseIn(code: int, reason: string, current: bool)
    | ErrorIn(event: SocketErrorEvent)
    | MessageIn(data: Data)
    | PingTickIn
    | PongTimeoutIn(orphan: bool)
    | ReconnectIn(i: nat)
    | SendIn(data: Data)
    | CallerCloseIn(closeCode: Option<int>, closeReason: Option<string>)
    | NativePongIn
    | TransportStateIn(rs: ReadyState)

  /** The effect of one input; StepExtendsLog shows the log only grows. */
  function Step(s: Session, input: Input, url: string, native: bool, parse: string -> Option<Value>): (t: Session)
    requires s.Valid()
    ensures t.Valid()
  {
    match input
    case OpenIn(current) => OpenedSpec(s, current)
    case CloseIn(code, reason, current) => ClosedSpec(s, code, reason, current)
    case ErrorIn(event) => ErroredSpec(s, event)
    case MessageIn(data) => MessageHandledSpec(s, Classify(data, parse))
    case PingTickIn => PingTickedSpec(s, native)
    case PongTimeoutIn(orphan) => PongTimedOutSpec(s, orphan)
    case ReconnectIn(i) => ReconnectFiredSpec(s, i, url)
    case SendIn(data) => SentSpec(s, data)
    case CallerCloseIn(code, reason) => CallerClosedSpec(s, code, reason, native)
    case NativePongIn => NativePongedSpec(s, native)
    case TransportStateIn(rs) => TransportMovedSpec(s, rs)
  }

  /** No input takes back an action already logged. */
  lemma StepExtendsLog(s: Session, input: Input, url: string, native: bool, parse: string -> Option<Value>)
    requires s.Valid()
    ensures |Step(s, input, url, native, parse).log| >= |s.log|
    ensures Step(s, input, url, native, parse).log[..|s.log|] == s.log
  {
    var t := Step(s, input, url, native, parse);
    match input
    case OpenIn(current) =>
    case CloseIn(code, reason, current) =>
    case ErrorIn(event) =>
    case MessageIn(data) =>
    case PingTickIn =>
      assert t.log == s.log || t.log == s.log + [NativePing] || t.log == s.log + [Send(Text(PingFrame))];
    case PongTimeoutIn(orphan) =>
    case ReconnectIn(i) =>
    case SendIn(data) =>
    case CallerCloseIn(code, reason) =>
    case NativePongIn =>
    case TransportStateIn(rs) =>
  }

  /** The state after a sequence of inputs. Whatever happens, the counter stays within
      0..5, every scheduled reconnect waits 1000 to 5000 ms, and the log only grows. */
  function Run(s: Session, inputs: seq<Input>, url: string, native: bool, parse: string -> Option<Value>): (t: Session)
    requires s.Valid()
    ensures t.Valid() && t.reconnectAttempts <= MaxReconnectAttempts
    ensures |t.log| >= |s.log| && t.log[..|s.log|] == s.log
    decreases |inputs|
  {
    if inputs == [] then s
    else
      var s' := Step(s, inputs[0], url, native, parse);
      StepExtendsLog(s, inputs[0], url, native, parse);
      var t := Run(s', inputs[1..], url, native, parse);
      assert t.log[..|s.log|] == t.log[..|s'.log|][..|s.log|];
      t
  }

  /** The heartbeat is set up only by the constructor: once its interval is cleared (by a
      close event or by `close`), no input re-arms it, so every later ping tick does nothing,
      even on a socket a reconnect has opened. */
  lemma {:induction false} HeartbeatNeverResumes(s: Session, inputs: seq<Input>, url: string, native: bool, parse: string -> Option<Value>)
    requires s.Valid() && !s.pingIntervalArmed
    ensures !Run(s, inputs, url, native, parse).pingIntervalArmed
    ensures PingTickedSpec(Run(s, inputs, url, native, parse), native) == Run(s, inputs, url, native, parse)
    decreases |inputs|
  {
    if inputs != [] {
      var s' := Step(s, inputs[0], url, native, parse);
      assert !s'.pingIntervalArmed;
      HeartbeatNeverResumes(s', inputs[1..], url, native, parse);
    }
  }

  /** A connection the browser refuses: the socket is CLOSED before `error` fires, so the
      error emitted is a SocketClosed one, and nothing else happens. */
  lemma RefusedConnectionScenario(url: string, event: SocketErrorEvent, native: bool, parse: string -> Option<Value>)
    ensures Run(Initial(url), [TransportStateIn(Closed), ErrorIn(event)], url, native, parse).log ==
      [Connect(url), Emit(ErrorEvent(ErrorObject(SocketClosed, Description(event.message)), Some(event)))]
  {
    var inputs := [TransportStateIn(Closed), ErrorIn(event)];
    var s1 := TransportMovedSpec(Initial(url), Closed);
    var s2 := ErroredSpec(s1, event);
    assert inputs[1..] == [ErrorIn(event)] && inputs[1..][1..] == [];
    assert Run(Initial(url), inputs, url, native, parse) == Run(s1, [ErrorIn(event)], url, native, parse);
    assert Run(s1, [ErrorIn(event)], url, native, parse) == s2;
  }

  /** A close handshake the server starts: once the socket is CLOSING, a ping tick sends
      nothing, although the `close` event has not arrived yet. */
  lemma ServerClosingScenario(url: string, native: bool, parse: string -> Option<Value>)
    ensures Run(Initial(url), [OpenIn(true), TransportStateIn(Closing), PingTickIn], url, native, parse).log ==
      [Connect(url), Emit(OpenEvent)]
  {
    var inputs := [OpenIn(true), TransportStateIn(Closing), PingTickIn];
    var s1 := OpenedSpec(Initial(url), true);
    var s2 := TransportMovedSpec(s1, Closing);
    assert s2.readyState == Closing;
    var s3 := PingTickedSpec(s2, native);
    assert s3 == s2;
    assert inputs[1..] == [TransportStateIn(Closing), PingTickIn];
    assert inputs[1..][1..] == [PingTickIn] && inputs[1..][1..][1..] == [];
    assert Run(s2, [PingTickIn], url, native, parse) == s3;
    assert Run(s1, inputs[1..], url, native, parse) == s3;
  }

  /** `n` close events of the current socket, with no open in between. */
  function Closes(n: nat): (inputs: seq<Input>)
    ensures |inputs| == n
  {
    if n == 0 then [] else [CloseIn(1006, "", true)] + Closes(n - 1)
  }

  function Min(a: nat, b: nat): nat
  {
    if a <= b then a else b
  }

  /** The backoff delays 1000, 2000, ..., 1000 * k. */
  function Delays(k: nat): (d: seq<nat>)
    ensures |d| == k && forall i :: 0 <= i < k ==> d[i] == 1000 * (i + 1)
  {
    if k == 0 then [] else Delays(k - 1) + [1000 * k]
  }

  /** Linear backoff: starting from `a` attempts with the delays for them scheduled,
      `n` further closes leave min(a + n, 5) attempts and the delays 1000, 2000, ...
      up to 1000 times that count; the sixth and later closes schedule nothing. */
  lemma {:induction false} BackoffSchedule(s: Session, n: nat, url: string, native: bool, parse: string -> Option<Value>)
    requires s.Valid() && s.reconnectTimers == Delays(s.reconnectAttempts)
    ensures Run(s, Closes(n), url, native, parse).reconnectAttempts == Min(s.reconnectAttempts + n, MaxReconnectAttempts)
    ensures Run(s, Closes(n), url, native, parse).reconnectTimers == Delays(Min(s.reconnectAttempts + n, MaxReconnectAttempts))
    decreases n
  {
    if n > 0 {
      var s' := Step(s, CloseIn(1006, "", true), url, native, parse);
      BackoffStep(s, n, url, native, parse);
      BackoffSchedule(s', n - 1, url, native, parse);
      assert Min(s'.reconnectAttempts + (n - 1), MaxReconnectAttempts) == Min(s.reconnectAttempts + n, MaxReconnectAttempts);
    }
  }

  /** One close of the current socket adds an attempt and its delay, up to the limit. */
  lemma BackoffStep(s: Session, n: nat, url: string, native: bool, parse: string -> Option<Value>)
    requires s.Valid() && s.reconnectTimers == Delays(s.reconnectAttempts) && n > 0
    ensures Run(s, Closes(n), url, native, parse) == Run(Step(s, CloseIn(1006, "", true), url, native, parse), Closes(n - 1), url, native, parse)
    ensures Step(s, CloseIn(1006, "", true), url, native, parse).reconnectAttempts == Min(s.reconnectAttempts + 1, MaxReconnectAttempts)
    ensures Step(s, CloseIn(1006, "", true), url, native, parse).reconnectTimers == Delays(Min(s.reconnectAttempts + 1, MaxReconnectAttempts))
  {
    var inputs := Closes(n);
    assert inputs[0] == CloseIn(1006, "", true) && inputs[1..] == Closes(n - 1);
  }

  class WebSocketClient {
    const url: string
    /** Whether the transport has native `ping` and `on` (Node) or not (browsers). */
    const native: bool
    var readyState: ReadyState
    var reconnectAttempts: nat
    var pingIntervalArmed: bool
    var pongTimeoutRef: bool
    var pongTimeoutArmed: bool
    var orphanPongTimeouts: nat
    var reconnectTimers: seq<nat>
    var log: seq<Action>

    function State(): Session
      reads this
    {
      Session(readyState, reconnectAttempts, pingIntervalArmed, pongTimeoutRef, pongTimeoutArmed,
              orphanPongTimeouts, reconnectTimers, log)
    }

    predicate Valid()
      reads this
    {
      State().Valid()
    }

    /** Connects, sets up the heartbeat (only here) and the handlers. */
    constructor (url: string, native: bool)
      ensures this.url == url && this.native == native
      ensures Valid() && State() == Initial(url)
    {
      this.url := url;
      this.native := native;
      readyState := Connecting;
      reconnectAttempts := 0;
      pingIntervalArmed := true;
      pongTimeoutRef := false;
      pongTimeoutArmed := false;
      orphanPongTimeouts := 0;
      reconnectTimers := [];
      log := [Connect(url)];
    }

    method ScheduleReconnect()
      requires Valid()
      modifies this
      ensures Valid() && State() == ScheduleReconnectSpec(old(State()))
    {
      if reconnectAttempts < MaxReconnectAttempts {
        reconnectAttempts := reconnectAttempts + 1;
        reconnectTimers := reconnectTimers + [1000 * reconnectAttempts];
        log := log + [Action.ScheduleReconnect(1000 * reconnectAttempts)];
      }
    }

    method HandleConnectionLost()
      requires Valid()
      modifies this
      ensures Valid() && State() == ConnectionLostSpec(old(State()))
    {
      readyState := AfterSocketClose(readyState);
      log := log + [SocketClose(Some(LostCode), Some(LostReason))];
      ScheduleReconnect();
    }

    method OnOpen(current: bool)
      requires Valid()
      modifies this
      ensures Valid() && State() == OpenedSpec(old(State()), current)
    {
      if current {
        readyState := Open;
      }
      reconnectAttempts := 0;
      log := log + [Emit(OpenEvent)];
    }

    method OnClose(code: int, reason: string, current: bool)
      requires Valid()
      modifies this
      ensures Valid() && State() == ClosedSpec(old(State()), code, reason, current)
    {
      if current {
        readyState := Closed;
      }
      HandleClose(code, reason);
    }

    method HandleClose(code: int, reason: string)
      requires Valid()
      modifies this
      ensures Valid() && State() == CloseHandledSpec(old(State()), code, reason)
    {
      pingIntervalArmed := false;
      log := log + [ClearPingInterval];
      if pongTimeoutRef {
        pongTimeoutArmed := false;
        log := log + [ClearPongTimeout];
      }
      pongTimeoutArmed := false;
      log := log + [Emit(CloseEvent(code, reason))];
      ScheduleReconnect();
    }

    method OnError(event: SocketErrorEvent)
      requires Valid()
      modifies this
      ensures Valid() && State() == ErroredSpec(old(State()), event)
    {
      var errorName := SocketError;
      if readyState == Closed {
        errorName := SocketClosed;
      }
      if reconnectAttempts >= MaxReconnectAttempts {
        errorName := FailedRetry;
      }
      log := log + [Emit(ErrorEvent(ErrorObject(errorName, Description(event.message)), Some(event)))];
    }

    /** Returns whether the handler threw: an unparsable frame, one that parses to a primitive, or
        a ping while the current socket is still connecting. */
    method OnMessage(data: Data, parse: string -> Option<Value>) returns (threw: bool)
      requires Valid()
      modifies this
      ensures threw == Throws(old(readyState), Classify(data, parse))
      ensures Valid() && State() == MessageHandledSpec(old(State()), Classify(data, parse))
    {
      threw := false;
      if data.Binary? {
        return;
      }
      var parsed := parse(data.s);
      if parsed.None? {
        threw := true;
        return;
      }
      var v := parsed.value;
      if !IsObject(v) {
        threw := true;
        return;
      }
      if IsPing(v) {
        if readyState == Connecting {
          threw := true;
        } else if readyState == Open {
          log := log + [Action.Send(Text(PongFrame))];
        }
        return;
      }
      if IsPong(v) {
        if pongTimeoutRef {
          pongTimeoutArmed := false;
          log := log + [ClearPongTimeout];
          pongTimeoutRef := false;
        }
        log := log + [Emit(PongEvent)];
        return;
      }
      if IsChat(v) {
        log := log + [Emit(MessageEvent(v))];
        return;
      }
      log := log + [Emit(ErrorEvent(v, None))];
    }

    method PingTick()
      requires Valid()
      modifies this
      ensures Valid() && State() == PingTickedSpec(old(State()), native)
    {
      if pingIntervalArmed && readyState == Open {
        if native {
          log := log + [NativePing];
          return;
        }
        log := log + [Action.Send(Text(PingFrame))];
        if pongTimeoutArmed {
          orphanPongTimeouts := orphanPongTimeouts + 1;
        }
        pongTimeoutRef := true;
        pongTimeoutArmed := true;
      }
    }

    method PongTimeoutFires(orphan: bool)
      requires Valid()
      modifies this
      ensures Valid() && State() == PongTimedOutSpec(old(State()), orphan)
    {
      if orphan {
        if orphanPongTimeouts > 0 {
          orphanPongTimeouts := orphanPongTimeouts - 1;
          HandleConnectionLost();
        }
      } else if pongTimeoutArmed {
        pongTimeoutArmed := false;
        HandleConnectionLost();
      }
    }

    method ReconnectFires(i: nat)
      requires Valid()
      modifies this
      ensures Valid() && State() == ReconnectFiredSpec(old(State()), i, url)
    {
      if i < |reconnectTimers| {
        reconnectTimers := reconnectTimers[..i] + reconnectTimers[i + 1..];
        readyState := Connecting;
        log := log + [Connect(url)];
      }
    }

    /** Returns false where the source throws "WebSocket is not open". */
    method Send(data: Data) returns (sent: bool)
      requires Valid()
      modifies this
      ensures sent <==> old(readyState) == Open
      ensures Valid() && State() == SentSpec(old(State()), data)
    {
      if readyState == Open {
        log := log + [Action.Send(data)];
        sent := true;
      } else {
        sent := false;
      }
    }

    /** Returns whether the socket refused the code or reason and the call threw. */
    method Close(code: Option<int>, reason: Option<string>) returns (refused: bool)
      requires Valid()
      modifies this
      ensures refused == CloseRefused(old(readyState), code, reason, native)
      ensures Valid() && State() == CallerClosedSpec(old(State()), code, reason, native)
    {
      pingIntervalArmed := false;
      log := log + [ClearPingInterval];
      refused := CloseRefused(readyState, code, reason, native);
      if refused {
        if native {
          readyState := Closing;
        }
        return;
      }
      readyState := AfterSocketClose(readyState);
      log := log + [SocketClose(code, reason)];
    }

    method OnNativePong()
      requires Valid()
      modifies this
      ensures Valid() && State() == NativePongedSpec(old(State()), native)
    {
      if native {
        log := log + [Emit(PongEvent)];
      }
    }
  }

  /** The query `getWsUri` builds. It holds `token` when a token is set, else `apikey` (even when
      that is unset), and `user_id` exactly when the user id is truthy; no key appears twice. */
  function WsQuery(token: NullableString, apikey: NullableString, userId: NullableString): (q: Entries)
    ensures DistinctKeys(q)
    ensures Truthy(token) ==> Get(q, "token") == Some(token) && "apikey" !in Keys(q)
    ensures !Truthy(token) ==> Get(q, "apikey") == Some(apikey) && "token" !in Keys(q)
    ensures Truthy(userId) <==> "user_id" in Keys(q)
    ensures Truthy(userId) ==> Get(q, "user_id") == Some(userId)
    ensures |q| == if Truthy(userId) then 2 else 1
  {
    var q := (if Truthy(token) then [("token", token)] else [("apikey", apikey)])
      + (if Truthy(userId) then [("user_id", userId)] else []);
    GetByFirst(q, q[0].0, 0);
    if Truthy(userId) then
      GetByFirst(q, "user_id", 1);
      q
    else q
  }

  /** The query object of `getWsUri`, filled one assignment at a time. */
  method BuildWsQuery(token: NullableString, apikey: NullableString, userId: NullableString) returns (query: Entries)
    ensures query == WsQuery(token, apikey, userId)
  {
    query := [];
    if Truthy(token) {
      query := Put(query, "token", token);
    } else {
      query := Put(query, "apikey", apikey);
    }
    if Truthy(userId) {
      query := Put(query, "user_id", userId);
    }
  }

  /** Merging the query into the empty query of a fresh URI gives the query itself. */
  lemma WsQueryMerged(token: NullableString, apikey: NullableString, userId: NullableString)
    ensures Spread(Spread([], []), WsQuery(token, apikey, userId)) == WsQuery(token, apikey, userId)
  {
    assert Spread([], []) == [];
    SpreadFreshEmpty(WsQuery(token, apikey, userId));
  }

  /** `agentId ?? ""`. */
  function AgentSegment(agentId: NullableString): string
  {
    Coalesce(agentId, Str("")).s
  }

  /** The path `ws/<agent>` is rendered as "/ws/<agent>": it has no leading slash to strip. */
  lemma WsPathPart(segment: string)
    ensures PathPart("ws/" + segment) == "/ws/" + segment
  {
    assert ("ws/" + segment)[0] == 'w';
    assert "/" + ("ws/" + segment) == "/ws/" + segment;
  }

  class WSClient {
    var host: string
    var port: NullablePort
    var apikey: NullableString
    var token: NullableString
    var isWSS: bool
    /** The session, created on the first successful `getClient` and kept. */
    var wsClient: WebSocketClient?

    constructor (host: string, port: NullablePort, apikey: NullableString, isWSS: bool)
      ensures this.host == host && this.port == port && this.apikey == apikey && this.isWSS == isWSS
      ensures token == Null && wsClient == null
    {
      this.host := host;
      this.port := port;
      this.apikey := apikey;
      this.token := Null;
      this.isWSS := isWSS;
      this.wsClient := null;
    }

    method SetToken(t: string) returns (r: WSClient)
      modifies this
      ensures r == this && token == Str(t)
      ensures host == old(host) && port == old(port) && apikey == old(apikey) && isWSS == old(isWSS)
      ensures wsClient == old(wsClient)
    {
      token := Str(t);
      r := this;
    }

    /** The connection URL of a session for these identifiers: the path is always "/ws/" followed by
        the agent id as given (or nothing), since "ws/" has no leading slash to strip. */
    function WsUrl(agentId: NullableString, userId: NullableString, encode: Entries -> string): (r: string)
      reads this
      ensures r == (if isWSS then "wss" else "ws") + "://" + host + PortPart(port) + ("/ws/" + AgentSegment(agentId))
        + QueryPart(encode(WsQuery(token, apikey, userId)))
    {
      WsPathPart(AgentSegment(agentId));
      Rendered(if isWSS then "wss" else "ws", host, port, "ws/" + AgentSegment(agentId), encode(WsQuery(token, apikey, userId)))
    }

    /** A fresh URI: scheme `wss` iff secure, the host and port, the path `ws/` then the agent id
        (or nothing), and the query `WsQuery` gives. */
    method GetWsUri(agentId: NullableString, userId: NullableString) returns (uri: Uri)
      ensures fresh(uri)
      ensures uri.scheme == (if isWSS then "wss" else "ws")
      ensures uri.host == host && uri.port == port
      ensures uri.path == "ws/" + AgentSegment(agentId)
      ensures uri.queryParams == WsQuery(token, apikey, userId)
    {
      var query := BuildWsQuery(token, apikey, userId);
      WsQueryMerged(token, apikey, userId);
      uri := new Uri();
      var r := uri.WithScheme(if isWSS then "wss" else "ws");
      r := uri.WithHost(host);
      r := uri.WithPath("ws/" + AgentSegment(agentId));
      r := uri.WithQueryItems(query);
      r := uri.WithPort(port);
    }

    /** Fails when neither an API key nor a token is set; otherwise returns the cached session,
        creating it on the first call from this call's identifiers only. */
    method GetClient(agentId: NullableString, userId: NullableString, encode: Entries -> string, native: bool)
      returns (r: Result<WebSocketClient>)
      modifies this
      ensures host == old(host) && port == old(port) && apikey == old(apikey) && token == old(token)
      ensures isWSS == old(isWSS)
      ensures r.Err? <==> !Truthy(apikey) && !Truthy(token)
      ensures r.Err? ==> r.message == "You must provide an apikey or a token" && wsClient == old(wsClient)
      ensures r.Ok? ==> wsClient == r.value
      ensures r.Ok? && old(wsClient) != null ==> r.value == old(wsClient)
      ensures r.Ok? && old(wsClient) == null ==>
        && fresh(r.value)
        && r.value.url == WsUrl(agentId, userId, encode)
        && r.value.State() == Initial(r.value.url)
    {
      if !Truthy(apikey) && !Truthy(token) {
        return Err("You must provide an apikey or a token");
      }
      if wsClient == null {
        wsClient := NewSession(agentId, userId, encode, native);
      }
      r := Ok(wsClient);
    }

    /** `new WebSocketClient(this.getWsUri(agentId, userId).toString(), ...)`. */
    method NewSession(agentId: NullableString, userId: NullableString, encode: Entries -> string, native: bool)
      returns (c: WebSocketClient)
      ensures fresh(c) && c.url == WsUrl(agentId, userId, encode) && c.State() == Initial(c.url)
    {
      var uri := GetWsUri(agentId, userId);
      var url := uri.ToString(encode);
      c := new WebSocketClient(url, native);
    }
  }

  /** After a pong timeout, the connection-lost path counts one attempt and schedules a
      reconnect at 1000 ms; the close event of the socket it closed then counts a second
      attempt and schedules another at 2000 ms. The reconnected socket's open resets the count. */
  method MissedPongScenario() returns (afterLoss: nat, timersAfterLoss: seq<nat>, afterClose: nat,
                                       timersAfterClose: seq<nat>, afterReopen: nat)
    ensures afterLoss == 1 && timersAfterLoss == [1000]
    ensures afterClose == 2 && timersAfterClose == [1000, 2000]
    ensures afterReopen == 0
  {
    var c := new WebSocketClient("ws://localhost/ws/", false);
    c.OnOpen(true);
    c.PingTick();
    c.PongTimeoutFires(false);
    afterLoss, timersAfterLoss := c.reconnectAttempts, c.reconnectTimers;
    c.OnClose(1000, LostReason, true);
    afterClose, timersAfterClose := c.reconnectAttempts, c.reconnectTimers;
    c.ReconnectFires(0);
    c.OnOpen(true);
    afterReopen := c.reconnectAttempts;
  }

  /** A ping frame still arriving after a missed pong: once the reconnect has swapped in a
      connecting socket, answering it makes the handler throw; after the owner's `close`, the
      answer is dropped and nothing is logged. */
  method PingWhileNotOpenScenario() returns (threwWhileConnecting: bool, threwWhileClosing: bool,
                                            logged: seq<Action>, later: seq<Action>)
    ensures threwWhileConnecting && !threwWhileClosing
    ensures later == logged
  {
    var ping := Obj([("text", Str("ping"))]);
    GetByFirst(ping.entries, "text", 0);
    var parse := (raw: string) => Some(ping);
    assert Classify(Text(PingFrame), parse) == PingControl;
    var c := new WebSocketClient("ws://localhost/ws/", false);
    c.OnOpen(true);
    c.PingTick();
    c.PongTimeoutFires(false);
    c.ReconnectFires(0);
    threwWhileConnecting := c.OnMessage(Text(PingFrame), parse);
    c.OnOpen(true);
    assert !CloseRefused(c.readyState, None, None, c.native);
    var refused := c.Close(None, None);
    assert c.readyState == Closing;
    logged := c.log;
    threwWhileClosing := c.OnMessage(Text(PingFrame), parse);
    later := c.log;
  }

  /** `close` sets no flag: the close event that follows still schedules a reconnect, and the
      session then opens a new socket. */
  method ExplicitCloseScenario() returns (attempts: nat, timers: seq<nat>, state: ReadyState)
    ensures attempts == 1 && timers == [1000]
    ensures state == Connecting
  {
    var c := new WebSocketClient("ws://localhost/ws/", true);
    c.OnOpen(true);
    var refused := c.Close(None, None);
    c.OnClose(1005, "", true);
    attempts, timers := c.reconnectAttempts, c.reconnectTimers;
    c.ReconnectFires(0);
    state := c.readyState;
  }

  /** After a close and a reconnect, the new open socket is never pinged. */
  method NoPingAfterReconnectScenario() returns (before: seq<Action>, after: seq<Action>)
    ensures after == before
  {
    var c := new WebSocketClient("ws://localhost/ws/", false);
    c.OnOpen(true);
    c.OnClose(1006, "", true);
    c.ReconnectFires(0);
    c.OnOpen(true);
    before := c.log;
    c.PingTick();
    after := c.log;
  }
}
