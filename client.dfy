/** The Socket.IO v0.9 client: a `Client` object that negotiates a session
    over HTTP, upgrades to a WebSocket at a session-scoped path, keeps the
    connection alive with a heartbeat timer and retries the whole negotiation
    from that timer while an error is recorded.

    The HTTP connection, the WebSocket and the timer are not modelled as I/O:
    the timer and the socket are value fields of the client that record what
    was asked of them (started, subscribed, closed, frames sent, connects
    issued), and each transport notification is a method the environment
    calls. */
module SocketIOClient {
  import opened StringUtil
  import opened Wire

  datatype ClientState = Disconnected | Connecting | Connected | Online

  /** One state-change notification: old state, new state, message. */
  datatype StateChange = StateChange(from: ClientState, to: ClientState, message: string)

  /** A host and port the WebSocket was asked to connect to. */
  datatype Endpoint = Endpoint(host: string, port: uint16)

  /** The heartbeat timer: whether it runs, whether the client's tick handler
      is attached, and its initial delay and repeat interval in milliseconds. */
  datatype Timer = Timer(running: bool, subscribed: bool, delay: int, interval: int)

  /** The WebSocket as the client sees it: whether it reports itself closed,
      the error recorded on it (empty when there is none), whether the
      client's connect/receive/error/close handlers are attached, the request
      URI set for the upgrade, the connects issued and the frames sent. */
  datatype WebSocket = WebSocket(
    closed: bool,
    error: string,
    subscribed: bool,
    requestUri: string,
    connects: seq<Endpoint>,
    sent: seq<string>)

  /** An inbound packet that decoded successfully; its contents are opaque here. */
  datatype Packet = Packet(frame: string)

  /** The two exceptions `connect` throws. */
  datatype ConnectError = AddressNotSet | AlreadyConnected

  datatype Outcome = Pass | Fail(error: ConnectError)

  const INVALID_RESPONSE := "Invalid SocketIO handshake response."
  const NO_WEBSOCKET := "The SocketIO server does not support WebSockets."

  function HttpErrorMessage(status: nat, reason: string): string
  {
    "SocketIO handshake failed: HTTP Error: " + ToDecimal(status) + " " + reason
  }

  function InvalidResponseMessage(body: string): string
  {
    if body == "" then INVALID_RESPONSE else "Invalid SocketIO handshake response: " + body
  }

  /** The checks `connect` makes after resetting the session, in their order. */
  function ConnectPrecheck(host: string, port: uint16, socketClosed: bool): Outcome
  {
    if host == "" || port == 0 then Fail(AddressNotSet)
    else if socketClosed then Fail(AlreadyConnected)
    else Pass
  }

  /** The notification log after `setState(to, message)` from state `from`:
      setting the state it already has notifies nobody. */
  function LogChange(log: seq<StateChange>, from: ClientState, to: ClientState, message: string): seq<StateChange>
  {
    if from == to then log else log + [StateChange(from, to, message)]
  }

  /** The message the state carries after `setState(to, message)` from state
      `from`: setting the state it already has keeps the old message. */
  function MessageAfter(from: ClientState, to: ClientState, current: string, message: string): string
  {
    if from == to then current else message
  }

  class Client {
    const transport: Transport
    var host: string
    var port: uint16

    // The session negotiated by the handshake.
    var sessionID: string
    var heartBeatTimeout: uint32
    var connectionClosingTimeout: uint32
    var protocols: seq<string>

    // The state, the message it carries, and every notification sent so far.
    var state: ClientState
    var stateMessage: string
    var stateChanges: seq<StateChange>

    var timer: Timer
    var socket: WebSocket

    // Handshake requests issued and inbound packets dispatched to subscribers.
    var handshakes: seq<HttpRequest>
    var received: seq<Packet>

    /** The invariant every operation keeps: a running timer has the tick
        handler attached and a period the heartbeat arithmetic can produce;
        a connected or online client has its heartbeat running; and any
        client not disconnected listens to its socket. */
    ghost predicate Valid()
      reads this`state, this`timer, this`socket
    {
      TimerValid() &&
      (state == Connected || state == Online ==> timer.running) &&
      (state != Disconnected ==> socket.subscribed)
    }

    /** The part of Valid about the timer alone. */
    ghost predicate TimerValid()
      reads this`timer
    {
      (timer.running ==> timer.subscribed) &&
      timer.delay == timer.interval &&
      0 <= timer.interval <= INT32_MAX && timer.interval % 1000 == 0
    }

    /** A client for a given server address. */
    constructor (transport: Transport, host: string, port: uint16, socketClosed: bool)
      ensures Valid()
      ensures this.transport == transport && this.host == host && this.port == port
      ensures sessionID == "" && heartBeatTimeout == 0 && connectionClosingTimeout == 0 && protocols == []
      ensures state == Disconnected && stateChanges == []
      ensures timer == Timer(false, false, 0, 0)
      ensures socket == WebSocket(socketClosed, "", false, "", [], [])
      ensures handshakes == [] && received == []
    {
      this.transport := transport;
      this.host := host;
      this.port := port;
      sessionID, heartBeatTimeout, connectionClosingTimeout, protocols := "", 0, 0, [];
      state, stateMessage, stateChanges := Disconnected, "", [];
      timer := Timer(false, false, 0, 0);
      socket := WebSocket(socketClosed, "", false, "", [], []);
      handshakes, received := [], [];
    }

    /** A client whose server address is given later, to `ConnectTo`. */
    constructor Unaddressed(transport: Transport, socketClosed: bool)
      ensures Valid()
      ensures this.transport == transport && host == "" && port == 0
      ensures sessionID == "" && heartBeatTimeout == 0 && connectionClosingTimeout == 0 && protocols == []
      ensures state == Disconnected && stateChanges == []
      ensures timer == Timer(false, false, 0, 0)
      ensures socket == WebSocket(socketClosed, "", false, "", [], [])
      ensures handshakes == [] && received == []
    {
      this.transport := transport;
      host, port := "", 0;
      sessionID, heartBeatTimeout, connectionClosingTimeout, protocols := "", 0, 0, [];
      state, stateMessage, stateChanges := Disconnected, "", [];
      timer := Timer(false, false, 0, 0);
      socket := WebSocket(socketClosed, "", false, "", [], []);
      handshakes, received := [], [];
    }

    predicate IsOnline()
      reads this
    {
      state == Online
    }

    function SessionID(): string
      reads this
    {
      sessionID
    }

    /** The error recorded on the socket; an empty message means none. */
    function ErrorMessage(): string
      reads this
    {
      socket.error
    }

    predicate HasError()
      reads this
    {
      socket.error != ""
    }

    method SetState(to: ClientState, message: string)
      modifies this`state, this`stateMessage, this`stateChanges
      ensures state == to
      ensures stateMessage == MessageAfter(old(state), to, old(stateMessage), message)
      ensures stateChanges == LogChange(old(stateChanges), old(state), to, message)
    {
      if state != to {
        stateChanges := stateChanges + [StateChange(state, to, message)];
        state, stateMessage := to, message;
      }
    }

    /** Clears the session; the recorded error is left as it is. */
    method Reset()
      modifies this`sessionID, this`heartBeatTimeout, this`connectionClosingTimeout, this`protocols
      ensures sessionID == "" && heartBeatTimeout == 0 && connectionClosingTimeout == 0 && protocols == []
    {
      sessionID := "";
      heartBeatTimeout := 0;
      connectionClosingTimeout := 0;
      protocols := [];
    }

    /** Records the error on the socket. */
    method SetError(message: string)
      modifies this`socket
      ensures socket == old(socket).(error := message)
    {
      socket := socket.(error := message);
    }

    method SendHandshakeRequest()
      modifies this`handshakes
      ensures handshakes == old(handshakes) + [HandshakeRequest(transport, host, port)]
    {
      handshakes := handshakes + [HandshakeRequest(transport, host, port)];
    }

    /** Resets the session, checks the address and the socket, then moves to
        Connecting, attaches the socket handlers and sends the handshake.
        A failed check changes nothing but the (already reset) session. */
    method Connect() returns (outcome: Outcome)
      requires Valid()
      modifies this`sessionID, this`heartBeatTimeout, this`connectionClosingTimeout, this`protocols
      modifies this`state, this`stateMessage, this`stateChanges, this`socket, this`handshakes
      ensures Valid()
      ensures sessionID == "" && heartBeatTimeout == 0 && connectionClosingTimeout == 0 && protocols == []
      ensures outcome == ConnectPrecheck(host, port, old(socket.closed))
      ensures outcome.Fail? ==>
        state == old(state) && stateMessage == old(stateMessage) && stateChanges == old(stateChanges) &&
        socket == old(socket) && handshakes == old(handshakes)
      ensures outcome.Pass? ==>
        state == Connecting && stateMessage == MessageAfter(old(state), Connecting, old(stateMessage), "") &&
        stateChanges == LogChange(old(stateChanges), old(state), Connecting, "") &&
        socket == old(socket).(subscribed := true) &&
        handshakes == old(handshakes) + [HandshakeRequest(transport, host, port)]
    {
      Reset();
      if host == "" || port == 0 {
        return Fail(AddressNotSet);
      }
      if socket.closed {
        return Fail(AlreadyConnected);
      }
      SetState(Connecting, "");
      socket := socket.(subscribed := true);
      SendHandshakeRequest();
      outcome := Pass;
    }

    /** Stores the address, then connects as `Connect` does. */
    method ConnectTo(host: string, port: uint16) returns (outcome: Outcome)
      requires Valid()
      modifies this`host, this`port
      modifies this`sessionID, this`heartBeatTimeout, this`connectionClosingTimeout, this`protocols
      modifies this`state, this`stateMessage, this`stateChanges, this`socket, this`handshakes
      ensures Valid()
      ensures this.host == host && this.port == port
      ensures sessionID == "" && heartBeatTimeout == 0 && connectionClosingTimeout == 0 && protocols == []
      ensures outcome == ConnectPrecheck(host, port, old(socket.closed))
      ensures outcome.Fail? ==>
        state == old(state) && stateMessage == old(stateMessage) && stateChanges == old(stateChanges) &&
        socket == old(socket) && handshakes == old(handshakes)
      ensures outcome.Pass? ==>
        state == Connecting && stateMessage == MessageAfter(old(state), Connecting, old(stateMessage), "") &&
        stateChanges == LogChange(old(stateChanges), old(state), Connecting, "") &&
        socket == old(socket).(subscribed := true) &&
        handshakes == old(handshakes) + [HandshakeRequest(transport, host, port)]
    {
      this.host := host;
      this.port := port;
      outcome := Connect();
    }

    /** Stops and detaches the timer, detaches the socket handlers, closes the
        socket and moves to Disconnected with the recorded error message. */
    method Close()
      requires Valid()
      modifies this`timer, this`socket, this`state, this`stateMessage, this`stateChanges
      ensures Valid()
      ensures timer == old(timer).(running := false, subscribed := false)
      ensures socket == old(socket).(subscribed := false, closed := true)
      ensures state == Disconnected && !IsOnline()
      ensures stateMessage == MessageAfter(old(state), Disconnected, old(stateMessage), old(socket.error))
      ensures stateChanges == LogChange(old(stateChanges), old(state), Disconnected, old(socket.error))
    {
      timer := timer.(subscribed := false);
      timer := timer.(running := false);
      socket := socket.(subscribed := false);
      socket := socket.(closed := true);
      OnClose();
    }

    /** Handles the HTTP handshake response (the body is what follows its
        first line). A non-200 status or a body of fewer than four
        `:`-separated fields records an error and leaves the session as it
        was; otherwise the session is stored and, exactly when "websocket" is
        among the protocols, the WebSocket is pointed at the session's path
        and asked to connect to the same host and port. */
    method OnHandshakeResponse(status: nat, reason: string, body: string)
      requires Valid()
      modifies this`sessionID, this`heartBeatTimeout, this`connectionClosingTimeout, this`protocols, this`socket
      ensures Valid()
      ensures if status != 200 then
          sessionID == old(sessionID) && heartBeatTimeout == old(heartBeatTimeout) &&
          connectionClosingTimeout == old(connectionClosingTimeout) && protocols == old(protocols) &&
          socket == old(socket).(error := HttpErrorMessage(status, reason))
        else if |SplitN(body, ':', 4)| < 4 then
          sessionID == old(sessionID) && heartBeatTimeout == old(heartBeatTimeout) &&
          connectionClosingTimeout == old(connectionClosingTimeout) && protocols == old(protocols) &&
          socket == old(socket).(error := InvalidResponseMessage(body))
        else
          var fields := SplitN(body, ':', 4);
          sessionID == fields[0] &&
          heartBeatTimeout == FromString(fields[1]) &&
          connectionClosingTimeout == FromString(fields[2]) &&
          protocols == SplitAll(fields[3], ',') &&
          socket == if "websocket" in protocols
            then old(socket).(requestUri := UpgradeUri(fields[0]), connects := old(socket.connects) + [Endpoint(host, port)])
            else old(socket).(error := NO_WEBSOCKET)
    {
      if status != 200 {
        SetError(HttpErrorMessage(status, reason));
        return;
      }
      var respData := SplitN(body, ':', 4);
      if |respData| < 4 {
        SetError(InvalidResponseMessage(body));
        return;
      }
      StoreSession(respData);

      var wsSupported := ScanForWebSocket(protocols);
      if !wsSupported {
        SetError(NO_WEBSOCKET);
        return;
      }
      socket := socket.(requestUri := UpgradeUri(sessionID));
      socket := socket.(connects := socket.connects + [Endpoint(host, port)]);
    }

    /** Stores the four handshake fields: the session id as is, both
        timeouts read as numbers and the protocols split at commas. */
    method StoreSession(respData: seq<string>)
      requires |respData| >= 4
      modifies this`sessionID, this`heartBeatTimeout, this`connectionClosingTimeout, this`protocols
      ensures sessionID == respData[0]
      ensures heartBeatTimeout == FromString(respData[1]) && connectionClosingTimeout == FromString(respData[2])
      ensures protocols == SplitAll(respData[3], ',')
    {
      sessionID := respData[0];
      heartBeatTimeout := FromString(respData[1]);
      connectionClosingTimeout := FromString(respData[2]);
      protocols := SplitAll(respData[3], ',');
    }

    /** Sends `"1::" [/endpoint] [?query]`. */
    method SendConnect(endpoint: string, query: string)
      modifies this`socket
      ensures socket == old(socket).(sent := old(socket.sent) + [ConnectFrame(endpoint, query)])
    {
      var out := BuildConnectFrame(endpoint, query);
      socket := socket.(sent := socket.sent + [out]);
    }

    /** Sends the three bytes `"2::"`. */
    method SendHeartbeat()
      modifies this`socket
      ensures socket == old(socket).(sent := old(socket.sent) + [HEARTBEAT_FRAME])
    {
      socket := socket.(sent := socket.sent + [HEARTBEAT_FRAME]);
    }

    /** Moves to Connected, then attaches the tick handler and starts the timer
        with delay and interval both `trunc(0.75 * timeout) * 1000` ms. */
    method OnConnect()
      requires Valid() && socket.subscribed
      requires 0 < heartBeatTimeout <= MAX_HEARTBEAT_TIMEOUT
      modifies this`state, this`stateMessage, this`stateChanges, this`timer
      ensures Valid()
      ensures state == Connected && stateMessage == MessageAfter(old(state), Connected, old(stateMessage), "")
      ensures stateChanges == LogChange(old(stateChanges), old(state), Connected, "")
      ensures timer == Timer(true, true, HeartbeatIntervalMs(heartBeatTimeout), HeartbeatIntervalMs(heartBeatTimeout))
    {
      SetState(Connected, "");
      var interval := HeartbeatIntervalMs(heartBeatTimeout);
      HeartbeatIntervalBounds(heartBeatTimeout);
      timer := timer.(subscribed := true);
      timer := Timer(true, true, interval, interval);
    }

    method OnOnline()
      requires Valid() && socket.subscribed
      requires timer.running
      modifies this`state, this`stateMessage, this`stateChanges
      ensures Valid()
      ensures state == Online && IsOnline()
      ensures stateMessage == MessageAfter(old(state), Online, old(stateMessage), "")
      ensures stateChanges == LogChange(old(stateChanges), old(state), Online, "")
    {
      SetState(Online, "");
    }

    /** Moves to Disconnected carrying the recorded error message; the timer is
        left running so that its ticks keep retrying. */
    method OnClose()
      requires TimerValid()
      modifies this`state, this`stateMessage, this`stateChanges
      ensures Valid()
      ensures state == Disconnected && !IsOnline()
      ensures stateMessage == MessageAfter(old(state), Disconnected, old(stateMessage), socket.error)
      ensures stateChanges == LogChange(old(stateChanges), old(state), Disconnected, socket.error)
    {
      SetState(Disconnected, socket.error);
    }

    /** The WebSocket connected: Connected, heartbeat started, then Online. */
    method OnSocketConnect()
      requires Valid() && socket.subscribed
      requires 0 < heartBeatTimeout <= MAX_HEARTBEAT_TIMEOUT
      modifies this`state, this`stateMessage, this`stateChanges, this`timer
      ensures Valid()
      ensures state == Online && IsOnline() && stateMessage == ""
      ensures stateChanges == LogChange(LogChange(old(stateChanges), old(state), Connected, ""), Connected, Online, "")
      ensures timer == Timer(true, true, HeartbeatIntervalMs(heartBeatTimeout), HeartbeatIntervalMs(heartBeatTimeout))
    {
      OnConnect();
      OnOnline();
    }

    method OnSocketError(message: string)
      requires Valid() && socket.subscribed
      modifies this`socket
      ensures Valid()
      ensures socket == old(socket).(error := message)
    {
      SetError(message);
    }

    /** The WebSocket closed: the socket now reports itself closed, and the
        client moves to Disconnected with the recorded error message. The
        handlers stay attached and the timer keeps running. */
    method OnSocketClose()
      requires Valid() && socket.subscribed
      modifies this`socket, this`state, this`stateMessage, this`stateChanges
      ensures Valid()
      ensures socket == old(socket).(closed := true)
      ensures state == Disconnected && !IsOnline()
      ensures stateMessage == MessageAfter(old(state), Disconnected, old(stateMessage), socket.error)
      ensures stateChanges == LogChange(old(stateChanges), old(state), Disconnected, socket.error)
    {
      socket := socket.(closed := true);
      OnClose();
    }

    /** An inbound frame: dispatched when it decoded, dropped otherwise. */
    method OnSocketRecv(decoded: Option<Packet>)
      requires Valid() && socket.subscribed
      modifies this`received
      ensures received == if decoded.Some? then old(received) + [decoded.value] else old(received)
    {
      if decoded.Some? {
        received := received + [decoded.value];
      }
    }

    /** A timer tick: always sends a heartbeat; when an error is recorded it
        also runs `Connect`, whose failure is swallowed. The tick itself
        never fails and never touches the timer. */
    method OnHeartBeatTimer()
      requires Valid() && timer.running && timer.subscribed
      modifies this`sessionID, this`heartBeatTimeout, this`connectionClosingTimeout, this`protocols
      modifies this`state, this`stateMessage, this`stateChanges, this`socket, this`handshakes
      ensures Valid()
      ensures timer == old(timer)
      ensures socket.sent == old(socket.sent) + [HEARTBEAT_FRAME]
      ensures old(socket.error) == "" ==>
        sessionID == old(sessionID) && heartBeatTimeout == old(heartBeatTimeout) &&
        connectionClosingTimeout == old(connectionClosingTimeout) && protocols == old(protocols) &&
        state == old(state) && stateMessage == old(stateMessage) && stateChanges == old(stateChanges) &&
        socket == old(socket).(sent := old(socket.sent) + [HEARTBEAT_FRAME]) && handshakes == old(handshakes)
      ensures old(socket.error) != "" ==>
        sessionID == "" && heartBeatTimeout == 0 && connectionClosingTimeout == 0 && protocols == [] &&
        if ConnectPrecheck(host, port, old(socket.closed)).Pass? then
          state == Connecting && stateMessage == MessageAfter(old(state), Connecting, old(stateMessage), "") &&
          stateChanges == LogChange(old(stateChanges), old(state), Connecting, "") &&
          socket == old(socket).(sent := old(socket.sent) + [HEARTBEAT_FRAME], subscribed := true) &&
          handshakes == old(handshakes) + [HandshakeRequest(transport, host, port)]
        else
          state == old(state) && stateMessage == old(stateMessage) && stateChanges == old(stateChanges) &&
          socket == old(socket).(sent := old(socket.sent) + [HEARTBEAT_FRAME]) && handshakes == old(handshakes)
    {
      SendHeartbeat();
      if HasError() {
        var _ := Connect();
      }
    }
  }

  // ---------------------------------------------------------------------------
  // Sessions of the client, as a caller drives them
  // ---------------------------------------------------------------------------

  /** A fresh client for a usable address connects: it is Connecting, listens
      to its still open socket and has issued exactly one handshake request. */
  method ConnectScenario(host: string, port: uint16) returns (c: Client)
    requires host != "" && port != 0
    ensures fresh(c) && c.Valid() && c.host == host && c.port == port
    ensures c.state == Connecting && c.stateChanges == [StateChange(Disconnected, Connecting, "")]
    ensures c.sessionID == "" && c.heartBeatTimeout == 0 && c.connectionClosingTimeout == 0 && c.protocols == []
    ensures c.socket == WebSocket(false, "", true, "", [], [])
    ensures c.handshakes == [HandshakeRequest(TCP, host, port)]
  {
    c := new Client(TCP, host, port, false);
    var r := c.Connect();
  }

  /** A fresh client connects and receives the body a server writes for a
      session: the session is stored as written, and the WebSocket is pointed
      at the session's path and connected to the same host and port exactly
      when the server offers "websocket"; otherwise only an error is recorded. */
  method HandshakeScenario(host: string, port: uint16, sid: string, heartbeat: uint32, closing: uint32, protocols: seq<string>)
    returns (c: Client)
    requires host != "" && port != 0
    requires ':' !in sid
    requires |protocols| >= 1 && forall k :: 0 <= k < |protocols| ==> ',' !in protocols[k]
    ensures fresh(c) && c.Valid() && c.state == Connecting && c.host == host && c.port == port
    ensures c.handshakes == [HandshakeRequest(TCP, host, port)] && c.socket.sent == [] && !c.socket.closed
    ensures c.sessionID == sid && c.heartBeatTimeout == heartbeat && c.connectionClosingTimeout == closing
    ensures c.protocols == protocols
    ensures "websocket" in protocols ==>
      c.socket.requestUri == UpgradeUri(sid) && c.socket.connects == [Endpoint(host, port)] && !c.HasError()
    ensures "websocket" !in protocols ==> c.socket.connects == [] && c.ErrorMessage() == NO_WEBSOCKET
  {
    c := ConnectScenario(host, port);
    var body := HandshakeBody(sid, heartbeat, closing, protocols);
    HandshakeBodyRoundTrip(sid, heartbeat, closing, protocols);
    ghost var fields := SplitN(body, ':', 4);
    assert |fields| == 4 && fields[0] == sid && SplitAll(fields[3], ',') == protocols;
    c.OnHandshakeResponse(200, "OK", body);
  }

  /** Once the socket connects the client is online and its heartbeat runs
      with the period derived from the negotiated timeout. */
  method OnlineScenario(host: string, port: uint16, sid: string, heartbeat: uint32, protocols: seq<string>)
    returns (c: Client)
    requires host != "" && port != 0
    requires ':' !in sid && 0 < heartbeat <= MAX_HEARTBEAT_TIMEOUT && "websocket" in protocols
    requires forall k :: 0 <= k < |protocols| ==> ',' !in protocols[k]
    ensures fresh(c) && c.Valid() && c.IsOnline() && !c.HasError() && c.host == host && c.port == port
    ensures c.handshakes == [HandshakeRequest(TCP, host, port)] && c.socket.sent == [] && !c.socket.closed
    ensures c.timer == Timer(true, true, HeartbeatIntervalMs(heartbeat), HeartbeatIntervalMs(heartbeat))
  {
    c := HandshakeScenario(host, port, sid, heartbeat, 0, protocols);
    c.OnSocketConnect();
  }

  /** An online client whose socket fails: the error and the socket's close
      take it to Disconnected, and the next heartbeat tick sends `2::` and
      retries `connect`, which the now closed socket refuses. The client stays
      Disconnected with its timer running, no new handshake is sent, and the
      session id, both timeouts and the protocol list are cleared. */
  method ErrorCloseTickScenario(host: string, port: uint16, sid: string, heartbeat: uint32, protocols: seq<string>, message: string)
    returns (c: Client)
    requires host != "" && port != 0
    requires ':' !in sid && 0 < heartbeat <= MAX_HEARTBEAT_TIMEOUT && "websocket" in protocols
    requires forall k :: 0 <= k < |protocols| ==> ',' !in protocols[k]
    requires message != ""
    ensures fresh(c) && c.Valid() && c.host == host && c.port == port
    ensures c.state == Disconnected && c.stateMessage == message
    ensures |c.stateChanges| >= 1 && c.stateChanges[|c.stateChanges| - 1] == StateChange(Online, Disconnected, message)
    ensures c.timer.running && c.socket.closed && c.ErrorMessage() == message
    ensures c.handshakes == [HandshakeRequest(TCP, host, port)] && c.socket.sent == [HEARTBEAT_FRAME]
    ensures c.sessionID == "" && c.heartBeatTimeout == 0 && c.connectionClosingTimeout == 0 && c.protocols == []
  {
    c := OnlineScenario(host, port, sid, heartbeat, protocols);
    c.OnSocketError(message);
    c.OnSocketClose();
    c.OnHeartBeatTimer();
  }

  /** Closing twice notifies once, and the closed socket then refuses a new
      `connect`. */
  method CloseTwiceScenario(host: string, port: uint16) returns (c: Client, outcome: Outcome)
    requires host != "" && port != 0
    ensures fresh(c) && c.Valid() && c.host == host && c.port == port
    ensures c.state == Disconnected && c.socket.closed && !c.timer.running
    ensures c.stateChanges == [StateChange(Disconnected, Connecting, ""), StateChange(Connecting, Disconnected, "")]
    ensures outcome == Fail(AlreadyConnected) && c.handshakes == [HandshakeRequest(TCP, host, port)]
  {
    c := ConnectScenario(host, port);
    c.Close();
    c.Close();
    outcome := c.Connect();
  }
}
