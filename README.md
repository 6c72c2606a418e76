# Socket.IO 0.9 client, modelled in Dafny

This project models the `sockio::Client` class of the libsourcey Socket.IO
module (`src/SocketIO/src/Client.cpp`). The client speaks the Socket.IO 0.9
protocol. To connect, it sends an HTTP POST handshake to
`/socket.io/1/`, where the server hands out a session. The body of the
response is `sid:heartbeat:closing:protocols`. If the server offers
`websocket`, the client upgrades to a WebSocket at
`/socket.io/1/websocket/<sid>`. Once that socket connects, the client moves
Disconnected → Connecting → Connected → Online. From then on a heartbeat timer
sends `2::` every three quarters of the negotiated timeout, and while an error
is recorded on the socket every tick also retries `connect()`.

The project has three files:

- `strings.dfy` (module `StringUtil`): the text utilities the client calls.
  - `util::split`, with and without a limit.
  - `util::fromString<UInt32>`.
  - The decimal rendering that `ostringstream << port` performs.
  - Facts proved about them: split undoes join, and a rendered number reads back as itself.
- `wire.dfy` (module `Wire`): everything the client puts on the wire.
  - The handshake URL and request.
  - The WebSocket upgrade URI.
  - The `1::[/endpoint][?query]` connect frame and the `2::` heartbeat.
  - The scan of the protocol list.
  - The heartbeat period.
  - The round trip from a server's handshake body through the client's parse.
- `client.dfy` (module `SocketIOClient`): the `Client` class.
  - Its fields (address, session, state, timer, socket) are updated in place by its methods.
  - The HTTP connection, the WebSocket and the libuv timer are value fields that record what was asked of them: started, attached, closed, frames sent, connects issued.
  - Every transport callback is a method the environment calls.
  - `Valid()` is the invariant all operations keep:
    - a running timer has its handler attached and a period the heartbeat arithmetic can produce;
    - a Connected or Online client has its heartbeat running;
    - a client that is not Disconnected listens to its socket.

Once the socket's close callback has run, the socket reports itself closed. From then on, every `connect()` attempted by a heartbeat tick is refused by the already-connected check (lines 75-76) and swallowed (lines 429-431). The client stays Disconnected with its timer ticking (`ErrorCloseTickScenario`).

`IsOnline`, `SessionID` and `ErrorMessage` are the accessors `isOnline`,
`sessionID` and `error` (lines 303-321). `HasError` is `error().any()`.

Two behaviours of the code are worth spelling out:

- On a failed handshake (a non-200 status, a short body, no `websocket`), `onHandshakeResponse` itself only records an error on the socket and leaves the state unchanged. The return to Disconnected happens only when the socket's close callback follows the error (lines 339-340, 392-395). The model represents that callback as the separate call `OnSocketClose`.
- A timeout field that is not a number is not an error: the client stores whatever `fromString` returns for it (0 for text that is not a number).

## Model

| member | source | states |
|---|---|---|
| StringUtil.Find | src/SocketIO/src/Client.cpp:163 | The first index of the separator, or the length when there is none: no earlier position holds it, and the returned one does. |
| StringUtil.FindConcat | src/SocketIO/src/Client.cpp:163 | If the first part has no separator, the first separator of a concatenation lies past the whole of that first part. |
| StringUtil.CutAtFirst | src/SocketIO/src/Client.cpp:163 | Cutting `p:t` at its first separator gives back exactly `p` and `t` when `p` has no separator. |
| StringUtil.CutAtLast | src/SocketIO/src/Client.cpp:119 | If `p:t` has a separator-free `t`, cutting it at its last separator gives back exactly `p` and `t`, whatever `p` holds. |
| StringUtil.SplitAll | src/SocketIO/src/Client.cpp:174 | The unlimited split of the protocol list gives at least one piece, no piece holds the separator, and joining the pieces gives back the input. |
| StringUtil.SplitAllOfJoin | src/SocketIO/src/Client.cpp:174 | Splitting undoes joining: a non-empty list of separator-free names comes back unchanged. |
| StringUtil.SplitAllCons | src/SocketIO/src/Client.cpp:174 | Splitting `p,t` with a separator-free `p` gives `p` followed by the split of `t`. |
| StringUtil.SplitN | src/SocketIO/src/Client.cpp:163 | The four-way split of the handshake body gives between 1 and `limit` pieces. Every piece but the last is separator-free, and so is the last when fewer than `limit` came out. Joining gives back the input. |
| StringUtil.SplitNCons | src/SocketIO/src/Client.cpp:163 | A limited split of `p:t` with a separator-free `p` yields `p` followed by the split of `t` with one less piece allowed. |
| StringUtil.ToDecimal | src/SocketIO/src/Client.cpp:118-120 | The port as a stream writes it: at least one digit, digits only, no leading zero (a leading `0` only in `"0"` itself), denoting the number. |
| StringUtil.FromStringOfDecimal | src/SocketIO/src/Client.cpp:172-173 | Reading a rendered 32-bit number with `fromString<UInt32>` gives the number back. |
| Wire.SchemePrefix | src/SocketIO/src/Client.cpp:118 | `http://` and `https://` can be told apart and stripped from the front of a URL. |
| Wire.AuthorityParts | src/SocketIO/src/Client.cpp:119-120 | `host:port/socket.io/1/` gives back the host and the port for any host, colons included, because the port and the path hold no colon. |
| Wire.HandshakeUrlInjective | src/SocketIO/src/Client.cpp:117-120 | The handshake URL determines the transport (https exactly for SSLTCP), the host and the port, for every host. |
| Wire.UpgradeUri | src/SocketIO/src/Client.cpp:204 | The upgrade URI is `/socket.io/1/websocket/` followed by the session id, which can be read back from after the prefix. |
| Wire.BuildConnectFrame | src/SocketIO/src/Client.cpp:222-228 | The `+=` construction of the connect frame yields `1::`, then `/endpoint` if there is an endpoint, then `?query` if there is a query. |
| Wire.ConnectFrameRoundTrip | src/SocketIO/src/Client.cpp:212-229 | A server parsing the connect frame gets back the endpoint and the query, provided the endpoint holds no `?`. |
| Wire.EndpointPathParses | src/SocketIO/src/Client.cpp:218-221 | After `1::`, a path `/endpoint` with an optional `?query` reads back as that endpoint and query when the endpoint holds no `?`. |
| Wire.ConnectFrameExample | src/SocketIO/src/Client.cpp:218-221 | Endpoint `test` with query `my=param` gives `1::/test?my=param`. No endpoint and no query give `1::`. |
| Wire.ScanForWebSocket | src/SocketIO/src/Client.cpp:176-184 | The scan reports support exactly when `"websocket"` is one of the advertised protocols. |
| Wire.HandshakeBodyRoundTrip | src/SocketIO/src/Client.cpp:160-174 | The client's parse recovers exactly what the server wrote. The body splits into four fields, the session id comes back, both timeouts read back as written, and the protocol list splits back into the same names. This needs a colon-free session id and comma-free protocol names. |
| Wire.HeartbeatIntervalMs | src/SocketIO/src/Client.cpp:354 | The period is a non-negative whole number of seconds in milliseconds. It is `0.75 × timeout` truncated to whole seconds: `4·secs ≤ 3·h < 4·secs + 4`. |
| Wire.HeartbeatIntervalBounds | src/SocketIO/src/Client.cpp:354-356 | The period is zero exactly when the timeout is at most 1 s and never exceeds three quarters of the timeout. It fits in `int` exactly when the timeout is at most 2863311 s. |
| Wire.HeartbeatIntervalMonotonic | src/SocketIO/src/Client.cpp:354 | A longer timeout never gives a shorter heartbeat period. |
| Wire.HeartbeatIntervalExamples | src/SocketIO/src/Client.cpp:354 | Timeouts of 8, 5 and 15 s give periods of 6000, 3000 and 11000 ms. |
| SocketIOClient.Client.constructor | src/SocketIO/src/Client.cpp:39-46 | A client built for an address holds that address, an empty session, Disconnected state, a stopped timer and a detached socket. |
| SocketIOClient.Client.Unaddressed | src/SocketIO/src/Client.cpp:31-36 | A client built without an address has empty host and port 0, and otherwise starts as the addressed constructor does. |
| SocketIOClient.Client.SetState | src/SocketIO/src/Client.cpp:78 | Sets the state. The message and a new notification are taken only when the state actually changes; otherwise the old message stays. |
| SocketIOClient.Client.Reset | src/SocketIO/src/Client.cpp:324-332 | Clears the session id, both timeouts and the protocol list. The recorded error is not touched. |
| SocketIOClient.Client.SetError | src/SocketIO/src/Client.cpp:335-341 | Records the error on the socket and changes nothing else about it. |
| SocketIOClient.Client.SendHandshakeRequest | src/SocketIO/src/Client.cpp:111-134 | Issues one request: a POST to the scheme/host/port handshake URL with URI `/socket.io/1/`, no keep-alive and content length 0. |
| SocketIOClient.Client.Connect | src/SocketIO/src/Client.cpp:66-86 | Always resets the session. It fails with AddressNotSet on an empty host or port 0, otherwise with AlreadyConnected when the socket reports closed; a failure changes nothing else. Otherwise it moves to Connecting, attaches the socket handlers and issues exactly one handshake request. `Valid` is kept. |
| SocketIOClient.Client.ConnectTo | src/SocketIO/src/Client.cpp:55-63 | Stores the given host and port, then behaves exactly as `Connect` on them. |
| SocketIOClient.Client.Close | src/SocketIO/src/Client.cpp:89-108 | Stops the timer and detaches its handler. Detaches the socket handlers and closes the socket. Ends Disconnected and not online. Only if it was not already Disconnected does it take the recorded error message and notify. |
| SocketIOClient.Client.OnHandshakeResponse | src/SocketIO/src/Client.cpp:137-206 | A non-200 status records `HTTP Error: <status> <reason>`, and a body with fewer than four fields records the invalid-response message; both leave the session unchanged. Otherwise the four fields are stored as parsed. The socket gets the session's upgrade URI and one connect to the client's host and port exactly when `"websocket"` is offered; otherwise only the no-WebSocket error is recorded. |
| SocketIOClient.Client.StoreSession | src/SocketIO/src/Client.cpp:171-174 | Stores the four handshake fields: the session id as sent, both timeouts as `fromString<UInt32>` reads them and the protocol list cut at every comma. Nothing else changes. |
| SocketIOClient.Client.SendConnect | src/SocketIO/src/Client.cpp:212-229 | Sends exactly one frame, the connect frame for the endpoint and query, and nothing else on the socket changes. |
| SocketIOClient.Client.SendHeartbeat | src/SocketIO/src/Client.cpp:273-277 | Sends exactly the frame `2::` and nothing else on the socket changes. |
| SocketIOClient.Client.OnConnect | src/SocketIO/src/Client.cpp:344-357 | Moves to Connected, attaches the tick handler and starts the timer with delay and repeat both equal to the heartbeat period of the negotiated timeout. |
| SocketIOClient.Client.OnOnline | src/SocketIO/src/Client.cpp:360-364 | Moves to Online and keeps `Valid`. |
| SocketIOClient.Client.OnClose | src/SocketIO/src/Client.cpp:367-373 | Moves to Disconnected, carrying the recorded error message, and leaves the timer alone so its ticks keep retrying. |
| SocketIOClient.Client.OnSocketConnect | src/SocketIO/src/Client.cpp:376-383 | Ends Online with the heartbeat running at the negotiated period. Notifies the change to Connected (if any), then Connected → Online. |
| SocketIOClient.Client.OnSocketError | src/SocketIO/src/Client.cpp:386-389 | Records the socket's error and keeps `Valid`. |
| SocketIOClient.Client.OnSocketClose | src/SocketIO/src/Client.cpp:392-395 | The socket now reports itself closed; its handlers stay attached and the timer keeps running. The client moves to Disconnected, taking the recorded error message and notifying if it was not already Disconnected. |
| SocketIOClient.Client.OnSocketRecv | src/SocketIO/src/Client.cpp:398-414 | A frame that decodes is dispatched to the packet subscribers once; one that does not is dropped. |
| SocketIOClient.Client.OnHeartBeatTimer | src/SocketIO/src/Client.cpp:417-433 | Every tick sends exactly one `2::`, whatever the state, and never touches the timer. With no recorded error nothing else changes, the state message included. With a recorded error it runs `connect()`: the session is reset, and a successful check also moves to Connecting and reissues the handshake. A failed `connect()` is swallowed and leaves the state unchanged. |
| SocketIOClient.ConnectScenario | src/SocketIO/src/Client.cpp:66-86 | A fresh client for a usable address that connects is Connecting, with one notification, an empty session and exactly one handshake request. Its socket is open and listened to, with no error, no connect and no frame sent. |
| SocketIOClient.HandshakeScenario | src/SocketIO/src/Client.cpp:137-206 | A fresh client that connects and receives a server's handshake body stores the session exactly as written. It asks the WebSocket to connect to its own host and port at the session's upgrade path exactly when `websocket` is offered; otherwise it records the no-WebSocket error. |
| SocketIOClient.OnlineScenario | src/SocketIO/src/Client.cpp:376-383 | After such a handshake and the socket's connect, the client is online and its heartbeat runs at the negotiated period. |
| SocketIOClient.ErrorCloseTickScenario | src/SocketIO/src/Client.cpp:417-433 | An online client then hits a socket error, a socket close and one heartbeat tick. It ends Disconnected, carrying the error, with its timer running and its address kept. Exactly one `2::` has been sent and no second handshake has gone out. The session id, both timeouts and the protocol list are cleared. |
| SocketIOClient.CloseTwiceScenario | src/SocketIO/src/Client.cpp:89-108 | Connecting and then closing twice gives exactly two notifications, Disconnected → Connecting and Connecting → Disconnected. A later `connect()` fails with AlreadyConnected. |

## Left out

- The HTTP connection, the WebSocket and the libuv timer are not modelled as I/O. They are value fields recording what was asked of them. Their callbacks are methods the environment calls, one at a time.
- Delegate attachment (`+=`/`-=`) is a flag. Attaching the same handler twice over repeated `connect()` calls is not distinguished from attaching it once.
- Mutexes are left out, and so is concurrency in general: the commented-out locks are not modelled, and every callback is taken to run alone.
- Packet encoding and decoding (`sockio::Packet`) is not part of this model. `OnSocketRecv` takes the result of decoding as an `Option<Packet>`.
- The `send`/`emit` overloads (lines 233-264) and `createTransaction` (lines 267-270) are not modelled, since they only hand packets to the packet and transaction code. The same goes for the `loop` and `socket` accessors (lines 280-300) and the destructor (lines 49-52).
- `SocketIOClient.Client.SendConnect`, `SocketIOClient.Client.SendHeartbeat`: the byte counts the socket's `send` returns are not modelled, so these methods return nothing.
- Logging is left out. Error texts are kept where the client composes them itself.
- `Buffer::skipToNextLine` is left out: `OnHandshakeResponse` receives the body that follows the first line.
- The implementations of `util::split` and `util::fromString` are not shown; the model defines them (`SplitAll`, `SplitN`, `FromString`) as follows.
  - `util::split` is taken to cut at every separator and keep empty pieces; with a limit, the remainder is left unsplit in the last piece.
  - `fromString<UInt32>` is taken to read a non-empty digit string as its value, saturated at the largest UInt32, and any other text as 0.
- `Stateful::setState` is not part of this model. It is taken to set the state and to notify only when the state changes.
- `http::WebSocket::setError` is not part of this model. It is taken to record the error. Any closure it causes reaches the client as a separate `OnSocketClose` call. `HasError` means the recorded message is non-empty.
- The constructors leave `_heartBeatTimeout` and `_connectionClosingTimeout` uninitialised in the source, and the address-less constructor (lines 31-36) leaves `_port` uninitialised as well. The model starts all of them at 0.
- `SocketIOClient.Client.OnConnect`, `SocketIOClient.Client.OnSocketConnect`: these require the heartbeat timeout to be positive (the source asserts it) and at most 2863311 s. Above that bound, the source's `int` period overflows and the timer is started with an undefined value, which is not modelled.
- `SocketIOClient.Client.OnConnect`: with a 1 s timeout the period is 0, and the source calls `_timer.start(0, 0)`. A libuv timer with a repeat of 0 fires once and stops. The model records the timer as running and lets its ticks continue. It does not capture the timer stopping by itself.
- The 0.75 multiplication is done in floating point in the source. It is modelled as the integer `(3·h) div 4`, which equals the truncated product for every 32-bit timeout.
- Everything in `Client.cpp` after line 437 is not part of this model. It is commented-out dead code: a synchronous version of the handshake, old timer teardown and a copy of an older socket class.
