/** The text the client puts on the wire or hands to its transports: the
    handshake request, the WebSocket upgrade path, the `Connect` and heartbeat
    frames, and the heartbeat period derived from the negotiated timeout. */
module Wire {
  import opened StringUtil

  datatype Option<T> = None | Some(value: T)

  /** The kind of socket the client was built on; only SSLTCP is secure. */
  datatype Transport = TCP | SSLTCP

  /** The parts of the handshake request the client sets. */
  datatype HttpRequest = HttpRequest(
    url: string,
    verb: string,
    uri: string,
    keepAlive: bool,
    contentLength: nat)

  const HANDSHAKE_PATH := "/socket.io/1/"
  const UPGRADE_PREFIX := "/socket.io/1/websocket/"

  /** The heartbeat packet, sent as exactly these three bytes. */
  const HEARTBEAT_FRAME := "2::"

  const INT32_MAX := 0x7FFF_FFFF

  /** The largest heartbeat timeout whose timer period in milliseconds still
      fits the `int` the client computes it in. */
  const MAX_HEARTBEAT_TIMEOUT := 2863311

  // ---------------------------------------------------------------------------
  // Handshake request
  // ---------------------------------------------------------------------------

  function Scheme(t: Transport): string
  {
    if t == SSLTCP then "https://" else "http://"
  }

  /** `host + ":" + port + "/socket.io/1/"`, the port in decimal. */
  function AuthorityAndPath(host: string, port: uint16): string
  {
    host + ":" + ToDecimal(port) + HANDSHAKE_PATH
  }

  /** `scheme + host + ":" + port + "/socket.io/1/"`. */
  function HandshakeUrl(t: Transport, host: string, port: uint16): string
  {
    Scheme(t) + AuthorityAndPath(host, port)
  }

  /** The request `sendHandshakeRequest` issues: a POST of an empty body to the
      handshake path, without keep-alive. */
  function HandshakeRequest(t: Transport, host: string, port: uint16): HttpRequest
  {
    HttpRequest(HandshakeUrl(t, host, port), "POST", HANDSHAKE_PATH, false, 0)
  }

  /** The scheme is told apart by its fifth character, so it can be stripped. */
  lemma SchemePrefix(t1: Transport, x1: string, t2: Transport, x2: string)
    requires Scheme(t1) + x1 == Scheme(t2) + x2
    ensures t1 == t2 && x1 == x2
  {
    var u := Scheme(t1) + x1;
    assert u[4] == Scheme(t1)[4] && u[4] == Scheme(t2)[4];
    assert u[|Scheme(t1)|..] == x1;
  }

  /** `host:port/socket.io/1/` gives back the host and the port: the port and
      the path hold no colon, so the last colon ends the host, whatever the
      host holds. */
  lemma AuthorityParts(h1: string, p1: uint16, h2: string, p2: uint16)
    requires AuthorityAndPath(h1, p1) == AuthorityAndPath(h2, p2)
    ensures h1 == h2 && p1 == p2
  {
    var tail1 := ToDecimal(p1) + HANDSHAKE_PATH;
    var tail2 := ToDecimal(p2) + HANDSHAKE_PATH;
    assert ':' !in tail1 && ':' !in tail2 by {
      assert forall i :: 0 <= i < |tail1| ==> tail1[i] != ':' by {
        assert forall i :: 0 <= i < |ToDecimal(p1)| ==> IsDigit(ToDecimal(p1)[i]);
      }
      assert forall i :: 0 <= i < |tail2| ==> tail2[i] != ':' by {
        assert forall i :: 0 <= i < |ToDecimal(p2)| ==> IsDigit(ToDecimal(p2)[i]);
      }
    }
    assert AuthorityAndPath(h1, p1) == h1 + [':'] + tail1;
    assert AuthorityAndPath(h2, p2) == h2 + [':'] + tail2;
    CutAtLast(h1, tail1, h2, tail2, ':');
    assert ToDecimal(p1) == tail1[..|tail1| - |HANDSHAKE_PATH|];
    assert ToDecimal(p2) == tail2[..|tail2| - |HANDSHAKE_PATH|];
  }

  /** The handshake URL names its transport, host and port unambiguously:
      different servers get different URLs, and the scheme is https exactly
      for SSLTCP. */
  lemma HandshakeUrlInjective(t1: Transport, h1: string, p1: uint16, t2: Transport, h2: string, p2: uint16)
    requires HandshakeUrl(t1, h1, p1) == HandshakeUrl(t2, h2, p2)
    ensures t1 == t2 && h1 == h2 && p1 == p2
  {
    SchemePrefix(t1, AuthorityAndPath(h1, p1), t2, AuthorityAndPath(h2, p2));
    AuthorityParts(h1, p1, h2, p2);
  }

  // ---------------------------------------------------------------------------
  // WebSocket upgrade
  // ---------------------------------------------------------------------------

  /** The request URI of the WebSocket upgrade for a session. */
  function UpgradeUri(sessionID: string): (uri: string)
    ensures |uri| == |UPGRADE_PREFIX| + |sessionID|
    ensures uri[..|UPGRADE_PREFIX|] == UPGRADE_PREFIX && uri[|UPGRADE_PREFIX|..] == sessionID
  {
    UPGRADE_PREFIX + sessionID
  }

  // ---------------------------------------------------------------------------
  // Connect frame
  // ---------------------------------------------------------------------------

  /** `"1::"`, then `"/" + endpoint` when the endpoint is non-empty, then
      `"?" + query` when the query is non-empty. */
  function ConnectFrame(endpoint: string, query: string): string
  {
    "1::" + (if endpoint != "" then "/" + endpoint else "") + (if query != "" then "?" + query else "")
  }

  /** What the server reads back from a connect frame: the endpoint (after a
      leading slash, up to the first `?`) and the query (after that `?`). */
  function ParseConnectFrame(frame: string): Option<(string, string)>
  {
    if |frame| < 3 || frame[..3] != "1::" then None
    else ParseConnectPath(frame[3..])
  }

  /** The part of a connect frame after `"1::"`. */
  function ParseConnectPath(rest: string): Option<(string, string)>
  {
    if rest == [] then Some(("", ""))
    else if rest[0] == '/' then
      var tail := rest[1..];
      var i := Find(tail, '?');
      Some((tail[..i], if i < |tail| then tail[i + 1..] else ""))
    else if rest[0] == '?' then Some(("", rest[1..]))
    else None
  }

  /** `sendConnect`'s string concatenation, one `+=` at a time. */
  method BuildConnectFrame(endpoint: string, query: string) returns (out: string)
    ensures out == ConnectFrame(endpoint, query)
  {
    out := "1::";
    if endpoint != "" {
      out := out + "/" + endpoint;
    }
    if query != "" {
      out := out + "?" + query;
    }
  }

  /** The frame carries both parts recoverably: a server parsing it gets the
      endpoint and the query back (the endpoint must not itself hold a `?`). */
  lemma ConnectFrameRoundTrip(endpoint: string, query: string)
    requires '?' !in endpoint
    ensures ParseConnectFrame(ConnectFrame(endpoint, query)) == Some((endpoint, query))
  {
    var q := if query != "" then "?" + query else "";
    var path := (if endpoint != "" then "/" + endpoint else "") + q;
    var frame := ConnectFrame(endpoint, query);
    assert frame == "1::" + path;
    assert frame[..3] == "1::" && frame[3..] == path;
    if endpoint != "" {
      EndpointPathParses(endpoint, query);
    } else if query != "" {
      assert path[0] == '?' && path[1..] == query;
    } else {
      assert path == [];
    }
  }

  /** A path with a non-empty endpoint: the first `?` ends the endpoint. */
  lemma EndpointPathParses(endpoint: string, query: string)
    requires endpoint != "" && '?' !in endpoint
    ensures ParseConnectPath("/" + endpoint + (if query != "" then "?" + query else "")) == Some((endpoint, query))
  {
    var q := if query != "" then "?" + query else "";
    var path := "/" + endpoint + q;
    var tail := endpoint + q;
    assert path[0] == '/' && path[1..] == tail;
    FindConcat(endpoint, q, '?');
    var i := Find(tail, '?');
    assert i == |endpoint| && tail[..i] == endpoint;
    if query != "" {
      assert tail[i + 1..] == query;
    }
  }

  /** The example in the comment of `sendConnect`: endpoint `test`, query `my=param`. */
  lemma ConnectFrameExample()
    ensures ConnectFrame("test", "my=param") == "1::/test?my=param"
    ensures ConnectFrame("", "") == "1::"
  {
  }

  // ---------------------------------------------------------------------------
  // Handshake protocol list
  // ---------------------------------------------------------------------------

  /** The scan over the advertised protocols, stopping at the first
      `"websocket"`. */
  method ScanForWebSocket(protocols: seq<string>) returns (wsSupported: bool)
    ensures wsSupported <==> "websocket" in protocols
  {
    wsSupported := false;
    var i := 0;
    while i < |protocols|
      invariant 0 <= i <= |protocols|
      invariant "websocket" !in protocols[..i]
    {
      if protocols[i] == "websocket" {
        wsSupported := true;
        break;
      }
      assert protocols[..i + 1] == protocols[..i] + [protocols[i]];
      i := i + 1;
    }
    assert !wsSupported ==> protocols[..i] == protocols;
  }

  /** The handshake body a server writes: session id, heartbeat timeout,
      closing timeout and the comma-separated protocols, joined by colons. */
  function HandshakeBody(sessionID: string, heartbeat: uint32, closing: uint32, protocols: seq<string>): string
  {
    sessionID + ":" + ToDecimal(heartbeat) + ":" + ToDecimal(closing) + ":" + Join(protocols, ',')
  }

  /** The client's parse of a handshake body (a four-way split on `:`, the
      timeouts read as numbers, the last field split on `,`) gives back
      exactly what the server wrote, provided the session id holds no colon
      and no protocol name holds a comma. */
  lemma HandshakeBodyRoundTrip(sessionID: string, heartbeat: uint32, closing: uint32, protocols: seq<string>)
    requires ':' !in sessionID
    requires |protocols| >= 1 && forall k :: 0 <= k < |protocols| ==> ',' !in protocols[k]
    ensures var fields := SplitN(HandshakeBody(sessionID, heartbeat, closing, protocols), ':', 4);
      |fields| == 4 && fields[0] == sessionID &&
      FromString(fields[1]) == heartbeat && FromString(fields[2]) == closing &&
      SplitAll(fields[3], ',') == protocols
  {
    var hb, cl, ps := ToDecimal(heartbeat), ToDecimal(closing), Join(protocols, ',');
    assert ':' !in hb && ':' !in cl by {
      assert forall i :: 0 <= i < |hb| ==> IsDigit(hb[i]);
      assert forall i :: 0 <= i < |cl| ==> IsDigit(cl[i]);
    }
    var t2 := cl + [':'] + ps;
    var t1 := hb + [':'] + t2;
    assert HandshakeBody(sessionID, heartbeat, closing, protocols) == sessionID + [':'] + t1;
    SplitNCons(sessionID, t1, ':', 4);
    SplitNCons(hb, t2, ':', 3);
    SplitNCons(cl, ps, ':', 2);
    assert SplitN(ps, ':', 1) == [ps];
    FromStringOfDecimal(heartbeat);
    FromStringOfDecimal(closing);
    SplitAllOfJoin(protocols, ',');
  }

  // ---------------------------------------------------------------------------
  // Heartbeat period
  // ---------------------------------------------------------------------------

  /** `static_cast<int>(h * .75) * 1000`: three quarters of the timeout in
      seconds, truncated to whole seconds before it is scaled to milliseconds. */
  function HeartbeatIntervalMs(h: uint32): (ms: int)
    ensures ms >= 0 && ms % 1000 == 0
    ensures 4 * (ms / 1000) <= 3 * h < 4 * (ms / 1000) + 4
  {
    (3 * h) / 4 * 1000
  }

  /** A timeout of one second gives a zero period; the period never exceeds
      three quarters of the timeout; and it fits the source's `int` exactly up
      to MAX_HEARTBEAT_TIMEOUT. */
  lemma HeartbeatIntervalBounds(h: uint32)
    ensures HeartbeatIntervalMs(h) == 0 <==> h <= 1
    ensures 4 * HeartbeatIntervalMs(h) <= 3000 * h
    ensures HeartbeatIntervalMs(h) <= INT32_MAX <==> h <= MAX_HEARTBEAT_TIMEOUT
  {
  }

  /** A longer timeout never gives a shorter period. */
  lemma HeartbeatIntervalMonotonic(a: uint32, b: uint32)
    requires a <= b
    ensures HeartbeatIntervalMs(a) <= HeartbeatIntervalMs(b)
  {
  }

  /** Worked periods: 8 s gives 6000 ms, 5 s gives 3000 ms, 15 s gives
      11000 ms. */
  lemma HeartbeatIntervalExamples()
    ensures HeartbeatIntervalMs(8) == 6000
    ensures HeartbeatIntervalMs(5) == 3000
    ensures HeartbeatIntervalMs(15) == 11000
  {
  }
}
