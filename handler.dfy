/**
 * The server side of the WebSocket opening handshake (section 4.2 of
 * RFC 6455) as the `WebSocket` endpoint and middleware perform it: decide
 * whether a request asks for an upgrade, answer a good one with 101
 * Switching Protocols and an accept key, and spawn a task that runs the
 * application's handler once the HTTP layer releases the transport.
 */
module Handler {
  import opened Wrappers
  import opened Http
  import opened Tungstenite
  import Ascii

  /** The fixed GUID of section 1.3 of RFC 6455. */
  const WEBSOCKET_GUID: string := "258EAFA5-E914-47DA-95CA-C5AB0DC85B11"

  const SEC_WEBSOCKET_KEY: string := "Sec-Websocket-Key"
  const SEC_WEBSOCKET_ACCEPT: string := "Sec-Websocket-Accept"
  const SEC_WEBSOCKET_VERSION: string := "Sec-Websocket-Version"

  /** Messages of the two errors made with `format_err!`. */
  const MISSING_KEY_MESSAGE: string := "expected sec-websocket-key"
  const NO_UPGRADE_MESSAGE: string := "never received an upgrade!"

  /** SHA-1 (over the UTF-8 bytes of its input) and base64 encoding, both
      foreign to the crate and left uninterpreted. */
  datatype Crypto = Crypto(sha1: string -> seq<byte>, base64: seq<byte> -> string)

  /**
   * `header_eq_ignore_case`: the named header is present and its WHOLE value
   * equals `value` under ASCII case folding. No splitting into a token list
   * and no trimming takes place.
   */
  function HeaderEqIgnoreCase<T>(req: Request<T>, name: string, value: string): (r: bool)
    ensures Header(req.headers, name).None? ==> !r
    ensures Header(req.headers, name).Some? ==>
              (r <==> Ascii.Lower(Header(req.headers, name).value) == Ascii.Lower(value))
  {
    match Header(req.headers, name)
    case Some(h) => Ascii.EqIgnoreCaseIffLowerEq(h, value); Ascii.EqIgnoreCase(h, value)
    case None => false
  }

  /** The upgrade test of `handle_upgrade`: `Connection` is "upgrade" and
      `Upgrade` is "websocket", both compared whole and case-insensitively. */
  predicate IsUpgradeRequest<S>(req: Request<S>)
  {
    HeaderEqIgnoreCase(req, CONNECTION, "upgrade") && HeaderEqIgnoreCase(req, UPGRADE, "websocket")
  }

  /** `base64(SHA1(key ++ GUID))`, with the key exactly as the client sent it. */
  function AcceptKey(crypto: Crypto, key: string): string
  {
    crypto.base64(crypto.sha1(key + WEBSOCKET_GUID))
  }

  /** The 101 reply: exactly these four headers and nothing else. */
  function SwitchingProtocols(accept: string): Response
  {
    Response(SWITCHING_PROTOCOLS, map[
      Key(UPGRADE) := "websocket",
      Key(CONNECTION) := "Upgrade",
      Key(SEC_WEBSOCKET_ACCEPT) := accept,
      Key(SEC_WEBSOCKET_VERSION) := "13"])
  }

  /** What an upgrade request is answered with: an error when the key is
      missing, otherwise the 101 reply carrying the accept key. */
  function Handshake<S>(req: Request<S>, crypto: Crypto): Result<Response, Error>
  {
    match Header(req.headers, SEC_WEBSOCKET_KEY)
    case None => Err(FormatErr(MISSING_KEY_MESSAGE))
    case Some(key) => Ok(SwitchingProtocols(AcceptKey(crypto, key)))
  }

  /** `UpgradeStatus`: a handled upgrade (good or bad), or the request handed back. */
  datatype UpgradeStatus<S> = Upgraded(result: Result<Response, Error>) | NotUpgraded(req: Request<S>)

  /** The spawned background task: it owns the moved request (and a clone of
      the handler, passed to `RunTask`). */
  datatype Task<S> = Task(req: Request<S>)

  /** `WebSocketConnection::new(stream)`: the handle given to the handler. */
  datatype WebSocketConnection = WebSocketConnection(stream: WebSocketStream)

  /** One call of the application's handler, with its arguments. */
  datatype Invocation<S> = Invocation(req: Request<S>, conn: WebSocketConnection)

  /** What running the spawned task did: the handler calls it made and its result. */
  datatype TaskRun<S> = TaskRun(invocations: seq<Invocation<S>>, result: Result<(), Error>)

  /**
   * `handle_upgrade`: the upgrade test comes first, then the key; the 101
   * reply is built by four header insertions on a fresh response.
   */
  method HandleUpgrade<S>(req: Request<S>, crypto: Crypto) returns (status: UpgradeStatus<S>, task: Option<Task<S>>)
    ensures !IsUpgradeRequest(req) ==> status == NotUpgraded(req) && task == None
    ensures IsUpgradeRequest(req) ==> status == Upgraded(Handshake(req, crypto))
    ensures task.Some? <==> IsUpgradeRequest(req) && Handshake(req, crypto).Ok?
    ensures task.Some? ==> task.value.req == req
  {
    var connectionUpgrade := HeaderEqIgnoreCase(req, CONNECTION, "upgrade");
    var upgradeToWebsocket := HeaderEqIgnoreCase(req, UPGRADE, "websocket");
    var upgradeRequested := connectionUpgrade && upgradeToWebsocket;

    if !upgradeRequested {
      return NotUpgraded(req), None;
    }

    var header := Header(req.headers, SEC_WEBSOCKET_KEY);
    if header.None? {
      return Upgraded(Err(FormatErr(MISSING_KEY_MESSAGE))), None;
    }

    var response := NewResponse(SWITCHING_PROTOCOLS);
    response := response.InsertHeader(UPGRADE, "websocket");
    response := response.InsertHeader(CONNECTION, "Upgrade");
    var hash := crypto.sha1(header.value + WEBSOCKET_GUID);
    response := response.InsertHeader(SEC_WEBSOCKET_ACCEPT, crypto.base64(hash));
    response := response.InsertHeader(SEC_WEBSOCKET_VERSION, "13");

    status, task := Upgraded(Ok(response)), Some(Task(req));
  }

  /**
   * The body of the spawned task. When the HTTP layer releases a transport,
   * it is wrapped as a server-side stream and the handler runs once with the
   * original request; otherwise the task ends in an error without calling
   * the handler.
   */
  function RunTask<S>(task: Task<S>, handler: (Request<S>, WebSocketConnection) -> Result<(), Error>,
                      released: Option<Socket>): (run: TaskRun<S>)
    ensures released.Some? ==>
              |run.invocations| == 1 &&
              run.invocations[0].req == task.req &&
              run.invocations[0].conn.stream == WebSocketStream(released.value, Server) &&
              run.result == handler(task.req, run.invocations[0].conn)
    ensures released.None? ==>
              run.invocations == [] && run.result == Err(FormatErr(NO_UPGRADE_MESSAGE))
  {
    match released
    case Some(socket) =>
      var conn := WebSocketConnection(WebSocketStream(socket, Server));
      TaskRun([Invocation(task.req, conn)], handler(task.req, conn))
    case None => TaskRun([], Err(FormatErr(NO_UPGRADE_MESSAGE)))
  }

  /** `Endpoint::call`: a request that is not an upgrade gets 426 Upgrade Required. */
  method Call<S>(req: Request<S>, crypto: Crypto) returns (r: Result<Response, Error>, task: Option<Task<S>>)
    ensures !IsUpgradeRequest(req) ==> r == Ok(NewResponse(UPGRADE_REQUIRED)) && task == None
    ensures IsUpgradeRequest(req) ==> r == Handshake(req, crypto)
    ensures task.Some? <==> IsUpgradeRequest(req) && r.Ok?
    ensures task.Some? ==> task.value.req == req
  {
    var status;
    status, task := HandleUpgrade(req, crypto);
    match status
    case Upgraded(result) => r := result;
    case NotUpgraded(_) => r := Ok(NewResponse(UPGRADE_REQUIRED));
  }

  /**
   * `Middleware::handle`: a request that is not an upgrade is passed on,
   * unchanged, to the rest of the chain `next`; an upgrade never reaches
   * `next`. `forwarded` lists the requests given to `next`.
   */
  method Handle<S>(req: Request<S>, crypto: Crypto, next: Request<S> -> Response)
    returns (r: Result<Response, Error>, task: Option<Task<S>>, forwarded: seq<Request<S>>)
    ensures !IsUpgradeRequest(req) ==> r == Ok(next(req)) && forwarded == [req] && task == None
    ensures IsUpgradeRequest(req) ==> r == Handshake(req, crypto) && forwarded == []
    ensures task.Some? <==> IsUpgradeRequest(req) && r.Ok?
    ensures task.Some? ==> task.value.req == req
  {
    var status;
    status, task := HandleUpgrade(req, crypto);
    match status
    case Upgraded(result) =>
      r, forwarded := result, [];
    case NotUpgraded(passed) =>
      r, forwarded := Ok(next(passed)), [passed];
  }

  /**
   * A request is an upgrade exactly when both headers are present and their
   * whole values fold to "upgrade" and "websocket"; any casing is accepted.
   */
  lemma UpgradeIffWholeValues<S>(req: Request<S>)
    ensures IsUpgradeRequest(req) <==>
              && Header(req.headers, CONNECTION).Some?
              && Ascii.Lower(Header(req.headers, CONNECTION).value) == "upgrade"
              && Header(req.headers, UPGRADE).Some?
              && Ascii.Lower(Header(req.headers, UPGRADE).value) == "websocket"
  {
  }

  /**
   * `Connection: keep-alive, Upgrade` names the upgrade token in a list, which
   * section 4.2.1 of RFC 6455 accepts, but the whole-value comparison does not:
   * such a request is handed back as not upgraded.
   */
  lemma TokenListIsNotUpgrade<S>(req: Request<S>)
    requires Header(req.headers, CONNECTION) == Some("keep-alive, Upgrade")
    ensures !IsUpgradeRequest(req)
  {
  }

  /**
   * The handshake answers Ok exactly when the key header is present, and then
   * with status 101 and four headers, found by case-insensitive lookup:
   * `Sec-Websocket-Accept` holds base64 of SHA-1 of the key header's value
   * verbatim followed by the GUID. A missing key gives the 500 error.
   */
  lemma AcceptHeaderOfHandshake<S>(req: Request<S>, crypto: Crypto)
    ensures Handshake(req, crypto).Ok? <==> Header(req.headers, SEC_WEBSOCKET_KEY).Some?
    ensures Handshake(req, crypto).Err? ==>
              Handshake(req, crypto).error == Error(INTERNAL_SERVER_ERROR, MISSING_KEY_MESSAGE)
    ensures Handshake(req, crypto).Ok? ==>
              var key := Header(req.headers, SEC_WEBSOCKET_KEY).value;
              var reply := Handshake(req, crypto).value;
              && reply.status == SWITCHING_PROTOCOLS
              && |reply.headers| == 4
              && Header(reply.headers, UPGRADE) == Some("websocket")
              && Header(reply.headers, CONNECTION) == Some("Upgrade")
              && Header(reply.headers, SEC_WEBSOCKET_ACCEPT) == Some(crypto.base64(crypto.sha1(key + WEBSOCKET_GUID)))
              && Header(reply.headers, SEC_WEBSOCKET_VERSION) == Some("13")
  {
    if Header(req.headers, SEC_WEBSOCKET_KEY).Some? {
      var accept := AcceptKey(crypto, Header(req.headers, SEC_WEBSOCKET_KEY).value);
      var h := SwitchingProtocols(accept).headers;
      assert h.Keys == {Key(UPGRADE), Key(CONNECTION), Key(SEC_WEBSOCKET_ACCEPT), Key(SEC_WEBSOCKET_VERSION)};
    }
  }

  /** The sample handshake of section 1.3 of RFC 6455. */
  const SAMPLE_KEY: string := "dGhlIHNhbXBsZSBub25jZQ=="
  const SAMPLE_ACCEPT: string := "s3pPLMBiTxaQ9kYGzzhZRbK+xOo="
  /** SHA-1 of SAMPLE_KEY followed by the GUID, as the RFC prints it. */
  const SAMPLE_DIGEST: seq<byte> :=
    [0xb3, 0x7a, 0x4f, 0x2c, 0xc0, 0x62, 0x4f, 0x16, 0x90, 0xf6,
     0x46, 0x06, 0xcf, 0x38, 0x59, 0x45, 0xb2, 0xbe, 0xc4, 0xea]

  function SampleRequest<S>(state: S): Request<S>
  {
    Request(map[
      Key("Host") := "server.example.com",
      Key(UPGRADE) := "websocket",
      Key(CONNECTION) := "Upgrade",
      Key(SEC_WEBSOCKET_KEY) := SAMPLE_KEY,
      Key("Origin") := "http://example.com",
      Key("Sec-WebSocket-Protocol") := "chat, superchat",
      Key(SEC_WEBSOCKET_VERSION) := "13"], state)
  }

  lemma SampleConnectionHeader<S>(state: S)
    ensures HeaderEqIgnoreCase(SampleRequest(state), CONNECTION, "upgrade")
  {
    var h := SampleRequest(state).headers;
    assert h[Key(CONNECTION)] == "Upgrade";
    assert Header(h, CONNECTION) == Some("Upgrade");
    assert Ascii.EqIgnoreCase("Upgrade", "upgrade");
  }

  lemma SampleUpgradeHeader<S>(state: S)
    ensures HeaderEqIgnoreCase(SampleRequest(state), UPGRADE, "websocket")
  {
    var h := SampleRequest(state).headers;
    assert h[Key(UPGRADE)] == "websocket";
    assert Header(h, UPGRADE) == Some("websocket");
    assert Ascii.EqIgnoreCase("websocket", "websocket");
  }

  lemma SampleKeyHeader<S>(state: S)
    ensures Header(SampleRequest(state).headers, SEC_WEBSOCKET_KEY) == Some(SAMPLE_KEY)
  {
    assert SampleRequest(state).headers[Key(SEC_WEBSOCKET_KEY)] == SAMPLE_KEY;
  }

  /**
   * With SHA-1 and base64 behaving as the RFC's sample says, the sample
   * client request is answered with the accept value
   * "s3pPLMBiTxaQ9kYGzzhZRbK+xOo=".
   */
  lemma Rfc6455Sample<S>(crypto: Crypto, state: S)
    requires crypto.sha1(SAMPLE_KEY + WEBSOCKET_GUID) == SAMPLE_DIGEST
    requires crypto.base64(SAMPLE_DIGEST) == SAMPLE_ACCEPT
    ensures IsUpgradeRequest(SampleRequest(state))
    ensures Handshake(SampleRequest(state), crypto) == Ok(SwitchingProtocols(SAMPLE_ACCEPT))
  {
    SampleConnectionHeader(state);
    SampleUpgradeHeader(state);
    SampleKeyHeader(state);
  }
}
