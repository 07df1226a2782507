# tide-websockets: upgrade handshake and example connection registry

This project models, in Dafny, two sequential parts of `tide-websockets`,
the crate that lets a tide HTTP server accept WebSocket connections.

1. **The upgrade handler** (`src/handler.rs`). It is the server side of the
   opening handshake in section 4.2 of RFC 6455.
   - `header_eq_ignore_case` compares a whole header value with a literal
     under ASCII case folding.
   - `handle_upgrade` sorts a request three ways. A request that is not an
     upgrade is handed back unchanged. An upgrade without
     `Sec-Websocket-Key` is an error. A good upgrade gets a 101 reply with
     four headers, and it spawns a task that runs the application's handler
     once the HTTP layer releases the transport.
   - `Endpoint::call` answers a request that is not an upgrade with 426.
   - `Middleware::handle` passes such a request on to the next handler.
2. **The `futures::select!` example server** (`examples/futures_select.rs`).
   - `State` is a registry of per-session channel senders under fresh ids.
   - One round of `app_loop` broadcasts a tick message to every registered
     sender and drops the senders whose send failed.
   - The session loop answers pings with pongs, forwards queued messages and
     stops on a close frame.

Files:
- `wrappers.dfy`: `Option` and `Result`.
- `ascii.dfy`: ASCII case folding.
- `http.dfy`: the tide surface the handler uses (headers, request,
  response, error).
- `tungstenite.dfy`: the framing library's message and stream types.
- `handler.dfy`: `src/handler.rs`.
- `futures_select.dfy`: `examples/futures_select.rs`.

Modelling choices:
- SHA-1 and base64 come from other crates. They are the two fields of a
  `Crypto` value passed to the handler and are left uninterpreted. The
  properties proved are about how the handler wires them together.
- SHA-1 is applied to a string. Hashing `key` and then the GUID with
  `chain` hashes the UTF-8 bytes of `key + GUID`.
- Headers are a map from the lower-cased header name to its value. The
  framework's `HeaderName` lower-cases names, so name lookup is
  case-insensitive. The `Headers` type admits only lower-case keys.
- The spawned task is a `Task` value that owns the moved request.
  `RunTask` gives its outcome once the HTTP layer has or has not released
  a transport. It records each call of the handler, so "called once" and
  "never called" can be stated.
- `Middleware::handle` returns the list of requests passed to `next`, so
  "`next` is not called" can be stated.
- The `State` registry is a class. Its fields are the source's fields. Its
  methods update them in place.
- The `u32` counters cannot wrap: `next_id += 1` and `tick_count += 1`
  panic at `u32::MAX` in a debug build. This becomes a precondition of the
  update.
- The send outcomes that the channels and the transport decide are
  parameters. They are `open(tx)` for a tick broadcast and `send(k)` for
  the session's k-th send.

A deviation from RFC 6455 that the model follows: section 4.2.1 asks only
that `Connection` *include* the token `Upgrade`. The code compares the whole
value with `upgrade`. So `Connection: keep-alive, Upgrade` is not an upgrade
(`Handler.TokenListIsNotUpgrade`).

## Model

| member | source | states |
|---|---|---|
| `Handler.HeaderEqIgnoreCase` | src/handler.rs:29-33 | false when the named header is absent; when present, true iff the whole value equals the literal after ASCII lower-casing (no token splitting, no trimming) |
| `Handler.UpgradeIffWholeValues` | src/handler.rs:49-51 | a request is an upgrade iff `Connection` is present and folds to exactly "upgrade" and `Upgrade` is present and folds to exactly "websocket"; any casing of either is accepted |
| `Handler.TokenListIsNotUpgrade` | src/handler.rs:49-55 | a request whose `Connection` is `keep-alive, Upgrade` is not an upgrade, whatever its other headers |
| `Handler.HandleUpgrade` | src/handler.rs:48-84 | a request that is not an upgrade gives `NotUpgraded` with the very same request and no task, whatever its key header; an upgrade without `Sec-Websocket-Key` gives `Upgraded(Err)` (status 500, "expected sec-websocket-key") and no task; a good upgrade gives `Upgraded(Ok)` of the 101 reply with exactly `Upgrade: websocket`, `Connection: Upgrade`, `Sec-Websocket-Accept: base64(SHA1(key ++ GUID))`, `Sec-Websocket-Version: 13`, and a task that owns the original request |
| `Handler.AcceptHeaderOfHandshake` | src/handler.rs:57-68 | the handshake succeeds iff the request carries `Sec-Websocket-Key` (any casing of the name); without it the error is status 500 with "expected sec-websocket-key"; with it the reply is 101 with exactly four headers, read back by name as `Upgrade: websocket`, `Connection: Upgrade`, `Sec-Websocket-Accept` = base64 of SHA-1 of the key verbatim followed by the GUID, and `Sec-Websocket-Version: 13` |
| `Handler.Rfc6455Sample` | src/handler.rs:62-68 | with SHA-1 and base64 as in the sample of section 1.3 of RFC 6455, the sample request is an upgrade and is answered by 101 with exactly `Upgrade: websocket`, `Connection: Upgrade`, `Sec-Websocket-Accept: s3pPLMBiTxaQ9kYGzzhZRbK+xOo=`, `Sec-Websocket-Version: 13` |
| `Handler.RunTask` | src/handler.rs:74-81 | a released transport makes exactly one handler call, with the task's original request and a server-role stream over that transport, and the task's result is the handler's; no transport means no handler call and the error "never received an upgrade!" |
| `Handler.Call` | src/handler.rs:94-98 | not an upgrade gives Ok(426 with no headers) and no task; an upgrade returns the handshake result unchanged; a task exists iff the result is an Ok upgrade, and it owns the original request |
| `Handler.Handle` | src/handler.rs:109-113 | not an upgrade is passed unchanged to `next` exactly once and `next`'s response is returned as Ok; an upgrade returns the handshake result and `next` is never called; a task exists iff the result is an Ok upgrade, and it owns the original request |
| `FuturesSelect.State.constructor` | examples/futures_select.rs:25-29 | the registry starts empty with `tick_count` and `next_id` zero, satisfying the freshness invariant |
| `FuturesSelect.State.AddConnection` | examples/futures_select.rs:16-19 | the key `next_id` was not in use; the sender is stored under it, nothing else changes in the map, the map grows by one, `next_id` rises by exactly 1, `tick_count` is untouched, and every key stays below `next_id` |
| `FuturesSelect.State.Tick` | examples/futures_select.rs:104-136 | reports the pre-increment tick count and the snapshot's size, bumps `tick_count` by 1, sends `{ "ticks": t, "connections": n }` to every snapshot entry exactly once, and leaves exactly the entries whose send succeeded, with their senders unchanged; `next_id` is unchanged |
| `FuturesSelect.PruneRemovesExactlyFailed` | examples/futures_select.rs:121-135 | after a round an entry is present iff it was present and its send succeeded, survivors keep their sender, and the registry never grows |
| `FuturesSelect.Decimal` | examples/futures_select.rs:124-127 | the formatted number is a non-empty string of decimal digits with no leading zero |
| `FuturesSelect.DecimalRoundTrip` | examples/futures_select.rs:124-127 | reading back the digits of the tick message gives the number that was formatted |
| `FuturesSelect.OnPeerItem` | examples/futures_select.rs:57-76 | a close frame, and only a close frame, ends the loop; a ping, and only a ping, produces a reply, which is a pong with the identical payload; pong, binary, text and read errors produce nothing |
| `FuturesSelect.SessionLoop` | examples/futures_select.rs:54-91 | the loop's sent messages and final status are those of the reference run `Run` of the same events and send outcomes |
| `FuturesSelect.SentIsPrefixOfReplies` | examples/futures_select.rs:87-90 | the messages sent are always the first of the replies the events call for, in order |
| `FuturesSelect.AllRepliesSent` | examples/futures_select.rs:78-90 | while no close or completion arrives and every send succeeds, every reply produced (pongs and queued channel messages) is sent, in order, and the session keeps running |
| `FuturesSelect.CloseEndsSession` | examples/futures_select.rs:60-63 | a close frame ends the session with Ok: the replies called for before it are sent and no later event is looked at |

## Left out

- `src/websocket_connection.rs`: the connection handle is two mutex-guarded
  halves that only delegate to the framing library's sink and stream.
  Without the concurrency it is a thin wrapper around `Message::Text` and
  `Message::Binary`. `WebSocketConnection` here is only the value handed to
  the handler.
- `src/lib.rs` (module declarations and re-exports) and `examples/example.rs`
  (a demo loop with no library logic) are not part of this model.
- SHA-1 (the `sha1` crate) and `base64::encode` are uninterpreted. The RFC
  6455 test vector is stated under hypotheses about their values at that
  one input.
- Multi-valued headers: each header name holds one value, the one
  `as_str` reads.
- Async scheduling is left out: `recv_upgrade().await`, `task::spawn`, the
  framing handshake of `WebSocketStream::from_raw_socket` and the handler's
  own future. The task's outcome is a function of whether a transport was
  released. The handler is a function from request and connection to its
  result.
- `WebSocket::new` and the `Arc` around the handler: the handler is passed
  straight to `RunTask`.
- In the example server:
  - the channels, the `Mutex` locking, `thread::sleep`, `println!`/`info!`,
    `app.listen` and the `INDEX_HTML` page are not modelled;
  - the fairness of `select!` between its two sources is not modelled:
    events arrive as one given sequence.
- `FuturesSelect.State.Tick`: no other task touches the registry during the
  round. In the source the lock is released while sending, so a session
  registered meanwhile is neither sent to nor removed.
- `FuturesSelect.State.AddConnection`: does not model release-build
  wrap-around of `next_id`. Overflow is a precondition, as in a debug build.
- `FuturesSelect.SessionLoop`: covers a finite run of events. A run that
  ends without close or completion leaves the session `Running`.
- `FuturesSelect.SessionLoop`: the session's error is the framing
  library's error. Its conversion into `tide::Error` by `?` is not
  modelled.
- Sessions never remove their own entry from the registry when they end
  (the source leaves this as a TODO). The model does the same: only a
  failed tick send removes an entry.
