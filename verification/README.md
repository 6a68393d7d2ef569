# Binance WebSocket streaming client — Dafny model

This project models the streaming core of the `binance-rs-async` client
(`src/websockets.rs`). It covers three parts:

- **Topic namer.** The pure builders for subscription topic names, such as
  `btcusdt@ticker` or `btcusdt@depth20@100ms`. It also covers the combined
  multi-stream path, which joins topic names with `/`.
- **Connection life cycle.** It covers the URL targets of `connect` and
  `connect_multiple`. It covers the choice between a direct connection and a
  SOCKS5-proxied one. It also covers `disconnect`.
- **Dispatch.** This is `process_message` and the `event_loop` read loop.
  JSON decoding and the user's handler are function parameters.

Strings are `seq<char>`. The `u16` arguments of the depth topics are
formatted by an explicit decimal renderer. The network, TLS, the SOCKS5
library, the URL library and `serde_json` are not modelled. Each step that
would call into them takes its outcome as a parameter. A parse error of the
URL library is an `Option<string>`. The outcome of the proxy tunnel, of the
handshake and of the close is an `External<T>` (`Done(value)` or
`Failed(cause)`). A read of the socket is an `Option<External<Frame>>`,
matching what `next()` yields. The proxy address that the source reads from
the `WSS_PROXY` environment variable is an `Option<string>` parameter.

The event loop is a recursive function. It runs over `running`, the value
the cancellation flag has at each check, and over `polls`, what the socket
yields on each read. It returns the events handed to the handler, the
number of reads consumed and how it ended. It ends with `Returned(result)`,
or with `StillRunning` when either input ran out while the loop was still
going. The handler is a stateful `FnMut` closure. It is modelled as
`handle(history, event)`, so its answer may depend on every event it saw
before.

Modules: `Options`, `Errors` (the crate's error kinds, `Result<T>` and
`External<T>`), `Decimal`, `Text` (split and join), `Topics`, `Connection`
and `Dispatch`.

## Behaviour worth noting

- `disconnect` closes the socket but never resets `socket` to `None`
  (src/websockets.rs:148-163). A second `disconnect` therefore reaches the
  socket again instead of failing as not connected
  (`DisconnectKeepsConnection`).
- A failed connect does not touch `socket`, so any earlier connection stays
  in place (src/websockets.rs:135, src/websockets.rs:144). `HandleConnect`
  returns the client unchanged on error.
- The proxy address is read from the `WSS_PROXY` environment variable
  (src/websockets.rs:123). It becomes the `proxy` parameter.
- The two handshake error texts differ. The proxied path writes `"Error
  during handshake: "`. The direct path writes `"Error during handshake "`,
  with no colon. The model keeps both texts.

## Model

| member | source | states |
|---|---|---|
| Decimal.Format | src/websockets.rs:50-52 | The rendering of a `u16` in a topic is a non-empty string of decimal digits. Its value is the number. It has no leading zero. |
| Decimal.ParseFormat | src/websockets.rs:50-58 | Every `u16` is formatted and read back unchanged. No level or speed is rejected. |
| Decimal.FormatInjective | src/websockets.rs:50-58 | Different numbers give different renderings. |
| Topics.NameText | src/websockets.rs:27-58 | Each topic gets exactly the name its builder formats. These are `!ticker@arr`, `!bookTicker` and `!miniTicker@arr`, or else `<symbol>@` followed by `ticker`, `aggTrade`, `trade`, `kline_<interval>`, `bookTicker`, `miniTicker`, `depth<levels>@<speed>ms` or `depth@<speed>ms`, with numbers in decimal. A market-wide name starts with `!`. Any other name starts with its symbol followed by `@`. |
| Topics.ParseName | src/websockets.rs:27-58 | Every topic is recovered exactly from its name when its symbol holds no `@`. This covers the three market-wide constants, the five fixed suffixes, kline, and both depth forms. |
| Topics.NameInjective | src/websockets.rs:27-58 | No two topics with `@`-free symbols share a name. |
| Topics.ParseFixedSuffixName | src/websockets.rs:29-43 | `symbol@ticker`, `@aggTrade`, `@trade`, `@bookTicker` and `@miniTicker` read back to their topic kind and symbol. |
| Topics.ParseKlineName | src/websockets.rs:35 | `symbol@kline_<interval>` reads back to that symbol and the whole interval, even if the interval contains `@`. |
| Topics.ParsePartialDepthName | src/websockets.rs:50-52 | `symbol@depth<levels>@<speed>ms` reads back to the same symbol, levels and speed, for any `u16` values. |
| Topics.ParseDiffDepthName | src/websockets.rs:58 | `symbol@depth@<speed>ms` reads back to the same symbol and speed, for any `u16` speed. |
| Topics.CombinedStream | src/websockets.rs:60 | The empty list joins to `""`. One name joins to itself. `n` names join to their total length plus `n - 1` separators. |
| Topics.CombinedStreamAppend | src/websockets.rs:60 | Joining `a + b` (both non-empty) is joining `a`, then `/`, then joining `b`. |
| Topics.CombinedStreamRoundTrip | src/websockets.rs:60 | For a non-empty list of names, none containing `/`, splitting the joined path at `/` gives back the names in input order, with the same contents. The empty list is excluded because it joins to `""`, which splits into one empty name. |
| Topics.CombinedTopicsRoundTrip | src/websockets.rs:27-60 | For a non-empty list of topics whose symbols contain neither `@` nor `/`, and whose kline intervals contain no `/`, the combined path determines the topics. Splitting it at `/` and parsing each piece recovers every topic in the caller's order. A symbol with a `/` such as `a/b` splits into two pieces. |
| Text.JoinSplit | src/websockets.rs:60 | Joining undoes splitting for every string. |
| Connection.New | src/websockets.rs:91-100 | A new client holds no connection and keeps the given configuration. |
| Connection.SingleUrl | src/websockets.rs:116 | The single-endpoint URL string is the base, then `/ws/`, then the endpoint, with nothing added or lost. |
| Connection.SingleUrlInjective | src/websockets.rs:116 | Different endpoints give different URL strings. |
| Connection.StreamsQuery | src/websockets.rs:109 | The combined-subscription query is `streams=` followed by exactly the combined stream path, for every list of names, including the empty list and names containing `/`. |
| Connection.StreamsQueryRoundTrip | src/websockets.rs:109 | For a non-empty list of topics, none containing `/`, the topics after `streams=` split back at `/` in order. |
| Connection.HandleConnect | src/websockets.rs:121-147 | With a proxy, the SOCKS5 tunnel is tried first. The handshake runs through the tunnel only if the tunnel opened. Without a proxy, only a direct handshake is tried. Success happens exactly when every step tried succeeded. Success installs `Proxied` or `Direct` to match the path taken. Failure leaves the client unchanged. A failure carries the source's message and the cause: "Error creating proxy stream: ", "Error during handshake: " when proxied, "Error during handshake " when direct. |
| Connection.Connect | src/websockets.rs:115-120 | A URL parse error is returned before any connection attempt, and the client is left unchanged. Otherwise the attempt targets `<base>/ws/<endpoint>`. Its outcome, the resulting client and every stage tried are those of `HandleConnect` on that URL. |
| Connection.ConnectMultiple | src/websockets.rs:104-112 | A URL error is returned before any attempt, and the client is left unchanged. Otherwise the attempt targets the base with segment `stream` and the `streams=` query. Its outcome, the resulting client and every stage tried are those of `HandleConnect` on that target. |
| Connection.Disconnect | src/websockets.rs:148-163 | With no connection, it fails with "Not able to close the connection". With a connection, it succeeds exactly when the close succeeds and passes on the close error. The client is never changed. |
| Connection.NewClientCannotDisconnect | src/websockets.rs:160-161 | Disconnecting a fresh client fails as not connected. |
| Connection.ConnectedClientDisconnects | src/websockets.rs:121-163 | After a successful connect, disconnect reaches the socket and succeeds exactly when the close does. |
| Connection.DisconnectKeepsConnection | src/websockets.rs:148-163 | A second disconnect never fails as not connected, because the connection is not released. |
| Dispatch.ProcessMessage | src/websockets.rs:169-184 | Only a non-empty text frame is decoded. Only a decoded one reaches the handler, once, with the decoded event. The handler's error is returned unchanged. A decode failure is returned as a JSON error. A close frame always fails, carrying its payload. Ping, pong, binary and raw frames succeed untouched. |
| Dispatch.Iterate | src/websockets.rs:190-199 | An exhausted stream is a no-op. A read error stops with a WebSocket error and no handler call. A frame is processed. |
| Dispatch.IterateDelivers | src/websockets.rs:171-178 | The event a read hands to the handler does not depend on the handler. It is the decoded event of a non-empty text frame, if that frame decodes. |
| Dispatch.EventLoop | src/websockets.rs:185-204 | The loop never consumes more reads than supplied or than flag checks. Without a connection it reads nothing. |
| Dispatch.EventLoopTrace | src/websockets.rs:185-204 | With a connection, the handler receives exactly the events the consumed reads deliver, in arrival order. Every consumed read happened while the flag was set. |
| Dispatch.EventLoopFailures | src/websockets.rs:185-204 | No consumed read before the last one failed. The loop ends with an error exactly when the last consumed read failed, and with that read's error. |
| Dispatch.EventLoopExit | src/websockets.rs:185-204 | The loop returns Ok only after seeing the flag cleared. It is still running only when the flag values or the reads ran out. |
| Dispatch.EventLoopConnected | src/websockets.rs:185-204 | The trace, failure and exit facts together, which fix the run completely. |
| Dispatch.EventLoopStopsAtFirstError | src/websockets.rs:185-204 | Suppose the flag is set, no earlier read fails, and read `j` fails. Then exactly `j + 1` reads are consumed, the loop returns read `j`'s error, and no later frame is processed. |
| Dispatch.CloseFrameStopsLoop | src/websockets.rs:179-181 | A close frame ends the loop with the disconnected error carrying its payload. |
| Dispatch.HandlerErrorStopsLoop | src/websockets.rs:176 | A handler error ends the loop at once, unchanged. The failing event is the last one handed to the handler. |
| Dispatch.EventLoopStoppedFirst | src/websockets.rs:186 | If the flag is clear at the first check, the loop returns Ok without reading or calling the handler. |
| Dispatch.EventLoopWithoutConnection | src/websockets.rs:186-187 | Without a connection, nothing is read and nothing is handled. The loop returns Ok exactly when some flag check finds the flag cleared, and never errors. |

## Left out

- TLS, the WebSocket handshake, the SOCKS5 tunnel and the socket are foreign network I/O. Their outcomes are parameters. The effect of `socket.close(None)` is not modelled beyond its result.
- `Url::parse`, `path_segments_mut` and `set_query` are in the URL library, which is not part of this model. Percent-encoding and normalisation are not modelled. `Connect` and `ConnectMultiple` take the library's verdict as a parameter and hand on the pre-parse strings, as a `Target`.
- `url.host_str().unwrap()` and `port_or_known_default().unwrap()` panic on a URL without a host or port. That panic is not modelled, because host and port live inside the URL library's parsed value.
- `serde_json::from_str` and the event payload schemas are a decoder parameter.
- `AtomicBool` and async/await are not modelled as concurrency. Cancellation is the flag's value at each check. The busy spin while no socket is held, or after the stream is exhausted, does not end while the flag stays set. It is bounded by the length of `running`, and the loop reports `StillRunning` when that runs out.
- Dispatch.ProcessMessage: the close error is the constructor `Disconnected(payload)`. The code renders it as `Msg(format!("Disconnected {e:?}"))`, and Rust's `Debug` formatting of the close frame is not modelled.
- The `socket()` accessor (src/websockets.rs:165-167) is a plain getter with nothing to state.
- The event-type name constants (src/websockets.rs:18-25) are used by event decoding elsewhere in the crate, not by this core.
- `Config::default()` in `new` (src/websockets.rs:81-86) comes from the configuration module, which is not part of this model. `New` takes the configuration explicitly.
