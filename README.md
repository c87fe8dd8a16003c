# pg_eventserv relay pool and base-URL model

pg_eventserv bridges PostgreSQL `LISTEN`/`NOTIFY` to websocket clients. A
client opens `/listen/{channel}`. The server checks the channel name against
the configured `Channels` glob patterns and numbers the socket. It then takes
the channel's broadcast relay from a mutex-guarded `RelayPool`. When the
channel had no relay yet, it starts one database listener goroutine. For the
index page, the server also works out the base URL the client used, taking
reverse-proxy headers into account.

This Dafny project models the deterministic parts of that:

- `relays.dfy` (module `Relays`): the relay as an object with a `closed`
  flag, and the `RelayPool` as a class over a `map<string, Relay>`. Its
  methods are `GetRelay`, `Close`, `CloseAll` and `HasChannel`. The handler's
  locked region is one atomic `Acquire` method that returns the relay and the
  spawn decision. `AcquireRun` runs `Acquire` over a sequence of channels
  and is proved to start listeners exactly as the trace function
  `SpawnedListeners` predicts. A lemma about that function shows that any
  such run starts at most one listener per channel.
- `socket_count.dfy` (module `SocketCount`): the global socket counter as a
  class. A ghost history of the numbers handed out stays strictly increasing.
- `channel_allow.dfy` (module `ChannelAllowList`): `ChannelValid` as a
  recursive function over the pattern list. Glob compilation and matching
  are function parameters.
- `server_url.dfy` (module `ServerUrl`): `serverURLHost`, `formatBaseURL`,
  `serverURLBase` and `serverWsBase` as functions. The `Forwarded` parser
  (RFC 7239) and URL parse/resolve/print are function parameters. The
  `UrlBase` and `BasePath` configuration values are plain parameters.
- `wrappers.dfy`: the `Option` datatype.

Behaviour of the code worth knowing when reading the model:

- No step removes a pool entry when its last subscriber leaves. The handler
  only closes its own listener (main.go:342), and nothing in main.go calls
  `RelayPool.Close` or `CloseAll`. The model has no release step.
- The handler stores the `HasChannel` result in `newChannel`, which actually
  means "already present". `Acquire` returns its negation as `spawnListener`.
- `serverURLHost` indexes the first value of `X-Forwarded-Host` and
  `X-Forwarded-Proto` without checking the list length. When such a header is
  present with no value, Go panics. The model returns `IndexPanic` there.
  Requests parsed by Go's own HTTP server never carry an empty list.
- `serverWsBase` picks `ws`/`wss` from the request's own TLS state. Proxy
  headers play no part in that choice, even when they changed the scheme of
  the base URL. The model keeps this behaviour.

## Model

| member | source | states |
|---|---|---|
| `Relays.Relay.constructor` | main.go:86 | a relay fresh from the broadcast library is open |
| `Relays.Relay.Close` | main.go:92 | closing a relay marks it closed |
| `Relays.RelayPool.constructor` | main.go:232 | the pool starts empty, with no relay shared between channels |
| `Relays.RelayPool.HasChannel` | main.go:104-110 | true exactly when the channel is a key of the pool; reads only |
| `Relays.RelayPool.GetRelay` | main.go:80-88 | a present channel returns its stored relay and leaves the pool unchanged; an absent channel gets a fresh open relay stored under its key, every other entry unchanged; relays stay unshared |
| `Relays.RelayPool.Close` | main.go:90-95 | closes the relay under the channel and removes only that key; an absent channel changes nothing; every remaining relay keeps its closed flag |
| `Relays.RelayPool.CloseAll` | main.go:97-102 | every relay that was in the pool is closed and the pool is left empty |
| `Relays.RelayPool.Acquire` | main.go:330-340 | the locked step spawns a listener exactly when the channel was absent before it; afterwards the channel maps to the returned relay, which is the stored one if present or a fresh open one if not |
| `Relays.AcquireTwice` | main.go:331-340 | two acquisitions of one channel with no Close between return the same relay, and only the first can spawn, doing so exactly when the channel was absent |
| `Relays.AcquireRun` | main.go:331-340 | a run of acquire steps over a channel sequence adds exactly the requested channels to the pool and starts listeners exactly for the channels `SpawnedListeners` gives from the initial keys |
| `Relays.SpawnedListenersSplit` | main.go:331-340 | the listeners started by a run split at any point are those of the first part followed by those of the second part, which starts from the keys the first part added |
| `Relays.AtMostOneListenerPerChannel` | main.go:331-340 | over any run of acquire steps, a channel gets exactly one listener if it was requested and absent at the start, and none otherwise |
| `Relays.SpawnedAreNewRequested` | main.go:335-340 | a listener is started for a channel exactly when it was requested and absent from the pool at the start of the run |
| `SocketCount.SocketCounter.constructor` | main.go:50 | the socket counter starts at zero with nothing handed out |
| `SocketCount.SocketCounter.Next` | main.go:52-55 | returns the previous count plus one and stores it; the result is larger than every number handed out before, so the numbers stay strictly increasing |
| `SocketCount.NumberTwoSockets` | main.go:319 | two successive sockets get consecutive, distinct numbers |
| `ChannelAllowList.ChannelValid` | main.go:114-129 | an empty pattern list rejects; acceptance implies the first pattern compiled |
| `ChannelAllowList.ChannelValidIffAccepted` | main.go:116-128 | accepts exactly when some pattern matches and it and every pattern before it compile |
| `ChannelAllowList.InvalidPatternRejects` | main.go:117-121 | a pattern that fails to compile, reached before any match, rejects whatever later patterns would match |
| `ChannelAllowList.FirstMatchAccepts` | main.go:122-125 | a matching pattern reached with every earlier pattern compiling accepts, whatever follows |
| `ServerUrl.TrimRightSlash` | util.go:80 | the result is a prefix of the input, does not end with '/', and only '/' characters were removed |
| `ServerUrl.TrimRightSlashUnique` | util.go:80 | those three properties determine the trimmed string uniquely |
| `ServerUrl.TrimRightSlashIdempotent` | util.go:30 | trimming an already trimmed string changes nothing |
| `ServerUrl.FormatBaseUrl` | util.go:21-31 | the result is the resolved URL with all trailing '/' removed and never ends with '/' |
| `ServerUrl.ServerUrlHost` | util.go:66-107 | a non-empty UrlBase is returned verbatim; otherwise it panics exactly when a needed X-Forwarded header has no value, and else yields scheme + "://" + host, with each part chosen by its precedence |
| `ServerUrl.DirectRequest` | util.go:73-80 | without proxy headers the scheme is https exactly under TLS and the host is the request Host with trailing '/' removed |
| `ServerUrl.ForwardedWins` | util.go:82-93 | a parsed Forwarded header with host and proto yields proto + "://" + host from their first values, whatever the X-Forwarded headers say |
| `ServerUrl.XForwardedIndependent` | util.go:95-104 | without a complete Forwarded header, X-Forwarded-Proto never affects the host and X-Forwarded-Host never affects the scheme |
| `ServerUrl.ServerUrlBase` | util.go:38-43 | fails only where serverURLHost panics; the result never ends with '/'; a configured UrlBase is used as the host |
| `ServerUrl.WsBaseUrl` | util.go:45-55 | the scheme is wss exactly under TLS and ws otherwise; every other component of the parsed base URL is kept |
| `ServerUrl.ServerWsBase` | util.go:45-57 | fails exactly where serverURLHost panics; otherwise prints the parsed base URL with its scheme replaced by wss under TLS and ws otherwise, every other component kept |

## Left out

- `listenForNotify` (main.go:267-298) is a goroutine that does blocking database I/O (`Acquire`, `LISTEN`, `WaitForNotification`). On a wait error it closes the relay but keeps looping, and then dereferences a nil notification. It never removes its pool entry.
- The forwarding goroutine and the ping/sleep loop of the websocket handler (main.go:346-369) are websocket I/O, timers and concurrency. The pool mutex is modelled only by making the locked region one atomic method.
- The relay's internals (`Listener`, `NotifyCtx`, subscriber channels) live in the foreign broadcast library. Only a closed flag is kept.
- `glob.Compile`/`MatchString`, `httpforwarded.Parse` and `net/url` parsing, resolving and printing are foreign. They are uninterpreted function parameters. `Url` keeps only the scheme apart from the other components.
- The `log.Fatal` exits in `formatBaseURL` and `serverWsBase` on URL parse failure are process termination. The parse functions are taken as total.
- Reading `Channels`, `UrlBase` and `BasePath` through viper is configuration. The values are parameters.
- `main`, `init`, `getRouter`, `requestIndexHTML` and `upgrader` are HTTP server setup, routing and templates. db.go is connection-pool construction and configuration. The JavaScript example clients are browser UI code.
- SocketCount.SocketCounter.Next: Go's 64-bit `int` wrap-around after 2^63 - 1 sockets is not modelled. Neither is the unsynchronised increment from concurrent handlers.
- Relays.Relay.Close: it is not said whether the library's close is idempotent. The model only sets the flag.
