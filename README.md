# fiber-fastws websocket middleware, modelled in Dafny

This project models the core of a Go middleware for the Fiber web framework.
The middleware upgrades an HTTP request to a websocket connection. `New`
takes a user handler and optional `Config` values. It resolves the config and
returns a request handler. For each request, that handler does four things:

1. It takes a `Conn` wrapper from a reuse pool and gives it four empty maps.
2. It copies the request's user values into `locals` and its query arguments
   into `queries`.
3. It asks the websocket library to upgrade the connection.
4. On success, the library's callback stores the new connection in the
   wrapper, runs the user handler, and returns the wrapper to the pool
   through a deferred `releaseConn`.

The handler returns a nil error. Inside the user handler, `Locals` and
`Query` read the copied values.

Files:

- `config.dfy` (module `WsConfig`): the `Config` record and the defaulting
  done in `New`.
- `pairs.dfy` (module `Visit`): `FromPairs`, the map produced by visiting
  key/value pairs in order and assigning each one, and the fact that the last
  occurrence of a key wins.
- `conn.dfy` (module `Connection`): the class `Conn` with its `Locals` and
  `Query` lookups, and the class `Pool` with `Acquire` (`acquireConn`) and
  `Release` (`releaseConn`). The pool's invariant `Valid` says that every
  pooled wrapper has a cleared connection handle and that no wrapper is
  pooled twice.
- `adapter.dfy` (module `Adapter`): `Serve`, one run of the handler returned
  by `New`, and lemmas about what the user handler can read afterwards.

Modelling choices:

- The process-wide `sync.Pool` becomes a `Pool` object passed to `Serve`. It
  is a stack: `Get` takes the most recently returned wrapper, and makes a new
  one when the pool is empty.
- The upgrade is a parameter. `Upgraded(handle)` means the library completed
  the handshake and ran the callback with that connection. `Refused` means it
  never ran the callback.
- The user handler is seen only through how it exits (`Returned` or
  `Panicked`, a parameter). `Serve` reports a trace of `Call` and `Release`
  steps; a `Call` step records the handle, `locals` and `queries` the wrapper
  holds when the handler is called. The trace shows the ordering: the maps
  are filled and the handle stored before the handler runs, and the wrapper
  is released after it exits, whichever way that is.
- The request's user values and query arguments are sequences of pairs, in
  the order the request's visitors yield them. `interface{}` values are the
  type parameter `V`. A nil `interface{}` result of `Locals` is `None`.

On a refused upgrade the completion callback never runs, so `releaseConn` is
never called and the acquired wrapper does not return to the pool. The model
follows the code: under `Refused`, `Serve` leaves the wrapper out of the pool.

## Model

| member | source | states |
|---|---|---|
| WsConfig.ResolveConfig | websocket.go:24-32 | the resolved origin list is never empty. With no config, the result is the zero config with origins `["*"]`. Otherwise it is `config[0]`, with its origins kept when non-empty and replaced by `["*"]` when empty; all other fields are copied unchanged |
| WsConfig.ResolveConfigUsesFirstOnly | websocket.go:27-29 | configs after the first never influence the result |
| Visit.FromPairs | websocket.go:43-49 | the keys of the map built by visiting pairs are exactly the keys of the visited pairs |
| Visit.FromPairsLastWins | websocket.go:43-49 | in that map, each key holds the value of its last occurrence in visit order |
| Connection.Conn.constructor | websocket.go:74-76 | a new wrapper has a nil handle and maps that read as empty (Go's `new(Conn)` leaves them nil, which reads the same; `acquireConn` replaces them anyway) |
| Connection.Conn.Locals | websocket.go:96-98 | returns the stored value when the key is present and nil otherwise, without side effect |
| Connection.Conn.Query | websocket.go:101-107 | a present key gives its stored value, whatever the defaults. An absent key gives the first default, or `""` when no default is given |
| Connection.Pool.constructor | websocket.go:73-77 | the pool starts empty and satisfies its invariant |
| Connection.Pool.Acquire | websocket.go:80-87 | reuses the last pooled wrapper, or makes a fresh one when the pool is empty. The result has a nil handle, is no longer pooled, and has all four maps empty whatever it held before. The pool invariant is kept |
| Connection.Pool.Release | websocket.go:90-93 | sets the handle to nil, leaves the four maps unchanged, and appends the wrapper to the pool, keeping the invariant that every pooled wrapper has a nil handle |
| Adapter.Serve | websocket.go:40-60 | `locals` and `queries` are the maps built from the request's user values and query arguments; `params` and `cookies` stay empty. On success, the user handler is called exactly once, seeing the upgraded handle and those populated maps, and the wrapper is then released whether the handler returns or panics. On failure, the handler is not called and the wrapper is not released. The handler returns nil unless the user handler panics |
| Adapter.LocalsAfterServe | websocket.go:43-45 | in the wrapper the user handler receives, a local is present exactly when some user value carries its key, and it holds the value of the key's last occurrence |
| Adapter.QueryAfterServe | websocket.go:47-49 | in the wrapper the user handler receives, a query lookup gives the value of the key's last occurrence, whatever the defaults. A key absent from the request gives the first default, or `""` |
| Adapter.ServeTwice | websocket.go:79-93 | a second request served after a successful one, however its handler exited, reuses the same wrapper; this reuse follows from the model's stack order, which `sync.Pool` does not promise. The second user handler sees only the second request's connection and values, nothing left from the first |

## Left out

- `fastws.Upgrade` and its handshake (websocket.go:51-57). This is a foreign library call, modelled only as the outcome `Upgraded(handle)` or `Refused`. Whether it recovers a panic from the user handler is not modelled: a panic is reported as `Panicked`.
- The user handler's own behaviour, which is arbitrary user code doing network I/O. Only how it exits is modelled.
- Adapter.Serve: assumes the websocket library runs the completion callback to its end inside the `upgrade(c.Context())` call (websocket.go:57), before `return nil` (websocket.go:59). The library's code is not part of this model. If it ran the callback later, the handler would return nil every time and a panic in the user handler would not reach it; `Serve`'s `result == userExit` rests on this assumption.
- `IsWebSocketUpgrade` (websocket.go:160-162). It only calls a function of the fasthttp websocket library, which is not part of this model.
- The thread safety of `sync.Pool`, its choice of which pooled object to hand out, and garbage-collector eviction of pooled objects (websocket.go:73-77). The pool is a sequential stack.
- `Config.Filter` (websocket.go:15). It is a function value that is never consulted. The other unused fields are carried through resolution unchanged. The resolved config is not read by the returned handler, because the upgrader that would have used it is commented out (websocket.go:34-38).
- Connection.Conn.Locals: a value stored as a nil `interface{}` reads back as `Some(nil)` here, while Go cannot tell it apart from an absent key.
- The close-code and message-type constants and the error sentinels (websocket.go:109-156). They are plain values of RFC 6455, sections 11.7 and 11.8, with no logic.
- `example.go`: echo handlers built on network reads and writes, goroutines, channels, logging and server start-up.
- Go's fixed-width integers for the duration and buffer-size fields. They are unbounded here, because nothing computes with them.
