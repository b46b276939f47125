# expl: handler pipeline and migration bootstrap, modelled in Dafny

This project models two parts of the `expl` service (the explanation store behind the
builder-config API):

- **The handler pipeline** (`pipeline.dfy`, module `Pipeline`). `main` builds its HTTP
  handlers by composing adapters: `compose(outer, inner)`; the timeout adapter; the
  proxy-header adapter, which is `handlers.ProxyHeaders` or the identity depending on
  `USE_PROXY_HEADERS`; the webhook-to-HTTP conversion; and the shared-secret check
  `requiredTokenEnvAdapter`. A stage is kept symbolic: wrapping a handler records which
  stage wrapped it, so the order of the layers around every registered route can be
  read back and stated. The route table has five webhook routes and two public
  redemption routes.
- **The migration bootstrap** (`expldb.dfy`, module `ExplDb`). `Init` opens the
  connection pool, waits until a ping succeeds and applies the embedded migrations.
  `applyMigrations` acquires a source driver and a borrowed connection, each released by
  a deferred `util.CloseAndAppendError`. It builds the database driver and the migrator,
  which it deliberately never closes, and runs `Up`, where `migrate.ErrNoChange` counts
  as success. Every external call is an oracle: its answer is part of the input. An
  imperative `Ledger` object records every open, close and ping, and the
  resource-release discipline is proved over that trace.

Go's `error` results are modelled as `seq<Error>`. The empty sequence is `nil`.
`util.CloseAndAppendError` appends a failing `Close`'s error to the function's named
result. The model keeps only that: the result carries the close error, if there is one.

## Model

| member | source | states |
|---|---|---|
| Pipeline.Compose | api/builder-config/opt/expl/main.go:116-120 | the composed adapter applies `inner` first and then `outer` to its result, for every argument |
| Pipeline.ComposeAssociative | api/builder-config/opt/expl/main.go:116-120 | composition is associative, so `compose(compose(f, g), h)` and `compose(f, compose(g, h))` agree on every argument |
| Pipeline.ComposeIdentity | api/builder-config/opt/expl/main.go:116-120 | composing with the identity adapter, on either side, changes nothing |
| Pipeline.ComposePrepends | api/builder-config/opt/expl/main.go:116-120 | composing two adapters puts the outer adapter's stages outside the inner adapter's, on every handler, and keeps the base handler |
| Pipeline.TimeoutAdapter | api/builder-config/opt/expl/main.go:90-98 | on every handler, adds exactly one timeout layer with the given duration and keeps the base handler |
| Pipeline.ProxyHeaderAdapter | api/builder-config/opt/expl/main.go:77-84 | adds exactly the ProxyHeaders layer when enabled and no layer otherwise; when disabled it returns every handler unchanged |
| Pipeline.ToHttpHandlerAdapter | api/builder-config/opt/expl/main.go:53 | on every handler, adds exactly the conversion from a webhook handler to an HTTP handler |
| Pipeline.RequiredTokenEnvAdapter | api/builder-config/opt/expl/main.go:86-88 | on every handler, adds exactly one token check, keyed by the given environment variable |
| Pipeline.Identity | api/builder-config/opt/expl/main.go:81-83 | the pass-through adapter returns its handler unchanged |
| Pipeline.ChainIsComposition | api/builder-config/opt/expl/main.go:116-120 | a chain of stages is the composition of one wrapper per stage; the empty chain is the identity |
| Pipeline.ChainLayers | api/builder-config/opt/expl/main.go:116-120 | a chain puts its stages, in order and outermost first, outside the layers already there, and keeps the base handler |
| Pipeline.StackLayers | api/builder-config/opt/expl/main.go:116-120 | wrapping a stage sequence around a handler prepends exactly those stages to its layers and keeps its base handler |
| Pipeline.StackAppend | api/builder-config/opt/expl/main.go:116-120 | wrapping `xs + ys` equals wrapping `ys` first and then `xs` around the result |
| Pipeline.ChainAppend | api/builder-config/opt/expl/main.go:116-120 | the chain of `xs + ys` is the composition of the chain of `xs` with the chain of `ys` |
| Pipeline.ProxyHeaderAdapterIsChain | api/builder-config/opt/expl/main.go:77-84 | the proxy-header adapter adds exactly the ProxyHeaders stage when enabled and no stage otherwise |
| Pipeline.WebChain | api/builder-config/opt/expl/main.go:52 | on every handler, the web chain adds the timeout stage outside the proxy stages and keeps the base handler |
| Pipeline.WebhookChain | api/builder-config/opt/expl/main.go:53 | on every handler, the webhook chain adds the web stages and then the conversion to an HTTP handler |
| Pipeline.WebhookRoute | api/builder-config/opt/expl/main.go:60-64 | a webhook route's handler has the webhook stages for its secret variable outside the handler's own layers, and keeps the handler at its core |
| Pipeline.WebChainWithoutProxyHeaders | api/builder-config/opt/expl/main.go:52 | with proxy headers disabled, the web chain behaves exactly like the timeout adapter on every handler |
| Pipeline.WebChainStages | api/builder-config/opt/expl/main.go:52 | on every handler the web chain equals the chain of the web stages: the timeout outermost, then the proxy stage when enabled |
| Pipeline.WebhookRouteStages | api/builder-config/opt/expl/main.go:53-64 | a webhook route equals the chain of its stages around the handler: timeout, then proxy, then the conversion to an HTTP handler, then the token check directly around the handler |
| Pipeline.WebhookEntry | api/builder-config/opt/expl/main.go:60-64 | a webhook registration serves its path with exactly the webhook stages for its secret variable around its named handler |
| Pipeline.PublicEntry | api/builder-config/opt/expl/main.go:65-66 | a public registration serves its path with exactly the web stages around its named handler |
| Pipeline.WebhookRoutes | api/builder-config/opt/expl/main.go:60-64 | five routes, the i-th being the webhook entry for the i-th registration: its path, secret variable and handler constructor |
| Pipeline.PublicRoutes | api/builder-config/opt/expl/main.go:65-66 | two routes, each being the web chain around its handler constructor, for the `/expl/` and `/find/` patterns |
| Pipeline.Router | api/builder-config/opt/expl/main.go:59-66 | the router holds the five webhook routes and then the two public routes, in registration order, each with its own path and handler |
| Pipeline.TokenKeysAppend | api/builder-config/opt/expl/main.go:86-88 | the token checks of a concatenation of stage sequences are those of the first followed by those of the second |
| Pipeline.TokenKeysOfStages | api/builder-config/opt/expl/main.go:52-53 | the web chain has no token check, and a webhook route's stages have exactly one, for its own environment key |
| Pipeline.WebhookRoutesLayering | api/builder-config/opt/expl/main.go:60-64 | every webhook route has the webhook stages for its own secret variable, and checks exactly that one secret |
| Pipeline.WebhookTokenKeysDistinct | api/builder-config/opt/expl/main.go:60-64 | no two webhook routes read their secret from the same environment variable |
| Pipeline.WebhookRoutesDistinctKeys | api/builder-config/opt/expl/main.go:60-64 | no two webhook routes of the router check the same secret: their handlers' token checks differ |
| Pipeline.PublicRoutesLayering | api/builder-config/opt/expl/main.go:65-66 | the public redemption routes are wrapped by timeout and proxy only, with no token check |
| Pipeline.RouterRouteLayers | api/builder-config/opt/expl/main.go:59-66 | the router holds seven routes; the i-th has the webhook stages for its key if it is a webhook route, and the web chain alone otherwise |
| Pipeline.RouterRouteChecks | api/builder-config/opt/expl/main.go:59-66 | the i-th route has the web chain outermost, and checks exactly one secret if and only if it is a webhook route |
| Pipeline.RouterLayering | api/builder-config/opt/expl/main.go:59-66 | every route of the router has the web chain outermost, and a route checks a secret if and only if it is one of the five webhook routes |
| ExplDb.FirstSuccess | api/builder-config/opt/expl/expldb/init.go:37-42 | the index of the first ping that answers nil: that ping succeeds, and every earlier one fails |
| ExplDb.PingEvents | api/builder-config/opt/expl/expldb/init.go:38 | one ping entry per attempt, in order, recording whether it succeeded |
| ExplDb.WaitUntilAvailable | api/builder-config/opt/expl/expldb/init.go:37-42 | the loop pings until the first success, and makes exactly the pings up to and including that one |
| ExplDb.Acquired | api/builder-config/opt/expl/expldb/init.go:48-70 | the number of acquisitions that succeed: all those before it succeed, and the next one, if any, fails |
| ExplDb.OpensOf | api/builder-config/opt/expl/expldb/init.go:48-70 | one open entry per acquired resource, in order |
| ExplDb.ClosesOf | api/builder-config/opt/expl/expldb/init.go:52 | one close entry per deferred release, in the order the releases run |
| ExplDb.CloseErrorsOfBoth | api/builder-config/opt/expl/expldb/init.go:52-58 | the deferred closes add the connection's close error, then the source driver's |
| ExplDb.RunDeferredCloses | api/builder-config/opt/expl/expldb/init.go:52-58 | the deferred calls close their resources in stack order, and append each failing Close's error to the returned error |
| ExplDb.ApplyMigrations | api/builder-config/opt/expl/expldb/init.go:47-81 | records exactly `MigrationTrace` and returns `MigrationErrors`: the failing step's error (Up's unless it is ErrNoChange) followed by the deferred close errors |
| ExplDb.MigrationExit | api/builder-config/opt/expl/expldb/init.go:47-81 | each exit records the opens so far followed by its deferred closes, and returns its own error (`ReturnedError`) followed by the close errors: exactly `MigrationTrace` and `MigrationErrors` |
| ExplDb.ExplDB.Close | api/builder-config/opt/expl/expldb/init.go:33-35 | closes the pool, and only the pool, and returns what the pool's Close answers |
| ExplDb.Init | api/builder-config/opt/expl/expldb/init.go:16-31 | records the pool open, the pings and the migration trace, and returns Open's error, the migration error, or a handle over the pool for the given URL |
| ExplDb.InitTraceSteps | api/builder-config/opt/expl/expldb/init.go:16-31 | the pool's open, the pings and the migration trace, in that order, make up `InitTrace` |
| ExplDb.MigrationTraceCases | api/builder-config/opt/expl/expldb/init.go:47-81 | the trace for each number of successful acquisitions, written out event by event (five traces over six exits: Up failing and Up succeeding record the same trace) |
| ExplDb.InAppend | api/builder-config/opt/expl/expldb/init.go:47-81 | the opened and the closed resources of a concatenated trace are those of its parts, concatenated |
| ExplDb.InOpensOf | api/builder-config/opt/expl/expldb/init.go:48-70 | the acquisition entries open exactly their resources, in order, and close nothing |
| ExplDb.InClosesOf | api/builder-config/opt/expl/expldb/init.go:52-58 | the deferred-close entries close exactly their resources, in order, and open nothing |
| ExplDb.MigrationResources | api/builder-config/opt/expl/expldb/init.go:47-81 | applyMigrations opens the acquisitions that succeed, in order, and closes exactly what its deferred calls release |
| ExplDb.OwnedAppend | api/builder-config/opt/expl/expldb/init.go:52-58 | the directly owned resources of a concatenation are those of its parts, concatenated |
| ExplDb.OwnedNone | api/builder-config/opt/expl/expldb/init.go:60-71 | a sequence holding only the wrappers owns nothing directly |
| ExplDb.OwnedAcquisitions | api/builder-config/opt/expl/expldb/init.go:52-71 | of the first n acquisitions only the source driver and the connection are owned directly; most recent first they are none, the source driver, or the connection then the source driver |
| ExplDb.DeferStackIsOwnedReversed | api/builder-config/opt/expl/expldb/init.go:52-58 | the deferred closes pending at an exit (`DeferStack`) are the directly owned acquisitions made so far, most recent first |
| ExplDb.MigrationClosesExactlyWhatItOwns | api/builder-config/opt/expl/expldb/init.go:47-81 | on every exit path, the closes are exactly the directly owned resources that were opened, in reverse order of opening, and nothing is opened twice |
| ExplDb.MigrationClosesFollowOpens | api/builder-config/opt/expl/expldb/init.go:52-58 | every close in the trace comes after the open of the same resource |
| ExplDb.SourceDriverReleasedOnEveryPath | api/builder-config/opt/expl/expldb/init.go:48-52 | if iofs.New fails, nothing is recorded and its error is returned; otherwise the source driver is closed exactly once, as the last event |
| ExplDb.ConnectionReleasedBeforeSourceDriver | api/builder-config/opt/expl/expldb/init.go:54-58 | once db.Conn succeeds, the connection and then the source driver are the only closes, and they end the trace; if db.Conn fails, the connection is neither opened nor closed |
| ExplDb.WrappersAndPoolNeverClosed | api/builder-config/opt/expl/expldb/init.go:60-71 | the database driver, the migrator and the pool are never closed by applyMigrations; counting what each Close passes on (`Released`), its closes release no resource twice |
| ExplDb.AllReleasedAppend | api/builder-config/opt/expl/expldb/init.go:60-71 | what a series of Close calls releases, passed-on closes included, is additive over concatenation |
| ExplDb.AllReleasedDirect | api/builder-config/opt/expl/expldb/init.go:52-58 | Close calls on resources that wrap nothing release exactly those resources |
| ExplDb.ClosingAWrapperClosesTwice | api/builder-config/opt/expl/expldb/init.go:60-71 | had the database driver also been closed, the connection would be released twice; had the migrator, the connection and the source driver would be released twice |
| ExplDb.FailedAcquisitionReturned | api/builder-config/opt/expl/expldb/init.go:48-70 | when an acquisition fails, its error comes first in the result and its resource is never opened |
| ExplDb.NoChangeIsSuccess | api/builder-config/opt/expl/expldb/init.go:75-80 | Up answering ErrNoChange gives the same result as Up answering nil: only the close errors |
| ExplDb.UpErrorReturnedUnchanged | api/builder-config/opt/expl/expldb/init.go:75-78 | any other error from Up is returned first, unchanged |
| ExplDb.CloseErrorsCarried | api/builder-config/opt/expl/expldb/init.go:52-58 | a failing deferred Close of the source driver or of the connection leaves its error in the result |
| ExplDb.MigrationSucceedsIff | api/builder-config/opt/expl/expldb/init.go:47-81 | applyMigrations returns nil if and only if every acquisition succeeds, Up answers nil or ErrNoChange, and both deferred closes succeed |
| ExplDb.InitResults | api/builder-config/opt/expl/expldb/init.go:16-31 | Init's result (`InitOutcome`) is Open's error, or the migration error; it succeeds if and only if the pool opens and applyMigrations succeeds, with a handle over the URL's pool |
| ExplDb.MigrationsFollowFirstSuccessfulPing | api/builder-config/opt/expl/expldb/init.go:22-23 | Init opens the pool, makes failed pings up to the first success and no further, and only then runs applyMigrations |
| ExplDb.InPingEvents | api/builder-config/opt/expl/expldb/init.go:37-42 | pinging opens and closes nothing |
| ExplDb.ClosedInMembers | api/builder-config/opt/expl/expldb/init.go:16-31 | a resource has a close (or open) entry in a trace exactly when it is among the trace's closed (or opened) resources |
| ExplDb.InitNeverClosesPool | api/builder-config/opt/expl/expldb/init.go:16-31 | Init records nothing when Open fails; otherwise it opens the pool first, then what applyMigrations opens, closes only what applyMigrations closes, and never closes the pool |
| ExplDb.InitLeaksPoolOnMigrationFailure | api/builder-config/opt/expl/expldb/init.go:23-26 | when applyMigrations fails, Init returns the error with the pool opened and never closed |
| ExplDb.PoolLifecycle | api/builder-config/opt/expl/expldb/init.go:16-35 | over a successful Init followed by Close, every resource is opened once, and the connection, the source driver and the pool are closed once each, in that order |

## Left out

- The timeout adapter's body (main.go:90-98) is opaque. It is the stage `Timeout(duration)`; deadlines and contexts are not modelled. The duration is an unbounded `int`; `time.Duration`'s 64-bit range is not modelled.
- `handlers.ProxyHeaders` is opaque. It is the stage `ProxyHeaders`; header rewriting is not modelled.
- `webhook.ToHttpHandler` and `webhook.RequiredTokenAdapter` are opaque stages. The secret comparison lives in the webhook package, which is not part of this model.
- `webhook.Handler` and `http.Handler` are one `Handler` type. Go's type checker keeps the two apart; the model records the conversion as a stage instead.
- Handler constructors are named, not modelled. Their arguments (the store, settings, JWT generator and validator, stringers, parsers) are left out.
- `mustLookupEnv` and `mustParseBool` (main.go:100-114) are left out. They are fatal configuration checks: the secret's variable name stands for the secret, and `useProxyHeaders` is a parameter.
- The handler timeout from `settings.Instance` is a parameter.
- Logging, the random JWT key, the deferred `edb.Close` in `main`, and `http.ListenAndServe` are I/O and are left out.
- `main` calls `expldb.NewExplDB` (main.go:37), which is not part of this model. `Init` is modelled as written.
- `migrateLoggerAdapter` (init.go:83-92) only logs and is left out.
- SQL, the embedded migration files, migrate's versioning and the `context.Background()` arguments are left out. Every library call is an oracle outcome.
- `util.CloseAndAppendError` is not part of this model. It is modelled only as appending a failing Close's error to the result, so the form of the combined error is not modelled.
- ExplDb.WaitUntilAvailable: requires that some ping succeeds. The source loops forever, sleeping one second per attempt, while the database never answers; unbounded waiting and the sleep are not modelled.
- ExplDb.Init: requires that some ping succeeds once the pool opens, for the same reason.
- The Ledger's trace is ghost. Go performs no such recording; the trace exists only to state the release discipline.
- The `ExplDB` store's query operations belong to other files and are not part of this model.
- A wrapper's Close is not run, as in the source. What it would pass on (the database driver's Close closes the connection; the migrator's closes the source driver and the database driver) is modelled only as `Released`, to state why the wrappers are left open.
