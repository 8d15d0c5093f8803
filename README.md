# drover-express-router — a Dafny model of the control-plane router

The repository exports one factory. It takes an orchestrator (a `drover` `Master`)
and returns an Express router with six routes. The routes are `GET /status`,
`GET /status/workers`, `PUT /start`, `PUT /scale`, `PUT /shutdown` and `PUT /reload`.
Each route calls the orchestrator and turns the outcome into an HTTP status and a JSON body.
A failure the orchestrator raises becomes one of five fixed error envelopes, with codes 1000 to 1004.
There is one exception. A thrown value with no `constructor` (`undefined`, `null`, an object without a prototype) at /start, /scale, /shutdown or /reload gets no response at all (see "## Left out").

The model has three modules and one file of client code:

- `Responses` (responses.dfy): error kinds as a closed datatype, the six endpoints, the
  response bodies and the five error constants. `ErrorResponse` is the catch block of
  every handler, written as an exhaustive `match` per endpoint. `ErrorTable` is the
  same table read by error kind rather than by handler, and a lemma proves that the two agree.
- `Orchestrator` (orchestrator.dfy): the orchestrator as the router sees it. It is a
  `Master` class with a call log (`seq<Call>`) and a `Script` that fixes, in advance, what
  each operation answers. The script plays the role of the test stubs. `Count` counts
  calls in a log.
- `Router` (router.dfy): `CheckMaster` is the factory's validation of the `master` option.
  `Trace` and `Reply` are pure functions that give the calls one request makes and the
  response it gets. The `Router` class has one handler method per route. Each handler's
  `ensures` ties the new log and the response to `Trace` and `Reply`, and the properties
  the router promises are proved about those two functions. `Create` is the exported factory.
- `Scenarios` (scenarios.dfy): the situations of the unit tests, checked from the contracts
  alone. These methods have no contract of their own.

Two behaviours of the code worth noting:

- A handler's query runs inside the same `try` as its command. If the query fails after a
  successful command, the endpoint's own catch block translates the query's error. So
  `/start` answers 400/1001 when `getStatus` throws an `AlreadyInitializedError`
  (index.js:47-56).
- The master check compares the object's class name with `"Master"`. It does not check that
  the operations are present. An object of a subclass of `Master` is refused.

## Model

| member | source | states |
|---|---|---|
| `Responses.ErrorResponse` | index.js:30-108 | A failure always gives an error body with status 400 or 500. Any unrecognised kind, and any error at the two read routes, gives exactly 500 / 1000 "Unknown error". Every other reply is one of the four fixed replies: 400/1001 "Service already started", 400/1002 "Inappropriate conditions", 400/1003 "Invalid scale size" or 500/1004 "One or more workers have error state". Code 1001 comes only from AlreadyInitialized at /start. Code 1002 comes only from InappropriateCondition at /scale, /shutdown or /reload. Code 1003 comes only from InvalidArgument at /scale. Code 1004 comes only from WorkerStatus at /shutdown or /reload. |
| `Responses.CodeDeterminesResponse` | index.js:5-11 | Two error replies with the same code are identical: the same HTTP status and the same message, whatever the endpoint or error behind them. |
| `Responses.ErrorResponseFollowsTable` | index.js:51-106 | The per-handler catch blocks equal a lookup in the error table indexed by error kind. That table lists each kind, the endpoints that recognise it and the reply, with the 500/1000 fallback. |
| `Orchestrator.Count` | tests/Unit/index.js:115-116 | The number of times a call occurs in a log. It is at most the log's length, and it is zero exactly when the call is absent. |
| `Orchestrator.CountConcat` | tests/Unit/index.js:170-171 | Counting calls in two logs joined together gives the sum of the two counts. |
| `Orchestrator.Master.constructor` | tests/Unit/index.js:40-42 | A stubbed orchestrator starts with an empty call log and the given class name and script. |
| `Orchestrator.Master.Start` | index.js:48 | `start` appends exactly one start call to the log and answers its scripted outcome. |
| `Orchestrator.Master.Rescale` | index.js:64 | `rescale(size)` appends one rescale call carrying `size` and answers the outcome scripted for that size. |
| `Orchestrator.Master.GracefulShutdown` | index.js:80 | `gracefulShutdown` appends one call and answers its scripted outcome. |
| `Orchestrator.Master.GracefulReload` | index.js:96 | `gracefulReload` appends one call and answers its scripted outcome. |
| `Orchestrator.Master.GetStatus` | index.js:32 | `getStatus` appends one call and answers the scripted status or error. |
| `Orchestrator.Master.GetWorkersStatuses` | index.js:40 | `getWorkersStatuses` appends one call and answers the scripted worker statuses or error. |
| `Router.CheckMaster` | index.js:20-26 | An option is accepted exactly when it is an object of class "Master". A missing option always fails with "\"master\" option is required", so this check comes first. An object of any other class fails with "\"master\" option must be valid instance of \"Master\"". |
| `Router.OptionOf` | index.js:20-24 | A null reference reads as a missing option. Any other reference reads as an option carrying that object's class name. |
| `Router.Query` | index.js:32-98 | Every route's follow-up call is a query. It is `getStatus` exactly for /status, /start and /shutdown, and `getWorkersStatuses` for /status/workers, /scale and /reload. |
| `Router.Command` | index.js:61-64 | Each mutating route issues a command that is never a query. Only /scale issues `rescale`, and it passes the request's `size` on unchanged. |
| `Router.Trace` | index.js:46-108 | A mutating request issues its command first and exactly once. The follow-up query is issued exactly when the command resolved, at most once, and last. When the command fails, the trace is that command alone. When it resolves, the trace is exactly the command followed by the query. A read request makes its query and nothing else. |
| `Router.Reply` | index.js:30-108 | The status is 200 exactly when the body is not an error envelope. That happens exactly when the command (if any) resolved and the query answered. A 200 body carries the queried value unchanged, under `status` for the status query and under `workers` for the worker query. A failed command, or a failed query, is answered by the endpoint's catch translation of its error kind. The read routes answer only 200 or 500/1000. |
| `Router.Router.constructor` | index.js:28 | The router keeps the orchestrator it was built with. |
| `Router.Router.Status` | index.js:30-36 | `GET /status` issues one status query and answers `Reply` for it. |
| `Router.Router.Workers` | index.js:38-44 | `GET /status/workers` issues one worker-status query and answers `Reply` for it. |
| `Router.Router.Start` | index.js:46-58 | `PUT /start` appends `Trace` of the request to the log. The log then holds exactly one more start call. The handler answers `Reply`. |
| `Router.Router.Scale` | index.js:60-76 | `PUT /scale` appends `Trace`, which is `rescale(size)` and then the worker query if `rescale` resolved. The log holds exactly one more `rescale(size)`. The handler answers `Reply`. |
| `Router.Router.Shutdown` | index.js:78-92 | `PUT /shutdown` appends `Trace`. The log holds exactly one more shutdown call. The handler answers `Reply`. |
| `Router.Router.Reload` | index.js:94-108 | `PUT /reload` appends `Trace`. The log holds exactly one more reload call. The handler answers `Reply`. |
| `Router.Create` | index.js:17-28 | The factory fails exactly when `CheckMaster` refuses the option, and then with `CheckMaster`'s message. Otherwise it returns a new router around the given orchestrator. |

## Left out

- Express itself is not modelled: `Router` registration, route paths, the `req`/`res` objects, body parsing and JSON serialisation. Each handler is a method that returns a `Response` value.
- `Router.Router.Scale`: takes `size` as an integer. The source passes on whatever `req.body.size` holds. It reads it before the `try` (index.js:61), so a request with no parsed body throws outside the catch. Neither case is modelled, because both depend on body parsing.
- `async`/`await` and concurrent requests are not modelled. The router adds no mutual exclusion, and each handler invocation is one sequential call.
- The real `Master` of the `drover` package is a foreign library and is not part of this model. Its operations are a scripted stub (`Orchestrator.Master`) whose outcomes are parameters.
- The errors' class names (`err.constructor.name`) are replaced by the `ErrorKind` tag. The master's class name is a plain string field. A thrown value without a `constructor` is covered by the handler line below; a `master` option without one would make the check at index.js:24 throw a TypeError, which is not modelled either.
- `Router.Create`: takes the `master` option directly. The source destructures an `options` object first (index.js:18), so calling the factory with no argument or with `null` throws a TypeError before either check, not the "\"master\" option is required" error. That case is not modelled.
- The handlers at /start, /scale, /shutdown and /reload read `err.constructor.name` inside the catch (index.js:52, 68, 70, 84, 86, 100, 102). If the thrown value is `undefined`, `null` or an object without a prototype, that read throws inside the catch. The handler's promise then rejects and no response is sent. `ErrorKind` has no variant for such values, so this is not modelled. The read routes never look at the error and answer 500/1000 for these values too.
- `Router.CheckMaster` treats every falsy value as a missing option. `Router.Create` models a missing option as `null`.
