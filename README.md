# express-data request timing, modelled in Dafny

`express-data` is Express middleware that times a request. Its `ExpressData` class is built once
with a configuration (`verbose`, `onEndRequest`). Its `interceptor` runs once per request. It
creates a mutable bag `events` and installs closures on `req.expressData`:

- `record(name)` starts a named event.
- `stop(name)` stops it and stores its elapsed milliseconds.
- `endRequest(cb)` stamps the session's own stop time and total time, then calls the configured
  hook and the caller's callback.
- `logEvent(name)` logs an event's duration.
- `getData()` hands back the live bag.

The project has six modules:

- `Wrappers` (wrappers.dfy): `Option`, used for the properties JavaScript leaves `undefined`.
- `JsValues` (js_values.dfy): JavaScript truthiness, and whether a value can be called. It also
  models the expression `x || false` that the constructor uses.
- `Timing` (timing.dfy): `process.hrtime()` readings `[sec, ns]` and the helper `timeElapsed`.
  The arithmetic is exact over `real`.
- `Events` (events.dfy): the bag as a value (`Session`, `Event`) and its key set `Keys`. One pure
  function per closure gives the bag after the call (`Initialized`, `Recorded`, `Stopped`,
  `Ended`). Another gives what the call emits or calls and whether it throws (`InitEffects`,
  `StopReport`, `LogReport`, `EndReport`).
- `Lifetime` (lifetime.dfy): any sequence of calls on the bundle, with lemmas about what every
  sequence preserves, proved by induction. It also holds lemmas about pairs of calls.
- `Middleware` (middleware.dfy): the imperative model, with three classes.
  - `ExpressData` holds the configuration.
  - `EventBag` is the `events` object. Its fields are updated in place.
  - `RequestData` is `req.expressData`. Its methods change the bag and append to a ghost
    `trace` of console lines, hook calls and callback calls. The `ensures` of `Init`, `Record`,
    `Stop` and `EndRequest` tie the new bag to the matching `Events` function of the old one;
    `LogEvent` reports `LogReport` of the current bag and leaves it alone, and `GetData` returns the
    bag object itself. `Record`, `Stop` and `EndRequest` also keep the invariant `Valid()`.
    `Init` stands for the private closure `init`, which is not on `req.expressData` and is only
    called by `Record`; on its own it leaves an entry without a start, outside `Valid()`.

Clock readings, the request id and the request are parameters.

## Behaviour of index.ts worth noting

- There is no `closed` flag and no wrapping of the response's sending methods. Every
  `endRequest` call re-stamps the bag and calls the hook and the callback again: the trace clause
  of `Middleware.RequestData.EndRequest` holds on every call, whatever the bag's state, and
  `Lifetime.EndRequestReruns` and `Lifetime.RunStopTime` show the re-stamping.
- A second `record` of a name warns and still overwrites the entry's `startTime` (index.ts:47);
  see `Lifetime.RecordTwiceRestamps`. After a `stop`, such a re-record leaves a `timeElapsed` that
  no longer matches the entry's readings (`Lifetime.RecordAfterStopLeavesStaleElapsed`).
- `logEvent` on an unknown name reads a property of `undefined` and throws a TypeError. So does
  `stop` of an unknown name when verbose, which warns first. Calling a truthy `onEndRequest` or
  `cb` that is not a function also throws. The model returns `ThrewTypeError` in these cases.
- In strict mode, setting a property on a string or a number throws a TypeError. So `record` of
  `uuid`, `url` or `method` warns and then throws (index.ts:47), and `stop` of them throws
  (index.ts:54). The same holds for `timeElapsed` once `endRequest` has stored a non-zero number
  there. These names are outside `EventName`, so the model does not cover these paths; the section on what is left out lists them.

## Model

| member | source | states |
|---|---|---|
| JsValues.OrFalse | index.ts:13-14 | the result of `x` OR-ed with `false` is truthy exactly when `x` is; it is `x` when truthy and `false` otherwise |
| Middleware.ExpressData.constructor | index.ts:12-15 | `verbose` and `onEndRequest` are `false` when there is no config or the field is falsy, and keep the configured value otherwise |
| Timing.ElapsedMs | index.ts:17-22 | 0 when either reading is missing; otherwise the elapsed milliseconds equal the difference of the readings in nanoseconds divided by 10^6 |
| Timing.ElapsedNonNegative | index.ts:21 | on a clock that did not run backwards the elapsed time is never negative |
| Timing.ElapsedAdditive | index.ts:21 | elapsed times over consecutive intervals add up |
| Timing.ElapsedAntisymmetric | index.ts:21 | swapping the two readings negates the elapsed time |
| Timing.NanosInjective | index.ts:21 | two normalized `[sec, ns]` readings are the same instant exactly when they are equal |
| Timing.ElapsedZeroIffSameReading | index.ts:17-22 | for normalized readings the elapsed time is 0 exactly when the two readings are equal |
| Events.NewSession | index.ts:26-31 | a new bag has exactly the keys `uuid`, `url`, `method`, `startTime`, no events, the request's url and method, and is well formed |
| Middleware.EventBag.constructor | index.ts:26-31 | the object literal holds the id, the request's url and method and the start reading, and nothing else |
| Middleware.ExpressData.Interceptor | index.ts:24-31 | each request gets a fresh bag equal to `NewSession`, closures bound to this tracker and request, and an empty trace |
| Middleware.RequestData.constructor | index.ts:73-79 | the bundle is bound to the tracker, the request and the bag, and nothing has been logged or called yet |
| Events.Initialized | index.ts:37-43 | `init` adds an empty entry under a new name; a known name leaves the bag unchanged; no other key or field changes |
| Events.InitEffects | index.ts:35-42 | `init` emits exactly one "already been created" warning, and only when the name is already in the bag |
| Middleware.RequestData.Init | index.ts:37-43 | the bag becomes `Initialized` of the old bag, and the trace gains exactly `InitEffects` |
| Events.Recorded | index.ts:45-48 | `record` adds exactly the key `name` (nothing when known), stamps its `startTime` even when it was known, keeps a known entry's stop time and duration, leaves every other entry and session field alone, and keeps the bag well formed |
| Middleware.RequestData.Record | index.ts:45-48 | the bag becomes `Recorded` of the old bag, the trace gains the warning only for a known name, and `Valid()` is kept |
| Events.Stopped | index.ts:50-56 | `stop` of an unknown name changes nothing; for a known name only that entry's `stopTime` (the new reading) and `timeElapsed` (start to stop, in ms) change, and its keys stay the same |
| Events.StopReport | index.ts:50-60 | an unknown name gives the "has NOT been created" warning; when verbose, the log line carries the new duration; it throws exactly when verbose and the name is unknown |
| Middleware.RequestData.Stop | index.ts:50-60 | the bag becomes `Stopped` of the old bag, trace and outcome are those of `StopReport` for the tracker's current `verbose`, and `Valid()` is kept |
| Events.Ended | index.ts:62-64 | the session's `stopTime` is the new reading and `timeElapsed` is the total time since `startTime`; the keys `stopTime` and `timeElapsed` appear; the events and other fields are unchanged |
| Events.EndReport | index.ts:65-66 | the hook is called exactly when it is a function, and then once; the callback is called exactly when it is a function and the hook did not throw, and then once; the hook comes strictly before the callback; nothing else is called; a truthy non-function throws |
| Middleware.RequestData.EndRequest | index.ts:62-67 | the bag becomes `Ended` of the old bag, trace and outcome are those of `EndReport`, and there is no guard against a second call |
| Events.LogReport | index.ts:69 | `logEvent` of a known name logs one line with that entry's `timeElapsed`, which is undefined before `stop`; an unknown name logs nothing and throws |
| Middleware.RequestData.LogEvent | index.ts:69 | the trace and outcome are those of `LogReport`, and the bag is untouched |
| Middleware.RequestData.GetData | index.ts:71 | returns the bag object itself, so later calls are visible through it |
| Lifetime.RunKeepsIdentity | index.ts:26-31 | no sequence of calls changes the id, url, method or start time of the bag |
| Lifetime.RunKeepsWellFormed | index.ts:37-67 | every sequence of calls keeps the invariant: each event has a start, and a stop time exactly when it has a duration; the same holds for the session |
| Lifetime.RunEventNames | index.ts:37-56 | after any sequence of calls, the event names are the earlier ones plus the recorded ones: `stop` never creates an entry and nothing removes one |
| Lifetime.RunStopTime | index.ts:62-64 | after any sequence of calls, the session's stop time is the reading of the last `endRequest`, or the bag's earlier stop time when there was none (absent for a new bag) |
| Lifetime.RunKeysFromNew | index.ts:26-67 | a request's bag ends up with the four fixed keys, the recorded names, and `stopTime`/`timeElapsed` once `endRequest` has run |
| Lifetime.RecordThenStop | index.ts:45-56 | `record` then `stop` stores both readings and a duration that is never negative when the clock did not run backwards |
| Lifetime.RecordTwiceRestamps | index.ts:37-48 | a second `record` warns and still moves `startTime`, so a later `stop` measures from the second call |
| Lifetime.StopTwiceRestamps | index.ts:50-56 | a second `stop` gives the same bag as a single `stop` at the later reading |
| Lifetime.EndRequestReruns | index.ts:62-64 | a second `endRequest` gives the same bag as a single one at the later reading |
| Lifetime.RecordAfterStopKeepsDuration | index.ts:45-56 | `record` after `stop` moves the start but keeps the earlier stop time and duration |
| Lifetime.RecordAfterStopLeavesStaleElapsed | index.ts:45-56 | so, when the re-record is at a different instant, the stored duration disagrees with the stored readings |

## Left out

- The request id is a parameter. `uuidv4()` (index.ts:27) is an external library and is not part of this model.
- Clock readings are parameters. `process.hrtime()` (index.ts:30, 47, 54, 63) is the system clock and is not modelled. Nothing about monotonicity is assumed, except where a lemma requires it.
- `console.warn` and `console.info` are entries of the ghost trace, not I/O. The info line is kept as the event name and the value it prints. Turning the number into text (`${...}`) is not modelled.
- `next()`, the installation of the bundle on `req.expressData` (index.ts:73-81) and the rest of the Express plumbing are not modelled.
- The bodies of the `onEndRequest` hook and of the callback are foreign code. The trace records only that they were called and in what order. The model assumes they neither throw nor call back into the bag.
- The millisecond conversion is exact over `real`. IEEE-754 rounding of `* 1e3` and `* 1e-6` is not modelled.
- A truthy configuration that is not an object reads like `Config(Undefined, Undefined)`. The caller passes it that way.
- Middleware.RequestData.Init requires `EventName(name)`. A name that is a session key (`uuid`, `url`, `method`, `startTime`, `stopTime`, `timeElapsed`) or an Object.prototype property (`constructor`, `toString`, `__proto__`, …) is not modelled. The closures are strict-mode code (they are built inside a class body), so on those names index.ts does the following. `uuid`, `url` and `method` hold strings: `record` warns and then throws a TypeError when it sets `startTime` on the string (index.ts:47), and `stop` throws when it sets `stopTime` (index.ts:54); nothing is written. An empty `url` is falsy instead, and `record` replaces it with a new entry. `startTime` holds the reading array, and the inherited names hold functions, so `record` warns and `stop` proceeds, and both write their properties onto that array or function; for `__proto__` they land on Object.prototype itself. Before `endRequest`, `stopTime` and `timeElapsed` are undefined, so `record` creates an ordinary entry there that `endRequest` later overwrites with a reading and a number. After `endRequest`, `stopTime` is an array as for `startTime`, and a non-zero `timeElapsed` is a number, on which `record` and `stop` throw as for the strings.
- Middleware.RequestData.Record requires `EventName(name)`, for the same reason; so do Events.Initialized and Events.Recorded.
- Middleware.RequestData.Stop requires `EventName(name)`, for the same reason; so do Events.Stopped and Events.StopReport.
- Middleware.RequestData.LogEvent requires `EventName(name)`, for the same reason; so does Events.LogReport.
- There is no response-method wrapping and no `closed` flag in `index.ts`, so neither is modelled.
