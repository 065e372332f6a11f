# hapi-context, modelled in Dafny

This project models the hapi plugin in `lib/index.js`. The plugin resolves a
named "context" once per request and caches it. It has three parts:

- **Strategy registry** (`internals._strategies`, `internals.strategy`). This is a
  process-wide map from strategy name to an options object whose
  `getContext` produces a request's context. Registration asserts three things: the
  name is non-empty, the name is new, and `getContext` is a function.
- **Resolver** (`internals.getContext(request, strategy, callback)`). It creates the
  per-request cache `request.plugins['context']` lazily. On a hit it answers
  from the cache. An unknown name is answered with a 500-class "bad
  implementation" error, and that error is not cached. Otherwise it runs the strategy once and stores
  its `{error, context}` pair, errors included, before completing with it.
- **`onRequest` hook**. It normalises the route setting into a strategy name and
  an assign target. It asserts that the name is present and resolves it. A resolver error
  becomes a 500 reply; otherwise the context is written to `request[assign]`.

Modules:

- `Values` (values.dfy) holds JavaScript values with their truthiness, exceptions, and the `(error, context)` outcome.
- `Strategies` (strategies.dfy) holds the registry as a class, and `AddStrategy`, the function that specifies registration.
- `Binding` (binding.dfy) holds the route setting and its normalisation.
- `Resolver` (resolver.dfy) holds the `Request` class with its cache. It also has `Resolve`, the function that specifies one
  resolution, and the `GetContext` method. `Replay` runs a series of resolutions in one
  request; the at-most-once and same-answer lemmas are stated over it.
- `Hook` (hook.dfy) holds the hook's decision `Decide`, the `OnRequest` method, and what happens after the assignment.
- `Scenarios` (scenarios.dfy) runs the registry, the hook and the resolver together on fixed inputs.

Representation choices:

- A strategy's `getContext` is a total function from the request's id to its
  `(error, context)` pair. The completion callback becomes the resolver's
  return value. Only whether `callback` is a function is kept, because the
  resolver asserts it.
- Objects and functions are `Obj(id)` / `Fun(id)` references. "The same
  context" therefore means the same object.
- A ghost log `Request.runs` records every invocation of a strategy's
  `getContext`. This makes "at most once" something the model can state.

Behaviours of the code worth noting:

- `assign: false` does not suppress the assignment. `routeConfig.assign || assign`
  (lib/index.js:60) falls back to `'context'`, so the guard at line 70 always holds.
- The resolver asserts only that the name is a string. An empty name gets
  through and is answered "not found".
- Exceptions thrown inside a strategy are not caught.
- There is no scheme layer in this revision. The tests in test/index.js:114-207
  call a three-argument `strategy` and a `scheme` that lib/index.js does not have.

## Model

| member | source | states |
|---|---|---|
| `Values.NotFound` | lib/index.js:29 | the unknown-strategy answer is a truthy Boom error with status 500 and no context |
| `Strategies.AddStrategy` | lib/index.js:8-14 | registration succeeds iff the name is non-empty, not yet registered and `getContext` is a function; the failed assertion is the first one in source order; success adds exactly `name -> options`, keeps every other entry, and keeps all entries callable |
| `Strategies.RegisterTwiceFails` | lib/index.js:10 | after a successful registration, registering the same name again fails with the duplicate-name assertion, whatever the options |
| `Strategies.Registry.constructor` | lib/index.js:6 | the registry starts empty, and so every entry is callable |
| `Strategies.Registry.Register` | lib/index.js:8-14 | throws exactly when `AddStrategy` refuses, leaving the registry unchanged; otherwise the registry becomes the old one plus `name -> options`; keeps every entry callable |
| `Binding.Normalize` | lib/index.js:47-61 | a falsy setting is unbound and every other setting binds; a string binds to itself with assign `'context'`; another truthy non-object binds an undefined name; an object keeps its `strategy` and falls back to `'context'` when `assign` is falsy, so the assign target is always truthy |
| `Resolver.Request.constructor` | lib/index.js:21 | a request starts with no cache, no assigned properties and no strategy run |
| `Resolver.Resolve` | lib/index.js:21-38 | a hit answers with the stored pair and runs nothing; an unknown name answers the 500 error and leaves the cache alone; a miss of a registered callable strategy runs it once and completes with, and stores under the name, that strategy's own pair; a run happens only on such a miss; no other entry changes; it throws only when a registered `getContext` is not a function |
| `Resolver.ResolveAgainHits` | lib/index.js:23-25 | resolving a name again, for any request id, returns the same pair without running anything or changing the cache |
| `Resolver.GetContext` | lib/index.js:16-39 | a null request, a non-string name and a non-function callback are assertion failures that change nothing; otherwise the cache is created if absent and then follows `Resolve`; only the resolved name can be added; the request's properties are untouched; each strategy still runs at most once per request, for resolutions that complete one after another |
| `Resolver.ReplayAtMostOnce` | lib/index.js:21-37 | over any series of resolutions in one request, each strategy runs at most once; only registered strategies not cached before run; the final cache is the old one plus those that ran, with old entries unchanged |
| `Resolver.ReplayAnswers` | lib/index.js:23-37 | every resolution in a series completes with the final cache's entry for its name, or with the not-found error when the name is unknown |
| `Resolver.SameNameSameAnswer` | lib/index.js:23-37 | two resolutions of the same name in one request complete with the identical pair, a cached error included |
| `Hook.Decide` | lib/index.js:47-72 | only an unbound route passes through; a binding without a strategy name is an assertion failure; a truthy non-string name raises the resolver's string assertion; a resolver error with a truthy `error` is a 500 reply carrying that error, and a thrown exception propagates; an unregistered name answers 500; the context is assigned iff a non-empty string name resolved with a falsy error |
| `Hook.OnRequest` | lib/index.js:46-73 | the step is `Decide` of the request's setting and cache; with no string name to resolve, the request is untouched; otherwise the cache follows `Resolve`, at most the resolved name is added to the run log, and `request[assign]` is written with the context exactly when the step is `Assigned`; the at-most-once invariant is kept |
| `Hook.FinishAsWritten` | lib/index.js:74 | as written, the statement after the assignment throws a ReferenceError; every other step (a 500 reply, an assertion failure, a pass-through) is returned unchanged, so the handler runs only for a step that was already `Continue` |
| `Hook.Finish` | lib/index.js:49 | with `reply.continue()` after the assignment, the handler runs exactly for `Continue` and `Assigned`, and every other step is unchanged |
| `Hook.BoundRouteNeverReachesHandler` | lib/index.js:65-75 | as written, the handler runs iff the route has no binding |
| `Hook.HandlerRunsIffResolved` | lib/index.js:48-72 | with the corrected continuation, the handler runs iff the route is unbound or its strategy resolved with a falsy error |
| `Scenarios.DuplicateStrategy` | lib/index.js:8-13 | a second registration of `"valid"` throws the duplicate-name assertion and the registry keeps exactly the first entry |
| `Scenarios.MissingStrategy` | lib/index.js:28-29 | a route bound to an unregistered name gets a 500 reply and nothing is cached for it |
| `Scenarios.FailingStrategy` | lib/index.js:31-37 | a strategy completing with an error makes the hook reply 500 without assigning; a later explicit resolution returns the cached error, and the strategy ran once |
| `Scenarios.AssignFalse` | lib/index.js:58-71 | `{strategy: 'valid', assign: false}` still writes the context to `request.context`; a later resolution returns the identical object, and the strategy ran once |

## Findings

| source | as written | input that shows it | evidently intended | confidence | as-written member | corrected member |
|---|---|---|---|---|---|---|
| lib/index.js:74 | the success path ends in `return callback(err, context)`, and no `callback` is in scope in the hook | any route bound to a registered strategy that completes without error, e.g. `plugins: {'context': 'valid'}` | `return reply.continue()`, as at line 49, so the handler runs with the context assigned | high; not executed | `Hook.FinishAsWritten` (with `Hook.BoundRouteNeverReachesHandler`) | `Hook.Finish` (with `Hook.HandlerRunsIffResolved`) |

## Left out

- hapi plumbing is not modelled: `exports.register`, `server.plugins` wiring, `server.ext`, `reply`, `reply.continue()` and `register.attributes` (lib/index.js:41-46, 78-83). The hook's outcome is a `Step` value instead.
- Asynchrony is not modelled. A strategy completes synchronously with one pair. Interleavings, re-entrant resolution from inside a strategy, cancellation and concurrent requests are left out. Each request's cache is its own object, and `GetContext` modifies only that request.
- Resolver.GetContext, Resolver.ReplayAtMostOnce: "at most once" is proved only for resolutions that each complete before the next begins. The source does not keep this guarantee when resolutions overlap. It stores the pair only when the strategy completes (lib/index.js:32-35), after the hit test at line 23. So two overlapping resolutions of one name in one request, for example from parallel route prerequisites calling `getContext` on an asynchronous strategy, both miss the cache and both run `getContext`.
- Exceptions thrown inside a strategy's `getContext` are not modelled, because the source does not catch them.
- Boom objects are reduced to a status and a message. `Hook.Decide` and `Hook.OnRequest` reply with status 500 for every resolver error; they do not model how `Boom.wrap` treats errors that are not `Error` objects or that already carry another status.
- `Hoek.assert` messages keep only their first string argument; extra arguments are dropped from the message.
- Property-key coercion is not modelled. Registry names are strings, and `request[assign]` is keyed by the assign value itself, although JavaScript turns it into a string. Writing to an assign target named `plugins`, which would overwrite the cache object in the source, is not modelled either.
- Names inherited from `Object.prototype` are not modelled. Keys such as `constructor` or `toString` read as present on the plain objects `{}` used for the registry and the cache; the model treats them as absent.
- `Strategies.Registry.Register` takes `options` as an object. A missing `options`, which makes the source throw a TypeError when it reads `options.getContext`, is not modelled.
- Mutating an options object after registration is not modelled: the registry keeps a value, not a shared reference.
- Numbers are integers, so NaN and fractional values are left out of truthiness.
- The scheme API and the three-argument `strategy(name, scheme, options)` used by test/index.js:114-207 are not part of this model. They do not exist in lib/index.js.
