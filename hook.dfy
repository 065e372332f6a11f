/** The `onRequest` extension the plugin installs: bind the route's strategy,
    resolve it, and either answer 500 or write the context onto the request. */
module Hook {
  import opened Values
  import opened Strategies
  import opened Binding
  import opened Resolver

  const MissingStrategyName := "Context plugin must have strategy name."
  const CallbackUnbound := "callback is not defined"

  /** Where the hook leaves a request: `reply.continue()`, a reply carrying an
      error, the context written to `request[assign]`, or a thrown exception. */
  datatype Step =
    | Continue
    | Reply(statusCode: int, error: Value)
    | Assigned
    | Raised(e: Exception)

  /** The completion the hook hands to the resolver, which is a function. */
  const HookCallback := Fun(0)

  /** The hook's decision for a route setting, the request's cache and the
      registry, up to and including the assignment. */
  function Decide(setting: Setting, state: State, t: Table, req: nat): (step: Step)
    // only a route without a binding passes straight through
    ensures step.Continue? <==> Normalize(setting).Unbound?
    // a binding without a strategy name is a configuration error
    ensures Normalize(setting).Bound? && !Truthy(Normalize(setting).strategy) ==>
      step == Raised(AssertionError(MissingStrategyName))
    // a truthy name that is not a string fails the resolver's assertion
    ensures var b := Normalize(setting);
      b.Bound? && Truthy(b.strategy) && !b.strategy.Str? ==>
      step == Raised(AssertionError(StrategyNotString))
    // a resolver error is a 500 reply carrying that error; a thrown exception propagates
    ensures var b := Normalize(setting);
      b.Bound? && b.strategy.Str? && Truthy(b.strategy) ==>
      var r := Resolve(state, t, b.strategy.s, req);
      && (r.Resolved? && Truthy(r.outcome.error) ==> step == Reply(500, r.outcome.error))
      && (r.Failed? ==> step == Raised(r.e))
    ensures step.Reply? ==> step.statusCode == 500 && Truthy(step.error)
    // a bound name neither cached nor registered answers 500
    ensures var b := Normalize(setting);
      b.Bound? && b.strategy.Str? && Truthy(b.strategy) && b.strategy.s !in state && b.strategy.s !in t ==>
      step == Reply(500, NotFound(b.strategy.s).error)
    // the context is assigned only for a non-empty strategy name that resolved without error
    ensures step.Assigned? <==>
      var b := Normalize(setting);
      && b.Bound? && b.strategy.Str? && Truthy(b.strategy)
      && var r := Resolve(state, t, b.strategy.s, req);
      r.Resolved? && !Truthy(r.outcome.error)
  {
    match Normalize(setting)
    case Unbound => Continue
    case Bound(strategy, _) =>
      if !Truthy(strategy) then Raised(AssertionError(MissingStrategyName))
      else if !strategy.Str? then Raised(AssertionError(StrategyNotString))
      else match Resolve(state, t, strategy.s, req)
        case Failed(e) => Raised(e)
        case Resolved(o, _, _) => if Truthy(o.error) then Reply(500, o.error) else Assigned
  }

  /** The hook body. It resolves the bound strategy through the resolver,
      so the cache and the at-most-once invariant are the resolver's. */
  method OnRequest(registry: Registry, request: Request) returns (step: Step)
    requires request.Valid()
    modifies request
    ensures request.Valid()
    ensures step == Decide(request.setting, old(request.Cached()), registry.strategies, request.id)
    ensures var b := Normalize(request.setting);
      !(b.Bound? && b.strategy.Str? && Truthy(b.strategy)) ==> unchanged(request)
    ensures var b := Normalize(request.setting);
      b.Bound? && b.strategy.Str? && Truthy(b.strategy) ==>
      var res := Resolve(old(request.Cached()), registry.strategies, b.strategy.s, request.id);
      && request.cache == Some(if res.Resolved? then res.state else old(request.Cached()))
      && request.runs == old(request.runs) + (if res.Resolved? && res.ran then [b.strategy.s] else [])
      && request.props == if step.Assigned? then old(request.props)[b.assign := res.outcome.context]
                          else old(request.props)
  {
    var binding := Normalize(request.setting);
    if binding.Unbound? {
      return Continue;
    }
    var strategyName, assign := binding.strategy, binding.assign;
    if !Truthy(strategyName) {
      return Raised(AssertionError(MissingStrategyName));
    }
    var r := GetContext(registry, request, strategyName, HookCallback);
    match r {
      case Threw(e) =>
        return Raised(e);
      case Done(o) =>
        if Truthy(o.error) {
          return Reply(500, o.error);
        }
        if Truthy(assign) {
          request.props := request.props[assign := o.context];
        }
        return Assigned;
    }
  }

  /** Whether hapi goes on to the route handler. */
  predicate HandlerRuns(step: Step) {
    step.Continue?
  }

  /** The statement after the assignment as written, `return callback(err,
      context)`: no `callback` is in scope there, so it throws. */
  function FinishAsWritten(step: Step): (f: Step)
    ensures HandlerRuns(f) <==> step.Continue?
    ensures step.Assigned? ==> f == Raised(ReferenceError(CallbackUnbound))
    ensures !step.Assigned? ==> f == step
  {
    if step.Assigned? then Raised(ReferenceError(CallbackUnbound)) else step
  }

  /** The evidently intended continuation, `reply.continue()`, after the
      assignment. */
  function Finish(step: Step): (f: Step)
    ensures HandlerRuns(f) <==> step.Continue? || step.Assigned?
    ensures !step.Assigned? ==> f == step
  {
    if step.Assigned? then Continue else step
  }

  /** As written, the handler runs only for routes without a binding: even a
      strategy that succeeds ends in a thrown ReferenceError. */
  lemma BoundRouteNeverReachesHandler(setting: Setting, state: State, t: Table, req: nat)
    ensures HandlerRuns(FinishAsWritten(Decide(setting, state, t, req))) <==> Normalize(setting).Unbound?
  {
  }

  /** With the continuation corrected, the handler runs exactly when the route
      has no binding or its strategy resolved without error: a missing or
      failing context never reaches the handler. */
  lemma HandlerRunsIffResolved(setting: Setting, state: State, t: Table, req: nat)
    ensures HandlerRuns(Finish(Decide(setting, state, t, req))) <==>
      var b := Normalize(setting);
      || b.Unbound?
      || (&& b.strategy.Str? && Truthy(b.strategy)
          && var r := Resolve(state, t, b.strategy.s, req);
          r.Resolved? && !Truthy(r.outcome.error))
  {
  }
}
