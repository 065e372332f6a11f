/** The memoising resolver `internals.getContext(request, strategy, callback)`
    over the per-request cache `request.plugins['context']`. */
module Resolver {
  import opened Values
  import opened Strategies
  import opened Binding

  type State = map<string, Outcome>

  const RequestRequired := "request is required"
  const StrategyNotString := "strategy must be a string"
  const CallbackNotFunction := "callback must be a function"
  const GetContextNotFunction := "implenmentation.getContext is not a function"

  /** One request, as far as the plugin touches it. */
  class Request {
    /** which request this is; a strategy's `getContext` may answer differently per request */
    const id: nat
    /** `request.route.settings.plugins['context']` */
    const setting: Setting
    /** `request.plugins['context']`: absent until the first resolution */
    var cache: Option<State>
    /** the request's own properties that the hook writes, `request[assign]` */
    var props: map<Value, Value>
    /** the strategies whose `getContext` has been invoked for this request, in order */
    ghost var runs: seq<string>

    /** `request.plugins['context'] || {}` */
    function Cached(): State
      reads this
    {
      if cache.Some? then cache.value else map[]
    }

    /** Each strategy has run at most once for this request, and the cache
        holds exactly the strategies that have run. */
    ghost predicate Valid()
      reads this
    {
      && (forall i, j :: 0 <= i < j < |runs| ==> runs[i] != runs[j])
      && (forall n :: n in Cached() <==> n in runs)
    }

    constructor (id: nat, setting: Setting)
      ensures Valid()
      ensures this.id == id && this.setting == setting
      ensures cache == None && props == map[] && runs == []
    {
      this.id := id;
      this.setting := setting;
      cache := None;
      props := map[];
      runs := [];
    }
  }

  /** What one resolution does to the cache when its arguments pass the
      assertions: the pair it completes with, the new cache and whether the
      strategy's `getContext` ran; or the exception it throws. */
  datatype Resolution =
    | Resolved(outcome: Outcome, state: State, ran: bool)
    | Failed(e: Exception)

  function Resolve(state: State, t: Table, name: string, req: nat): (r: Resolution)
    // a hit answers with the stored pair and runs nothing
    ensures name in state ==> r == Resolved(state[name], state, false)
    // an unknown name is an internal error and is not cached
    ensures name !in state && name !in t ==> r == Resolved(NotFound(name), state, false)
    // a miss runs the strategy once and stores its pair, errors included
    ensures r.Resolved? && r.ran ==> name !in state && name in t && r.state == state[name := r.outcome]
    ensures r.Resolved? && !r.ran ==> r.state == state
    ensures name !in state && name in t && t[name].getContext.Function? ==>
      var o := t[name].getContext.call(req);
      r == Resolved(o, state[name := o], true)
    ensures r.Resolved? && name in r.state ==> r.state[name] == r.outcome
    // only a registered options object whose `getContext` is not a function throws
    ensures r.Failed? <==> name !in state && name in t && t[name].getContext.NotFunction?
  {
    if name in state then Resolved(state[name], state, false)
    else if name !in t then Resolved(NotFound(name), state, false)
    else match t[name].getContext
      case NotFunction(_) => Failed(TypeError(GetContextNotFunction))
      case Function(call) =>
        var o := call(req);
        Resolved(o, state[name := o], true)
  }

  /** Resolving the same name again, for this or any request id, answers with
      the same pair and leaves the cache as it is. */
  lemma ResolveAgainHits(state: State, t: Table, name: string, req: nat, req': nat)
    requires Resolve(state, t, name, req).Resolved?
    ensures var r := Resolve(state, t, name, req);
      Resolve(r.state, t, name, req') == Resolved(r.outcome, r.state, false)
  {
  }

  /** What `callback` receives, or the exception thrown instead. */
  datatype Completion = Done(outcome: Outcome) | Threw(e: Exception)

  /** `internals.getContext(request, strategy, callback)`. The completion's
      effect is the returned value; only whether `callback` is a function
      matters to the resolver. */
  method GetContext(registry: Registry, request: Request?, strategy: Value, callback: Value) returns (r: Completion)
    requires request != null ==> request.Valid()
    modifies request
    ensures request != null ==> request.Valid()
    ensures request == null ==> r == Threw(AssertionError(RequestRequired))
    ensures request != null && !strategy.Str? ==>
      r == Threw(AssertionError(StrategyNotString)) && unchanged(request)
    ensures request != null && strategy.Str? && !IsFunction(callback) ==>
      r == Threw(AssertionError(CallbackNotFunction)) && unchanged(request)
    ensures request != null && strategy.Str? && IsFunction(callback) ==>
      var res := Resolve(old(request.Cached()), registry.strategies, strategy.s, request.id);
      && request.props == old(request.props)
      && (res.Resolved? ==>
            && r == Done(res.outcome)
            && request.cache == Some(res.state)
            && request.runs == old(request.runs) + if res.ran then [strategy.s] else [])
      && (res.Failed? ==>
            && r == Threw(res.e)
            && request.cache == Some(old(request.Cached()))
            && request.runs == old(request.runs))
  {
    if request == null {
      return Threw(AssertionError(RequestRequired));
    }
    if !strategy.Str? {
      return Threw(AssertionError(StrategyNotString));
    }
    if !IsFunction(callback) {
      return Threw(AssertionError(CallbackNotFunction));
    }
    var name := strategy.s;
    var state := request.Cached();
    request.cache := Some(state);

    if name in state {
      return Done(state[name]);
    }

    if name !in registry.strategies {
      return Done(NotFound(name));
    }
    var implementation := registry.strategies[name];
    match implementation.getContext {
      case NotFunction(_) =>
        return Threw(TypeError(GetContextNotFunction));
      case Function(call) =>
        var o := call(request.id);
        request.cache := Some(state[name := o]);
        request.runs := request.runs + [name];
        return Done(o);
    }
  }

  /** A series of resolutions within one request, one per name in `names`:
      the pairs they complete with, the final cache and the strategies run. */
  datatype Trace = Trace(outcomes: seq<Outcome>, state: State, ran: seq<string>)

  ghost function Replay(state: State, t: Table, req: nat, names: seq<string>): (tr: Trace)
    requires AllCallable(t)
    ensures |tr.outcomes| == |names|
    decreases |names|
  {
    if names == [] then Trace([], state, [])
    else
      var r := Resolve(state, t, names[0], req);
      var rest := Replay(r.state, t, req, names[1..]);
      Trace([r.outcome] + rest.outcomes, rest.state, (if r.ran then [names[0]] else []) + rest.ran)
  }

  /** At most once: however many times names are resolved in one request, each
      strategy runs at most once, only strategies not already cached and
      registered run, the cache ends up holding exactly the old entries plus
      those that ran, and no old entry changes. */
  lemma {:induction false} ReplayAtMostOnce(state: State, t: Table, req: nat, names: seq<string>)
    requires AllCallable(t)
    ensures var tr := Replay(state, t, req, names);
      && (forall i, j :: 0 <= i < j < |tr.ran| ==> tr.ran[i] != tr.ran[j])
      && (forall n :: n in tr.ran ==> n !in state && n in t)
      && (forall n :: n in tr.state <==> n in state || n in tr.ran)
      && (forall n :: n in state ==> tr.state[n] == state[n])
    decreases |names|
  {
    if names != [] {
      var r := Resolve(state, t, names[0], req);
      ReplayAtMostOnce(r.state, t, req, names[1..]);
      var rest := Replay(r.state, t, req, names[1..]);
      var tr := Replay(state, t, req, names);
      assert tr.ran == (if r.ran then [names[0]] else []) + rest.ran;
      forall i, j | 0 <= i < j < |tr.ran| ensures tr.ran[i] != tr.ran[j] {
        if r.ran && i == 0 {
          assert tr.ran[j] == rest.ran[j - 1];
          assert tr.ran[j] in rest.ran;
        }
      }
    }
  }

  /** The pair a resolution of `name` completes with once the cache is `state`. */
  ghost function Answer(state: State, name: string): Outcome {
    if name in state then state[name] else NotFound(name)
  }

  /** Every resolution in the series completes with what the final cache
      holds for its name (or the internal error, when the name is unknown). */
  lemma {:induction false} ReplayAnswers(state: State, t: Table, req: nat, names: seq<string>)
    requires AllCallable(t)
    ensures var tr := Replay(state, t, req, names);
      forall i :: 0 <= i < |names| ==> tr.outcomes[i] == Answer(tr.state, names[i])
    decreases |names|
  {
    if names != [] {
      var r := Resolve(state, t, names[0], req);
      ReplayAnswers(r.state, t, req, names[1..]);
      ReplayAtMostOnce(r.state, t, req, names[1..]);
      var tr := Replay(state, t, req, names);
      assert tr.outcomes[0] == Answer(tr.state, names[0]);
      forall i | 1 <= i < |names| ensures tr.outcomes[i] == Answer(tr.state, names[i]) {
        assert names[i] == names[1..][i - 1];
      }
    }
  }

  /** Identity and error caching: two resolutions of the same name in one
      request complete with the identical pair, errors included. */
  lemma SameNameSameAnswer(state: State, t: Table, req: nat, names: seq<string>, i: nat, j: nat)
    requires AllCallable(t)
    requires i < |names| && j < |names| && names[i] == names[j]
    ensures var tr := Replay(state, t, req, names); tr.outcomes[i] == tr.outcomes[j]
  {
    ReplayAnswers(state, t, req, names);
  }
}
