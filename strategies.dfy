/** The process-wide strategy registry (`internals._strategies`) and its one
    operation, `internals.strategy(name, options)`. */
module Strategies {
  import opened Values

  /** What an options object's `getContext` property holds: a function, which
      given the request it is called for completes with an outcome, or any other
      value. */
  datatype Callable =
    | Function(call: nat -> Outcome)
    | NotFunction(v: Value)

  /** The options object a strategy is registered with; only its `getContext`
      property is read. */
  datatype Options = Options(getContext: Callable)

  type Table = map<string, Options>

  const MissingName := "Context strategy must have a name"
  const DuplicateName := "Authentication strategy name already exists"
  const NotCallable := "getContext method must be a function:"

  /** Every registered strategy can be called. */
  ghost predicate AllCallable(t: Table) {
    forall n :: n in t ==> t[n].getContext.Function?
  }

  /** The registry after `internals.strategy(name, options)`, or the assertion
      that stops it. The three assertions are checked in the source's order. */
  function AddStrategy(t: Table, name: string, options: Options): (r: Result)
    ensures r.Added? <==> name != "" && name !in t && options.getContext.Function?
    ensures name == "" ==> r == Refused(AssertionError(MissingName))
    ensures name != "" && name in t ==> r == Refused(AssertionError(DuplicateName))
    ensures name != "" && name !in t && !options.getContext.Function? ==> r == Refused(AssertionError(NotCallable))
    ensures r.Added? ==> r.table.Keys == t.Keys + {name} && r.table[name] == options
    ensures r.Added? ==> forall n :: n in t ==> r.table[n] == t[n]
    ensures r.Added? && AllCallable(t) ==> AllCallable(r.table)
  {
    if name == "" then Refused(AssertionError(MissingName))
    else if name in t then Refused(AssertionError(DuplicateName))
    else if !options.getContext.Function? then Refused(AssertionError(NotCallable))
    else Added(t[name := options])
  }

  datatype Result = Added(table: Table) | Refused(e: Exception)

  /** Registering a name a second time fails, whatever the options. */
  lemma RegisterTwiceFails(t: Table, name: string, first: Options, second: Options)
    requires AddStrategy(t, name, first).Added?
    ensures AddStrategy(AddStrategy(t, name, first).table, name, second) == Refused(AssertionError(DuplicateName))
  {
  }

  /** The registry, owned by the plugin. */
  class Registry {
    var strategies: Table

    ghost predicate Valid()
      reads this
    {
      AllCallable(strategies)
    }

    constructor ()
      ensures Valid() && strategies == map[]
    {
      strategies := map[];
    }

    /** `internals.strategy(name, options)`: asserts that the name is non-empty
        and new and that `options.getContext` is a function, then stores the
        options under the name. A failed assertion throws and changes nothing. */
    method Register(name: string, options: Options) returns (thrown: Option<Exception>)
      requires Valid()
      modifies this
      ensures Valid()
      ensures thrown.None? <==> AddStrategy(old(strategies), name, options).Added?
      ensures thrown.None? ==> strategies == old(strategies)[name := options]
      ensures thrown.Some? ==> strategies == old(strategies)
      ensures thrown.Some? ==> Refused(thrown.value) == AddStrategy(old(strategies), name, options)
    {
      if name == "" {
        return Some(AssertionError(MissingName));
      }
      if name in strategies {
        return Some(AssertionError(DuplicateName));
      }
      if !options.getContext.Function? {
        return Some(AssertionError(NotCallable));
      }
      strategies := strategies[name := options];
      thrown := None;
    }
  }
}
