/** The route-level setting `request.route.settings.plugins['context']` and
    how the `onRequest` hook reads it into a strategy name and an assign target. */
module Binding {
  import opened Values

  /** The value a route carries under `plugins['context']`: an object, of which
      only the `strategy` and `assign` properties are read (an absent property
      reads as `Undefined`), or any other value (`Undefined` when the route
      sets nothing). A `Plain` reference stands for an object or function
      with neither property. */
  datatype Setting =
    | Plain(v: Value)
    | Object(strategy: Value, assign: Value)

  /** What the hook does with a route: nothing, or resolve `strategy` and
      write the context to `request[assign]`. */
  datatype Binding =
    | Unbound
    | Bound(strategy: Value, assign: Value)

  const DefaultAssign := Str("context")

  /** The hook's normalisation of the setting into `(strategyName, assign)`. */
  function Normalize(setting: Setting): (b: Binding)
    // a falsy setting passes through, every other setting binds
    ensures b.Unbound? <==> setting.Plain? && !Truthy(setting.v)
    // the assign target is always a non-empty name: `false` does not suppress it
    ensures b.Bound? ==> Truthy(b.assign)
    // a string names the strategy and assigns to the default attribute
    ensures setting.Plain? && setting.v.Str? && Truthy(setting.v) ==> b == Bound(setting.v, DefaultAssign)
    // any other truthy non-object has no `strategy` property
    ensures setting.Plain? && Truthy(setting.v) && !setting.v.Str? ==> b == Bound(Undefined, DefaultAssign)
    // an object keeps its strategy and its assign when truthy
    ensures setting.Object? ==> b.Bound? && b.strategy == setting.strategy
    ensures setting.Object? && Truthy(setting.assign) ==> b.assign == setting.assign
    ensures setting.Object? && !Truthy(setting.assign) ==> b.assign == DefaultAssign
  {
    match setting
    case Plain(v) =>
      if !Truthy(v) then Unbound
      else if v.Str? then Bound(v, DefaultAssign)
      else Bound(Undefined, DefaultAssign)
    case Object(strategy, assign) =>
      Bound(strategy, if Truthy(assign) then assign else DefaultAssign)
  }
}
