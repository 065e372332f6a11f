/** Whole-plugin runs: a registry set up at startup, then one request going
    through the hook and, afterwards, an explicit resolution by later code. */
module Scenarios {
  import opened Values
  import opened Strategies
  import opened Binding
  import opened Resolver
  import opened Hook

  /** A strategy completing with `(null, {name: "valid"})`, the object being `Obj(1)`. */
  const ValidOptions := Options(Function((req: nat) => Outcome(Null, Obj(1))))

  /** A strategy completing with an `Error` object, `Obj(2)`, and no context. */
  const FailingOptions := Options(Function((req: nat) => Outcome(Obj(2), Undefined)))

  /** The second registration of a name throws and leaves the first in place. */
  method DuplicateStrategy() returns (thrown: Option<Exception>, ghost table: Table)
    ensures thrown == Some(AssertionError(DuplicateName))
    ensures table == map["valid" := ValidOptions]
  {
    var registry := new Registry();
    var first := registry.Register("valid", ValidOptions);
    thrown := registry.Register("valid", FailingOptions);
    table := registry.strategies;
  }

  /** A route bound to a name never registered answers 500 and caches nothing. */
  method MissingStrategy() returns (step: Step, cached: bool)
    ensures step == Reply(500, Boom(500, "Context strategy not found missing"))
    ensures !cached
  {
    var registry := new Registry();
    var _ := registry.Register("valid", ValidOptions);
    var request := new Request(1, Plain(Str("missing")));
    step := OnRequest(registry, request);
    cached := "missing" in request.Cached();
  }

  /** A strategy that fails makes the hook answer 500 without assigning; a
      later resolution gets the cached error without running it again. */
  method FailingStrategy() returns (step: Step, written: bool, again: Completion, ghost runs: nat)
    ensures step == Reply(500, Obj(2))
    ensures !written
    ensures again == Done(Outcome(Obj(2), Undefined))
    ensures runs == 1
  {
    var registry := new Registry();
    var _ := registry.Register("error", FailingOptions);
    var request := new Request(2, Plain(Str("error")));
    step := OnRequest(registry, request);
    written := DefaultAssign in request.props;
    again := GetContext(registry, request, Str("error"), Fun(7));
    runs := |request.runs|;
  }

  /** `{strategy: "valid", assign: false}` still assigns, to `request.context`,
      and a later resolution returns the identical object. */
  method AssignFalse() returns (step: Step, written: Option<Value>, again: Completion, ghost runs: nat)
    ensures step == Assigned && Finish(step) == Continue
    ensures written == Some(Obj(1))
    ensures again == Done(Outcome(Null, Obj(1)))
    ensures runs == 1
  {
    var registry := new Registry();
    var _ := registry.Register("valid", ValidOptions);
    var request := new Request(3, Object(Str("valid"), Bool(false)));
    step := OnRequest(registry, request);
    written := if DefaultAssign in request.props then Some(request.props[DefaultAssign]) else None;
    again := GetContext(registry, request, Str("valid"), Fun(7));
    runs := |request.runs|;
  }
}
