/**
 * Evaluation of an async generator function expression (ECMA-262, section
 * 14.4.14): `async function* (params) { body }`, optionally with a binding
 * identifier that names the function inside its own body.
 */
module AsyncGeneratorExpressions {
  import opened Values
  import opened Objects
  import opened Environments
  import opened Engine
  import opened FunctionOperations

  /**
   * The parse node: the optional binding identifier, the formal parameters,
   * the body and the source text the expression was parsed from.
   */
  datatype AsyncGeneratorExpression = AsyncGeneratorExpression(
    id: Option<string>,
    params: FormalParameters,
    body: Code,
    sourceText: string)

  /**
   * The record a named expression's own scope ends with: one immutable,
   * non-strict binding of the name, holding the closure, inside `scope`.
   */
  function NamedScope(name: string, closure: Ref, scope: EnvRef): (e: EnvRec)
    ensures e.kind == DeclarativeEnv && e.outer == Some(scope) && e.bindings.Keys == {name}
    ensures GetBindingValue(e, name) == Done(Normal(Object(closure)))
    ensures forall v :: SetMutableBinding(e, name, v, true) == EnvUpdate(e, Raise(TypeError, name))
    ensures forall v :: SetMutableBinding(e, name, v, false) == EnvUpdate(e, Done(Normal(Undefined)))
  {
    InitializeBinding(CreateImmutableBinding(NewDeclarativeEnvironment(scope), name, false), name, Object(closure))
  }

  /** The own properties of the closure: `length`, `prototype`, and `name` when the expression is named. */
  function ClosureProps(expr: AsyncGeneratorExpression, prototype: Ref): (m: map<Key, Prop>)
    ensures Named("length") in m && m[Named("length")] == Data(Number(ExpectedArgumentCount(expr.params)), false, false, true)
    ensures Named("prototype") in m && m[Named("prototype")] == Data(Object(prototype), true, false, false)
    ensures Named("name") in m <==> expr.id.Some?
    ensures expr.id.Some? ==> m[Named("name")] == Data(String(expr.id.value), false, false, true)
    ensures m.Keys <= {Named("length"), Named("prototype"), Named("name")}
  {
    var m := map[Named("length") := LengthProp(ExpectedArgumentCount(expr.params)),
                 Named("prototype") := Data(Object(prototype), true, false, false)];
    if expr.id.Some? then m[Named("name") := Data(String(FunctionNameString(String(expr.id.value), None)), false, false, true)]
    else m
  }

  /** The internal slots of the closure an expression evaluates to in `funcEnv`. */
  function ClosureSlots(expr: AsyncGeneratorExpression, funcEnv: EnvRef, realm: Realm, script: ScriptOrModule): (s: FunctionSlots)
    ensures s.environment == Some(funcEnv) && s.realm == Some(realm) && s.scriptOrModule == Some(script)
    ensures s.thisMode == Some(if expr.body.strict then Strict else Global)
    ensures s.isClassConstructor == Some(false) && s.constructorKind.None?
    ensures s.sourceText == Some(expr.sourceText)
  {
    FunctionSlots(Some(funcEnv), Some(expr.params), Some(expr.body), None, Some(realm), Some(script),
                  Some(ThisModeFor(NonLexicalThis, expr.body.strict)), Some(expr.body.strict),
                  Undefined, Some(false), Some(expr.sourceText))
  }

  /**
   * The middle of the evaluation: the function object closed over funcEnv,
   * its fresh `prototype` object, and its SourceText.
   */
  method InstantiateClosure(agent: Agent, expr: AsyncGeneratorExpression, funcEnv: EnvRef) returns (closure: Ref)
    requires agent.Valid() && |agent.stack| > 0
    modifies agent`heap, agent`nextRef
    ensures agent.Valid()
    ensures closure == old(agent.nextRef) && closure !in old(agent.heap) && closure + 1 !in old(agent.heap)
    ensures var realm := agent.CurrentRealm();
      agent.heap == old(agent.heap)
           [closure := Obj(Object(realm.intrinsics.asyncGeneratorFunctionPrototype), true,
                           ClosureProps(expr.(id := None), closure + 1),
                           ECMAScriptFunction(ClosureSlots(expr, funcEnv, realm, ActiveScriptOrModule(agent.stack)), false))]
           [closure + 1 := ObjectCreate(Object(realm.intrinsics.asyncGeneratorPrototype))]
  {
    var intr := agent.CurrentRealm().intrinsics;
    closure := OrdinaryFunctionCreate(agent, Object(intr.asyncGeneratorFunctionPrototype), expr.params, expr.body,
                                      NonLexicalThis, funcEnv);
    var prototype := agent.Allocate(ObjectCreate(Object(intr.asyncGeneratorPrototype)));
    agent.DefineOwnProperty(closure, Named("prototype"), Data(Object(prototype), true, false, false));
    var c := agent.heap[closure];
    agent.heap := agent.heap[closure := c.(kind := c.kind.(slots := c.kind.slots.(sourceText := Some(expr.sourceText))))];
    assert agent.heap[closure].props == ClosureProps(expr.(id := None), prototype);
  }

  /**
   * Evaluates the expression in the running execution context. A named
   * expression gets a fresh declarative environment around the current
   * scope whose one immutable binding is created before the closure and
   * initialized to it afterwards, so the body sees its own function; an
   * anonymous one closes over the current scope and has no `name`. The
   * closure's `prototype` is a fresh object inheriting from
   * %AsyncGenerator.prototype%, and its SourceText is the expression's.
   */
  method EvaluateAsyncGeneratorExpression(agent: Agent, expr: AsyncGeneratorExpression) returns (closure: Ref)
    requires agent.Valid() && |agent.stack| > 0
    modifies agent`heap, agent`nextRef, agent`envs, agent`nextEnv
    ensures agent.Valid()
    ensures closure == old(agent.nextRef) && closure !in old(agent.heap) && closure + 1 !in old(agent.heap)
    ensures var scope := old(agent.RunningContext().lexicalEnvironment);
      var funcEnv := if expr.id.Some? then old(agent.nextEnv) else scope;
      var realm := agent.CurrentRealm();
      && (expr.id.None? ==> agent.envs == old(agent.envs))
      && (expr.id.Some? ==>
            funcEnv !in old(agent.envs) &&
            agent.envs == old(agent.envs)[funcEnv := NamedScope(expr.id.value, closure, scope)])
      && agent.heap == old(agent.heap)
           [closure := Obj(Object(realm.intrinsics.asyncGeneratorFunctionPrototype), true,
                           ClosureProps(expr, closure + 1),
                           ECMAScriptFunction(ClosureSlots(expr, funcEnv, realm, ActiveScriptOrModule(agent.stack)), false))]
           [closure + 1 := ObjectCreate(Object(realm.intrinsics.asyncGeneratorPrototype))]
  {
    var scope := agent.RunningContext().lexicalEnvironment;
    var funcEnv := scope;
    if expr.id.Some? {
      funcEnv := agent.AllocateEnv(NewDeclarativeEnvironment(scope));
      agent.envs := agent.envs[funcEnv := CreateImmutableBinding(agent.envs[funcEnv], expr.id.value, false)];
    }
    // The name is bound, but not yet initialized, while the closure is created.
    assert expr.id.Some? ==> GetBindingValue(agent.envs[funcEnv], expr.id.value).Raise?;
    closure := InstantiateClosure(agent, expr, funcEnv);
    if expr.id.Some? {
      SetFunctionName(agent, closure, String(expr.id.value));
      agent.envs := agent.envs[funcEnv := InitializeBinding(agent.envs[funcEnv], expr.id.value, Object(closure))];
      assert agent.heap[closure].props == ClosureProps(expr, closure + 1);
    } else {
      assert expr.(id := None) == expr;
    }
  }
}
