/**
 * ECMAScript function objects and built-in function objects (ECMA-262,
 * sections 9.2 and 9.3): the [[Call]] and [[Construct]] protocol over the
 * agent's execution context stack, and the operations that create functions
 * and set their identity properties.
 */
module FunctionOperations {
  import opened Values
  import opened Objects
  import opened Environments
  import opened Engine

  // ---------------------------------------------------------------------------
  // Choices made without touching the agent
  // ---------------------------------------------------------------------------

  /** The [[ThisMode]] of a new function: lexical when asked for, else strict or global by the body's strictness. */
  function ThisModeFor(request: ThisModeRequest, strict: bool): (m: ThisMode)
    ensures m.Lexical? <==> request.LexicalThis?
    ensures m.Strict? <==> (request.NonLexicalThis? && strict)
    ensures m.Global? <==> (request.NonLexicalThis? && !strict)
  {
    if request.LexicalThis? then Lexical
    else if strict then Strict
    else Global
  }

  /** The body evaluation routines, one per kind of body. */
  datatype Evaluator =
    | EvaluateFunctionBody
    | EvaluateConciseExpressionBody
    | EvaluateGeneratorBody
    | EvaluateAsyncFunctionBody
    | EvaluateAsyncConciseExpressionBody
    | EvaluateAsyncGeneratorBody

  /**
   * The evaluator OrdinaryCallEvaluateBody dispatches to. A braced concise
   * body is evaluated like the function body of the same flavour; an unknown
   * shape is an internal error, excluded by the precondition.
   */
  function EvaluatorFor(shape: BodyShape): (e: Evaluator)
    requires shape != UnknownBody
    ensures e == EvaluateFunctionBody <==> shape == FunctionBody || shape == ConciseBody_FunctionBody
    ensures e == EvaluateConciseExpressionBody <==> shape == ConciseBody_ExpressionBody
    ensures e == EvaluateGeneratorBody <==> shape == GeneratorBody
    ensures e == EvaluateAsyncFunctionBody <==>
              shape == AsyncFunctionBody || shape == AsyncConciseBody_AsyncFunctionBody
    ensures e == EvaluateAsyncConciseExpressionBody <==> shape == AsyncConciseBody_ExpressionBody
    ensures e == EvaluateAsyncGeneratorBody <==> shape == AsyncGeneratorBody
  {
    match shape
    case FunctionBody | ConciseBody_FunctionBody => EvaluateFunctionBody
    case ConciseBody_ExpressionBody => EvaluateConciseExpressionBody
    case GeneratorBody => EvaluateGeneratorBody
    case AsyncFunctionBody | AsyncConciseBody_AsyncFunctionBody => EvaluateAsyncFunctionBody
    case AsyncConciseBody_ExpressionBody => EvaluateAsyncConciseExpressionBody
    case AsyncGeneratorBody => EvaluateAsyncGeneratorBody
  }

  /**
   * What a body evaluation hands back: its completion, and the value a
   * `super(...)` call bound to `this` during the body, if any.
   */
  datatype BodyResult = BodyResult(completion: Completion, boundThis: Option<Value>)

  /** A body evaluation routine: evaluator, callee, arguments and the callee's environment record. */
  type BodyFn = (Evaluator, Ref, seq<Value>, EnvRec) -> BodyResult

  /** The callee's environment record once the body has run: `this` bound by the body, if it was unbound. */
  function AfterBody(e: EnvRec, r: BodyResult): (e': EnvRec)
    ensures e'.bindings == e.bindings && e'.outer == e.outer
    ensures e.kind.FunctionEnv? ==> e'.kind.FunctionEnv? && (e.kind.thisState != ThisLexical ==> e'.kind.thisState != ThisLexical)
    ensures e.kind.FunctionEnv? && e.kind.thisState.ThisInitialized? ==> e' == e
  {
    if e.kind.FunctionEnv? && e.kind.thisState == ThisUninitialized && r.boundThis.Some? then
      e.(kind := e.kind.(thisState := ThisInitialized(r.boundThis.value)))
    else e
  }

  /**
   * How [[Call]] turns the body's completion into the caller's: a return
   * becomes a normal completion of its value, falling off the end yields
   * undefined, and every other abrupt completion propagates unchanged. The
   * caller never receives a return completion.
   */
  function CallCompletion(result: Completion): (r: Completion)
    ensures !r.Return?
    ensures r.Normal? <==> result.Normal? || result.Return?
    ensures result.Return? ==> r == Normal(result.value)
    ensures result.Normal? ==> r == Normal(Undefined)
    ensures r.IsAbrupt() ==> r == result
  {
    if result.Return? then Normal(result.value)
    else if result.IsAbrupt() then result
    else Normal(Undefined)
  }

  /**
   * How [[Construct]] turns the body's completion into the caller's, given
   * the constructor kind, the pre-allocated `this` of a base constructor and
   * the final this-binding state of the callee's environment.
   */
  function ConstructOutcome(isBase: bool, thisArgument: Value, result: Completion, thisState: ThisState): (r: Outcome)
    requires thisState != ThisLexical
    ensures r.Done? ==> !r.c.Return?
    ensures result.Return? && result.value.Object? ==> r == Done(Normal(result.value))
    ensures isBase && result.Return? && !result.value.Object? ==> r == Done(Normal(thisArgument))
    ensures (r.Raise? && r.kind == TypeError) <==>
              !isBase && result.Return? && !result.value.Object? && !result.value.Undefined?
    ensures result.IsAbrupt() && !result.Return? ==> r == Done(result)
    ensures result.Normal? || (!isBase && result.Return? && result.value.Undefined?) ==>
              r == GetThisBinding(thisState)
  {
    if result.Return? then
      if result.value.Object? then Done(Normal(result.value))
      else if isBase then Done(Normal(thisArgument))
      else if !result.value.Undefined? then Raise(TypeError, "DerivedConstructorReturnedNonObject")
      else GetThisBinding(thisState)
    else if result.IsAbrupt() then Done(result)
    else GetThisBinding(thisState)
  }

  /**
   * What ToObject (ECMA-262, section 7.1.18) does on the values that reach
   * it here: an object is returned as it is, and every other value but
   * undefined and null is wrapped in an object.
   */
  ghost predicate IsToObject(toObject: Value -> Value) {
    forall v: Value ::
      && (v.Object? ==> toObject(v) == v)
      && (!v.Undefined? && !v.Null? ==> toObject(v).Object?)
  }

  /**
   * What the prototype lookup of OrdinaryCreateFromConstructor (ECMA-262,
   * section 10.1.13) yields: either an abrupt completion or an object.
   */
  ghost predicate IsPrototypeLookup(getPrototypeFromConstructor: Value -> Completion) {
    forall v: Value :: getPrototypeFromConstructor(v).Normal? ==> getPrototypeFromConstructor(v).value.Object?
  }

  /**
   * The callee's environment after OrdinaryCallBindThis: untouched in
   * lexical mode; otherwise `this` is bound to the argument verbatim in strict
   * mode, and in global mode to the realm's global this for undefined and
   * null and to the argument's wrapper object for anything else. So an
   * object argument is bound as it is in both modes.
   */
  function BindThis(e: EnvRec, mode: ThisMode, thisArgument: Value, realm: Realm,
                    toObject: Value -> Value): (r: EnvRec)
    requires IsToObject(toObject)
    requires mode != Lexical ==> e.kind.FunctionEnv? && e.kind.thisState == ThisUninitialized
    ensures mode == Lexical ==> r == e
    ensures mode == Strict ==> r == e.(kind := e.kind.(thisState := ThisInitialized(thisArgument)))
    ensures mode == Global && (thisArgument.Undefined? || thisArgument.Null?) ==>
              r == e.(kind := e.kind.(thisState := ThisInitialized(realm.globalThisValue)))
    ensures mode == Global && !thisArgument.Undefined? && !thisArgument.Null? ==>
              r == e.(kind := e.kind.(thisState := ThisInitialized(toObject(thisArgument))))
    ensures mode == Global && !thisArgument.Undefined? && !thisArgument.Null? ==> r.kind.thisState.value.Object?
    ensures mode != Lexical && thisArgument.Object? ==>
              r == e.(kind := e.kind.(thisState := ThisInitialized(thisArgument)))
  {
    if mode == Lexical then e
    else
      var thisValue :=
        if mode == Strict then thisArgument
        else if thisArgument.Undefined? || thisArgument.Null? then realm.globalThisValue
        else toObject(thisArgument);
      BindThisValue(e, thisValue).env
  }

  /**
   * A base constructor whose `this` OrdinaryCallBindThis bound to its
   * pre-allocated object never raises an error of its own: it yields an
   * object it returns, and that very pre-allocated object when the body
   * falls off its end or returns anything else, in strict and global mode
   * alike.
   */
  lemma BaseConstructYieldsThis(e: EnvRec, mode: ThisMode, thisArgument: Value, realm: Realm,
                                toObject: Value -> Value, result: BodyResult)
    requires IsToObject(toObject) && thisArgument.Object? && mode != Lexical
    requires e.kind.FunctionEnv? && e.kind.thisState == ThisUninitialized
    ensures var env2 := AfterBody(BindThis(e, mode, thisArgument, realm, toObject), result);
      var r := ConstructOutcome(true, thisArgument, result.completion, env2.kind.thisState);
      && (result.completion.Normal? || (result.completion.Return? && !result.completion.value.Object?) ==>
            r == Done(Normal(thisArgument)))
      && (result.completion.Return? && result.completion.value.Object? ==> r == Done(Normal(result.completion.value)))
      && (result.completion.Throw? ==> r == Done(result.completion))
  {
    var env1 := BindThis(e, mode, thisArgument, realm, toObject);
    assert env1.kind.thisState == ThisInitialized(thisArgument);
    assert AfterBody(env1, result) == env1;
  }

  /** The name a function gets: a symbol's description in brackets (or ""), after an optional prefix and a space. */
  function FunctionNameString(name: Value, prefix: Option<string>): (r: string)
    requires name.String? || name.Symbol?
    decreases if prefix.Some? then 1 else 0
    ensures prefix.None? && name.String? ==> r == name.s
    ensures prefix.None? && name.Symbol? && name.description.None? ==> r == ""
    ensures prefix.None? && name.Symbol? && name.description.Some? ==> r == "[" + name.description.value + "]"
    ensures prefix.Some? ==> r == prefix.value + " " + FunctionNameString(name, None)
  {
    var base :=
      if name.String? then name.s
      else if name.description.None? then ""
      else "[" + name.description.value + "]";
    if prefix.Some? then prefix.value + " " + base else base
  }

  // ---------------------------------------------------------------------------
  // Functions as the invocation engine needs them
  // ---------------------------------------------------------------------------

  /**
   * An ECMAScript function whose slots OrdinaryFunctionCreate has filled in,
   * with a body of a shape OrdinaryCallEvaluateBody knows.
   */
  predicate IsCallable(o: Obj) {
    && o.kind.ECMAScriptFunction?
    && var s := o.kind.slots;
    && s.realm.Some? && s.thisMode.Some? && s.scriptOrModule.Some?
    && s.isClassConstructor.Some? && s.code.Some? && s.code.value.shape != UnknownBody
  }

  /** The function environment record a call of `f` (with these slots) starts with. */
  function NewCalleeEnv(f: Ref, s: FunctionSlots, newTarget: Value): EnvRec {
    NewFunctionEnvironment(f, s.thisMode == Some(Lexical), s.homeObject, s.environment, newTarget)
  }

  /** OrdinaryCallEvaluateBody: dispatch on the body's shape and run the matching evaluator. */
  function OrdinaryCallEvaluateBody(body: BodyFn, f: Ref, s: FunctionSlots, args: seq<Value>, env: EnvRec): (r: BodyResult)
    requires s.code.Some? && s.code.value.shape != UnknownBody
    ensures var shape := s.code.value.shape;
      && (shape == FunctionBody || shape == ConciseBody_FunctionBody ==> r == body(EvaluateFunctionBody, f, args, env))
      && (shape == ConciseBody_ExpressionBody ==> r == body(EvaluateConciseExpressionBody, f, args, env))
      && (shape == GeneratorBody ==> r == body(EvaluateGeneratorBody, f, args, env))
      && (shape == AsyncFunctionBody || shape == AsyncConciseBody_AsyncFunctionBody ==>
            r == body(EvaluateAsyncFunctionBody, f, args, env))
      && (shape == AsyncConciseBody_ExpressionBody ==> r == body(EvaluateAsyncConciseExpressionBody, f, args, env))
      && (shape == AsyncGeneratorBody ==> r == body(EvaluateAsyncGeneratorBody, f, args, env))
  {
    body(EvaluatorFor(s.code.value.shape), f, args, env)
  }

  // ---------------------------------------------------------------------------
  // [[Call]] and [[Construct]]
  // ---------------------------------------------------------------------------

  /**
   * Pushes a fresh execution context for a call of F, whose lexical and
   * variable environments are one fresh function environment record.
   */
  method PrepareForOrdinaryCall(agent: Agent, F: Ref, newTarget: Value) returns (ctx: ExecutionContext)
    requires agent.Valid() && F in agent.heap && IsCallable(agent.heap[F])
    requires newTarget.Undefined? || newTarget.Object?
    modifies agent`stack, agent`envs, agent`nextEnv
    ensures agent.Valid()
    ensures var s := old(agent.heap[F].kind.slots);
      && ctx == ExecutionContext(Object(F), s.realm.value, s.scriptOrModule.value,
                                 old(agent.nextEnv), old(agent.nextEnv), false)
      && old(agent.nextEnv) !in old(agent.envs)
      && agent.envs == old(agent.envs)[old(agent.nextEnv) := NewCalleeEnv(F, s, newTarget)]
    ensures agent.nextEnv == old(agent.nextEnv) + 1
    ensures agent.stack == old(agent.stack) + [ctx]
  {
    var s := agent.heap[F].kind.slots;
    var localEnv := agent.AllocateEnv(NewCalleeEnv(F, s, newTarget));
    ctx := ExecutionContext(Object(F), s.realm.value, s.scriptOrModule.value, localEnv, localEnv, false);
    agent.Push(ctx);
  }

  /** Binds `this` in the callee's environment according to F's [[ThisMode]]. */
  method OrdinaryCallBindThis(agent: Agent, F: Ref, ctx: ExecutionContext, thisArgument: Value,
                              toObject: Value -> Value) returns (c: Completion)
    requires IsToObject(toObject)
    requires F in agent.heap && IsCallable(agent.heap[F])
    requires ctx.lexicalEnvironment in agent.envs
    requires var mode := agent.heap[F].kind.slots.thisMode.value;
             var e := agent.envs[ctx.lexicalEnvironment];
             mode != Lexical ==> e.kind.FunctionEnv? && e.kind.thisState == ThisUninitialized
    modifies agent`envs
    ensures var s := old(agent.heap[F].kind.slots);
      var e := old(agent.envs[ctx.lexicalEnvironment]);
      && agent.envs == old(agent.envs)[ctx.lexicalEnvironment :=
                                         BindThis(e, s.thisMode.value, thisArgument, s.realm.value, toObject)]
      && (s.thisMode.value == Lexical ==> c == Normal(Undefined))
      && (s.thisMode.value != Lexical ==>
            c == Normal(agent.envs[ctx.lexicalEnvironment].kind.thisState.value))
  {
    var s := agent.heap[F].kind.slots;
    var thisMode := s.thisMode.value;
    if thisMode == Lexical {
      return Normal(Undefined);
    }
    var calleeRealm := s.realm.value;
    var localEnv := ctx.lexicalEnvironment;
    var thisValue;
    if thisMode == Strict {
      thisValue := thisArgument;
    } else {
      if thisArgument == Undefined || thisArgument == Null {
        thisValue := calleeRealm.globalThisValue;
      } else {
        thisValue := toObject(thisArgument);
      }
    }
    var u := BindThisValue(agent.envs[localEnv], thisValue);
    agent.envs := agent.envs[localEnv := u.env];
    c := u.outcome.c;
  }

  /**
   * Entering the callee, as [[Call]] and [[Construct]] both do: push the
   * callee context, mark it as a construct call when asked, and bind `this`
   * when asked. The stack grows by exactly one context, and the one new
   * environment record is the callee's with `this` bound.
   */
  method EnterCalleeContext(agent: Agent, F: Ref, newTarget: Value, thisArgument: Value,
                            constructCall: bool, bindThis: bool, toObject: Value -> Value)
    returns (calleeContext: ExecutionContext)
    requires IsToObject(toObject)
    requires agent.Valid() && F in agent.heap && IsCallable(agent.heap[F])
    requires newTarget.Undefined? || newTarget.Object?
    modifies agent`stack, agent`envs, agent`nextEnv
    ensures agent.Valid()
    ensures |agent.stack| == |old(agent.stack)| + 1 && agent.stack[..|old(agent.stack)|] == old(agent.stack)
    ensures agent.stack[|old(agent.stack)|] == calleeContext.(constructCall := constructCall)
    ensures var s := old(agent.heap[F].kind.slots);
      var env0 := NewCalleeEnv(F, s, newTarget);
      var env1 := if bindThis then BindThis(env0, s.thisMode.value, thisArgument, s.realm.value, toObject) else env0;
      && calleeContext == ExecutionContext(Object(F), s.realm.value, s.scriptOrModule.value,
                                           old(agent.nextEnv), old(agent.nextEnv), false)
      && old(agent.nextEnv) !in old(agent.envs)
      && agent.envs == old(agent.envs)[old(agent.nextEnv) := env1]
    ensures agent.nextEnv == old(agent.nextEnv) + 1
  {
    var s := agent.heap[F].kind.slots;
    ghost var stack0 := agent.stack;
    ghost var envs0 := agent.envs;
    calleeContext := PrepareForOrdinaryCall(agent, F, newTarget);
    var localEnv := calleeContext.lexicalEnvironment;
    ghost var env0 := NewCalleeEnv(F, s, newTarget);
    assert agent.envs == envs0[localEnv := env0];
    assert agent.RunningContext() == calleeContext;
    if constructCall {
      agent.MarkConstructCall();
    }
    assert |agent.stack| == |stack0| + 1 && agent.stack[..|stack0|] == stack0;
    if bindThis {
      var _ := OrdinaryCallBindThis(agent, F, calleeContext, thisArgument, toObject);
    }
  }

  /**
   * The part [[Call]] and [[Construct]] share: enter the callee, run the
   * body against the callee's record, and pop the context again. The stack
   * afterwards is the stack before, and the one new environment record is
   * the callee's as the body left it.
   */
  method RunInCalleeContext(agent: Agent, F: Ref, argumentsList: seq<Value>, newTarget: Value,
                            thisArgument: Value, constructCall: bool, bindThis: bool,
                            toObject: Value -> Value, body: BodyFn)
    returns (calleeContext: ExecutionContext, result: BodyResult)
    requires IsToObject(toObject)
    requires agent.Valid() && F in agent.heap && IsCallable(agent.heap[F])
    requires newTarget.Undefined? || newTarget.Object?
    modifies agent`stack, agent`envs, agent`nextEnv
    ensures agent.Valid()
    ensures agent.stack == old(agent.stack)
    ensures var s := old(agent.heap[F].kind.slots);
      var env0 := NewCalleeEnv(F, s, newTarget);
      var env1 := if bindThis then BindThis(env0, s.thisMode.value, thisArgument, s.realm.value, toObject) else env0;
      && calleeContext.lexicalEnvironment == old(agent.nextEnv)
      && result == OrdinaryCallEvaluateBody(body, F, s, argumentsList, env1)
      && old(agent.nextEnv) !in old(agent.envs)
      && agent.envs == old(agent.envs)[old(agent.nextEnv) := AfterBody(env1, result)]
    ensures agent.nextEnv == old(agent.nextEnv) + 1
  {
    var s := agent.heap[F].kind.slots;
    calleeContext := EnterCalleeContext(agent, F, newTarget, thisArgument, constructCall, bindThis, toObject);
    var localEnv := calleeContext.lexicalEnvironment;
    result := OrdinaryCallEvaluateBody(body, F, s, argumentsList, agent.envs[localEnv]);
    agent.envs := agent.envs[localEnv := AfterBody(agent.envs[localEnv], result)];
    agent.Pop();
  }

  /**
   * [[Call]] of an ECMAScript function. A class constructor throws a
   * TypeError before any context is pushed; otherwise exactly one context is
   * pushed and popped around the body, whatever its completion, so the stack
   * afterwards is the stack before.
   */
  method FunctionCallSlot(agent: Agent, F: Ref, thisArgument: Value, argumentsList: seq<Value>,
                          toObject: Value -> Value, body: BodyFn) returns (c: Completion)
    requires IsToObject(toObject)
    requires agent.Valid() && F in agent.heap && IsCallable(agent.heap[F])
    requires |agent.stack| > 0
    modifies agent
    ensures agent.Valid()
    ensures agent.stack == old(agent.stack)
    ensures var s := old(agent.heap[F].kind.slots);
      s.isClassConstructor == Some(true) ==>
        && c == Throw(Object(old(agent.nextRef))) && old(agent.nextRef) !in old(agent.heap)
        && agent.heap == old(agent.heap)[old(agent.nextRef) :=
                           NewErrorObject(old(agent.CurrentRealm()), TypeError, "ConstructorNonCallable")]
        && agent.envs == old(agent.envs)
        && agent.nextRef == old(agent.nextRef) + 1 && agent.nextEnv == old(agent.nextEnv)
    ensures var s := old(agent.heap[F].kind.slots);
      var env := BindThis(NewCalleeEnv(F, s, Undefined), s.thisMode.value, thisArgument, s.realm.value, toObject);
      var result := OrdinaryCallEvaluateBody(body, F, s, argumentsList, env);
      s.isClassConstructor != Some(true) ==>
        && c == CallCompletion(result.completion)
        && agent.heap == old(agent.heap)
        && old(agent.nextEnv) !in old(agent.envs)
        && agent.envs == old(agent.envs)[old(agent.nextEnv) := AfterBody(env, result)]
        && agent.nextRef == old(agent.nextRef) && agent.nextEnv == old(agent.nextEnv) + 1
  {
    var s := agent.heap[F].kind.slots;
    if s.isClassConstructor == Some(true) {
      c := agent.ThrowError(TypeError, "ConstructorNonCallable");
      return;
    }
    var _, result := RunInCalleeContext(agent, F, argumentsList, Undefined, thisArgument, false, true,
                                        toObject, body);
    c := CallCompletion(result.completion);
  }

  /**
   * [[Construct]] of an ECMAScript function. A base constructor allocates
   * `this` from newTarget before any context is pushed, and a failure there
   * returns with the stack untouched; otherwise exactly one context is pushed
   * and popped around the body, and the result is ConstructOutcome's.
   */
  method FunctionConstructSlot(agent: Agent, F: Ref, argumentsList: seq<Value>, newTarget: Value,
                               getPrototypeFromConstructor: Value -> Completion,
                               toObject: Value -> Value, body: BodyFn) returns (c: Completion)
    requires IsToObject(toObject) && IsPrototypeLookup(getPrototypeFromConstructor)
    requires agent.Valid() && F in agent.heap && IsCallable(agent.heap[F])
    requires agent.heap[F].kind.hasConstruct && agent.heap[F].kind.slots.thisMode != Some(Lexical)
    requires newTarget.Object?
    requires |agent.stack| > 0
    modifies agent
    ensures agent.Valid()
    ensures agent.stack == old(agent.stack)
    ensures var isBase := old(agent.heap[F].kind.slots.constructorKind) == Some(Base);
      var proto := getPrototypeFromConstructor(newTarget);
      isBase && proto.IsAbrupt() ==>
        && c == proto && agent.heap == old(agent.heap) && agent.envs == old(agent.envs)
        && agent.nextRef == old(agent.nextRef) && agent.nextEnv == old(agent.nextEnv)
    ensures var s := old(agent.heap[F].kind.slots);
      var isBase := s.constructorKind == Some(Base);
      var proto := getPrototypeFromConstructor(newTarget);
      var t := old(agent.nextRef);
      var thisArgument := if isBase then Object(t) else Undefined;
      var heap1 := if isBase && proto.Normal? then old(agent.heap)[t := ObjectCreate(proto.value)] else old(agent.heap);
      var next1 := if isBase then t + 1 else t;
      var env0 := NewCalleeEnv(F, s, newTarget);
      var env1 := if isBase then BindThis(env0, s.thisMode.value, thisArgument, s.realm.value, toObject) else env0;
      var result := OrdinaryCallEvaluateBody(body, F, s, argumentsList, env1);
      var env2 := AfterBody(env1, result);
      !(isBase && proto.IsAbrupt()) ==>
        && t !in old(agent.heap)
        && old(agent.nextEnv) !in old(agent.envs)
        && agent.envs == old(agent.envs)[old(agent.nextEnv) := env2]
        && agent.nextEnv == old(agent.nextEnv) + 1
        && (isBase && (result.completion.Normal? || (result.completion.Return? && !result.completion.value.Object?)) ==>
              c == Normal(Object(t)) && agent.heap == heap1)
        && match ConstructOutcome(isBase, thisArgument, result.completion, env2.kind.thisState)
           case Done(cc) => c == cc && agent.heap == heap1 && agent.nextRef == next1
           case Raise(k, m) =>
             && c == Throw(Object(next1)) && next1 !in heap1
             && agent.heap == heap1[next1 := NewErrorObject(old(agent.CurrentRealm()), k, m)]
             && agent.nextRef == next1 + 1
  {
    var s := agent.heap[F].kind.slots;
    var isBase := s.constructorKind == Some(Base);
    var thisArgument := Undefined;
    if isBase {
      var proto := getPrototypeFromConstructor(newTarget);
      if proto.IsAbrupt() {
        return proto;
      }
      var t := agent.Allocate(ObjectCreate(proto.value));
      thisArgument := Object(t);
    }
    var calleeContext, result := RunInCalleeContext(agent, F, argumentsList, newTarget, thisArgument, true, isBase,
                                                    toObject, body);
    if isBase {
      BaseConstructYieldsThis(NewCalleeEnv(F, s, newTarget), s.thisMode.value, thisArgument, s.realm.value,
                              toObject, result);
    }
    var localEnv := calleeContext.lexicalEnvironment;
    c := agent.Complete(ConstructOutcome(isBase, thisArgument, result.completion, agent.envs[localEnv].kind.thisState));
  }

  // ---------------------------------------------------------------------------
  // Creating functions and setting their identity
  // ---------------------------------------------------------------------------

  /** The `length` property SetFunctionLength defines. */
  function LengthProp(length: nat): Prop {
    Data(Number(length), false, false, true)
  }

  /**
   * Defines F's own `length`, once: F must be extensible and not own a
   * `length` yet. The property is non-writable, non-enumerable, configurable.
   */
  method SetFunctionLength(agent: Agent, F: Ref, length: nat)
    requires F in agent.heap && agent.heap[F].extensible && Named("length") !in agent.heap[F].props
    modifies agent`heap
    ensures agent.heap == old(agent.heap)[F := old(agent.heap[F]).(props :=
              old(agent.heap[F].props)[Named("length") := Data(Number(length), false, false, true)])]
  {
    var f := agent.heap[F];
    agent.heap := agent.heap[F := f.(props := f.props[Named("length") := LengthProp(length)])];
  }

  /**
   * Defines F's own `name`, once: F must be extensible and not own a `name`
   * yet. The property is non-writable, non-enumerable, configurable.
   */
  method SetFunctionName(agent: Agent, F: Ref, name: Value, prefix: Option<string> := None)
    requires F in agent.heap && agent.heap[F].extensible && Named("name") !in agent.heap[F].props
    requires name.String? || name.Symbol?
    modifies agent`heap
    ensures agent.heap == old(agent.heap)[F := old(agent.heap[F]).(props :=
              old(agent.heap[F].props)[Named("name") :=
                Data(String(FunctionNameString(name, prefix)), false, false, true)])]
  {
    var f := agent.heap[F];
    var desc := Data(String(FunctionNameString(name, prefix)), false, false, true);
    agent.heap := agent.heap[F := f.(props := f.props[Named("name") := desc])];
  }

  /**
   * OrdinaryFunctionCreate: a fresh ECMAScript function object. Every slot
   * starts undefined; then the environment, parameters, body, strictness,
   * [[ThisMode]], realm and script are filled in, IsClassConstructor is
   * false, it has no [[Construct]], and its one own property is `length`,
   * the expected argument count of its parameters.
   */
  method OrdinaryFunctionCreate(agent: Agent, functionPrototype: Value, parameterList: FormalParameters,
                                body: Code, thisMode: ThisModeRequest, scope: EnvRef) returns (F: Ref)
    requires agent.Valid() && functionPrototype.Object? && |agent.stack| > 0
    modifies agent`heap, agent`nextRef
    ensures agent.Valid()
    ensures F == old(agent.nextRef) && F !in old(agent.heap) && agent.nextRef == F + 1
    ensures agent.heap == old(agent.heap)[F := Obj(functionPrototype, true,
              map[Named("length") := Data(Number(ExpectedArgumentCount(parameterList)), false, false, true)],
              ECMAScriptFunction(FunctionSlots(
                Some(scope), Some(parameterList), Some(body), None, Some(agent.CurrentRealm()),
                Some(ActiveScriptOrModule(agent.stack)), Some(ThisModeFor(thisMode, body.strict)),
                Some(body.strict), Undefined, Some(false), None), false))]
    ensures body.shape != UnknownBody ==> IsCallable(agent.heap[F])
  {
    F := agent.Allocate(Obj(functionPrototype, true, map[], ECMAScriptFunction(UndefinedFunctionSlots, false)));
    var strict := body.strict;
    var slots := UndefinedFunctionSlots.(
      environment := Some(scope),
      formalParameters := Some(parameterList),
      code := Some(body),
      strict := Some(strict),
      thisMode := Some(ThisModeFor(thisMode, strict)),
      isClassConstructor := Some(false),
      scriptOrModule := Some(ActiveScriptOrModule(agent.stack)),
      realm := Some(agent.CurrentRealm()));
    agent.heap := agent.heap[F := agent.heap[F].(kind := ECMAScriptFunction(slots, false))];
    SetFunctionLength(agent, F, ExpectedArgumentCount(parameterList));
  }

  /**
   * MakeConstructor: gives F a [[Construct]] of kind base and an own
   * `prototype` (non-enumerable, non-configurable, writable as asked). Without
   * a prototype argument a fresh object is created whose `constructor` points
   * back to F. F must not be a constructor yet, must be extensible and must not
   * own a `prototype`.
   */
  method MakeConstructor(agent: Agent, F: Ref, writablePrototype: bool := true, prototype: Option<Value> := None)
    requires agent.Valid() && F in agent.heap && agent.heap[F].kind.ECMAScriptFunction?
    requires !IsConstructor(agent.heap[F]) && agent.heap[F].extensible
    requires Named("prototype") !in agent.heap[F].props
    requires prototype.None? ==> |agent.stack| > 0
    modifies agent`heap, agent`nextRef
    ensures agent.Valid()
    ensures var f := old(agent.heap[F]);
      var proto := if prototype.Some? then prototype.value else Object(old(agent.nextRef));
      && F in agent.heap
      && agent.heap[F] == f.(
           props := f.props[Named("prototype") := Data(proto, writablePrototype, false, false)],
           kind := ECMAScriptFunction(f.kind.slots.(constructorKind := Some(Base)), true))
      && IsConstructor(agent.heap[F])
    ensures prototype.Some? ==> agent.heap.Keys == old(agent.heap).Keys
    ensures prototype.None? ==>
      && old(agent.nextRef) !in old(agent.heap)
      && agent.heap.Keys == old(agent.heap).Keys + {old(agent.nextRef)}
      && agent.heap[old(agent.nextRef)] ==
           Obj(Object(agent.CurrentRealm().intrinsics.objectPrototype), true,
               map[Named("constructor") := Data(Object(F), writablePrototype, false, true)], OrdinaryObject)
    ensures forall r :: r in old(agent.heap) && r != F ==> r in agent.heap && agent.heap[r] == old(agent.heap[r])
  {
    var f := agent.heap[F];
    agent.heap := agent.heap[F := f.(kind := ECMAScriptFunction(f.kind.slots.(constructorKind := Some(Base)), true))];
    var proto: Value;
    if prototype.None? {
      var p := agent.Allocate(ObjectCreate(Object(agent.CurrentRealm().intrinsics.objectPrototype)));
      var o := agent.heap[p];
      agent.heap := agent.heap[p := o.(props := o.props[Named("constructor") :=
                                        Data(Object(F), writablePrototype, false, true)])];
      proto := Object(p);
    } else {
      proto := prototype.value;
    }
    var g := agent.heap[F];
    agent.heap := agent.heap[F := g.(props := g.props[Named("prototype") :=
                                      Data(proto, writablePrototype, false, false)])];
  }

  /** MakeClassConstructor: flips IsClassConstructor from false to true, once. */
  method MakeClassConstructor(agent: Agent, F: Ref)
    requires F in agent.heap && agent.heap[F].kind.ECMAScriptFunction?
    requires agent.heap[F].kind.slots.isClassConstructor == Some(false)
    modifies agent`heap
    ensures var f := old(agent.heap[F]);
      agent.heap == old(agent.heap)[F := f.(kind := f.kind.(slots := f.kind.slots.(isClassConstructor := Some(true))))]
  {
    var f := agent.heap[F];
    agent.heap := agent.heap[F := f.(kind := f.kind.(slots := f.kind.slots.(isClassConstructor := Some(true))))];
  }

  /** MakeMethod: records the object whose prototype `super` resolves against. */
  method MakeMethod(agent: Agent, F: Ref, homeObject: Value)
    requires F in agent.heap && agent.heap[F].kind.ECMAScriptFunction?
    requires homeObject.Object?
    modifies agent`heap
    ensures var f := old(agent.heap[F]);
      agent.heap == old(agent.heap)[F := f.(kind := f.kind.(slots := f.kind.slots.(homeObject := homeObject)))]
  {
    var f := agent.heap[F];
    agent.heap := agent.heap[F := f.(kind := f.kind.(slots := f.kind.slots.(homeObject := homeObject)))];
  }

  /** Each listed internal slot, holding undefined. */
  function UndefinedSlots(names: seq<string>): (m: map<string, SlotValue>)
    ensures m.Keys == set n | n in names
    ensures forall n :: n in m ==> m[n] == SlotValue(Undefined)
  {
    map n | n in names :: SlotValue(Undefined)
  }

  lemma UndefinedSlotsExtend(names: seq<string>, i: nat)
    requires i < |names|
    ensures UndefinedSlots(names[..i + 1]) == UndefinedSlots(names[..i])[names[i] := SlotValue(Undefined)]
  {
    assert names[..i + 1] == names[..i] + [names[i]];
    var a := UndefinedSlots(names[..i + 1]);
    var b := UndefinedSlots(names[..i])[names[i] := SlotValue(Undefined)];
    assert a.Keys == b.Keys;
  }

  /**
   * CreateBuiltinFunction: a fresh built-in function running `steps`, with
   * every listed internal slot undefined. The realm defaults to the current
   * realm and the prototype to that realm's %Function.prototype%; it is
   * extensible, has no own properties and is attributed to no script.
   */
  method CreateBuiltinFunction(agent: Agent, steps: BuiltinSteps, internalSlotsList: seq<string>,
                               realm: Option<Realm> := None, prototype: Option<Value> := None,
                               isConstructor: bool := false) returns (func: Ref)
    requires agent.Valid()
    requires realm.None? ==> |agent.stack| > 0
    modifies agent`heap, agent`nextRef
    ensures agent.Valid()
    ensures var r := if realm.Some? then realm.value else agent.CurrentRealm();
      var proto := if prototype.Some? then prototype.value else Object(r.intrinsics.functionPrototype);
      && func == old(agent.nextRef) && func !in old(agent.heap)
      && agent.heap == old(agent.heap)[func := Obj(proto, true, map[],
           BuiltinFunction(steps, isConstructor, r, NullScript, UndefinedSlots(internalSlotsList)))]
  {
    var r := if realm.Some? then realm.value else agent.CurrentRealm();
    var proto := if prototype.Some? then prototype.value else Object(r.intrinsics.functionPrototype);
    func := agent.Allocate(Obj(Null, false, map[], BuiltinFunction(steps, isConstructor, r, NullScript, map[])));
    var i := 0;
    while i < |internalSlotsList|
      invariant 0 <= i <= |internalSlotsList|
      invariant agent.Valid()
      invariant agent.heap == old(agent.heap)[func := Obj(Null, false, map[],
                  BuiltinFunction(steps, isConstructor, r, NullScript, UndefinedSlots(internalSlotsList[..i])))]
    {
      var f := agent.heap[func];
      agent.heap := agent.heap[func := f.(kind := f.kind.(extraSlots :=
                      f.kind.extraSlots[internalSlotsList[i] := SlotValue(Undefined)]))];
      UndefinedSlotsExtend(internalSlotsList, i);
      i := i + 1;
    }
    assert internalSlotsList[..i] == internalSlotsList;
    var f := agent.heap[func];
    agent.heap := agent.heap[func := f.(proto := proto, extensible := true,
                                        kind := f.kind.(realm := r, scriptOrModule := NullScript))];
  }
}
