/**
 * The object model of this layer: realms and their intrinsics, the parts of
 * a function's source that the invocation engine looks at, the internal slots
 * of ECMAScript and built-in function objects, and heap objects.
 */
module Objects {
  import opened Values

  /** The script or module a function or execution context is attributed to. */
  datatype ScriptOrModule = NullScript | ScriptRecord(id: nat)

  /** The intrinsic objects of a realm that this layer reads. */
  datatype Intrinsics = Intrinsics(
    objectPrototype: Ref,
    functionPrototype: Ref,
    arrayPrototypeValues: Ref,
    throwTypeError: Ref,
    asyncGeneratorPrototype: Ref,
    asyncGeneratorFunctionPrototype: Ref,
    typeErrorPrototype: Ref,
    referenceErrorPrototype: Ref)

  /** A realm: its intrinsics and the this-value of its global environment. */
  datatype Realm = Realm(id: nat, intrinsics: Intrinsics, globalThisValue: Value)

  datatype ThisMode = Lexical | Strict | Global

  /** What the creator of a function asks for: arrow functions ask for lexical `this`. */
  datatype ThisModeRequest = LexicalThis | NonLexicalThis

  datatype ConstructorKind = Base | Derived

  /** The syntactic shape of a function body, which selects its evaluator. */
  datatype BodyShape =
    | FunctionBody
    | ConciseBody_FunctionBody
    | ConciseBody_ExpressionBody
    | GeneratorBody
    | AsyncFunctionBody
    | AsyncConciseBody_AsyncFunctionBody
    | AsyncConciseBody_ExpressionBody
    | AsyncGeneratorBody
    | UnknownBody

  /** A function body as the parser hands it over: its shape and whether it is strict code. */
  datatype Code = Code(shape: BodyShape, strict: bool)

  datatype ParamKind = Plain | Defaulted | RestParameter

  /** One formal parameter: its bound name and whether it has an initializer or is a rest parameter. */
  datatype Param = Param(name: string, kind: ParamKind)

  type FormalParameters = seq<Param>

  /**
   * The number of parameters before the first one that has an initializer or
   * is a rest parameter: the `length` of a function with these parameters.
   */
  function ExpectedArgumentCount(params: FormalParameters): (n: nat)
    ensures n <= |params|
    ensures forall i :: 0 <= i < n ==> params[i].kind == Plain
    ensures n < |params| ==> params[n].kind != Plain
  {
    if params == [] || params[0].kind != Plain then 0
    else 1 + ExpectedArgumentCount(params[1..])
  }

  /** A parameter list without initializers and rest parameters (duplicates allowed). */
  predicate IsSimpleParameterList(params: FormalParameters) {
    forall i :: 0 <= i < |params| ==> params[i].kind == Plain
  }

  /** The names bound by a parameter list, in declaration order. */
  function BoundNames(params: FormalParameters): (names: seq<string>)
    ensures |names| == |params|
    ensures forall i :: 0 <= i < |params| ==> names[i] == params[i].name
  {
    seq(|params|, i requires 0 <= i < |params| => params[i].name)
  }

  /**
   * The internal slots of an ECMAScript function object. `None` (and
   * `Undefined` for HomeObject) is a slot that holds undefined.
   */
  datatype FunctionSlots = FunctionSlots(
    environment: Option<EnvRef>,
    formalParameters: Option<FormalParameters>,
    code: Option<Code>,
    constructorKind: Option<ConstructorKind>,
    realm: Option<Realm>,
    scriptOrModule: Option<ScriptOrModule>,
    thisMode: Option<ThisMode>,
    strict: Option<bool>,
    homeObject: Value,
    isClassConstructor: Option<bool>,
    sourceText: Option<string>)

  /** Every internal slot of an ECMAScript function holding undefined. */
  const UndefinedFunctionSlots: FunctionSlots :=
    FunctionSlots(None, None, None, None, None, None, None, None, Undefined, None, None)

  /** The native steps a built-in function runs. */
  datatype BuiltinSteps = ArgGetterSteps | ArgSetterSteps | HostSteps(id: nat)

  /** The content of a built-in function's extra internal slot. */
  datatype SlotValue = SlotValue(v: Value) | SlotEnv(env: EnvRef)

  /** What kind of object a heap cell holds, with the internal slots of that kind. */
  datatype ObjKind =
    | OrdinaryObject
    | ArgumentsObject(exotic: bool, parameterMap: Value)
    | ErrorObject(error: ErrorKind, message: string)
    | ECMAScriptFunction(slots: FunctionSlots, hasConstruct: bool)
    | BuiltinFunction(steps: BuiltinSteps, isConstructor: bool, realm: Realm,
                      scriptOrModule: ScriptOrModule, extraSlots: map<string, SlotValue>)

  /** A heap object: [[Prototype]], [[Extensible]], own properties and kind-specific slots. */
  datatype Obj = Obj(proto: Value, extensible: bool, props: map<Key, Prop>, kind: ObjKind)

  /** A fresh ordinary object with the given [[Prototype]] and no own properties. */
  function ObjectCreate(proto: Value): (o: Obj)
    ensures o.proto == proto && o.extensible && o.props == map[] && o.kind.OrdinaryObject?
  {
    Obj(proto, true, map[], OrdinaryObject)
  }

  /** Whether the object has a [[Construct]] internal method. */
  predicate IsConstructor(o: Obj): (b: bool)
    ensures b ==> o.kind.ECMAScriptFunction? || o.kind.BuiltinFunction?
    ensures o.kind.ECMAScriptFunction? ==> (b <==> o.kind.hasConstruct)
    ensures o.kind.BuiltinFunction? ==> (b <==> o.kind.isConstructor)
  {
    match o.kind
    case ECMAScriptFunction(_, hasConstruct) => hasConstruct
    case BuiltinFunction(_, isConstructor, _, _, _) => isConstructor
    case _ => false
  }
}
