# engine262 function invocation and arguments objects, in Dafny

This project models the function-invocation layer of engine262, a JavaScript
engine that follows ECMA-262 step by step. The model covers three parts:

- **ECMAScript and built-in function objects** (ECMA-262, sections 9.2 and 9.3):
  - [[Call]] and [[Construct]] over the agent's execution context stack.
  - Binding `this` in the callee's function environment record.
  - Dispatching to the body evaluator.
  - OrdinaryFunctionCreate, MakeConstructor, MakeClassConstructor, MakeMethod,
    SetFunctionName, SetFunctionLength and CreateBuiltinFunction.
- **Arguments exotic objects** (section 9.4.4):
  - The unmapped arguments object.
  - The mapped one, whose parameter map links indices to parameter bindings
    through getter and setter closures (MakeArgGetter and MakeArgSetter).
- **AsyncGeneratorExpression evaluation** (section 14.4.14).

The surrounding agent is one `Engine.Agent` object. Every operation receives it
and updates it in place. It holds:

- the execution context stack;
- the object heap (`map<Ref, Obj>`);
- the store of environment records (`map<EnvRef, EnvRec>`);
- two allocation pointers.

Objects carry their `[[Prototype]]`, extensibility, own properties (a map from
keys to data or accessor descriptors) and a kind. The kind is one of:

- an ordinary object;
- an arguments object with its ParameterMap slot;
- an error object;
- an ECMAScript function with its internal slots;
- a built-in function with its steps and extra slots.

Throwing operations return an `Outcome`: either a finished completion, or a
request for a fresh TypeError or ReferenceError object. `Agent.Complete` then
allocates that object in the current realm.

Files:

- `Values.dfy`: values, property keys, descriptors, completions.
- `Objects.dfy`: objects, realms, function slots, parameter lists.
- `Environments.dfy`: environment records.
- `Engine.dfy`: the agent.
- `FunctionOperations.dfy`: function objects.
- `ArgumentsOperations.dfy`: arguments objects.
- `AsyncGeneratorExpression.dfy`: async generator expressions.

## Model

| member | source | states |
|---|---|---|
| `Objects.ExpectedArgumentCount` | src/abstract-ops/function-operations.mjs:234-235 | the `length` of a function is the number of leading plain parameters: every parameter before it is plain, and the one at it (if any) has an initializer or is a rest parameter |
| `Objects.BoundNames` | src/abstract-ops/arguments-operations.mjs:101-102 | the parameter names, one per parameter, in order |
| `Objects.ObjectCreate` | src/abstract-ops/arguments-operations.mjs:99 | a fresh extensible ordinary object with the given [[Prototype]] and no own properties |
| `Objects.IsConstructor` | src/abstract-ops/function-operations.mjs:242 | only functions are constructors: an ECMAScript function exactly when it has [[Construct]], a built-in exactly when it was created as a constructor |
| `Engine.ActiveScriptOrModule` | src/abstract-ops/function-operations.mjs:232 | the ScriptOrModule of the topmost context that has one, and null exactly when no context on the stack has one |
| `Engine.Agent.CurrentRealm` | src/abstract-ops/function-operations.mjs:324 | the current realm is the realm of the running execution context, the top of the stack |
| `Engine.Agent.DefineOwnProperty` | src/abstract-ops/arguments-operations.mjs:107-115 | inserts the one property on the one object and changes nothing else in the heap |
| `Engine.Agent.ThrowError` | src/abstract-ops/function-operations.mjs:137 | throwing allocates one fresh error object of the requested kind in the current realm, and the completion is a throw of that object |
| `Engine.Agent.Complete` | src/abstract-ops/function-operations.mjs:186-191 | a finished outcome is returned as is and leaves the heap unchanged; an error request becomes a throw of a fresh error object |
| `Engine.Agent.Push` | src/abstract-ops/function-operations.mjs:68 | the context is pushed on top of the stack, which is otherwise unchanged |
| `Engine.Agent.MarkConstructCall` | src/abstract-ops/function-operations.mjs:168 | the running context is marked as a construct call site; the contexts below it and the stack's length are unchanged |
| `Engine.Agent.Pop` | src/abstract-ops/function-operations.mjs:177 | the running context is removed and the rest of the stack is unchanged |
| `Environments.CreateImmutableBinding` | src/runtime-semantics/AsyncGeneratorExpression.mjs:30 | adds exactly one uninitialized immutable binding and leaves the other bindings unchanged |
| `Environments.NewDeclarativeEnvironment` | src/runtime-semantics/AsyncGeneratorExpression.mjs:27 | a declarative record with no bindings whose outer environment is the given scope |
| `Environments.NewFunctionEnvironment` | src/abstract-ops/function-operations.mjs:64 | a function record with no bindings for the callee, its new.target and home object; its this-binding is lexical exactly for lexical-this functions and uninitialized otherwise |
| `Environments.InitializeBinding` | src/runtime-semantics/AsyncGeneratorExpression.mjs:47 | gives the uninitialized binding its value and leaves the other bindings and their mutability unchanged |
| `Environments.GetBindingValue` | src/abstract-ops/arguments-operations.mjs:57-62 | reading an uninitialized binding is a ReferenceError, and reading an initialized one gives its value |
| `Environments.SetMutableBinding` | src/abstract-ops/arguments-operations.mjs:73-79 | a ReferenceError exactly for a missing name in strict code or an uninitialized binding; a TypeError exactly for an initialized immutable binding under strict code or a strict binding; errors leave the record unchanged; a sloppy write of a missing name adds a mutable binding holding the value; an initialized mutable binding takes the value; a sloppy write to an immutable one changes nothing; other bindings are unchanged |
| `Environments.SetThenGet` | src/abstract-ops/arguments-operations.mjs:73-79 | after the setter's write to an initialized mutable binding, the getter's read returns the written value |
| `Environments.SloppyImmutableWriteIgnored` | src/abstract-ops/arguments-operations.mjs:73-79 | a sloppy-mode write to an immutable binding changes nothing and succeeds |
| `Environments.BindThisValue` | src/abstract-ops/function-operations.mjs:97 | binding `this` succeeds exactly when it is still uninitialized, and a second binding is a ReferenceError that leaves the record unchanged |
| `Environments.GetThisBinding` | src/abstract-ops/function-operations.mjs:191 | reading `this` gives the bound value, or is a ReferenceError while it is unbound |
| `FunctionOperations.ThisModeFor` | src/abstract-ops/function-operations.mjs:223-229 | [[ThisMode]] is lexical iff lexical-this was requested, strict iff not lexical and the body is strict, global otherwise |
| `FunctionOperations.EvaluatorFor` | src/abstract-ops/function-operations.mjs:101-129 | each body shape maps to its evaluator (braced concise bodies share the function-body evaluator of their flavour), in both directions |
| `FunctionOperations.OrdinaryCallEvaluateBody` | src/abstract-ops/function-operations.mjs:101-129 | the body runs under the evaluator of its shape: function bodies and braced concise bodies under the function-body evaluator, and each other shape under its own |
| `FunctionOperations.AfterBody` | src/abstract-ops/function-operations.mjs:172-174 | the body can only bind a still-unbound `this`; the bindings and the outer link are unchanged |
| `FunctionOperations.CallCompletion` | src/abstract-ops/function-operations.mjs:147-151 | return(v) becomes normal(v) and normal becomes normal(undefined); other abrupt completions propagate unchanged; the caller never sees a return completion |
| `FunctionOperations.ConstructOutcome` | src/abstract-ops/function-operations.mjs:177-191 | the construct result: a returned object wins; otherwise a base constructor yields its `this`; a derived constructor returning a non-undefined non-object is a TypeError (and only then); other abrupt completions propagate; the rest reads the this-binding |
| `FunctionOperations.BaseConstructYieldsThis` | src/abstract-ops/function-operations.mjs:161-191 | a base constructor whose `this` OrdinaryCallBindThis bound to its pre-allocated object never raises; a returned object wins, an abrupt completion propagates, and falling off the end or returning a non-object yields exactly that pre-allocated object, in strict and global mode alike |
| `FunctionOperations.BindThis` | src/abstract-ops/function-operations.mjs:73-98 | lexical mode leaves the record unchanged; strict mode binds the argument verbatim; global mode binds the realm's global this for undefined and null, and ToObject of the argument otherwise, which is an object, and the argument itself when it already is one |
| `FunctionOperations.FunctionNameString` | src/abstract-ops/function-operations.mjs:288-298 | a string name is used as is; a symbol becomes "[description]", or "" without a description; a prefix is prepended with a space |
| `FunctionOperations.PrepareForOrdinaryCall` | src/abstract-ops/function-operations.mjs:56-70 | pushes exactly one context: its Function is F, its Realm and ScriptOrModule are F's, and its lexical and variable environments are the same fresh function environment record |
| `FunctionOperations.OrdinaryCallBindThis` | src/abstract-ops/function-operations.mjs:73-98 | the callee's record becomes `BindThis` of it; the completion is normal(undefined) in lexical mode and normal(bound this) otherwise |
| `FunctionOperations.FunctionCallSlot` | src/abstract-ops/function-operations.mjs:132-152 | a class constructor throws a fresh TypeError with the environments untouched; otherwise exactly one context is pushed and popped, the stack is restored, the heap is unchanged, one environment record is added, and the result is `CallCompletion` of the body's completion; both allocation pointers are given |
| `FunctionOperations.FunctionConstructSlot` | src/abstract-ops/function-operations.mjs:155-192 | a base constructor allocates `this` (with an object prototype) before the push, and a failure there returns with nothing changed; the stack is restored; the result is `ConstructOutcome` of the body's completion and the final this-binding, so a base constructor falling off its end or returning a non-object yields its allocated object; the new heap is the old one plus that allocation, plus one fresh error object when the outcome raises; both allocation pointers are given |
| `FunctionOperations.EnterCalleeContext` | src/abstract-ops/function-operations.mjs:166-171 | entering the callee pushes exactly one context on top of the old stack: the callee context (F, its realm and script, the fresh record as both environments), marked as a construct call exactly when asked; the one new record is the callee's with `this` bound when asked |
| `FunctionOperations.RunInCalleeContext` | src/abstract-ops/function-operations.mjs:166-177 | around the body the stack is restored exactly; the body runs against the callee's record; that record, as the body left it, is the one new environment |
| `FunctionOperations.SetFunctionLength` | src/abstract-ops/function-operations.mjs:308-318 | requires an extensible F with no own `length`, then defines `length` non-writable, non-enumerable and configurable |
| `FunctionOperations.SetFunctionName` | src/abstract-ops/function-operations.mjs:284-305 | requires an extensible F with no own `name`, then defines `name` as `FunctionNameString`, non-writable, non-enumerable and configurable |
| `FunctionOperations.OrdinaryFunctionCreate` | src/abstract-ops/function-operations.mjs:209-237 | a fresh extensible function with the given prototype; environment, parameters, body, strictness, ThisMode, realm and script filled in; IsClassConstructor false; no [[Construct]]; `length` from `ExpectedArgumentCount` as its only own property |
| `FunctionOperations.MakeConstructor` | src/abstract-ops/function-operations.mjs:240-265 | F becomes a base-kind constructor with a non-enumerable, non-configurable `prototype` whose writability is as asked; a synthesized prototype has a `constructor` pointing back to F with the same writability; nothing else changes |
| `FunctionOperations.MakeClassConstructor` | src/abstract-ops/function-operations.mjs:268-273 | requires IsClassConstructor false and sets it to true, changing nothing else |
| `FunctionOperations.MakeMethod` | src/abstract-ops/function-operations.mjs:276-281 | requires an object home and records it as [[HomeObject]], changing nothing else |
| `FunctionOperations.UndefinedSlotsExtend` | src/abstract-ops/function-operations.mjs:332-334 | adding one more slot name to the list adds exactly that slot, holding undefined |
| `FunctionOperations.CreateBuiltinFunction` | src/abstract-ops/function-operations.mjs:321-342 | a fresh extensible built-in function; every listed slot is undefined; the realm defaults to the current one and the prototype to that realm's %Function.prototype%; ScriptOrModule is null |
| `ArgumentsOperations.LastIndexOf` | src/abstract-ops/arguments-operations.mjs:116-121 | the index of the last parameter with the name, or -1 exactly when there is none |
| `ArgumentsOperations.MappedIffLastOccurrence` | src/abstract-ops/arguments-operations.mjs:116-134 | an index is linked iff it is below the argument count and is the last occurrence of its name (last occurrence wins) |
| `ArgumentsOperations.MappedNamesDistinct` | src/abstract-ops/arguments-operations.mjs:119-124 | no two linked indices share a parameter name |
| `ArgumentsOperations.EveryNameMapped` | src/abstract-ops/arguments-operations.mjs:116-134 | with at least as many arguments as parameters, every distinct parameter name is linked |
| `ArgumentsOperations.MakeArgGetter` | src/abstract-ops/arguments-operations.mjs:65-71 | allocates one fresh built-in getter whose Name and Env slots hold the name and the environment |
| `ArgumentsOperations.MakeArgSetter` | src/abstract-ops/arguments-operations.mjs:82-89 | allocates one fresh built-in setter closed over the name and the environment, with `length` 1 |
| `ArgumentsOperations.ArgGetterStepsCall` | src/abstract-ops/arguments-operations.mjs:57-62 | the getter returns the closed-over binding's value, or throws a fresh ReferenceError while it is uninitialized |
| `ArgumentsOperations.ArgSetterStepsCall` | src/abstract-ops/arguments-operations.mjs:73-79 | the setter performs a sloppy-mode SetMutableBinding on the closed-over environment and reports its outcome |
| `ArgumentsOperations.IndexedProps` | src/abstract-ops/arguments-operations.mjs:35-41 | the indexed properties: exactly the keys 0..len-1, each a writable, enumerable, configurable data property holding its argument |
| `ArgumentsOperations.IndexedPropsExtend` | src/abstract-ops/arguments-operations.mjs:103-109 | defining index i after indices 0..i-1 gives indices 0..i, and the non-index properties are unchanged |
| `ArgumentsOperations.DefineIndexedProperties` | src/abstract-ops/arguments-operations.mjs:104-109 | the index loop adds exactly `IndexedProps(argumentsList)` to the object and changes nothing else |
| `ArgumentsOperations.DefineIteratorAndCallee` | src/abstract-ops/arguments-operations.mjs:135-146 | @@iterator is %Array.prototype.values% (writable, non-enumerable, configurable), then `callee` as given |
| `ArgumentsOperations.CreateUnmappedArgumentsObject` | src/abstract-ops/arguments-operations.mjs:25-55 | ParameterMap is undefined; the properties are the indices, `length` (writable, non-enumerable, configurable), @@iterator, and `callee` as a %ThrowTypeError% accessor (non-enumerable, non-configurable); nothing else changes |
| `ArgumentsOperations.SeenIffNotLast` | src/abstract-ops/arguments-operations.mjs:119-121 | a name is already in mappedNames exactly when this index is not its last occurrence, and adding it extends the seen set by one index |
| `ArgumentsOperations.LinkIndex` | src/abstract-ops/arguments-operations.mjs:123-130 | one fresh getter, one fresh setter, and a non-enumerable, configurable accessor holding both at the index |
| `ArgumentsOperations.LinkParameters` | src/abstract-ops/arguments-operations.mjs:116-134 | after the backward loop the map links exactly the mapped indices, each to closures over its own name; mappedNames is the set of all parameter names, whatever the argument count; existing objects are unchanged |
| `ArgumentsOperations.LinksStep` | src/abstract-ops/arguments-operations.mjs:122-130 | linking the current index extends the invariant of the backward loop by one index |
| `ArgumentsOperations.LinkedAccessorsAreClosures` | src/abstract-ops/arguments-operations.mjs:123-130 | each entry of a complete map holds a getter and a setter that the step routines accept, closed over that index's name and the environment; the setter has `length` 1 |
| `ArgumentsOperations.MappedArgumentsShell` | src/abstract-ops/arguments-operations.mjs:95-115 | an exotic arguments object inheriting from %Object.prototype%, whose ParameterMap is a fresh null-prototype object, holding the indices and `length` |
| `ArgumentsOperations.CreateMappedArgumentsObject` | src/abstract-ops/arguments-operations.mjs:92-148 | the object's properties are the indices, `length`, @@iterator, and `callee` as a data property holding func (writable, non-enumerable, configurable); its null-prototype parameter map links exactly the mapped indices, each through a getter and a setter that are fresh objects; the only new objects are the arguments object, the map and those closures; existing objects are unchanged |
| `AsyncGeneratorExpressions.NamedScope` | src/runtime-semantics/AsyncGeneratorExpression.mjs:26-31 | the named expression's scope binds only its name, and the binding reads back the closure; a strict write of any value is a TypeError that changes nothing, and a sloppy write changes nothing |
| `AsyncGeneratorExpressions.ClosureProps` | src/runtime-semantics/AsyncGeneratorExpression.mjs:33-46 | the closure owns `length`, a writable, non-enumerable, non-configurable `prototype`, and `name` exactly when the expression is named |
| `AsyncGeneratorExpressions.ClosureSlots` | src/runtime-semantics/AsyncGeneratorExpression.mjs:32-44 | the closure closes over the chosen environment with non-lexical this, is not a constructor kind, and carries the expression's source text |
| `AsyncGeneratorExpressions.InstantiateClosure` | src/runtime-semantics/AsyncGeneratorExpression.mjs:32-44 | one fresh function object, then one fresh prototype object inheriting from %AsyncGenerator.prototype%, with `prototype` and SourceText set |
| `AsyncGeneratorExpressions.EvaluateAsyncGeneratorExpression` | src/runtime-semantics/AsyncGeneratorExpression.mjs:17-50 | without an identifier, the closure's environment is the running lexical environment and no environment or name is added; with one, a fresh declarative environment around it binds the name immutably, uninitialized while the closure is created and initialized to the closure afterwards, and `name` is set |

## Left out

- PrepareForTailCall is a no-op in the source and is not modelled.
- The body evaluators and the generator machinery are not modelled. The body is
  a parameter `BodyFn` from (evaluator, callee, arguments, callee record) to a
  completion, plus the `this` value a `super(...)` call bound, if any.
- Heap and environment effects of the body are not modelled. The model also
  does not record which other environments the body changes.
- OrdinaryCallEvaluateBody's host exception for an unknown body type is not a
  completion. Functions whose code has an unknown shape are excluded by
  `IsCallable`.
- ToObject and OrdinaryCreateFromConstructor's prototype lookup are not
  modelled. They are parameters (`toObject`, `getPrototypeFromConstructor`).
  `toObject` is required to return an object unchanged and to wrap every other
  value except undefined and null in an object (`IsToObject`). The wrapper
  object of a primitive is not allocated in the heap.
  `getPrototypeFromConstructor` is required to yield an object whenever it
  completes normally (`IsPrototypeLookup`).
- `Engine.NewErrorObject`: the thrown error object has no own properties. The
  source builds it through the realm's error constructor, which also gives it
  an own `message` property; here the message is kept in the object's slot
  only.
- ToString of indices and number-to-key conversion are not modelled. Index keys
  are `IndexKey(nat)`, and numbers are integers only (no floating point).
- DefinePropertyOrThrow, CreateDataProperty and ordinary [[DefineOwnProperty]]
  are modelled as a map insert (`Engine.Agent.DefineOwnProperty`). Every such
  call here is on a fresh key of an extensible object.
- The order in which keys are inserted (property enumeration order) is not
  modelled.
- The exotic [[Get]], [[Set]], [[DefineOwnProperty]] and [[Delete]] of mapped
  arguments objects are not part of this model, and neither is their use of
  the parameter map.
- src/environment.mjs is not part of this model. The record operations
  (CreateImmutableBinding, InitializeBinding, GetBindingValue,
  SetMutableBinding, BindThisValue, GetThisBinding) follow sections 8.1.1.1 and
  8.1.1.3 of ECMA-262. Only the error kind of their errors is modelled; the
  message text carries the binding name.
- AsyncGeneratorFunctionCreate is not defined in any of the modelled files. It
  is modelled as OrdinaryFunctionCreate with %AsyncGeneratorFunction.prototype%
  and non-lexical this, as in section 14.4 of ECMA-262.
- sourceTextMatchedBy is not modelled. The expression carries its own source
  text.
- `EvaluateAsyncGeneratorExpression` does not model the "Normal" function-kind
  argument.
- The ten ECMAScript function slots that OrdinaryFunctionCreate first sets to
  undefined are a record whose fields start as `None` (`UndefinedFunctionSlots`),
  not a loop over slot names. The loop over CreateBuiltinFunction's
  caller-given slot list is kept.
- Operations that throw, or that create objects in the current realm, require
  a non-empty execution context stack. The source reads the running context
  there too.
- src/api.mjs is not modelled: realm bootstrap, script parsing, the host job
  queue and host value conversion.
- `FunctionOperations.OrdinaryCallBindThis` requires the this-binding to be
  uninitialized (and not lexical), as the source asserts. It therefore never
  models BindThisValue's ReferenceError branch.
