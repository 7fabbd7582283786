/**
 * Environment records as values: declarative records and function records
 * (a declarative record with a this-binding state machine), chained through
 * an outer link. The agent stores them by `EnvRef`; the operations here are the
 * standard record operations (ECMA-262, section 8.1.1.1 and 8.1.1.3) that
 * this layer calls.
 */
module Environments {
  import opened Values

  /** A binding: its value (None while uninitialized), whether it is mutable, and whether it is strict. */
  datatype Binding = Binding(value: Option<Value>, mutable: bool, strict: bool)

  /** The this-binding state of a function environment record. */
  datatype ThisState = ThisLexical | ThisUninitialized | ThisInitialized(value: Value)

  datatype EnvKind =
    | DeclarativeEnv
    | FunctionEnv(thisState: ThisState, functionObject: Ref, newTarget: Value, homeObject: Value)

  datatype EnvRec = EnvRec(bindings: map<string, Binding>, outer: Option<EnvRef>, kind: EnvKind)

  /** A record after an operation, with the operation's outcome. */
  datatype EnvUpdate = EnvUpdate(env: EnvRec, outcome: Outcome)

  /** An empty declarative record whose outer environment is `outer`. */
  function NewDeclarativeEnvironment(outer: EnvRef): (e: EnvRec)
    ensures e.bindings.Keys == {} && e.outer == Some(outer) && e.kind.DeclarativeEnv?
  {
    EnvRec(map[], Some(outer), DeclarativeEnv)
  }

  /**
   * An empty function record for a call of `f`: its this-binding starts
   * lexical for lexical-this functions and uninitialized otherwise.
   */
  function NewFunctionEnvironment(f: Ref, lexicalThis: bool, homeObject: Value,
                                  outer: Option<EnvRef>, newTarget: Value): (e: EnvRec)
    ensures e.bindings.Keys == {} && e.outer == outer && e.kind.FunctionEnv?
    ensures e.kind.thisState == ThisLexical <==> lexicalThis
    ensures e.kind.thisState != ThisLexical ==> e.kind.thisState == ThisUninitialized
    ensures e.kind.functionObject == f && e.kind.newTarget == newTarget && e.kind.homeObject == homeObject
  {
    EnvRec(map[], outer,
           FunctionEnv(if lexicalThis then ThisLexical else ThisUninitialized, f, newTarget, homeObject))
  }

  /** Adds an uninitialized immutable binding for a name the record does not bind yet. */
  function CreateImmutableBinding(e: EnvRec, name: string, strict: bool): (r: EnvRec)
    requires name !in e.bindings
    ensures r.outer == e.outer && r.kind == e.kind
    ensures r.bindings.Keys == e.bindings.Keys + {name}
    ensures r.bindings[name] == Binding(None, false, strict)
    ensures forall n :: n in e.bindings ==> r.bindings[n] == e.bindings[n]
  {
    e.(bindings := e.bindings[name := Binding(None, false, strict)])
  }

  /** Gives an existing uninitialized binding its first value. */
  function InitializeBinding(e: EnvRec, name: string, v: Value): (r: EnvRec)
    requires name in e.bindings && e.bindings[name].value.None?
    ensures r.outer == e.outer && r.kind == e.kind && r.bindings.Keys == e.bindings.Keys
    ensures r.bindings[name] == e.bindings[name].(value := Some(v))
    ensures forall n :: n in e.bindings && n != name ==> r.bindings[n] == e.bindings[n]
  {
    e.(bindings := e.bindings[name := e.bindings[name].(value := Some(v))])
  }

  /** Reads a binding: a ReferenceError while it is uninitialized, its value afterwards. */
  function GetBindingValue(e: EnvRec, name: string): (r: Outcome)
    requires name in e.bindings
    ensures r.Done? <==> e.bindings[name].value.Some?
    ensures r.Done? ==> r.c == Normal(e.bindings[name].value.value)
    ensures r.Raise? ==> r.kind == ReferenceError
  {
    match e.bindings[name].value
    case None => Raise(ReferenceError, name)
    case Some(v) => Done(Normal(v))
  }

  /**
   * Writes a binding. A missing name is created (or is a ReferenceError in
   * strict code); an uninitialized binding is a ReferenceError; writing an
   * immutable binding is ignored, or a TypeError in strict code.
   */
  function SetMutableBinding(e: EnvRec, name: string, v: Value, s: bool): (u: EnvUpdate)
    ensures u.env.outer == e.outer && u.env.kind == e.kind
    ensures u.outcome.Done? ==> u.outcome.c == Normal(Undefined)
    ensures forall n :: n in e.bindings && n != name ==> n in u.env.bindings && u.env.bindings[n] == e.bindings[n]
    ensures u.outcome.Raise? ==> u.env == e
    ensures (u.outcome.Raise? && u.outcome.kind == ReferenceError) <==>
              (name !in e.bindings && s) || (name in e.bindings && e.bindings[name].value.None?)
    ensures (u.outcome.Raise? && u.outcome.kind == TypeError) <==>
              && name in e.bindings && e.bindings[name].value.Some? && !e.bindings[name].mutable
              && (s || e.bindings[name].strict)
    ensures name !in e.bindings && !s ==>
              u.outcome.Done? && u.env.bindings == e.bindings[name := Binding(Some(v), true, false)]
    ensures name in e.bindings && e.bindings[name].value.Some? && e.bindings[name].mutable ==>
              && u.outcome.Done? && u.env.bindings.Keys == e.bindings.Keys
              && u.env.bindings[name] == e.bindings[name].(value := Some(v))
    ensures name in e.bindings && e.bindings[name].value.Some? && !e.bindings[name].mutable ==> u.env == e
  {
    if name !in e.bindings then
      if s then EnvUpdate(e, Raise(ReferenceError, name))
      else EnvUpdate(e.(bindings := e.bindings[name := Binding(Some(v), true, false)]), Done(Normal(Undefined)))
    else
      var b := e.bindings[name];
      var strict := s || b.strict;
      if b.value.None? then EnvUpdate(e, Raise(ReferenceError, name))
      else if b.mutable then
        EnvUpdate(e.(bindings := e.bindings[name := b.(value := Some(v))]), Done(Normal(Undefined)))
      else if strict then EnvUpdate(e, Raise(TypeError, name))
      else EnvUpdate(e, Done(Normal(Undefined)))
  }

  /** Binds `this` once: a second binding is a ReferenceError. */
  function BindThisValue(e: EnvRec, v: Value): (u: EnvUpdate)
    requires e.kind.FunctionEnv? && e.kind.thisState != ThisLexical
    ensures u.outcome.Done? <==> e.kind.thisState == ThisUninitialized
    ensures u.outcome.Done? ==> u.outcome.c == Normal(v) && u.env == e.(kind := e.kind.(thisState := ThisInitialized(v)))
    ensures u.outcome.Raise? ==> u.env == e && u.outcome.kind == ReferenceError
  {
    if e.kind.thisState.ThisInitialized? then EnvUpdate(e, Raise(ReferenceError, "this"))
    else EnvUpdate(e.(kind := e.kind.(thisState := ThisInitialized(v))), Done(Normal(v)))
  }

  /** Reads `this`: a ReferenceError until it has been bound. */
  function GetThisBinding(state: ThisState): (r: Outcome)
    requires state != ThisLexical
    ensures r.Done? <==> state.ThisInitialized?
    ensures r.Done? ==> r.c == Normal(state.value)
    ensures r.Raise? ==> r.kind == ReferenceError
  {
    match state
    case ThisInitialized(v) => Done(Normal(v))
    case ThisUninitialized => Raise(ReferenceError, "this")
  }

  /** A write to an initialized mutable binding is seen by the next read of that binding. */
  lemma SetThenGet(e: EnvRec, name: string, v: Value)
    requires name in e.bindings && e.bindings[name].value.Some? && e.bindings[name].mutable
    ensures SetMutableBinding(e, name, v, false).outcome == Done(Normal(Undefined))
    ensures name in SetMutableBinding(e, name, v, false).env.bindings
    ensures GetBindingValue(SetMutableBinding(e, name, v, false).env, name) == Done(Normal(v))
  {
  }

  /** A write to an immutable binding in sloppy code changes nothing. */
  lemma SloppyImmutableWriteIgnored(e: EnvRec, name: string, v: Value)
    requires name in e.bindings && e.bindings[name].value.Some?
    requires !e.bindings[name].mutable && !e.bindings[name].strict
    ensures SetMutableBinding(e, name, v, false) == EnvUpdate(e, Done(Normal(Undefined)))
  {
  }
}
