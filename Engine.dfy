/**
 * The surrounding agent: the execution context stack, the object heap and
 * the store of environment records, owned by one `Agent` object that every
 * operation of this layer receives explicitly.
 */
module Engine {
  import opened Values
  import opened Objects
  import opened Environments

  /** One logical invocation: what runs, in which realm, and with which environments. */
  datatype ExecutionContext = ExecutionContext(
    func: Value,
    realm: Realm,
    scriptOrModule: ScriptOrModule,
    lexicalEnvironment: EnvRef,
    variableEnvironment: EnvRef,
    constructCall: bool)

  /**
   * The ScriptOrModule of the topmost context that has one, or null when no
   * context on the stack is attributed to a script or module.
   */
  function ActiveScriptOrModule(stack: seq<ExecutionContext>): (r: ScriptOrModule)
    ensures r == NullScript <==> forall i :: 0 <= i < |stack| ==> stack[i].scriptOrModule == NullScript
    ensures r != NullScript ==>
      exists i :: 0 <= i < |stack| && stack[i].scriptOrModule == r &&
        forall j :: i < j < |stack| ==> stack[j].scriptOrModule == NullScript
  {
    if stack == [] then NullScript
    else if stack[|stack| - 1].scriptOrModule != NullScript then stack[|stack| - 1].scriptOrModule
    else ActiveScriptOrModule(stack[..|stack| - 1])
  }

  /** A fresh error object of the given kind, created in `realm`. */
  function NewErrorObject(realm: Realm, kind: ErrorKind, message: string): Obj {
    var proto := match kind
      case TypeError => realm.intrinsics.typeErrorPrototype
      case ReferenceError => realm.intrinsics.referenceErrorPrototype;
    Obj(Object(proto), true, map[], ErrorObject(kind, message))
  }

  class Agent {
    /** The execution context stack; its last element is the running execution context. */
    var stack: seq<ExecutionContext>
    var heap: map<Ref, Obj>
    var envs: map<EnvRef, EnvRec>
    /** Allocation pointers: every address in use lies below them. */
    var nextRef: nat
    var nextEnv: nat

    ghost predicate Valid()
      reads this
    {
      && (forall r :: r in heap ==> r < nextRef)
      && (forall e :: e in envs ==> e < nextEnv)
    }

    constructor ()
      ensures Valid() && stack == [] && heap == map[] && envs == map[]
    {
      stack, heap, envs := [], map[], map[];
      nextRef, nextEnv := 0, 0;
    }

    function RunningContext(): ExecutionContext
      reads this`stack
      requires |stack| > 0
    {
      stack[|stack| - 1]
    }

    /** The realm of the running execution context. */
    function CurrentRealm(): (r: Realm)
      reads this`stack
      requires |stack| > 0
      ensures r == stack[|stack| - 1].realm
    {
      RunningContext().realm
    }

    /** Places `o` at an address not in use. */
    method Allocate(o: Obj) returns (r: Ref)
      requires Valid()
      modifies this`heap, this`nextRef
      ensures Valid()
      ensures r == old(nextRef) && r !in old(heap) && heap == old(heap)[r := o]
      ensures nextRef == old(nextRef) + 1
    {
      r := nextRef;
      heap := heap[r := o];
      nextRef := nextRef + 1;
    }

    /** Places `e` at an environment address not in use. */
    method AllocateEnv(e: EnvRec) returns (r: EnvRef)
      requires Valid()
      modifies this`envs, this`nextEnv
      ensures Valid()
      ensures r == old(nextEnv) && r !in old(envs) && envs == old(envs)[r := e]
      ensures nextEnv == old(nextEnv) + 1
    {
      r := nextEnv;
      envs := envs[r := e];
      nextEnv := nextEnv + 1;
    }

    /** Defines (or redefines) one own property of an object in the heap. */
    method DefineOwnProperty(obj: Ref, k: Key, p: Prop)
      requires obj in heap
      modifies this`heap
      ensures heap == old(heap)[obj := old(heap[obj]).(props := old(heap[obj].props)[k := p])]
    {
      heap := heap[obj := heap[obj].(props := heap[obj].props[k := p])];
    }

    method Push(ctx: ExecutionContext)
      modifies this`stack
      ensures stack == old(stack) + [ctx]
    {
      stack := stack + [ctx];
    }

    /** Marks the running execution context as a [[Construct]] call site. */
    method MarkConstructCall()
      requires |stack| > 0
      modifies this`stack
      ensures |stack| == |old(stack)| && stack[..|stack| - 1] == old(stack)[..|stack| - 1]
      ensures RunningContext() == old(RunningContext()).(constructCall := true)
    {
      stack := stack[|stack| - 1 := RunningContext().(constructCall := true)];
    }

    method Pop()
      requires |stack| > 0
      modifies this`stack
      ensures stack == old(stack)[..|old(stack)| - 1]
    {
      stack := stack[..|stack| - 1];
    }

    /** Creates an error object in the current realm and returns a throw completion carrying it. */
    method ThrowError(kind: ErrorKind, message: string) returns (c: Completion)
      requires Valid() && |stack| > 0
      modifies this`heap, this`nextRef
      ensures Valid()
      ensures c == Throw(Object(old(nextRef))) && old(nextRef) !in old(heap)
      ensures heap == old(heap)[old(nextRef) := NewErrorObject(CurrentRealm(), kind, message)]
      ensures nextRef == old(nextRef) + 1
    {
      var e := Allocate(NewErrorObject(CurrentRealm(), kind, message));
      c := Throw(Object(e));
    }

    /** Turns an outcome into a completion, creating the error object it asks for. */
    method Complete(o: Outcome) returns (c: Completion)
      requires Valid() && |stack| > 0
      modifies this`heap, this`nextRef
      ensures Valid()
      ensures o.Done? ==> c == o.c && heap == old(heap) && nextRef == old(nextRef)
      ensures o.Raise? ==>
        && c == Throw(Object(old(nextRef))) && old(nextRef) !in old(heap)
        && heap == old(heap)[old(nextRef) := NewErrorObject(CurrentRealm(), o.kind, o.message)]
        && nextRef == old(nextRef) + 1
    {
      if o.Done? {
        c := o.c;
      } else {
        c := ThrowError(o.kind, o.message);
      }
    }
  }
}
