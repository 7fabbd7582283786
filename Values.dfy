/**
 * Language values, property keys and descriptors, and completion records:
 * the vocabulary shared by every other module of the model.
 */
module Values {

  datatype Option<+T> = None | Some(value: T)

  /** Identity of an object: its address in the agent's heap. */
  type Ref = nat

  /** Identity of an environment record: its address in the agent's environment store. */
  type EnvRef = nat

  /**
   * A language value. Numbers are restricted to the integral values this
   * layer produces (argument counts and function lengths).
   */
  datatype Value =
    | Undefined
    | Null
    | Bool(b: bool)
    | Number(n: int)
    | String(s: string)
    | Symbol(id: nat, description: Option<string>)
    | Object(ref: Ref)

  /**
   * A property key. Array-index strings ("0", "1", ...) are `IndexKey`s,
   * other string keys are `Named`, and the one symbol key this layer
   * defines is the well-known @@iterator.
   */
  datatype Key = Named(name: string) | IndexKey(index: nat) | AtAtIterator

  /** A property: a data or an accessor descriptor with all attributes present. */
  datatype Prop =
    | Data(value: Value, writable: bool, enumerable: bool, configurable: bool)
    | Accessor(getter: Value, setter: Value, enumerable: bool, configurable: bool)

  /** The outcome of evaluating anything: a normal value or an abrupt transfer of control. */
  datatype Completion =
    | Normal(value: Value)
    | Return(value: Value)
    | Throw(value: Value)
    | Break(target: Option<string>)
    | Continue(target: Option<string>)
  {
    predicate IsAbrupt() { !Normal? }
  }

  /** The error constructors this layer throws. */
  datatype ErrorKind = TypeError | ReferenceError

  /**
   * The result of a pure step that may throw a freshly created error object:
   * either a finished completion or a request to create and throw an error.
   */
  datatype Outcome = Done(c: Completion) | Raise(kind: ErrorKind, message: string)
}
