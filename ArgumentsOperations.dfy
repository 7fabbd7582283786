/**
 * Arguments exotic objects (ECMA-262, section 9.4.4): the unmapped arguments
 * object of strict and non-simple functions, and the mapped arguments object
 * whose parameter map links indices to the named parameter bindings.
 */
module ArgumentsOperations {
  import opened Values
  import opened Objects
  import opened Environments
  import opened Engine
  import opened FunctionOperations

  // ---------------------------------------------------------------------------
  // Which indices are linked
  // ---------------------------------------------------------------------------

  /** No later parameter has the same name as parameter i. */
  predicate IsLastOccurrence(names: seq<string>, i: nat)
    requires i < |names|
  {
    forall j :: i < j < |names| ==> names[j] != names[i]
  }

  /**
   * The indices the parameter map links: below both the argument count and
   * the parameter count, and the last occurrence of their name.
   */
  ghost function MappedIndices(names: seq<string>, len: nat): set<nat> {
    set i: nat | i < |names| && i < len && IsLastOccurrence(names, i)
  }

  /** The index of the last parameter named x, or -1 when there is none. */
  function LastIndexOf(names: seq<string>, x: string): (r: int)
    ensures -1 <= r < |names|
    ensures r == -1 <==> x !in names
    ensures r >= 0 ==> names[r] == x && IsLastOccurrence(names, r)
  {
    if names == [] then -1
    else if names[|names| - 1] == x then |names| - 1
    else LastIndexOf(names[..|names| - 1], x)
  }

  /** Two linked indices never share a parameter name. */
  lemma MappedNamesDistinct(names: seq<string>, len: nat, i: nat, j: nat)
    requires i in MappedIndices(names, len) && j in MappedIndices(names, len) && i != j
    ensures names[i] != names[j]
  {
    if i < j {
      assert IsLastOccurrence(names, i);
    } else {
      assert IsLastOccurrence(names, j);
    }
  }

  /**
   * An index is linked exactly when it is the last occurrence of its name and
   * lies below the argument count: "last occurrence wins".
   */
  lemma {:induction false} MappedIffLastOccurrence(names: seq<string>, len: nat, i: nat)
    requires i < |names|
    ensures i in MappedIndices(names, len) <==> i < len && LastIndexOf(names, names[i]) == i
  {
    var l := LastIndexOf(names, names[i]);
    if l != i {
      assert l > i ==> !IsLastOccurrence(names, i);
    }
  }

  /**
   * With at least as many arguments as parameters every distinct parameter
   * name is linked, through the index of its last occurrence.
   */
  lemma {:induction false} EveryNameMapped(names: seq<string>, len: nat)
    requires len >= |names|
    ensures (set i | i in MappedIndices(names, len) :: names[i]) == set x | x in names
  {
    var linked := set i | i in MappedIndices(names, len) :: names[i];
    forall x | x in names
      ensures x in linked
    {
      var l := LastIndexOf(names, x);
      MappedIffLastOccurrence(names, len, l);
      assert l in MappedIndices(names, len);
    }
  }

  // ---------------------------------------------------------------------------
  // The getter and setter closures of the parameter map
  // ---------------------------------------------------------------------------

  /** A built-in function closed over a parameter name and an environment, as MakeArgGetter and MakeArgSetter build it. */
  function ArgAccessorFunction(steps: BuiltinSteps, name: string, env: EnvRef, realm: Realm,
                               props: map<Key, Prop>): Obj {
    Obj(Object(realm.intrinsics.functionPrototype), true, props,
        BuiltinFunction(steps, false, realm, NullScript,
                        map["Name" := SlotValue(String(name)), "Env" := SlotEnv(env)]))
  }

  /** The getter closure for `name` in `env`. */
  function ArgGetter(name: string, env: EnvRef, realm: Realm): Obj {
    ArgAccessorFunction(ArgGetterSteps, name, env, realm, map[])
  }

  /** The setter closure for `name` in `env`: its `length` is 1. */
  function ArgSetter(name: string, env: EnvRef, realm: Realm): Obj {
    ArgAccessorFunction(ArgSetterSteps, name, env, realm, map[Named("length") := LengthProp(1)])
  }

  lemma ArgClosureSlots(name: string, env: EnvRef)
    ensures UndefinedSlots(["Name", "Env"])["Name" := SlotValue(String(name))]["Env" := SlotEnv(env)] ==
            map["Name" := SlotValue(String(name)), "Env" := SlotEnv(env)]
  {
    var a := UndefinedSlots(["Name", "Env"])["Name" := SlotValue(String(name))]["Env" := SlotEnv(env)];
    assert a.Keys == {"Name", "Env"};
  }

  /** MakeArgGetter: a fresh built-in getter closed over (name, env). */
  method MakeArgGetter(agent: Agent, name: string, env: EnvRef) returns (getter: Ref)
    requires agent.Valid() && |agent.stack| > 0
    modifies agent`heap, agent`nextRef
    ensures agent.Valid()
    ensures getter == old(agent.nextRef) && getter !in old(agent.heap)
    ensures agent.heap == old(agent.heap)[getter := ArgGetter(name, env, agent.CurrentRealm())]
  {
    getter := CreateBuiltinFunction(agent, ArgGetterSteps, ["Name", "Env"]);
    var f := agent.heap[getter];
    agent.heap := agent.heap[getter := f.(kind := f.kind.(extraSlots := f.kind.extraSlots["Name" := SlotValue(String(name))]))];
    f := agent.heap[getter];
    agent.heap := agent.heap[getter := f.(kind := f.kind.(extraSlots := f.kind.extraSlots["Env" := SlotEnv(env)]))];
    ArgClosureSlots(name, env);
  }

  /** MakeArgSetter: a fresh built-in setter closed over (name, env), with `length` 1. */
  method MakeArgSetter(agent: Agent, name: string, env: EnvRef) returns (setter: Ref)
    requires agent.Valid() && |agent.stack| > 0
    modifies agent`heap, agent`nextRef
    ensures agent.Valid()
    ensures setter == old(agent.nextRef) && setter !in old(agent.heap)
    ensures agent.heap == old(agent.heap)[setter := ArgSetter(name, env, agent.CurrentRealm())]
  {
    setter := CreateBuiltinFunction(agent, ArgSetterSteps, ["Name", "Env"]);
    SetFunctionLength(agent, setter, 1);
    var f := agent.heap[setter];
    agent.heap := agent.heap[setter := f.(kind := f.kind.(extraSlots := f.kind.extraSlots["Name" := SlotValue(String(name))]))];
    f := agent.heap[setter];
    agent.heap := agent.heap[setter := f.(kind := f.kind.(extraSlots := f.kind.extraSlots["Env" := SlotEnv(env)]))];
    ArgClosureSlots(name, env);
  }

  /** A built-in function object carrying a Name slot (a string) and an Env slot. */
  predicate IsArgClosure(o: Obj) {
    && o.kind.BuiltinFunction?
    && "Name" in o.kind.extraSlots && o.kind.extraSlots["Name"].SlotValue? && o.kind.extraSlots["Name"].v.String?
    && "Env" in o.kind.extraSlots && o.kind.extraSlots["Env"].SlotEnv?
  }

  function ClosureName(o: Obj): string
    requires IsArgClosure(o)
  {
    o.kind.extraSlots["Name"].v.s
  }

  function ClosureEnv(o: Obj): EnvRef
    requires IsArgClosure(o)
  {
    o.kind.extraSlots["Env"].env
  }

  /** ArgGetterSteps: reads the closed-over binding. */
  method ArgGetterStepsCall(agent: Agent, f: Ref) returns (c: Completion)
    requires agent.Valid() && |agent.stack| > 0
    requires f in agent.heap && IsArgClosure(agent.heap[f])
    requires ClosureEnv(agent.heap[f]) in agent.envs
    requires ClosureName(agent.heap[f]) in agent.envs[ClosureEnv(agent.heap[f])].bindings
    modifies agent`heap, agent`nextRef
    ensures agent.Valid()
    ensures var o := GetBindingValue(old(agent.envs[ClosureEnv(agent.heap[f])]), old(ClosureName(agent.heap[f])));
      && (o.Done? ==> c == o.c && agent.heap == old(agent.heap))
      && (o.Raise? ==>
            c == Throw(Object(old(agent.nextRef))) &&
            agent.heap == old(agent.heap)[old(agent.nextRef) := NewErrorObject(agent.CurrentRealm(), o.kind, o.message)])
  {
    var name := ClosureName(agent.heap[f]);
    var env := ClosureEnv(agent.heap[f]);
    c := agent.Complete(GetBindingValue(agent.envs[env], name));
  }

  /** ArgSetterSteps: writes the closed-over binding (sloppy-mode write). */
  method ArgSetterStepsCall(agent: Agent, f: Ref, value: Value) returns (c: Completion)
    requires agent.Valid() && |agent.stack| > 0
    requires f in agent.heap && IsArgClosure(agent.heap[f])
    requires ClosureEnv(agent.heap[f]) in agent.envs
    modifies agent`heap, agent`nextRef, agent`envs
    ensures agent.Valid()
    ensures var e := old(ClosureEnv(agent.heap[f]));
      var u := SetMutableBinding(old(agent.envs[e]), old(ClosureName(agent.heap[f])), value, false);
      && agent.envs == old(agent.envs)[e := u.env]
      && (u.outcome.Done? ==> c == u.outcome.c && agent.heap == old(agent.heap))
      && (u.outcome.Raise? ==>
            c == Throw(Object(old(agent.nextRef))) &&
            agent.heap == old(agent.heap)[old(agent.nextRef) := NewErrorObject(agent.CurrentRealm(), u.outcome.kind, u.outcome.message)])
  {
    var name := ClosureName(agent.heap[f]);
    var env := ClosureEnv(agent.heap[f]);
    var u := SetMutableBinding(agent.envs[env], name, value, false);
    agent.envs := agent.envs[env := u.env];
    c := agent.Complete(u.outcome);
  }

  // ---------------------------------------------------------------------------
  // The arguments objects
  // ---------------------------------------------------------------------------

  /** The indexed own properties of an arguments object: "i" holds argumentsList[i]. */
  function IndexedProps(args: seq<Value>): (m: map<Key, Prop>)
    ensures forall k :: k in m <==> k.IndexKey? && k.index < |args|
    ensures forall i :: 0 <= i < |args| ==> m[IndexKey(i)] == Data(args[i], true, true, true)
  {
    map i | 0 <= i < |args| :: IndexKey(i) := Data(args[i], true, true, true)
  }

  /** Defining index i after indices 0..i-1, beside other non-index properties, gives indices 0..i. */
  lemma IndexedPropsExtend(args: seq<Value>, i: nat, others: map<Key, Prop>)
    requires i < |args|
    requires forall k :: k in others ==> !k.IndexKey?
    ensures (IndexedProps(args[..i]) + others)[IndexKey(i) := Data(args[i], true, true, true)] ==
            IndexedProps(args[..i + 1]) + others
  {
    var a := (IndexedProps(args[..i]) + others)[IndexKey(i) := Data(args[i], true, true, true)];
    var b := IndexedProps(args[..i + 1]) + others;
    assert a.Keys == b.Keys;
  }

  /** Defining a non-index property after the indexed ones. */
  lemma DefineBesideIndices(args: seq<Value>, others: map<Key, Prop>, k: Key, p: Prop)
    requires !k.IndexKey?
    ensures (IndexedProps(args) + others)[k := p] == IndexedProps(args) + others[k := p]
  {
    var a := (IndexedProps(args) + others)[k := p];
    var b := IndexedProps(args) + others[k := p];
    assert a.Keys == b.Keys;
  }

  /**
   * The index loop shared by both arguments objects: for every index of
   * argumentsList, in increasing order, an own data property holding that
   * argument, writable, enumerable and configurable.
   */
  method DefineIndexedProperties(agent: Agent, obj: Ref, argumentsList: seq<Value>)
    requires obj in agent.heap
    requires forall k :: k in agent.heap[obj].props ==> !k.IndexKey?
    modifies agent`heap
    ensures agent.heap == old(agent.heap)[obj := old(agent.heap[obj]).(props := IndexedProps(argumentsList) + old(agent.heap[obj].props))]
  {
    ghost var h0 := agent.heap;
    var o0 := agent.heap[obj];
    var others := o0.props;
    var index := 0;
    assert IndexedProps(argumentsList[..0]) == map[];
    assert others == IndexedProps(argumentsList[..0]) + others;
    while index < |argumentsList|
      invariant 0 <= index <= |argumentsList|
      invariant agent.heap == h0[obj := o0.(props := IndexedProps(argumentsList[..index]) + others)]
    {
      ghost var before := IndexedProps(argumentsList[..index]) + others;
      agent.DefineOwnProperty(obj, IndexKey(index), Data(argumentsList[index], true, true, true));
      assert agent.heap == h0[obj := o0.(props := before[IndexKey(index) := Data(argumentsList[index], true, true, true)])];
      IndexedPropsExtend(argumentsList, index, others);
      index := index + 1;
    }
    assert argumentsList[..index] == argumentsList;
  }

  /** The own `length` of an arguments object: the argument count, writable, non-enumerable, configurable. */
  function ArgumentsLength(len: nat): Prop {
    Data(Number(len), true, false, true)
  }

  /** The own @@iterator of an arguments object: %Array.prototype.values%, writable, non-enumerable, configurable. */
  function ArgumentsIterator(intr: Intrinsics): Prop {
    Data(Object(intr.arrayPrototypeValues), true, false, true)
  }

  /**
   * The last two steps shared by both arguments objects: @@iterator, then
   * `callee`, defined after the indices and `length`.
   */
  method DefineIteratorAndCallee(agent: Agent, obj: Ref, argumentsList: seq<Value>, callee: Prop)
    requires |agent.stack| > 0 && obj in agent.heap
    requires agent.heap[obj].props == IndexedProps(argumentsList) + map[Named("length") := ArgumentsLength(|argumentsList|)]
    modifies agent`heap
    ensures var intr := agent.CurrentRealm().intrinsics;
      agent.heap == old(agent.heap)[obj := old(agent.heap[obj]).(props := IndexedProps(argumentsList) + map[
        Named("length") := ArgumentsLength(|argumentsList|),
        AtAtIterator := ArgumentsIterator(intr),
        Named("callee") := callee])]
  {
    var intr := agent.CurrentRealm().intrinsics;
    var lengthOnly := map[Named("length") := ArgumentsLength(|argumentsList|)];
    agent.DefineOwnProperty(obj, AtAtIterator, ArgumentsIterator(intr));
    DefineBesideIndices(argumentsList, lengthOnly, AtAtIterator, ArgumentsIterator(intr));
    agent.DefineOwnProperty(obj, Named("callee"), callee);
    DefineBesideIndices(argumentsList, lengthOnly[AtAtIterator := ArgumentsIterator(intr)], Named("callee"), callee);
  }

  /**
   * CreateUnmappedArgumentsObject: an ordinary object with a ParameterMap
   * slot holding undefined, own `length`, indices 0..len-1, @@iterator, and a
   * `callee` accessor whose getter and setter are both %ThrowTypeError%
   * (non-enumerable, non-configurable).
   */
  method CreateUnmappedArgumentsObject(agent: Agent, argumentsList: seq<Value>) returns (obj: Ref)
    requires agent.Valid() && |agent.stack| > 0
    modifies agent`heap, agent`nextRef
    ensures agent.Valid()
    ensures obj == old(agent.nextRef) && obj !in old(agent.heap)
    ensures var intr := agent.CurrentRealm().intrinsics;
      agent.heap == old(agent.heap)[obj := Obj(Object(intr.objectPrototype), true,
        IndexedProps(argumentsList) + map[
          Named("length") := ArgumentsLength(|argumentsList|),
          AtAtIterator := ArgumentsIterator(intr),
          Named("callee") := Accessor(Object(intr.throwTypeError), Object(intr.throwTypeError), false, false)],
        ArgumentsObject(false, Undefined))]
  {
    var intr := agent.CurrentRealm().intrinsics;
    obj := agent.Allocate(Obj(Object(intr.objectPrototype), true, map[], ArgumentsObject(false, Undefined)));
    var lengthOnly := map[Named("length") := ArgumentsLength(|argumentsList|)];
    agent.DefineOwnProperty(obj, Named("length"), ArgumentsLength(|argumentsList|));
    assert agent.heap[obj].props == lengthOnly;
    DefineIndexedProperties(agent, obj, argumentsList);
    DefineIteratorAndCallee(agent, obj, argumentsList,
                            Accessor(Object(intr.throwTypeError), Object(intr.throwTypeError), false, false));
  }

  /**
   * `p` is the accessor the parameter map holds for a parameter called
   * `name`: a getter and a setter closed over (name, env), non-enumerable
   * and configurable.
   */
  ghost predicate LinkAccessor(heap: map<Ref, Obj>, p: Prop, name: string, env: EnvRef, realm: Realm) {
    && p.Accessor? && p.getter.Object? && p.setter.Object?
    && !p.enumerable && p.configurable
    && p.getter.ref in heap && heap[p.getter.ref] == ArgGetter(name, env, realm)
    && p.setter.ref in heap && heap[p.setter.ref] == ArgSetter(name, env, realm)
  }

  /**
   * The parameter map `pm` links exactly the mapped indices above `lo`, each
   * to the binding of the parameter name at that index.
   */
  ghost predicate LinksAbove(heap: map<Ref, Obj>, pm: Ref, names: seq<string>, len: nat,
                             env: EnvRef, realm: Realm, lo: int)
    requires pm in heap
  {
    && (forall k :: k in heap[pm].props <==> k.IndexKey? && lo < k.index && k.index in MappedIndices(names, len))
    && (forall i: nat :: IndexKey(i) in heap[pm].props ==> i < |names| && LinkAccessor(heap, heap[pm].props[IndexKey(i)], names[i], env, realm))
  }

  /** Links one index of the parameter map: a fresh getter, a fresh setter, and the accessor holding both. */
  method LinkIndex(agent: Agent, pm: Ref, index: nat, name: string, env: EnvRef)
    returns (g: Ref, s: Ref)
    requires agent.Valid() && |agent.stack| > 0 && pm in agent.heap
    modifies agent`heap, agent`nextRef
    ensures agent.Valid()
    ensures g == old(agent.nextRef) && g != s && g !in old(agent.heap) && s !in old(agent.heap)
    ensures var realm := agent.CurrentRealm();
      agent.heap == old(agent.heap)[g := ArgGetter(name, env, realm)][s := ArgSetter(name, env, realm)]
                      [pm := old(agent.heap[pm]).(props := old(agent.heap[pm].props)[IndexKey(index) :=
                         Accessor(Object(g), Object(s), false, true)])]
  {
    g := MakeArgGetter(agent, name, env);
    s := MakeArgSetter(agent, name, env);
    agent.DefineOwnProperty(pm, IndexKey(index), Accessor(Object(g), Object(s), false, true));
  }

  /** `p` is an accessor whose getter and setter are objects none of which is in `h0`. */
  ghost predicate FreshAccessor(h0: map<Ref, Obj>, p: Prop) {
    && p.Accessor? && p.getter.Object? && p.setter.Object?
    && p.getter.ref !in h0 && p.setter.ref !in h0
  }

  /** `r` is the getter or the setter of one of the accessors in `props`. */
  ghost predicate IsLinkedClosure(props: map<Key, Prop>, r: Ref) {
    exists k :: k in props && props[k].Accessor? && (props[k].getter == Object(r) || props[k].setter == Object(r))
  }

  /**
   * Since `h0`, the parameter map `pm` has gained only accessors with fresh
   * getters and setters, and every address new in `heap` is one of them.
   */
  ghost predicate LinksFresh(h0: map<Ref, Obj>, heap: map<Ref, Obj>, pm: Ref)
    requires pm in heap
  {
    && (forall k :: k in heap[pm].props ==> FreshAccessor(h0, heap[pm].props[k]))
    && (forall r :: r in heap && r !in h0 ==> IsLinkedClosure(heap[pm].props, r))
  }

  /** The parameter names at indices above lo. */
  ghost function NamesAbove(names: seq<string>, lo: int): set<string> {
    set j: nat | lo < j < |names| :: names[j]
  }

  /** The name at index lo was already seen above lo exactly when lo is not its last occurrence. */
  lemma SeenIffNotLast(names: seq<string>, lo: nat)
    requires lo < |names|
    ensures names[lo] in NamesAbove(names, lo) <==> !IsLastOccurrence(names, lo)
    ensures NamesAbove(names, lo - 1) == NamesAbove(names, lo) + {names[lo]}
  {
    if !IsLastOccurrence(names, lo) {
      var j :| lo < j < |names| && names[j] == names[lo];
      assert names[lo] in NamesAbove(names, lo);
    }
  }

  /**
   * The backward loop of CreateMappedArgumentsObject: walking the parameter
   * names from the last to the first, the first time a name is seen (its
   * last occurrence) and when its index is below the argument count, the
   * index is linked to the binding. The result links exactly the mapped
   * indices, and nothing else already in the heap changes.
   */
  method LinkParameters(agent: Agent, pm: Ref, names: seq<string>, len: nat, env: EnvRef)
    returns (mappedNames: set<string>)
    requires agent.Valid() && |agent.stack| > 0 && pm in agent.heap
    requires agent.heap[pm].props == map[]
    modifies agent`heap, agent`nextRef
    ensures agent.Valid()
    ensures pm in agent.heap
    ensures forall r :: r in old(agent.heap) && r != pm ==> r in agent.heap && agent.heap[r] == old(agent.heap[r])
    ensures agent.heap[pm] == old(agent.heap[pm]).(props := agent.heap[pm].props)
    ensures LinksAbove(agent.heap, pm, names, len, env, agent.CurrentRealm(), -1)
    ensures mappedNames == set x | x in names
    ensures LinksFresh(old(agent.heap), agent.heap, pm)
  {
    var realm := agent.CurrentRealm();
    ghost var h0 := agent.heap;
    mappedNames := {};
    var index: int := |names| - 1;
    while index >= 0
      invariant -1 <= index < |names|
      invariant mappedNames == NamesAbove(names, index)
      invariant agent.Valid() && agent.CurrentRealm() == realm
      invariant pm in agent.heap
      invariant forall r :: r in h0 && r != pm ==> r in agent.heap && agent.heap[r] == h0[r]
      invariant agent.heap[pm] == h0[pm].(props := agent.heap[pm].props)
      invariant LinksAbove(agent.heap, pm, names, len, env, realm, index)
      invariant LinksFresh(h0, agent.heap, pm)
      decreases index
    {
      var name := names[index];
      SeenIffNotLast(names, index);
      if name !in mappedNames {
        mappedNames := mappedNames + {name};
        if index < len {
          ghost var h1 := agent.heap;
          var g, s := LinkIndex(agent, pm, index, name, env);
          LinksStep(h1, agent.heap, pm, names, len, env, realm, index, g, s);
          LinksStayFresh(h0, h1, agent.heap, pm, index, g, s, ArgGetter(name, env, realm), ArgSetter(name, env, realm));
        } else {
          LinksSkip(agent.heap, pm, names, len, env, realm, index);
        }
      } else {
        LinksSkip(agent.heap, pm, names, len, env, realm, index);
      }
      index := index - 1;
    }
    forall x | x in names
      ensures x in mappedNames
    {
      var j :| 0 <= j < |names| && names[j] == x;
      assert x in NamesAbove(names, -1);
    }
  }

  /** An index that is not mapped leaves LinksAbove unchanged when passed over. */
  lemma LinksSkip(h: map<Ref, Obj>, pm: Ref, names: seq<string>, len: nat,
                  env: EnvRef, realm: Realm, lo: nat)
    requires pm in h && LinksAbove(h, pm, names, len, env, realm, lo)
    requires lo !in MappedIndices(names, len)
    ensures LinksAbove(h, pm, names, len, env, realm, lo - 1)
  {
  }

  /**
   * Every mapped index of a complete parameter map holds a getter and a
   * setter that ArgGetterSteps and ArgSetterSteps accept, closed over the
   * parameter name at that index and the function's environment; the setter
   * has `length` 1.
   */
  lemma LinkedAccessorsAreClosures(heap: map<Ref, Obj>, pm: Ref, names: seq<string>, len: nat,
                                   env: EnvRef, realm: Realm, i: nat)
    requires pm in heap && LinksAbove(heap, pm, names, len, env, realm, -1)
    requires i < |names| && i < len && LastIndexOf(names, names[i]) == i
    ensures IndexKey(i) in heap[pm].props
    ensures var p := heap[pm].props[IndexKey(i)];
      && p.Accessor? && p.getter.Object? && p.setter.Object?
      && p.getter.ref in heap && IsArgClosure(heap[p.getter.ref])
      && heap[p.getter.ref].kind.steps == ArgGetterSteps
      && ClosureName(heap[p.getter.ref]) == names[i] && ClosureEnv(heap[p.getter.ref]) == env
      && p.setter.ref in heap && IsArgClosure(heap[p.setter.ref])
      && heap[p.setter.ref].kind.steps == ArgSetterSteps
      && ClosureName(heap[p.setter.ref]) == names[i] && ClosureEnv(heap[p.setter.ref]) == env
      && heap[p.setter.ref].props[Named("length")] == LengthProp(1)
  {
    MappedIffLastOccurrence(names, len, i);
    assert IndexKey(i).index in MappedIndices(names, len);
  }

  /**
   * Linking one more index with a fresh getter and setter keeps every
   * accessor of the map fresh, and every address new since `h0` one of
   * their closures.
   */
  lemma LinksStayFresh(h0: map<Ref, Obj>, h1: map<Ref, Obj>, h2: map<Ref, Obj>, pm: Ref, lo: nat,
                       g: Ref, s: Ref, og: Obj, os: Obj)
    requires pm in h0 && pm in h1 && IndexKey(lo) !in h1[pm].props
    requires forall r :: r in h0 && r != pm ==> r in h1
    requires LinksFresh(h0, h1, pm)
    requires g !in h1 && s !in h1
    requires h2 == h1[g := og][s := os]
                     [pm := h1[pm].(props := h1[pm].props[IndexKey(lo) := Accessor(Object(g), Object(s), false, true)])]
    ensures LinksFresh(h0, h2, pm)
  {
    var props2 := h2[pm].props;
    forall r | r in h2 && r !in h0
      ensures IsLinkedClosure(props2, r)
    {
      if r == g || r == s {
        assert IndexKey(lo) in props2;
      } else {
        var k :| k in h1[pm].props && h1[pm].props[k].Accessor? &&
                 (h1[pm].props[k].getter == Object(r) || h1[pm].props[k].setter == Object(r));
        assert k in props2 && props2[k] == h1[pm].props[k];
      }
    }
  }

  /** Linking index lo after the indices above it extends LinksAbove down to lo - 1. */
  lemma LinksStep(h1: map<Ref, Obj>, h2: map<Ref, Obj>, pm: Ref, names: seq<string>, len: nat,
                  env: EnvRef, realm: Realm, lo: nat, g: Ref, s: Ref)
    requires pm in h1 && LinksAbove(h1, pm, names, len, env, realm, lo)
    requires lo in MappedIndices(names, len)
    requires g !in h1 && s !in h1 && g != s
    requires h2 == h1[g := ArgGetter(names[lo], env, realm)][s := ArgSetter(names[lo], env, realm)]
                     [pm := h1[pm].(props := h1[pm].props[IndexKey(lo) := Accessor(Object(g), Object(s), false, true)])]
    ensures LinksAbove(h2, pm, names, len, env, realm, lo - 1)
  {
    forall i: nat | IndexKey(i) in h2[pm].props
      ensures i < |names| && LinkAccessor(h2, h2[pm].props[IndexKey(i)], names[i], env, realm)
    {
      if i != lo {
        var p := h1[pm].props[IndexKey(i)];
        assert LinkAccessor(h1, p, names[i], env, realm);
        assert p.getter.ref != pm && p.setter.ref != pm;
      }
    }
  }

  /**
   * CreateMappedArgumentsObject: an arguments exotic object with indices
   * 0..len-1, own `length`, @@iterator and a `callee` data property holding
   * the function, whose parameter map links each mapped index to the
   * binding of its parameter name in `env`.
   */
  method CreateMappedArgumentsObject(agent: Agent, func: Value, formals: FormalParameters,
                                     argumentsList: seq<Value>, env: EnvRef) returns (obj: Ref)
    requires agent.Valid() && |agent.stack| > 0
    requires IsSimpleParameterList(formals)
    modifies agent`heap, agent`nextRef
    ensures agent.Valid()
    ensures obj == old(agent.nextRef) && obj !in old(agent.heap)
    ensures forall r :: r in old(agent.heap) ==> r in agent.heap && agent.heap[r] == old(agent.heap[r])
    ensures var intr := agent.CurrentRealm().intrinsics;
      && obj in agent.heap
      && agent.heap[obj] == Obj(Object(intr.objectPrototype), true,
           IndexedProps(argumentsList) + map[
             Named("length") := ArgumentsLength(|argumentsList|),
             AtAtIterator := ArgumentsIterator(intr),
             Named("callee") := Data(func, true, false, true)],
           ArgumentsObject(true, Object(obj + 1)))
    ensures var pm := obj + 1;
      && pm !in old(agent.heap) && pm in agent.heap
      && agent.heap[pm].proto == Null && agent.heap[pm].extensible && agent.heap[pm].kind == OrdinaryObject
      && LinksAbove(agent.heap, pm, BoundNames(formals), |argumentsList|, env, agent.CurrentRealm(), -1)
    ensures var pm := obj + 1;
      var props := agent.heap[pm].props;
      forall k :: k in props ==>
        && FreshAccessor(old(agent.heap), props[k])
        && props[k].getter.ref !in {obj, pm} && props[k].setter.ref !in {obj, pm}
    ensures forall r :: r in agent.heap && r !in old(agent.heap) ==>
      r == obj || r == obj + 1 || IsLinkedClosure(agent.heap[obj + 1].props, r)
  {
    var intr := agent.CurrentRealm().intrinsics;
    var realm := agent.CurrentRealm();
    var len := |argumentsList|;
    var pm;
    ghost var h0 := agent.heap;
    obj, pm := MappedArgumentsShell(agent, argumentsList);
    ghost var hS := agent.heap;
    ghost var objBefore := agent.heap[obj];
    var names := BoundNames(formals);
    var mappedNames := LinkParameters(agent, pm, names, len, env);
    assert agent.heap[obj] == objBefore;
    ghost var h1 := agent.heap;
    assert agent.CurrentRealm() == realm;
    assert LinksAbove(h1, pm, names, len, env, realm, -1);
    assert !h1[obj].kind.BuiltinFunction?;
    DefineIteratorAndCallee(agent, obj, argumentsList, Data(func, true, false, true));
    LinksUnaffected(h1, pm, names, len, env, realm, obj, agent.heap[obj]);
    assert agent.heap[pm] == h1[pm];
    forall k | k in agent.heap[pm].props
      ensures FreshAccessor(h0, agent.heap[pm].props[k])
    {
      assert FreshAccessor(hS, h1[pm].props[k]);
    }
  }

  /**
   * The first part of CreateMappedArgumentsObject: the exotic object with its
   * parameter map (an empty ordinary object with a null prototype), the
   * indices 0..len-1 and `length`.
   */
  method MappedArgumentsShell(agent: Agent, argumentsList: seq<Value>) returns (obj: Ref, pm: Ref)
    requires agent.Valid() && |agent.stack| > 0
    modifies agent`heap, agent`nextRef
    ensures agent.Valid()
    ensures obj == old(agent.nextRef) && pm == obj + 1 && obj !in old(agent.heap) && pm !in old(agent.heap)
    ensures var intr := agent.CurrentRealm().intrinsics;
      agent.heap == old(agent.heap)
        [obj := Obj(Object(intr.objectPrototype), true,
                    IndexedProps(argumentsList) + map[Named("length") := ArgumentsLength(|argumentsList|)],
                    ArgumentsObject(true, Object(pm)))]
        [pm := ObjectCreate(Null)]
  {
    var intr := agent.CurrentRealm().intrinsics;
    obj := agent.Allocate(Obj(Object(intr.objectPrototype), true, map[], ArgumentsObject(true, Undefined)));
    pm := agent.Allocate(ObjectCreate(Null));
    var o := agent.heap[obj];
    agent.heap := agent.heap[obj := o.(kind := ArgumentsObject(true, Object(pm)))];
    DefineIndexedProperties(agent, obj, argumentsList);
    assert agent.heap[obj].props == IndexedProps(argumentsList) + map[];
    agent.DefineOwnProperty(obj, Named("length"), ArgumentsLength(|argumentsList|));
    DefineBesideIndices(argumentsList, map[], Named("length"), ArgumentsLength(|argumentsList|));
  }

  /** Redefining an object that is not a built-in function leaves the parameter map's links intact. */
  lemma LinksUnaffected(h: map<Ref, Obj>, pm: Ref, names: seq<string>, len: nat,
                        env: EnvRef, realm: Realm, x: Ref, o: Obj)
    requires pm in h && LinksAbove(h, pm, names, len, env, realm, -1)
    requires x != pm && x in h && !h[x].kind.BuiltinFunction?
    ensures LinksAbove(h[x := o], pm, names, len, env, realm, -1)
  {
    var h2 := h[x := o];
    forall i: nat | IndexKey(i) in h2[pm].props
      ensures i < |names| && LinkAccessor(h2, h2[pm].props[IndexKey(i)], names[i], env, realm)
    {
      assert LinkAccessor(h, h[pm].props[IndexKey(i)], names[i], env, realm);
    }
  }
}
