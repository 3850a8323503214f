/**
 * The per-class metadata store (packages/react/src/meta.ts). A class that
 * defines metadata owns one `Meta`, which its subclasses without one of
 * their own read through the prototype chain. A `Meta` has four scopes:
 * class-level values, per-property values, per-method values, and
 * per-parameter values kept in an array indexed by parameter position.
 * The decorator factories read the previous value under an id, hand it to
 * a callback, and store the callback's result.
 */
module Metadata {
  import opened Wrappers

  /** A class object; member decorators on static members see `Function` as `target.constructor`. */
  datatype ClassRef = UserClass(id: nat) | FunctionObject

  /** What a member or parameter decorator receives as `target`: a class's prototype, or the class itself. */
  datatype Target = Prototype(cls: ClassRef) | ClassItself(cls: ClassRef)

  /** A `Map` key: a string, a symbol, or `undefined` (constructor parameters have no property name). */
  datatype Key = Str(text: string) | Sym(description: string) | UndefinedKey

  type Component = nat

  /** A stored metadata value: `undefined`, a list of components, or any other value. */
  datatype Value = Undefined | ComponentList(items: seq<Component>) | Datum(id: nat)

  type Table = map<Key, Value>

  /** The contents of one `Meta`: the four scopes. A hole of the parameter array is `None`. */
  datatype Store = Store(
    clazz: Table,
    properties: map<Key, Table>,
    methods: map<Key, Table>,
    paramters: map<Key, seq<Option<Table>>>)

  const EmptyStore: Store := Store(map[], map[], map[], map[])

  /** `target.constructor` */
  function ConstructorOf(t: Target): ClassRef {
    match t
    case Prototype(c) => c
    case ClassItself(_) => FunctionObject
  }

  /** `Map.prototype.get`: a missing key reads as `undefined`. */
  function Lookup(t: Table, k: Key): (v: Value)
    ensures k !in t ==> v == Undefined
  {
    if k in t then t[k] else Undefined
  }

  /** The per-property table, or an empty one when the property has none yet. */
  function Inner(scope: map<Key, Table>, p: Key): Table {
    if p in scope then scope[p] else map[]
  }

  /** `t` and `u` agree on every key except `k`. */
  ghost predicate SameExcept<K(!new), V>(t: map<K, V>, u: map<K, V>, k: K) {
    forall x :: x != k ==> (x in t <==> x in u) && (x in t ==> t[x] == u[x])
  }

  // ---------------------------------------------------------------------
  // The decorators' effects on a store
  // ---------------------------------------------------------------------

  /** A class decorator: `clazz[id]` becomes the callback of its previous value. */
  function ApplyClass(s: Store, id: Key, f: Value -> Value): (r: Store)
    ensures id in r.clazz && r.clazz[id] == f(Lookup(s.clazz, id))
    ensures SameExcept(r.clazz, s.clazz, id)
    ensures r.properties == s.properties && r.methods == s.methods && r.paramters == s.paramters
  {
    s.(clazz := s.clazz[id := f(Lookup(s.clazz, id))])
  }

  /**
   * The shared effect of property and method decorators on their scope:
   * the per-name table is created when missing, and only key `id` of it
   * is overwritten.
   */
  function ApplyMember(scope: map<Key, Table>, property: Key, id: Key, f: Value -> Value): (r: map<Key, Table>)
    ensures property in r && SameExcept(r, scope, property)
    ensures id in r[property] && r[property][id] == f(Lookup(Inner(scope, property), id))
    ensures SameExcept(r[property], Inner(scope, property), id)
  {
    var current := Inner(scope, property);
    scope[property := current[id := f(Lookup(current, id))]]
  }

  function ApplyProperty(s: Store, property: Key, id: Key, f: Value -> Value): (r: Store)
    ensures r.properties == ApplyMember(s.properties, property, id, f)
    ensures r.clazz == s.clazz && r.methods == s.methods && r.paramters == s.paramters
  {
    s.(properties := ApplyMember(s.properties, property, id, f))
  }

  function ApplyMethod(s: Store, property: Key, id: Key, f: Value -> Value): (r: Store)
    ensures r.methods == ApplyMember(s.methods, property, id, f)
    ensures r.clazz == s.clazz && r.properties == s.properties && r.paramters == s.paramters
  {
    s.(methods := ApplyMember(s.methods, property, id, f))
  }

  /** `arr[i] = x` on a JavaScript array: writing past the end leaves holes in between. */
  function Assign<T>(arr: seq<Option<T>>, i: nat, x: T): (r: seq<Option<T>>)
    ensures |r| == if i < |arr| then |arr| else i + 1
    ensures r[i] == Some(x)
    ensures forall j :: 0 <= j < |r| && j != i ==> r[j] == if j < |arr| then arr[j] else None
  {
    if i < |arr| then arr[i := Some(x)] else arr + seq(i - |arr|, _ => None) + [Some(x)]
  }

  /** Writing a fresh table and then replacing it is writing the second table. */
  lemma AssignTwice<T>(arr: seq<Option<T>>, i: nat, x: T, y: T)
    ensures Assign(arr, i, x)[i := Some(y)] == Assign(arr, i, y)
  {
  }

  /** The parameter array of a name, or an empty one. */
  function Params(scope: map<Key, seq<Option<Table>>>, p: Key): seq<Option<Table>> {
    if p in scope then scope[p] else []
  }

  /** The table at position `i`, or an empty one when that position is a hole or past the end. */
  function Chunk(arr: seq<Option<Table>>, i: nat): Table {
    if i < |arr| && arr[i].Some? then arr[i].value else map[]
  }

  /** A parameter decorator's effect on its scope. */
  function ApplyParameter(s: Store, property: Key, index: nat, id: Key, f: Value -> Value): Store {
    var arr := Params(s.paramters, property);
    var chunk := Chunk(arr, index);
    s.(paramters := s.paramters[property := Assign(arr, index, chunk[id := f(Lookup(chunk, id))])])
  }

  /**
   * A parameter decorator creates the array and the table at `index` when
   * missing, overwrites only key `id` at that index, and leaves every
   * other index, name and scope as it was.
   */
  lemma ParameterEffect(s: Store, property: Key, index: nat, id: Key, f: Value -> Value)
    ensures var r := ApplyParameter(s, property, index, id, f);
      r.clazz == s.clazz && r.properties == s.properties && r.methods == s.methods
      && property in r.paramters && SameExcept(r.paramters, s.paramters, property)
    ensures var old_ := Params(s.paramters, property); var new_ := ApplyParameter(s, property, index, id, f).paramters[property];
      |new_| == (if index < |old_| then |old_| else index + 1)
      && (forall j :: 0 <= j < |new_| && j != index ==> new_[j] == if j < |old_| then old_[j] else None)
      && new_[index].Some?
      && id in new_[index].value && new_[index].value[id] == f(Lookup(Chunk(old_, index), id))
      && SameExcept(new_[index].value, Chunk(old_, index), id)
  {
  }

  // ---------------------------------------------------------------------
  // Repeated application
  // ---------------------------------------------------------------------

  /** The callbacks applied one after another, starting from `v`. */
  function Fold(v: Value, fs: seq<Value -> Value>): Value
    decreases |fs|
  {
    if fs == [] then v else Fold(fs[0](v), fs[1..])
  }

  /** The class decorators `fs` applied to one class in order (the first element runs first). */
  function ApplyClassAll(s: Store, id: Key, fs: seq<Value -> Value>): Store
    decreases |fs|
  {
    if fs == [] then s else ApplyClassAll(ApplyClass(s, id, fs[0]), id, fs[1..])
  }

  /** Repeated class decorations under one id fold the callbacks in application order, and leave everything else as it was. */
  lemma {:induction false} ClassFold(s: Store, id: Key, fs: seq<Value -> Value>)
    ensures var r := ApplyClassAll(s, id, fs);
      Lookup(r.clazz, id) == Fold(Lookup(s.clazz, id), fs)
      && SameExcept(r.clazz, s.clazz, id)
      && r.properties == s.properties && r.methods == s.methods && r.paramters == s.paramters
    decreases |fs|
  {
    if fs != [] {
      ClassFold(ApplyClass(s, id, fs[0]), id, fs[1..]);
    }
  }

  /** The first decoration of a fresh class sees `undefined` as the previous value. */
  lemma FirstClassDecoration(id: Key, f: Value -> Value)
    ensures ApplyClass(EmptyStore, id, f).clazz == map[id := f(Undefined)]
  {
  }

  /** Decorations of two different parameter positions of one method leave each other's tables alone. */
  lemma ParametersIndependent(s: Store, property: Key, i: nat, j: nat, id: Key, f: Value -> Value, g: Value -> Value)
    requires i != j
    ensures var r := ApplyParameter(ApplyParameter(s, property, i, id, f), property, j, id, g);
      r.paramters[property][i] == ApplyParameter(s, property, i, id, f).paramters[property][i]
  {
  }

  // ---------------------------------------------------------------------
  // The stores themselves
  // ---------------------------------------------------------------------

  /** One `Meta` object. */
  class Meta {
    var clazz: Table
    var properties: map<Key, Table>
    var methods: map<Key, Table>
    var paramters: map<Key, seq<Option<Table>>>

    constructor()
      ensures clazz == map[] && properties == map[] && methods == map[] && paramters == map[]
    {
      clazz, properties, methods, paramters := map[], map[], map[], map[];
    }

    function Contents(): Store
      reads this
    {
      Store(clazz, properties, methods, paramters)
    }

    /** The body of a class decorator once the store is found. */
    method RecordClass(id: Key, f: Value -> Value)
      modifies this
      ensures Contents() == ApplyClass(old(Contents()), id, f)
    {
      var value := f(Lookup(clazz, id));
      clazz := clazz[id := value];
    }

    /** The body of a property decorator once the store is found. */
    method RecordProperty(property: Key, id: Key, f: Value -> Value)
      modifies this
      ensures Contents() == ApplyProperty(old(Contents()), property, id, f)
    {
      if property !in properties {
        properties := properties[property := map[]];
      }
      var current := properties[property];
      var res := f(Lookup(current, id));
      properties := properties[property := current[id := res]];
    }

    /** The body of a method decorator once the store is found. */
    method RecordMethod(property: Key, id: Key, f: Value -> Value)
      modifies this
      ensures Contents() == ApplyMethod(old(Contents()), property, id, f)
    {
      if property !in methods {
        methods := methods[property := map[]];
      }
      var current := methods[property];
      var res := f(Lookup(current, id));
      methods := methods[property := current[id := res]];
    }

    /** The body of a parameter decorator once the store is found. */
    method RecordParameter(property: Key, index: nat, id: Key, f: Value -> Value)
      modifies this
      ensures Contents() == ApplyParameter(old(Contents()), property, index, id, f)
    {
      if property !in paramters {
        paramters := paramters[property := []];
      }
      var current := paramters[property];
      if !(index < |current| && current[index].Some?) {
        current := Assign(current, index, map[]);
        paramters := paramters[property := current];
      }
      var chunk := current[index].value;
      var res := f(Lookup(chunk, id));
      AssignTwice(old(Params(paramters, property)), index, chunk, chunk[id := res]);
      paramters := paramters[property := current[index := Some(chunk[id := res])]];
    }
  }

  // ---------------------------------------------------------------------
  // Prototype chains
  // ---------------------------------------------------------------------

  /**
   * The chain `Reflect.hasMetadata` and `Reflect.getMetadata` walk for a
   * class object: the class itself, then the classes it extends, nearest
   * first (`class B extends A` gives `[B, A]`).
   */
  function ChainOf(ancestors: map<ClassRef, seq<ClassRef>>, c: ClassRef): (r: seq<ClassRef>)
    ensures |r| >= 1 && r[0] == c
  {
    [c] + (if c in ancestors then ancestors[c] else [])
  }

  /** Chains agree with each other: the chain of a class met on a chain is the rest of that chain. */
  ghost predicate Hierarchy(ancestors: map<ClassRef, seq<ClassRef>>) {
    forall c, k :: 0 <= k < |ChainOf(ancestors, c)| ==> ChainOf(ancestors, ChainOf(ancestors, c)[k]) == ChainOf(ancestors, c)[k..]
  }

  /** The first class on a chain that defines metadata: the one whose `Meta` a lookup returns. */
  function Holder(chain: seq<ClassRef>, keys: set<ClassRef>): (h: Option<ClassRef>)
    ensures h.Some? ==> h.value in chain && h.value in keys
    ensures h.None? <==> forall x :: x in chain ==> x !in keys
    decreases |chain|
  {
    if chain == [] then None
    else if chain[0] in keys then Some(chain[0])
    else Holder(chain[1..], keys)
  }

  /** No class before the holder on the chain defines metadata. */
  lemma {:induction false} HolderFirst(chain: seq<ClassRef>, keys: set<ClassRef>)
    requires Holder(chain, keys).Some?
    ensures exists i :: 0 <= i < |chain| && chain[i] == Holder(chain, keys).value && forall j :: 0 <= j < i ==> chain[j] !in keys
    decreases |chain|
  {
    if chain[0] !in keys {
      HolderFirst(chain[1..], keys);
      var i :| 0 <= i < |chain[1..]| && chain[1..][i] == Holder(chain, keys).value && forall j :: 0 <= j < i ==> chain[1..][j] !in keys;
      assert chain[i + 1] == Holder(chain, keys).value;
      forall j | 0 <= j < i + 1
        ensures chain[j] !in keys
      {
        if j > 0 {
          assert chain[j] == chain[1..][j - 1];
        }
      }
    }
  }

  /** Adding `c` to the defining classes, where nothing after any occurrence of `c` defines metadata. */
  lemma {:induction false} HolderAdd(chain: seq<ClassRef>, keys: set<ClassRef>, c: ClassRef)
    requires forall i :: 0 <= i < |chain| && chain[i] == c ==> forall x :: x in chain[i..] ==> x !in keys
    ensures Holder(chain, keys + {c}) == if Holder(chain, keys).Some? then Holder(chain, keys) else if c in chain then Some(c) else None
    decreases |chain|
  {
    if chain != [] && chain[0] !in keys && chain[0] != c {
      forall i | 0 <= i < |chain[1..]| && chain[1..][i] == c
        ensures forall x :: x in chain[1..][i..] ==> x !in keys
      {
        assert chain[1..][i..] == chain[i + 1..];
      }
      HolderAdd(chain[1..], keys, c);
    } else if chain != [] && chain[0] == c {
      assert chain[0..] == chain;
    }
  }

  /**
   * Defining metadata on a class whose lookup found none leaves every
   * other lookup as it was, except that one that found nothing may now
   * find that class.
   */
  lemma DefineKeepsLookups(ancestors: map<ClassRef, seq<ClassRef>>, keys: set<ClassRef>, c: ClassRef, d: ClassRef)
    requires Hierarchy(ancestors)
    requires Holder(ChainOf(ancestors, c), keys).None?
    ensures var before := Holder(ChainOf(ancestors, d), keys);
      Holder(ChainOf(ancestors, d), keys + {c}) == before || (before.None? && Holder(ChainOf(ancestors, d), keys + {c}) == Some(c))
  {
    var ch := ChainOf(ancestors, d);
    forall i | 0 <= i < |ch| && ch[i] == c
      ensures forall x :: x in ch[i..] ==> x !in keys
    {
      assert ChainOf(ancestors, ch[i]) == ch[i..];
    }
    HolderAdd(ch, keys, c);
  }

  /** A class that defines no metadata of its own reads the metadata of the class it extends. */
  lemma ReadsParent(ancestors: map<ClassRef, seq<ClassRef>>, keys: set<ClassRef>, c: ClassRef)
    requires Hierarchy(ancestors)
    requires c !in keys && c in ancestors && ancestors[c] != []
    ensures Holder(ChainOf(ancestors, c), keys) == Holder(ChainOf(ancestors, ancestors[c][0]), keys)
  {
    var ch := ChainOf(ancestors, c);
    assert ChainOf(ancestors, ch[1]) == ch[1..];
  }

  /**
   * The `Reflect` metadata under `Meta.namespace`: the `Meta` each class
   * defined for itself, and the prototype chains lookups follow.
   */
  class Registry {
    const ancestors: map<ClassRef, seq<ClassRef>>
    var metas: map<ClassRef, Meta>

    /** Chains are consistent, and each class that defines metadata has its own `Meta` object. */
    ghost predicate Valid()
      reads this
    {
      Hierarchy(ancestors)
      && forall a, b :: a in metas && b in metas && a != b ==> metas[a] != metas[b]
    }

    constructor(ancestors: map<ClassRef, seq<ClassRef>>)
      requires Hierarchy(ancestors)
      ensures this.ancestors == ancestors && metas == map[] && Valid()
    {
      this.ancestors := ancestors;
      metas := map[];
    }

    /**
     * Every class that defined metadata keeps its `Meta` object, and a class
     * that defines metadata now has a newly allocated one.
     */
    twostate predicate KeepsMetas()
      reads this
    {
      (forall c :: c in old(metas) ==> c in metas && metas[c] == old(metas)[c])
      && (forall c :: c in metas && c !in old(metas) ==> fresh(metas[c]))
    }

    /** The class whose `Meta` a lookup from `c` finds: `c` itself or its nearest ancestor that defines one. */
    function Owner(c: ClassRef): Option<ClassRef>
      reads this
    {
      Holder(ChainOf(ancestors, c), metas.Keys)
    }

    /** The contents `Meta.get(c)` would show, empty when the lookup finds nothing. */
    ghost function StoreOf(c: ClassRef): Store
      reads this, metas.Values
    {
      match Owner(c)
      case Some(o) => metas[o].Contents()
      case None => EmptyStore
    }

    /**
     * `Meta.get`: when the lookup finds a `Meta` on the class or an
     * ancestor, that object is returned and nothing changes; otherwise an
     * empty one is defined on the class itself. No class's view changes.
     */
    method Get(c: ClassRef) returns (m: Meta)
      requires Valid()
      modifies this
      ensures Valid() && KeepsMetas() && Defines(c)
      ensures old(Owner(c)).Some? ==> metas == old(metas) && m == metas[old(Owner(c)).value]
      ensures old(Owner(c)).None? ==> fresh(m) && metas == old(metas)[c := m] && m.Contents() == EmptyStore
      ensures Owner(c) == Some(old(Owner(c)).GetOr(c)) && m == metas[Owner(c).value]
      ensures m.Contents() == old(StoreOf(c))
      ensures forall d :: StoreOf(d) == old(StoreOf(d))
    {
      var h := Holder(ChainOf(ancestors, c), metas.Keys);
      if h.Some? {
        m := metas[h.value];
      } else {
        ghost var keys := metas.Keys;
        m := new Meta();
        metas := metas[c := m];
        assert metas.Keys == keys + {c};
        HolderAdd(ChainOf(ancestors, c), keys, c);
        forall d
          ensures StoreOf(d) == old(StoreOf(d))
        {
          DefineKeepsLookups(ancestors, keys, c, d);
        }
      }
    }

    /**
     * A lookup from `c` now finds a `Meta`: the one it found before, or one
     * defined on `c` itself when the chain had none.
     */
    twostate predicate Defines(c: ClassRef)
      reads this
    {
      Owner(c) == Some(old(Owner(c)).GetOr(c)) && metas.Keys == old(metas.Keys) + {Owner(c).value}
    }

    /**
     * When only the `Meta` object a lookup from `c` finds has changed, the
     * classes reading it see its new contents and every other class keeps
     * what it saw.
     */
    twostate lemma OnlyOwnerSees(c: ClassRef)
      requires Valid() && unchanged(this) && Owner(c).Some?
      requires forall x :: x in metas && metas[x] != metas[Owner(c).value] ==> unchanged(metas[x])
      ensures forall d :: Owner(d) == Owner(c) ==> StoreOf(d) == StoreOf(c)
      ensures forall d :: Owner(d) != Owner(c) ==> StoreOf(d) == old(StoreOf(d))
    {
    }

    /** A decorator made by `createClassDecorator(id, callback)` applied to class `target`. */
    method DecorateClass(target: ClassRef, id: Key, callback: (ClassRef, Value) -> Value)
      requires Valid()
      modifies this, metas.Values
      ensures Valid() && KeepsMetas()
      ensures Owner(target) == Some(old(Owner(target)).GetOr(target))
      ensures metas.Keys == old(metas.Keys) + {Owner(target).value}
      ensures StoreOf(target) == ApplyClass(old(StoreOf(target)), id, v => callback(target, v))
      ensures forall d :: Owner(d) == Owner(target) ==> StoreOf(d) == StoreOf(target)
      ensures forall d :: Owner(d) != Owner(target) ==> StoreOf(d) == old(StoreOf(d))
    {
      var c := target;
      var meta := Get(c);
      label found:
      meta.RecordClass(id, v => callback(target, v));
      OnlyOwnerSees@found(c);
    }

    /** A decorator made by `createPropertyDecorator(id, callback)` applied to property `property` of `target`. */
    method DecorateProperty(target: Target, property: Key, id: Key, callback: (Target, Key, Value) -> Value)
      requires Valid()
      modifies this, metas.Values
      ensures Valid() && KeepsMetas()
      ensures var c := ConstructorOf(target); Owner(c) == Some(old(Owner(c)).GetOr(c))
      ensures metas.Keys == old(metas.Keys) + {Owner(ConstructorOf(target)).value}
      ensures var c := ConstructorOf(target); StoreOf(c) == ApplyProperty(old(StoreOf(c)), property, id, v => callback(target, property, v))
      ensures forall d :: Owner(d) == Owner(ConstructorOf(target)) ==> StoreOf(d) == StoreOf(ConstructorOf(target))
      ensures forall d :: Owner(d) != Owner(ConstructorOf(target)) ==> StoreOf(d) == old(StoreOf(d))
    {
      var c := ConstructorOf(target);
      var meta := Get(c);
      label found:
      meta.RecordProperty(property, id, v => callback(target, property, v));
      OnlyOwnerSees@found(c);
    }

    /** A decorator made by `createMethodDecorator(id, callback)` applied to method `property` of `target`. */
    method DecorateMethod(target: Target, property: Key, id: Key, callback: (Target, Key, Value) -> Value)
      requires Valid()
      modifies this, metas.Values
      ensures Valid() && KeepsMetas()
      ensures var c := ConstructorOf(target); Owner(c) == Some(old(Owner(c)).GetOr(c))
      ensures metas.Keys == old(metas.Keys) + {Owner(ConstructorOf(target)).value}
      ensures var c := ConstructorOf(target); StoreOf(c) == ApplyMethod(old(StoreOf(c)), property, id, v => callback(target, property, v))
      ensures forall d :: Owner(d) == Owner(ConstructorOf(target)) ==> StoreOf(d) == StoreOf(ConstructorOf(target))
      ensures forall d :: Owner(d) != Owner(ConstructorOf(target)) ==> StoreOf(d) == old(StoreOf(d))
    {
      var c := ConstructorOf(target);
      var meta := Get(c);
      label found:
      meta.RecordMethod(property, id, v => callback(target, property, v));
      OnlyOwnerSees@found(c);
    }

    /** A decorator made by `createParameterDecorator(id, callback)` applied to parameter `index` of `property`. */
    method DecorateParameter(target: Target, property: Key, index: nat, id: Key, callback: (Target, Key, Value, nat) -> Value)
      requires Valid()
      modifies this, metas.Values
      ensures Valid() && KeepsMetas()
      ensures var c := ConstructorOf(target); Owner(c) == Some(old(Owner(c)).GetOr(c))
      ensures metas.Keys == old(metas.Keys) + {Owner(ConstructorOf(target)).value}
      ensures var c := ConstructorOf(target); StoreOf(c) == ApplyParameter(old(StoreOf(c)), property, index, id, v => callback(target, property, v, index))
      ensures forall d :: Owner(d) == Owner(ConstructorOf(target)) ==> StoreOf(d) == StoreOf(ConstructorOf(target))
      ensures forall d :: Owner(d) != Owner(ConstructorOf(target)) ==> StoreOf(d) == old(StoreOf(d))
    {
      var c := ConstructorOf(target);
      var meta := Get(c);
      label found:
      meta.RecordParameter(property, index, id, v => callback(target, property, v, index));
      OnlyOwnerSees@found(c);
    }
  }
}
