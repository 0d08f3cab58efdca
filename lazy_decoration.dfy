/**
 * The descriptor half of easypy/decorations.py: `DecoratingDescriptor`, its one concrete
 * subclass `LazyDecoratorDescriptor`, and the `lazy_decorator` factory that builds them.
 *
 * A descriptor sits on a class. Read through the class it gives back the plain function;
 * read through an instance it asks the decorator factory for a decorator for that instance
 * and applies it to the bound method, optionally caching the result in the instance's own
 * attribute storage under a key unique to the descriptor.
 */
module LazyDecoration {
  import opened Wrappers

  /** An object whose attribute storage (`__dict__`) the descriptor reads and writes. */
  class Instance {
    var dict: map<string, Value>

    constructor(dict: map<string, Value>)
      ensures this.dict == dict
    {
      this.dict := dict;
    }
  }

  /**
   * A callable used as a decorator factory: `_decorate` calls it with the instance and
   * applies what it returns to the bound method.
   */
  datatype Factory =
    | UserCallable(name: string)     // a callable of the user's, such as a lambda
    | AttrGetter(attribute: string)  // `operator.attrgetter(attribute)`

  /** The decorator a factory gives for one instance. */
  datatype Decorator =
    | Produced(callable: string, instance: Instance)  // what the user's callable returned
    | AttributeOf(instance: Instance, name: string)   // the instance's attribute `name`

  /** The objects the descriptor hands out or finds in an instance's storage. */
  datatype Value =
    | Opaque(id: nat)                                  // any value the model does not look into
    | Func(name: string)                               // a plain function read off the class
    | BoundMethod(name: string, self: Instance)        // the function bound to an instance
    | Decorated(decorator: Decorator, target: Value, serial: nat)
      // what the decorator returned for `target`; `serial` is the number of the factory call
      // that built it, so the model tells the results of two calls apart

  /** `decorator_factory(instance)`: calling the factory on the instance being read through. */
  function DecoratorFor(factory: Factory, instance: Instance): (d: Decorator)
    ensures d.instance == instance
  {
    match factory
    case UserCallable(f) => Produced(f, instance)
    case AttrGetter(n) => AttributeOf(instance, n)
  }

  /** What can be passed to `lazy_decorator` as `decorator_factory`, by its Python type. */
  datatype FactoryArg =
    | CallableArg(callable: Factory)
    | StringArg(name: string)
    | OtherArg(typeName: string)   // neither callable nor a string; `typeName` is its type

  /** The TypeError `lazy_decorator` raises for a factory of the wrong type. */
  datatype FactoryError = FactoryTypeError(typeName: string)

  /**
   * The classification at the top of `lazy_decorator`: a callable is kept, a string becomes
   * the callable `attrgetter` of that name, anything else is a TypeError naming its type.
   */
  function ClassifyFactory(arg: FactoryArg): (r: Result<Factory, FactoryError>)
    ensures r.Ok? <==> !arg.OtherArg?
    ensures arg.CallableArg? ==> r == Ok(arg.callable)
    ensures arg.StringArg? ==> r == Ok(AttrGetter(arg.name))
    ensures r.Err? ==> r.error == FactoryTypeError(arg.typeName)
  {
    match arg
    case CallableArg(f) => Ok(f)
    case StringArg(n) => Ok(AttrGetter(n))
    case OtherArg(t) => Err(FactoryTypeError(t))
  }

  /** The message of the TypeError, which names the offending type. */
  function FactoryMessage(e: FactoryError): (msg: string)
    ensures |e.typeName| <= |msg| && msg[|msg| - |e.typeName|..] == e.typeName
  {
    "decorator_factory must be callable or string, not " + e.typeName
  }

  /** The `wrapper` that `lazy_decorator(decorator_factory, cached)` returns. */
  datatype LazyDecorator = LazyDecorator(factory: Factory, cached: bool)

  /** `lazy_decorator(decorator_factory, cached)`: fails at decoration time on a bad factory. */
  function LazyDecoratorOf(arg: FactoryArg, cached: bool): (r: Result<LazyDecorator, FactoryError>)
    ensures r.Ok? <==> !arg.OtherArg?
    ensures r.Ok? ==> ClassifyFactory(arg) == Ok(r.value.factory) && r.value.cached == cached
    ensures r.Err? ==> r.error == FactoryTypeError(arg.typeName)
  {
    match ClassifyFactory(arg)
    case Ok(f) => Ok(LazyDecorator(f, cached))
    case Err(e) => Err(e)
  }

  /** `lazy_decorator(name)` is `lazy_decorator(attrgetter(name))`. */
  lemma StringFactoryIsAttrGetter(name: string, cached: bool)
    ensures LazyDecoratorOf(StringArg(name), cached) == LazyDecoratorOf(CallableArg(AttrGetter(name)), cached)
    ensures LazyDecoratorOf(StringArg(name), cached).Ok?
  {
  }

  /** The character of a decimal digit. */
  function DigitChar(d: nat): (c: char)
    requires d < 10
    ensures '0' <= c <= '9'
  {
    ('0' as int + d) as char
  }

  /** The value of a decimal digit character. */
  function DigitValue(c: char): nat {
    if '0' <= c <= '9' then c as int - '0' as int else 0
  }

  /** `'%s' % n` for a natural number `n`: its decimal digits. */
  function Decimal(n: nat): (s: string)
    ensures |s| > 0
  {
    if n < 10 then [DigitChar(n)] else Decimal(n / 10) + [DigitChar(n % 10)]
  }

  /** Reads a string of decimal digits back as a number. */
  function ParseDecimal(s: string): nat {
    if s == [] then 0 else ParseDecimal(s[..|s| - 1]) * 10 + DigitValue(s[|s| - 1])
  }

  /** Printing a number in decimal and reading it back gives the number. */
  lemma {:induction false} ParseDecimalOfDecimal(n: nat)
    ensures ParseDecimal(Decimal(n)) == n
  {
    var s := Decimal(n);
    if n < 10 {
      assert s[..0] == [];
    } else {
      ParseDecimalOfDecimal(n / 10);
      assert s[..|s| - 1] == Decimal(n / 10);
    }
  }

  /** `'__property_%s' % id(self)`: the key a descriptor caches under. */
  function PropertyName(id: nat): string {
    "__property_" + Decimal(id)
  }

  /** Two descriptors (two distinct `id`s) never share a cache key. */
  lemma PropertyNameInjective(a: nat, b: nat)
    ensures PropertyName(a) == PropertyName(b) ==> a == b
  {
    if PropertyName(a) == PropertyName(b) {
      var prefix := "__property_";
      assert Decimal(a) == PropertyName(a)[|prefix|..];
      assert Decimal(b) == PropertyName(b)[|prefix|..];
      ParseDecimalOfDecimal(a);
      ParseDecimalOfDecimal(b);
    }
  }

  /**
   * A `LazyDecoratorDescriptor`, with the `_decorate` of `DecoratingDescriptor` fixed to the
   * subclass's. `decorations` counts the calls of `_decorate`, each of which invokes the
   * decorator factory once.
   */
  class LazyDecoratorDescriptor {
    const func: string
    const cached: bool
    const propertyName: string
    const factory: Factory
    var decorations: nat

    /** `wrapper(func)` of `lazy_decorator`; `id` stands for `id(self)`. */
    constructor(lazy: LazyDecorator, func: string, id: nat)
      ensures this.func == func && cached == lazy.cached && factory == lazy.factory
      ensures propertyName == PropertyName(id)
      ensures decorations == 0
    {
      this.func := func;
      cached := lazy.cached;
      factory := lazy.factory;
      propertyName := PropertyName(id);
      decorations := 0;
    }

    /** `_decorate(method, instance, owner)`: ask the factory for a decorator and apply it. */
    method Decorate(m: Value, instance: Instance) returns (bound: Value)
      modifies this
      ensures decorations == old(decorations) + 1
      ensures bound == Decorated(DecoratorFor(factory, instance), m, old(decorations))
    {
      var decorator := DecoratorFor(factory, instance);
      bound := Decorated(decorator, m, decorations);
      decorations := decorations + 1;
    }

    /**
     * `__get__(instance, owner)`. Through the class: the plain function, nothing touched.
     * Uncached: a fresh decoration on every read, storage untouched. Cached: the stored entry
     * if there is one; otherwise a fresh decoration, stored under this descriptor's key and
     * returned. No other entry of the instance's storage changes.
     */
    method Get(instance: Instance?) returns (r: Value)
      modifies this, instance
      ensures instance == null ==> r == Func(func) && decorations == old(decorations)
      ensures instance != null && !cached ==>
        && r == Decorated(DecoratorFor(factory, instance), BoundMethod(func, instance), old(decorations))
        && decorations == old(decorations) + 1
        && instance.dict == old(instance.dict)
      ensures instance != null && cached && propertyName in old(instance.dict) ==>
        && r == old(instance.dict[propertyName])
        && decorations == old(decorations)
        && instance.dict == old(instance.dict)
      ensures instance != null && cached && propertyName !in old(instance.dict) ==>
        && r == Decorated(DecoratorFor(factory, instance), BoundMethod(func, instance), old(decorations))
        && decorations == old(decorations) + 1
        && instance.dict == old(instance.dict)[propertyName := r]
    {
      if instance == null {
        return Func(func);
      }
      var m := BoundMethod(func, instance);
      if cached {
        if propertyName in instance.dict {
          return instance.dict[propertyName];
        }
        var bound := Decorate(m, instance);
        instance.dict := instance.dict[propertyName := bound];
        return bound;
      } else {
        r := Decorate(m, instance);
      }
    }
  }

  /**
   * Two reads through an instance with caching on: the factory runs once, both reads give
   * the same object, and the only change to the storage is the one new entry.
   */
  method CachedReadTwice(d: LazyDecoratorDescriptor, instance: Instance) returns (first: Value, second: Value)
    requires d.cached && d.propertyName !in instance.dict
    modifies d, instance
    ensures first == second
    ensures first == Decorated(DecoratorFor(d.factory, instance), BoundMethod(d.func, instance), old(d.decorations))
    ensures d.decorations == old(d.decorations) + 1
    ensures instance.dict == old(instance.dict)[d.propertyName := first]
  {
    first := d.Get(instance);
    second := d.Get(instance);
  }

  /**
   * Two reads through an instance with caching off: the factory runs twice, the two reads
   * give two distinct factory results (told apart by their call number), and the storage is
   * untouched.
   */
  method UncachedReadTwice(d: LazyDecoratorDescriptor, instance: Instance) returns (first: Value, second: Value)
    requires !d.cached
    modifies d, instance
    ensures first != second
    ensures d.decorations == old(d.decorations) + 2
    ensures instance.dict == old(instance.dict)
  {
    first := d.Get(instance);
    second := d.Get(instance);
  }

  /**
   * A method decorated with `lazy_decorator(name)` and the same method decorated with
   * `lazy_decorator(attrgetter(name))`, read through one instance, give the same decorated
   * method; with caching on, each descriptor stores it under its own key.
   */
  method StringAndAttrGetterAgree(name: string, func: string, cached: bool, instance: Instance)
    returns (viaString: Value, viaCallable: Value)
    requires PropertyName(0) !in instance.dict && PropertyName(1) !in instance.dict
    modifies instance
    ensures viaString == viaCallable
    ensures viaString == Decorated(AttributeOf(instance, name), BoundMethod(func, instance), 0)
    ensures !cached ==> instance.dict == old(instance.dict)
    ensures cached ==> instance.dict == old(instance.dict)[PropertyName(0) := viaString][PropertyName(1) := viaCallable]
  {
    StringFactoryIsAttrGetter(name, cached);
    var s := LazyDecoratorOf(StringArg(name), cached);
    var c := LazyDecoratorOf(CallableArg(AttrGetter(name)), cached);
    var ds := new LazyDecoratorDescriptor(s.value, func, 0);
    var dc := new LazyDecoratorDescriptor(c.value, func, 1);
    viaString := ds.Get(instance);
    PropertyNameInjective(0, 1);
    viaCallable := dc.Get(instance);
  }
}
