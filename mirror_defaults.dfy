/**
 * `mirror_defaults(mirrored)` from easypy/decorations.py: a decorator that gives every
 * parameter of the target function whose default is the AUTO token the default of the
 * same-named parameter of `mirrored`.
 *
 * A signature is an ordered list of parameters; a caller's binding is a finite map from
 * parameter names to the objects the caller supplied.
 */
module MirrorDefaults {
  import opened Wrappers

  /** A Python object as mirroring sees it: the AUTO token, or any other value. */
  datatype Obj<V> = Auto | Val(v: V)

  /** A parameter's default slot: inspect's "empty" marker, or an object. */
  datatype Default<V> = Empty | Given(obj: Obj<V>)

  datatype Param<V> = Param(name: string, default: Default<V>)

  /** A function as far as mirroring needs it: its `__name__` and its signature. */
  datatype Function<V> = Function(name: string, params: seq<Param<V>>)

  /** The TypeError raised when an AUTO parameter has nothing to mirror. */
  datatype MirrorError = NoMirroredDefault(mirrored: string, param: string)

  /** A parameter whose default is (identical to) the AUTO token. */
  predicate IsAuto<V>(p: Param<V>) {
    p.default == Given(Auto)
  }

  /** Python never builds a signature with two parameters of the same name. */
  ghost predicate UniqueNames<V>(ps: seq<Param<V>>) {
    forall i, j :: 0 <= i < j < |ps| ==> ps[i].name != ps[j].name
  }

  /** The names of the parameters that have a default. */
  ghost function DefaultedNames<V>(ps: seq<Param<V>>): set<string> {
    set p | p in ps && p.default.Given? :: p.name
  }

  /** The names of the parameters whose default is AUTO. */
  ghost function AutoNames<V>(ps: seq<Param<V>>): set<string> {
    set p | p in ps && IsAuto(p) :: p.name
  }

  /**
   * The `defaults` dict comprehension: every parameter that has a default, mapped to that
   * default, built left to right (a later entry for the same name would win).
   */
  function DefaultsTable<V>(ps: seq<Param<V>>): (t: map<string, Obj<V>>)
    ensures t.Keys == DefaultedNames(ps)
  {
    if ps == [] then map[]
    else
      var last := ps[|ps| - 1];
      var t0 := DefaultsTable(ps[..|ps| - 1]);
      assert ps == ps[..|ps| - 1] + [last];
      if last.default.Given? then t0[last.name := last.default.obj] else t0
  }

  /** Each parameter that has a default is mapped to exactly that default. */
  lemma {:induction false} DefaultsTableAt<V>(ps: seq<Param<V>>, i: nat)
    requires UniqueNames(ps)
    requires i < |ps| && ps[i].default.Given?
    ensures ps[i].name in DefaultsTable(ps)
    ensures DefaultsTable(ps)[ps[i].name] == ps[i].default.obj
  {
    var n := |ps| - 1;
    var init, last := ps[..n], ps[n];
    var t0 := DefaultsTable(init);
    assert DefaultsTable(ps) == if last.default.Given? then t0[last.name := last.default.obj] else t0;
    if i < n {
      assert UniqueNames(init) by {
        forall j, k | 0 <= j < k < |init| ensures init[j].name != init[k].name {
          assert init[j] == ps[j] && init[k] == ps[k];
        }
      }
      assert init[i] == ps[i];
      DefaultsTableAt(init, i);
      assert last.name != ps[i].name;
    }
  }

  lemma DefaultsTableMapsAll<V>(ps: seq<Param<V>>)
    ensures UniqueNames(ps) ==>
      forall i :: 0 <= i < |ps| && ps[i].default.Given? ==> DefaultsTable(ps)[ps[i].name] == ps[i].default.obj
  {
    if UniqueNames(ps) {
      forall i | 0 <= i < |ps| && ps[i].default.Given?
        ensures DefaultsTable(ps)[ps[i].name] == ps[i].default.obj
      {
        DefaultsTableAt(ps, i);
      }
    }
  }

  /** The `mirror_defaults(mirrored)` closure: the mirrored function's name and defaults. */
  datatype Mirror<V> = Mirror(mirroredName: string, defaults: map<string, Obj<V>>)

  /**
   * `mirror_defaults(mirrored)`: the table holds exactly the mirrored function's defaulted
   * parameters, each mapped to its own default.
   */
  function MirrorDefaultsOf<V>(mirrored: Function<V>): (m: Mirror<V>)
    ensures m.mirroredName == mirrored.name
    ensures m.defaults.Keys == DefaultedNames(mirrored.params)
    ensures UniqueNames(mirrored.params) ==>
      forall i :: 0 <= i < |mirrored.params| && mirrored.params[i].default.Given? ==>
        m.defaults[mirrored.params[i].name] == mirrored.params[i].default.obj
  {
    DefaultsTableMapsAll(mirrored.params);
    Mirror(mirrored.name, DefaultsTable(mirrored.params))
  }

  /**
   * `newParams` is `params` with every AUTO default replaced by the mirrored default of the
   * same name, and `overridden` is the set of names so replaced.
   */
  ghost predicate Rewrites<V>(defaults: map<string, Obj<V>>, params: seq<Param<V>>,
                              newParams: seq<Param<V>>, overridden: set<string>)
  {
    && |newParams| == |params|
    && (forall i :: 0 <= i < |params| ==> newParams[i].name == params[i].name)
    && (forall i :: 0 <= i < |params| && !IsAuto(params[i]) ==> newParams[i] == params[i])
    && (forall i :: 0 <= i < |params| && IsAuto(params[i]) ==>
          params[i].name in defaults && newParams[i].default == Given(defaults[params[i].name]))
    && overridden == AutoNames(params)
  }

  /** Every AUTO parameter among the first `k` has a mirrored default. */
  ghost predicate AutoCovered<V>(defaults: map<string, Obj<V>>, params: seq<Param<V>>, k: nat)
    requires k <= |params|
  {
    forall j :: 0 <= j < k && IsAuto(params[j]) ==> params[j].name in defaults
  }

  /** What `new_params_generator` yields once consumed, with the set it fills. */
  datatype Rewritten<V> = Rewritten(params: seq<Param<V>>, overridden: set<string>)

  /**
   * `new_params_generator` consumed by `Signature.replace`: walks the parameters in order,
   * rewriting AUTO defaults and recording their names, and raises on the first AUTO
   * parameter the mirrored function has no default for.
   */
  method NewParams<V>(mirroredName: string, defaults: map<string, Obj<V>>, params: seq<Param<V>>)
    returns (r: Result<Rewritten<V>, MirrorError>)
    ensures r.Ok? <==> AutoCovered(defaults, params, |params|)
    ensures r.Ok? ==> Rewrites(defaults, params, r.value.params, r.value.overridden)
    ensures r.Err? ==> exists i :: 0 <= i < |params| && IsAuto(params[i]) && params[i].name !in defaults
                                   && AutoCovered(defaults, params, i)
                                   && r.error == NoMirroredDefault(mirroredName, params[i].name)
  {
    var out: seq<Param<V>> := [];
    var overridden: set<string> := {};
    for k := 0 to |params|
      invariant |out| == k
      invariant AutoCovered(defaults, params, k)
      invariant Rewrites(defaults, params[..k], out, overridden)
    {
      var param := params[k];
      if IsAuto(param) {
        if param.name !in defaults {
          return Err(NoMirroredDefault(mirroredName, param.name));
        }
        overridden := overridden + {param.name};
        out := out + [param.(default := Given(defaults[param.name]))];
      } else {
        out := out + [param];
      }
      assert params[..k + 1] == params[..k] + [param];
    }
    assert params[..|params|] == params;
    return Ok(Rewritten(out, overridden));
  }
}

module MirrorCall {
  import opened Wrappers
  import opened MirrorDefaults

  /** The function `outer(func)` returns: the target, its new signature and what `inner` needs. */
  datatype Wrapped<V> = Wrapped(target: Function<V>, signature: seq<Param<V>>,
                                overridden: set<string>, defaults: map<string, Obj<V>>)

  /** A wrapper as `outer` builds it. */
  ghost predicate WrappedValid<V>(w: Wrapped<V>) {
    && UniqueNames(w.target.params)
    && Rewrites(w.defaults, w.target.params, w.signature, w.overridden)
  }

  /**
   * `outer(func)`: rewrite the target's signature once, at decoration time. It fails with
   * the TypeError naming the mirrored function and the first AUTO parameter it cannot mirror.
   */
  method Outer<V>(m: Mirror<V>, func: Function<V>) returns (r: Result<Wrapped<V>, MirrorError>)
    requires UniqueNames(func.params)
    ensures r.Ok? <==> AutoCovered(m.defaults, func.params, |func.params|)
    ensures r.Ok? ==> && WrappedValid(r.value)
                      && r.value.target == func && r.value.defaults == m.defaults
    ensures r.Err? ==> exists i :: 0 <= i < |func.params| && IsAuto(func.params[i])
                                   && func.params[i].name !in m.defaults
                                   && AutoCovered(m.defaults, func.params, i)
                                   && r.error == NoMirroredDefault(m.mirroredName, func.params[i].name)
  {
    var rewritten := NewParams(m.mirroredName, m.defaults, func.params);
    match rewritten
    case Err(e) => return Err(e);
    case Ok(rw) => return Ok(Wrapped(func, rw.params, rw.overridden, m.defaults));
  }

  /** The message of the TypeError `outer` raises. */
  function Message(e: MirrorError): (msg: string)
    ensures e.mirrored <= msg
    ensures |e.param| <= |msg| && msg[|msg| - |e.param|..] == e.param
  {
    e.mirrored + " has no default value for " + e.param
  }

  /** The arguments after the fill loop: every overridden name the caller left out gets its mirrored default. */
  function Filled<V>(arguments: map<string, Obj<V>>, overridden: set<string>,
                     defaults: map<string, Obj<V>>): (b: map<string, Obj<V>>)
    requires overridden <= defaults.Keys
    ensures b.Keys == arguments.Keys + overridden
    ensures forall n :: n in arguments ==> b[n] == arguments[n]
    ensures forall n :: n in overridden && n !in arguments ==> b[n] == defaults[n]
  {
    arguments + map n | n in overridden - arguments.Keys :: defaults[n]
  }

  /**
   * The parameter values a function with signature `params` runs with when called with
   * `arguments`: what was passed, and its own default for anything that was not.
   */
  function CallValues<V>(params: seq<Param<V>>, arguments: map<string, Obj<V>>): (vals: map<string, Obj<V>>)
    ensures vals.Keys == DefaultedNames(params) + arguments.Keys
    ensures forall n :: n in arguments ==> vals[n] == arguments[n]
    ensures UniqueNames(params) ==>
      forall i :: 0 <= i < |params| && params[i].default.Given? && params[i].name !in arguments ==>
        vals[params[i].name] == params[i].default.obj
  {
    DefaultsTableMapsAll(params);
    DefaultsTable(params) + arguments
  }

  /** Rewriting keeps the set of names that have a default. */
  lemma RewritesKeepsDefaulted<V>(defaults: map<string, Obj<V>>, params: seq<Param<V>>,
                                  newParams: seq<Param<V>>, overridden: set<string>)
    requires Rewrites(defaults, params, newParams, overridden)
    ensures DefaultedNames(newParams) == DefaultedNames(params)
    ensures UniqueNames(params) ==> UniqueNames(newParams)
  {
  }

  /** The position of a defaulted name in a signature. */
  lemma DefaultedIndex<V>(ps: seq<Param<V>>, n: string) returns (i: nat)
    requires n in DefaultedNames(ps)
    ensures i < |ps| && ps[i].name == n && ps[i].default.Given?
  {
    var p :| p in ps && p.default.Given? && p.name == n;
    i :| i < |ps| && ps[i] == p;
  }

  /** A name left unbound by the caller gets the same value on both sides. */
  lemma {:induction false} MirroredValueAt<V>(
    defaults: map<string, Obj<V>>, params: seq<Param<V>>, newParams: seq<Param<V>>,
    overridden: set<string>, n: string)
    requires UniqueNames(params) && UniqueNames(newParams)
    requires Rewrites(defaults, params, newParams, overridden)
    requires n in DefaultedNames(params)
    ensures n in DefaultsTable(newParams) && n in DefaultsTable(params)
    ensures n in overridden ==> n in defaults && DefaultsTable(newParams)[n] == defaults[n]
    ensures n !in overridden ==> DefaultsTable(newParams)[n] == DefaultsTable(params)[n]
  {
    var i := DefaultedIndex(params, n);
    DefaultsTableAt(newParams, i);
    DefaultsTableAt(params, i);
    if IsAuto(params[i]) {
      assert n in AutoNames(params);
    } else if n in overridden {
      var j := AutoIndex(params, n);
      assert false;
    }
  }

  /** The position of an AUTO name in a signature. */
  lemma AutoIndex<V>(ps: seq<Param<V>>, n: string) returns (i: nat)
    requires n in AutoNames(ps)
    ensures i < |ps| && ps[i].name == n && IsAuto(ps[i])
  {
    var p :| p in ps && IsAuto(p) && p.name == n;
    i :| i < |ps| && ps[i] == p;
  }

  /**
   * The point of `mirror_defaults`: calling the wrapper runs the target exactly as if the
   * target had been declared with the new signature, whose defaults are the mirrored ones.
   */
  lemma {:induction false} MirroredCallMatchesNewSignature<V>(
    defaults: map<string, Obj<V>>, params: seq<Param<V>>, newParams: seq<Param<V>>,
    overridden: set<string>, arguments: map<string, Obj<V>>)
    requires UniqueNames(params)
    requires Rewrites(defaults, params, newParams, overridden)
    ensures overridden <= defaults.Keys
    ensures CallValues(params, Filled(arguments, overridden, defaults)) == CallValues(newParams, arguments)
  {
    OverriddenMirrored(defaults, params, newParams, overridden);
    var lhs := CallValues(params, Filled(arguments, overridden, defaults));
    var rhs := CallValues(newParams, arguments);
    assert lhs.Keys == rhs.Keys by {
      RewritesKeepsDefaulted(defaults, params, newParams, overridden);
    }
    forall n | n in lhs ensures lhs[n] == rhs[n] {
      CallValueAt(defaults, params, newParams, overridden, arguments, n);
    }
  }

  /** One name of the theorem above. */
  lemma CallValueAt<V>(
    defaults: map<string, Obj<V>>, params: seq<Param<V>>, newParams: seq<Param<V>>,
    overridden: set<string>, arguments: map<string, Obj<V>>, n: string)
    requires UniqueNames(params)
    requires Rewrites(defaults, params, newParams, overridden)
    requires overridden <= defaults.Keys
    requires n in CallValues(params, Filled(arguments, overridden, defaults))
    ensures n in CallValues(newParams, arguments)
    ensures CallValues(params, Filled(arguments, overridden, defaults))[n] == CallValues(newParams, arguments)[n]
  {
    RewritesKeepsDefaulted(defaults, params, newParams, overridden);
    OverriddenMirrored(defaults, params, newParams, overridden);
    if n !in arguments {
      MirroredValueAt(defaults, params, newParams, overridden, n);
    }
  }

  /** Every overridden name has a mirrored default and a default of its own (AUTO). */
  lemma OverriddenMirrored<V>(defaults: map<string, Obj<V>>, params: seq<Param<V>>,
                              newParams: seq<Param<V>>, overridden: set<string>)
    requires Rewrites(defaults, params, newParams, overridden)
    ensures overridden <= defaults.Keys
    ensures overridden <= DefaultedNames(params)
  {
  }

  /** The binding object `inner` gets from `Signature.bind`; the fill loop updates it in place. */
  class BoundArguments<V> {
    var arguments: map<string, Obj<V>>

    constructor(supplied: map<string, Obj<V>>)
      ensures arguments == supplied
    {
      arguments := supplied;
    }

    /** The loop of `inner`: inserts the mirrored default of every overridden name not bound. */
    method FillMirroredDefaults(overridden: set<string>, defaults: map<string, Obj<V>>)
      requires overridden <= defaults.Keys
      modifies this
      ensures arguments == Filled(old(arguments), overridden, defaults)
    {
      var todo := overridden - arguments.Keys;
      ghost var done: set<string> := {};
      while todo != {}
        invariant todo !! done && todo + done == overridden - old(arguments).Keys
        invariant arguments == old(arguments) + map n | n in done :: defaults[n]
        decreases todo
      {
        var name :| name in todo;
        arguments := arguments[name := defaults[name]];
        todo := todo - {name};
        done := done + {name};
      }
    }
  }

  /**
   * `inner(*args, **kwargs)`, with the caller's arguments already bound to names: fill the
   * overridden names the caller left out, then call the target. The target runs with the
   * values the new signature promises, and no AUTO parameter the caller left out sees AUTO
   * unless the mirrored default itself is AUTO.
   */
  method Invoke<V>(w: Wrapped<V>, supplied: map<string, Obj<V>>) returns (vals: map<string, Obj<V>>)
    requires WrappedValid(w)
    ensures vals == CallValues(w.signature, supplied)
    ensures forall n :: n in w.overridden && n !in supplied ==> n in w.defaults && vals[n] == w.defaults[n]
  {
    MirroredCallMatchesNewSignature(w.defaults, w.target.params, w.signature, w.overridden, supplied);
    var binding := new BoundArguments(supplied);
    binding.FillMirroredDefaults(w.overridden, w.defaults);
    vals := CallValues(w.target.params, binding.arguments);
  }

  /** `foo(a=1, b=2, c=3)` of the docstring of `mirror_defaults`. */
  function Foo(): Function<int> {
    Function("foo", [Param("a", Given(Val(1))), Param("b", Given(Val(2))), Param("c", Given(Val(3)))])
  }

  /** The defaults table of a signature of three defaulted parameters. */
  lemma DefaultsOfThree<V>(a: string, x: Obj<V>, b: string, y: Obj<V>, c: string, z: Obj<V>)
    ensures DefaultsTable([Param(a, Given(x)), Param(b, Given(y)), Param(c, Given(z))])
         == map[a := x][b := y][c := z]
  {
    var ps := [Param(a, Given(x)), Param(b, Given(y)), Param(c, Given(z))];
    assert ps[..2] == [Param(a, Given(x)), Param(b, Given(y))];
    assert ps[..2][..1] == [Param(a, Given(x))];
    assert ps[..2][..1][..0] == [];
    assert DefaultsTable(ps[..2][..1]) == map[a := x];
    assert DefaultsTable(ps[..2]) == map[a := x][b := y];
  }

  /** The defaults table of `foo`. */
  lemma FooDefaults()
    ensures MirrorDefaultsOf(Foo()).defaults == map["a" := Val(1), "b" := Val(2), "c" := Val(3)]
  {
    DefaultsOfThree("a", Val(1), "b", Val(2), "c", Val(3));
  }

  /** `bar(a=AUTO, b=4, c=AUTO)` of the docstring of `mirror_defaults`. */
  function Bar(): Function<int> {
    Function("bar", [Param("a", Given(Auto)), Param("b", Given(Val(4))), Param("c", Given(Auto))])
  }

  /** Decorating `bar` with `mirror_defaults(foo)` gives it the signature `(a=1, b=4, c=3)`. */
  method DocstringDecoration() returns (r: Result<Wrapped<int>, MirrorError>)
    ensures r.Ok? && WrappedValid(r.value)
    ensures r.value.signature == [Param("a", Given(Val(1))), Param("b", Given(Val(4))), Param("c", Given(Val(3)))]
  {
    var m := MirrorDefaultsOf(Foo());
    FooDefaults();
    assert AutoCovered(m.defaults, Bar().params, 3);
    r := Outer(m, Bar());
    BarSignature(m.defaults, r.value.signature, r.value.overridden);
  }

  /** Rewriting `bar` against `foo`'s defaults. */
  lemma BarSignature(defaults: map<string, Obj<int>>, sig: seq<Param<int>>, overridden: set<string>)
    requires defaults == map["a" := Val(1), "b" := Val(2), "c" := Val(3)]
    requires Rewrites(defaults, Bar().params, sig, overridden)
    ensures sig == [Param("a", Given(Val(1))), Param("b", Given(Val(4))), Param("c", Given(Val(3)))]
  {
    assert |sig| == 3;
    assert sig[0] == Param("a", Given(Val(1))) by { assert IsAuto(Bar().params[0]); }
    assert sig[1] == Param("b", Given(Val(4))) by { assert !IsAuto(Bar().params[1]); }
    assert sig[2] == Param("c", Given(Val(3))) by { assert IsAuto(Bar().params[2]); }
  }

  /**
   * The docstring example: `bar()`, with `bar` decorated as above, runs with a=1, b=4, c=3.
   */
  method DocstringExample() returns (vals: map<string, Obj<int>>)
    ensures vals == map["a" := Val(1), "b" := Val(4), "c" := Val(3)]
  {
    var r := DocstringDecoration();
    vals := Invoke(r.value, map[]);
    DefaultsOfThree("a", Val(1), "b", Val(4), "c", Val(3));
  }

  /** Decorating `baz(a=AUTO, d=AUTO)` with `mirror_defaults(foo)` fails on `d`, at decoration time. */
  method MissingDefaultExample() returns (r: Result<Wrapped<int>, MirrorError>)
    ensures r == Err(NoMirroredDefault("foo", "d"))
  {
    var baz := Function("baz", [Param("a", Given(Auto)), Param("d", Given(Auto))]);
    var m := MirrorDefaultsOf(Foo());
    FooDefaults();
    assert !AutoCovered(m.defaults, baz.params, 2) by {
      assert IsAuto(baz.params[1]) && baz.params[1].name !in m.defaults;
    }
    r := Outer(m, baz);
    ghost var i :| 0 <= i < |baz.params| && IsAuto(baz.params[i]) && baz.params[i].name !in m.defaults
                   && r.error == NoMirroredDefault(m.mirroredName, baz.params[i].name);
    assert baz.params[0].name in m.defaults;
    assert i == 1;
  }
}
