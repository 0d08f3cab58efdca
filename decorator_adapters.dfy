/**
 * `parametrizeable_decorator` and `wrapper_decorator` from easypy/decorations.py: adapters
 * that let a function `deco(func, **options)` be used as `@deco`, `@deco()` and
 * `@deco(**options)`.
 *
 * Callables are modelled by what they are built from; calling one is `Call`. Copying the
 * name, docstring and signature of the decorated function (`functools.wraps`) is not
 * modelled: it changes metadata of the object it is given and returns that same object.
 */
module DecoratorAdapters {
  import opened Wrappers

  /** A callable object; `V` is the type of keyword-option values. */
  datatype Callable<V> =
    | Function(name: string)
    | Partial(deco: Callable<V>, keywords: map<string, V>)
      // `functools.partial(deco, **keywords)`
    | Applied(deco: Callable<V>, func: Callable<V>, keywords: map<string, V>)
      // the object `deco(func, **keywords)` returns

  /**
   * Calling `c(arg, **keywords)`. A partial prepends nothing positional and merges its own
   * keywords under the call's, which win on a clash.
   */
  function Call<V>(c: Callable<V>, arg: Callable<V>, keywords: map<string, V>): (r: Callable<V>)
    ensures r.Applied? && r.func == arg
    ensures c.Partial? ==> r.deco == c.deco && r.keywords.Keys == c.keywords.Keys + keywords.Keys
    ensures c.Partial? ==> forall k :: k in keywords ==> r.keywords[k] == keywords[k]
    ensures c.Partial? ==> forall k :: k in c.keywords && k !in keywords ==> r.keywords[k] == c.keywords[k]
    ensures !c.Partial? ==> r.deco == c && r.keywords == keywords
  {
    match c
    case Partial(d, kw) => Applied(d, arg, kw + keywords)
    case _ => Applied(c, arg, keywords)
  }

  /**
   * `inner(func=None, **kwargs)` of `parametrizeable_decorator(deco)`: without a function it
   * defers, returning `partial(deco, **kwargs)`; with one it applies `deco` at once.
   */
  function ParametrizeableInner<V>(deco: Callable<V>, func: Option<Callable<V>>,
                                   keywords: map<string, V>): (r: Callable<V>)
    ensures func.None? <==> r.Partial?
    ensures !r.Function? && r.deco == deco && r.keywords == keywords
    ensures func.Some? ==> r.func == func.value
  {
    if func.None? then Partial(deco, keywords) else Applied(deco, func.value, keywords)
  }

  /** `inner(func)` of `wrapper_decorator(deco)`: `deco` applied to `func` with no options. */
  function WrapperInner<V>(deco: Callable<V>, func: Callable<V>): (r: Callable<V>)
    ensures r.Applied? && r.deco == deco && r.func == func && r.keywords == map[]
  {
    Applied(deco, func, map[])
  }

  /**
   * The deferred form is the immediate form postponed: calling what `inner(**kwargs)`
   * returned on `func` (with any further keywords) is `inner(func, **kwargs)` with the
   * keywords merged.
   */
  lemma DeferredIsImmediate<V>(deco: Callable<V>, func: Callable<V>,
                               keywords: map<string, V>, later: map<string, V>)
    ensures Call(ParametrizeableInner(deco, None, keywords), func, later)
         == ParametrizeableInner(deco, Some(func), keywords + later)
  {
  }

  /** `@deco`, `@deco()` and `@deco(**options)` decorate alike (with no options for the first two). */
  lemma UsageFormsAgree<V>(deco: Callable<V>, func: Callable<V>, options: map<string, V>)
    ensures ParametrizeableInner(deco, Some(func), map[])
         == Call(ParametrizeableInner(deco, None, map[]), func, map[])
    ensures Call(ParametrizeableInner(deco, None, options), func, map[])
         == ParametrizeableInner(deco, Some(func), options)
  {
    assert options + map[] == options;
  }

  /** `wrapper_decorator(deco)` decorates as `parametrizeable_decorator(deco)` used bare. */
  lemma WrapperIsBareParametrizeable<V>(deco: Callable<V>, func: Callable<V>)
    ensures WrapperInner(deco, func) == ParametrizeableInner(deco, Some(func), map[])
  {
  }
}
