# easypy decorations — a Dafny model

This project models the behaviour of `easypy/decorations.py`, a module of helpers for writing
Python decorators, once Python's reflection is abstracted away:

- **Default mirroring** (`mirror_defaults`, modules `MirrorDefaults` and `MirrorCall` in
  `mirror_defaults.dfy`). A signature is an ordered list of `(name, default)` parameters, where a
  default is inspect's empty marker or an object, and an object is the `AUTO` token or any other
  value. At decoration time the mirrored function's defaults become a table; every `AUTO`
  parameter of the target is rewritten to the mirrored default of the same name, and the names
  so rewritten are recorded; an `AUTO` parameter with nothing to mirror is a `TypeError` naming
  the mirrored function and the parameter. At call time the caller's binding is a map from names
  to values (a `BoundArguments` object the fill loop updates in place); every recorded name the
  caller left out gets its mirrored default, and the target then runs with the binding plus its
  own defaults for whatever is still unbound. The central theorem
  (`MirroredCallMatchesNewSignature`, restated by `Invoke`) is that, for positional-or-keyword and
  keyword-only parameters, the target then runs exactly as if it had been declared with the new
  signature. The docstring example (`bar()` runs with
  `a=1, b=4, c=3`) is proved as `DocstringExample`.
- **Per-instance lazy decoration** (`DecoratingDescriptor.__get__` with
  `LazyDecoratorDescriptor._decorate`, module `LazyDecoration` in `lazy_decoration.dfy`). The
  descriptor is a class with a counter of how often it invoked the decorator factory; an instance
  is a class whose `dict` field (its `__dict__`) the descriptor reads and writes. Reading through
  the class gives the plain function; uncached reads decorate every time and never touch the
  instance; cached reads return the stored entry or compute, store and return it, changing no
  other entry. The cache key is `"__property_" + decimal(id)`, and distinct ids give distinct keys
  (proved through a decimal print/parse round trip).
- **`lazy_decorator`'s factory classification**: a callable is kept, a string becomes the callable
  `attrgetter(name)`, anything else is a `TypeError` naming its type; so `lazy_decorator(name)` and
  `lazy_decorator(attrgetter(name))` build the same descriptor and decorate alike.
- **`parametrizeable_decorator` / `wrapper_decorator`** (module `DecoratorAdapters` in
  `decorator_adapters.dfy`): `inner(func=None, **kwargs)` defers to `partial(deco, **kwargs)` when
  no function is given and applies `deco` at once otherwise; the deferred form, called later, is
  the immediate form.

Modelling notes:

- Python never builds a signature with two parameters of the same name; the model states this as
  `UniqueNames` and requires it where the proofs depend on it (`Outer`, `Invoke`,
  `DefaultsTableAt`). The defaults table itself is built like the dict comprehension, left to
  right, so its keys are right for any list.
- A mirrored function whose own default is `AUTO`, and a caller who passes `AUTO` explicitly, are
  representable: objects are `Auto | Val(v)`, compared as the source compares them with `is`.
- `func(*binding.args, **binding.kwargs)` is modelled as `CallValues`: the binding, with the
  function's own declared defaults for any parameter the binding leaves out.
- `DecoratingDescriptor` is abstract with a single concrete subclass here; the two are one class
  whose `Decorate` is `LazyDecoratorDescriptor._decorate`. The `owner` argument, unused by
  `_decorate` and by binding a plain function to an instance, is dropped.
- The object a decorator returns is `Decorated(decorator, target, serial)`, where `serial` is the
  number of the factory call that built it, so the model tells the results of two factory calls
  apart (in Python a decorator may return the same object twice; the model does not say it will).
- `parametrizeable_decorator` applies `functools.wraps(func)` to the result only on the immediate
  path (easypy/decorations.py:19); the deferred path `partial(deco, **kwargs)(func)` returns
  `deco(func, **kwargs)` without copying `func`'s metadata. Metadata is outside the model, so the
  two paths are proved equal as decorations.

## Model

| member | source | states |
|---|---|---|
| `MirrorDefaults.DefaultsTable` | easypy/decorations.py:165-168 | the table's keys are exactly the names of the parameters that have a default |
| `MirrorDefaults.DefaultsTableAt` | easypy/decorations.py:165-168 | in a signature with distinct names, each defaulted parameter maps to exactly its own default |
| `MirrorDefaults.MirrorDefaultsOf` | easypy/decorations.py:146-168 | `mirror_defaults(mirrored)` keeps the mirrored function's name and a table of exactly its defaulted parameters, each mapped to its default |
| `MirrorDefaults.NewParams` | easypy/decorations.py:170-180 | succeeds iff every AUTO parameter has a mirrored default; on success keeps count, order and names, leaves non-AUTO parameters unchanged, gives each AUTO parameter exactly the mirrored default, and the overridden set is exactly the AUTO names; on failure the error names the mirrored function and the first AUTO parameter without a mirrored default |
| `MirrorCall.Outer` | easypy/decorations.py:182-186 | decoration fails exactly when some AUTO parameter cannot be mirrored, with the TypeError for the first such parameter; otherwise the wrapper keeps the target and the table and holds the rewritten signature and overridden names |
| `MirrorCall.Message` | easypy/decorations.py:176 | the TypeError's message starts with the mirrored function's name and ends with the parameter's name |
| `MirrorCall.Filled` | easypy/decorations.py:193-194 | after the fill, every overridden name is bound, names the caller supplied keep the caller's value, and each added name carries its mirrored default; nothing else is added |
| `MirrorCall.BoundArguments.constructor` | easypy/decorations.py:190 | the binding starts as exactly the caller's supplied arguments |
| `MirrorCall.BoundArguments.FillMirroredDefaults` | easypy/decorations.py:193-194 | the in-place loop leaves the binding equal to `Filled` of the binding before it |
| `MirrorCall.CallValues` | easypy/decorations.py:196 | a function runs with every passed argument as passed and its own default for every defaulted parameter not passed |
| `MirrorCall.RewritesKeepsDefaulted` | easypy/decorations.py:170-180 | rewriting keeps the set of parameters that have a default and keeps names distinct |
| `MirrorCall.MirroredCallMatchesNewSignature` | easypy/decorations.py:182-196 | for every binding, filling the overridden names and calling the target gives the same parameter values as calling a function declared with the new signature |
| `MirrorCall.Invoke` | easypy/decorations.py:189-196 | calling the wrapper runs the target with the values the new signature promises, and every overridden name the caller left out gets its mirrored default |
| `MirrorCall.DocstringDecoration` | easypy/decorations.py:155-160 | `mirror_defaults(foo)` on `bar(a=AUTO, b=4, c=AUTO)` gives the signature `(a=1, b=4, c=3)` |
| `MirrorCall.DocstringExample` | easypy/decorations.py:155-163 | `bar()` runs with `a=1, b=4, c=3` |
| `MirrorCall.MissingDefaultExample` | easypy/decorations.py:172-176 | decorating `baz(a=AUTO, d=AUTO)` with `mirror_defaults(foo)` raises the TypeError for `foo` and `d` |
| `LazyDecoration.ClassifyFactory` | easypy/decorations.py:134-139 | accepts exactly callables and strings; a callable is kept as it is, a string becomes `attrgetter` of that name; anything else is the TypeError for its type |
| `LazyDecoration.LazyDecoratorOf` | easypy/decorations.py:104-143 | `lazy_decorator` fails exactly on a factory that is neither callable nor a string, and otherwise remembers the classified factory and the `cached` flag |
| `LazyDecoration.StringFactoryIsAttrGetter` | easypy/decorations.py:136-137 | `lazy_decorator(name)` succeeds and equals `lazy_decorator(attrgetter(name))` |
| `LazyDecoration.FactoryMessage` | easypy/decorations.py:139 | the TypeError's message ends with the offending type |
| `LazyDecoration.ParseDecimalOfDecimal` | easypy/decorations.py:64 | the decimal text of an id reads back as the id |
| `LazyDecoration.PropertyNameInjective` | easypy/decorations.py:64 | two descriptors with different ids never share a cache key |
| `LazyDecoration.LazyDecoratorDescriptor.constructor` | easypy/decorations.py:61-65 | the descriptor keeps the function, the flag and the factory, has key `__property_<id>` and has not invoked its factory |
| `LazyDecoration.LazyDecoratorDescriptor.Decorate` | easypy/decorations.py:99-101 | invokes the factory exactly once and applies its decorator to the given method |
| `LazyDecoration.LazyDecoratorDescriptor.Get` | easypy/decorations.py:78-91 | class access returns the plain function and changes nothing; uncached access decorates the bound method and leaves the instance untouched; cached access returns the stored entry without invoking the factory, or decorates once, stores under the descriptor's key and changes no other entry |
| `LazyDecoration.CachedReadTwice` | easypy/decorations.py:83-89 | with caching, two reads invoke the factory once, return the same object, and add only the one entry |
| `LazyDecoration.UncachedReadTwice` | easypy/decorations.py:90-91 | without caching, two reads invoke the factory twice, return two distinct factory results (told apart by their call number), and leave the instance unchanged |
| `LazyDecoration.StringAndAttrGetterAgree` | easypy/decorations.py:99-101 | a method decorated with `lazy_decorator(name)` and one decorated with `lazy_decorator(attrgetter(name))` give, read through the same instance, the same decorated method (the instance's attribute `name` applied to the bound method), and with caching each descriptor stores it under its own key, leaving the rest of the storage alone |
| `DecoratorAdapters.Call` | easypy/decorations.py:17 | calling a partial applies its function with the partial's keywords merged under the call's |
| `DecoratorAdapters.ParametrizeableInner` | easypy/decorations.py:15-19 | without a function the result is a partial of `deco` with the keywords; with one it is `deco` applied to that function with the keywords |
| `DecoratorAdapters.WrapperInner` | easypy/decorations.py:25-26 | `wrapper_decorator` applies `deco` to the function with no options |
| `DecoratorAdapters.DeferredIsImmediate` | easypy/decorations.py:15-19 | calling the deferred form on a function equals the immediate form with the keywords merged |
| `DecoratorAdapters.UsageFormsAgree` | easypy/decorations.py:13-20 | `@deco`, `@deco()` and `@deco(**options)` decorate alike |
| `DecoratorAdapters.WrapperIsBareParametrizeable` | easypy/decorations.py:23-27 | `wrapper_decorator(deco)` decorates as `parametrizeable_decorator(deco)` used bare |

## Left out

- `reusable_contextmanager` (easypy/decorations.py:30-46): context-manager protocol plumbing built on the runtime's private generator re-creation hook; it has no data behaviour to state.
- `functools.wraps` / `update_wrapper` metadata copying (names, docstrings, `__wrapped__`, the `signature` attribute set on line 197): reflective copying of metadata that the model does not represent.
- `inspect.signature(...).bind` and `Signature.replace`: argument binding is taken as given (a map of the names the caller supplied); binding errors, parameter kinds (positional, keyword-only, variadic) and the split into `binding.args`/`binding.kwargs` are not modelled.
- `attrgetter` resolution: `attrgetter(name)` applied to an instance gives that instance's attribute `name` as an opaque decorator; Python attribute resolution (and a missing attribute's `AttributeError`) is not modelled.
- LazyDecoration.LazyDecoratorDescriptor.Decorate: a factory or decorator that raises is not modelled; `Decorate` always returns. In the source an exception on the cached path leaves nothing stored (line 88 is not reached) and the next read calls the factory again, so the at-most-once promise of `LazyDecoration.CachedReadTwice` holds for factories and decorators that return.
- LazyDecoration.LazyDecoratorDescriptor.Get: `func` is a plain function, so `func.__get__(instance, owner)` is the function itself through the class and the bound method through an instance; descriptors such as `classmethod` or `staticmethod` wrapped as `func`, which use `owner` (line 79), are not modelled.
- MirrorCall.Message: every mirrored function has a `__name__`; a mirrored callable without one (a `functools.partial`, say) makes line 176 raise `AttributeError` instead of the `TypeError`, which is not modelled.
- MirrorCall.MirroredCallMatchesNewSignature: holds for positional-or-keyword and keyword-only parameters; for positional-only parameters a filled-in default lands in `binding.kwargs` and Python's call may reject it, which the model (having no parameter kinds) does not capture.
- `id(self)`: the id is a parameter of the descriptor's constructor; the runtime's guarantee that live objects have distinct ids is not modelled, only that distinct ids give distinct keys.
- Other subclasses of `DecoratingDescriptor`: only `LazyDecoratorDescriptor`'s `_decorate` is modelled.
- Concurrent first reads on the cached path: the race described for threads is not modelled; every operation is sequential.
- The decorated function's body and the decorators themselves: a decorator's result is an opaque object identified by what built it.
