# typed: runtime argument type checking, modelled in Dafny

The Python library `typed` provides a decorator, `typed`, that checks the
arguments of every call against the parameter annotations of the decorated
function and raises `TypeError` before the function runs when one does not
fit. It also provides a predicate, `istype(obj, annotation)`, that answers
whether a value satisfies a simple annotation.

This project models both:

- `object_model.dfy` (module `ObjectModel`): the part of Python's object
  model the two need. It holds the runtime values, a class table listing the
  bases of each class, `issubclass` as reachability over the bases,
  `isinstance`, and the shapes an annotation can take: `None`, a plain
  class, a parameterised annotation such as `list[int]`, or another object
  with no origin such as `typing.Any` or a `TypeVar`. A well-formed
  table starts with the built-ins (`object`, `NoneType`, `int`, `bool`, `str`,
  `tuple`), lists every base before the classes deriving from it, and never
  uses `NoneType` or `bool` as a base, because Python refuses to subclass them.
- `istype.dfy` (module `IsType`): `istype` as a total function. It returns a
  boolean, `NotImplementedError` for a parameterised annotation, or the
  `TypeError` that `isinstance` raises on an annotation that is not a class.
- `typed.dfy` (module `Typed`): the `_Typed` class as `TypedFunction`. Its
  constructor captures the wrapped function and its parameter list in
  `const` fields, so they are never reassigned. `ValidateArguments` is the
  `validate_arguments` loop, proved against the function `Validate`. `Call`
  is `__call__`. Because `__call__` takes its own receiver as `self`, a call
  with a keyword argument named `self` raises `TypeError` there, before
  validation, and the model says so (`ReceiverClash`). The `typed`/`wrapped`
  closure is the higher-order function `Decorate`, and `BindMethod` is Python's binding of a function to an
  object as a method.
- `wrappers.dfy` (module `Wrappers`): `Option` and `Result`.

The validator checks with `isinstance`, not with `istype`. The two agree
on a class annotation. They differ on a `None` annotation: `istype` accepts
the value `None`, while `isinstance` raises `TypeError`. They also differ on
a parameterised annotation: `istype` raises `NotImplementedError`, while
`isinstance` raises `TypeError`. On an annotation such as `typing.Any`
both raise `TypeError`. The model keeps both behaviours apart. The
validator's `ValidationError` is either `Mismatch` or `NotAClass`. Both reach
the caller as `TypeError`.

The walk stops at the first parameter that has no argument (typed.py:22-23).
One consequence is easy to miss. The docstring of `typed` (typed.py:42-43)
says that passing arguments inconsistent with their annotations makes the
decorated function raise `TypeError`. Yet `f(1, c="3")` for
`f(a: int, b: str = "2", c: int = 3)` does not raise: `b` is omitted, so the
walk stops there and the keyword argument `c` is never checked. The model
follows the code; `Typed.UnsuppliedStopsValidation` and
`Typed.DefaultsExamples` state this behaviour.

## Model

| member | source | states |
|---|---|---|
| `ObjectModel.IsSubclassTransitive` | istype.py:9 | a subclass of a subclass of C is a subclass of C, so `isinstance` accepts instances of indirect subclasses |
| `ObjectModel.NoneTypeIsFinal` | istype.py:7-9 | in a well-formed hierarchy the only subclass of `NoneType` is `NoneType` itself |
| `ObjectModel.NoneIsInstanceOnlyOfNoneTypeAndObject` | test_istype.py:9-14 | `isinstance(None, c)` holds exactly for `NoneType` and `object`; `None` is not an `int` or a user-defined class |
| `ObjectModel.BoolIsInt` | istype.py:9 | a `bool` is an instance of `int` (its subclass), but an `int` is never a `bool` |
| `ObjectModel.IsSubclass` | istype.py:9 | `issubclass` as reachability over the bases; its transitivity is `ObjectModel.IsSubclassTransitive`, its behaviour on `NoneType` is `ObjectModel.NoneTypeIsFinal` |
| `ObjectModel.IsInstance` | istype.py:9 | `isinstance(v, C)`: the class of `v` is a subclass of C; stated by `ObjectModel.NoneIsInstanceOnlyOfNoneTypeAndObject` and `ObjectModel.BoolIsInt` |
| `IsType.IsType` | istype.py:4-11 | raises `NotImplementedError` exactly for parameterised annotations and answers exactly for `None` and class annotations (otherwise `isinstance` raises `TypeError`); under a `None` annotation it answers true exactly for the value `None` |
| `IsType.IsTypeAcceptsSubclassInstances` | istype.py:9 | if `istype(x, C)` holds and C is a subclass of D then `istype(x, D)` holds |
| `IsType.NoneAnnotationIsNoneType` | istype.py:7-9 | for every valid value the `None` annotation and the `NoneType` class give the same answer, namely "is the value `None`" |
| `IsType.NoneMatchesOnlyNoneTypeAndObject` | test_istype.py:9-14 | `istype(None, C)` is true exactly when C is `NoneType` or `object` |
| `IsType.IsTypeRejectsOtherClass` | test_istype.py:7-13 | `istype(42, int)` and `istype("lorem ipsum", str)` hold; `istype(42, str)` and `istype("lorem ipsum", int)` do not |
| `IsType.UserDefinedClassExample` | test_istype.py:17-24 | an object of a user-defined class matches that class, and `None` does not |
| `Typed.Bind` | typed.py:18-23 | the argument bound to a parameter: its keyword argument if present, else the positional one at its index; stated by `Typed.KeywordShadowsPositional` and `Typed.Walked` |
| `Typed.CheckParam` | typed.py:25-32 | the check of one bound argument (skip without annotation, else `isinstance`); compared with `istype` by `Typed.CheckIsIsInstanceNotIsType` |
| `Typed.ValidateFrom` | typed.py:17-32 | the walk from one parameter on; its behaviour is stated by `Typed.ValidatePassIff` and `Typed.ValidateFailIff` |
| `Typed.Validate` | typed.py:17-32 | the whole walk; characterised by `Typed.ValidatePassIff`, `Typed.ValidateFailIff` and `Typed.UnsuppliedStopsValidation` |
| `Typed.Decorate` | typed.py:60-65 | the `typed`/`wrapped` closure; its behaviour is stated by `Typed.DecorateForwardsOrRaises` and `Typed.DecoratedAgreesWithTyped` |
| `Typed.BindMethod` | typed.py:62-63 | a function bound to an object as a method takes the object as first positional argument; used by `Typed.DecoratedMethodCall` |
| `Typed.Walked` | typed.py:17-23 | the walk reaches exactly the parameters before the first one that has neither a keyword nor a positional argument |
| `Typed.TypedFunction.constructor` | typed.py:6-9 | the wrapped function and its parameter list are captured at construction, in fields that are never reassigned |
| `Typed.TypedFunction.ValidateArguments` | typed.py:11-32 | the loop computes the verdict of the walk over the parameters in declaration order |
| `Typed.TypedFunction.Call` | typed.py:34-37 | a keyword argument `self` raises `TypeError` (it clashes with `__call__`'s receiver); otherwise, after a passing validation the call returns the wrapped function's outcome on the unchanged arguments, and after a failing one it raises the validation error |
| `Typed.ValidatePassIff` | typed.py:17-32 | validation passes if and only if every reached parameter has an accepted argument |
| `Typed.ValidateFailIff` | typed.py:31-32 | validation fails if and only if some reached parameter is rejected, and the error is that of the first rejected parameter in declaration order and names it |
| `Typed.UnsuppliedStopsValidation` | typed.py:20-23 | once a parameter has no argument, the call validates as if the signature ended before it, so later parameters are not checked even when passed by keyword |
| `Typed.SameBindingsSameVerdict` | typed.py:18-21 | the verdict depends on the arguments only through the value bound to each parameter |
| `Typed.KeywordShadowsPositional` | typed.py:18-21 | when a parameter's name is among the keyword arguments, the positional argument at its index is never checked |
| `Typed.TrailingByKeyword` | test_typed.py:61-71 | passing the last positional argument by keyword instead gives the same verdict |
| `Typed.AllByKeyword` | test_typed.py:74-97 | passing all arguments by keyword, in any order, gives the same verdict as passing them by position |
| `Typed.NoAnnotationsForwardUnchanged` | typed.py:25-37 | without annotations validation always passes, and the decorated function returns exactly the wrapped function's outcome unless a keyword argument `self` makes it raise `TypeError` |
| `Typed.ReceiverNeverChecked` | typed.py:27-29 | an unannotated receiver in first position is skipped, and the rest validates as the method's other parameters dictate |
| `Typed.DecoratedMethodCall` | typed.py:60-65 | a decorated method called on an object validates only its other parameters and, on success, forwards the receiver and the arguments unchanged; a keyword argument `self` raises `TypeError` |
| `Typed.DecorateForwardsOrRaises` | typed.py:60-65 | a decorated function raises `TypeError` for a keyword argument `self`, else forwards to the wrapped one on success and raises the validation error on failure; when it raises, its outcome is the same whatever the wrapped function would do, so that function does not run |
| `Typed.DecoratedAgreesWithTyped` | typed.py:60-63 | calling the closure returned by `typed` equals calling a fresh `_Typed` object built from the same function |
| `Typed.CheckIsIsInstanceNotIsType` | typed.py:31 | the per-parameter check agrees with `istype` on class annotations. A `None` annotation, which `istype` accepts for `None`, makes it raise `TypeError`, and so does a parameterised annotation; on `typing.Any`-like annotations both raise `TypeError` |
| `Typed.SomeTypesExamples` | test_typed.py:22-42 | for `func(a, b: str, c: int)` correct calls pass, and a wrong call reports the first wrong parameter in declaration order |
| `Typed.DefaultsExamples` | test_typed.py:100-110 | omitted defaults are not validated and an explicit wrong argument is; a keyword argument after an omitted parameter is not checked either |

## Left out

- Reflection: `inspect.signature` and `typing.get_origin` are replaced by data. A function comes with its list of parameters, and an annotation is one of four shapes.
- The wrapped callable is an opaque total function from positional and keyword arguments to an outcome. Its side effects are not modelled, so "it is not called" is stated as "the outcome does not depend on it".
- Argument-binding errors that the interpreter raises when the wrapped function is finally called are not modelled. These are missing or duplicate arguments, too many positional arguments, and misused keyword-only parameters. `*args` and `**kwargs` parameters in the wrapped signature are not modelled either. The code does not handle any of these, and the model leaves them to the wrapped callable's outcome.
- Union annotations such as `int | str` are not modelled. From Python 3.10 `isinstance` accepts them. Tuple-of-classes annotations and string (postponed) annotations are not modelled either. Every annotation that is not a plain class is treated as one on which `isinstance` raises `TypeError`.
- Typed.TypedFunction.ValidateArguments: calling `validate_arguments` directly with a keyword argument `self` raises the same `TypeError` as `__call__` does; the model states that clash only for `Call` and `Decorate`, through which the walk is always reached.
- The text of the `TypeError` message is not modelled. The error carries the parameter name, the argument and the expected class, and the argument's runtime class is available as `ClassOf` of the argument.
- The Python class hierarchy is a class table passed to every call, and it is taken to be fixed during the call. Metaclasses and `__instancecheck__` / `__subclasscheck__` overrides are not modelled.
- The packaging metadata in setup.py and the pytest scaffolding are not modelled. The assertions of the tests appear as lemmas.
