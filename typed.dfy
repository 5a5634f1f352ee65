/**
 * The `typed` decorator (typed.py): a wrapper that captures a function's
 * parameter list once and, on every call, checks the bound arguments
 * against the annotations in declaration order before forwarding the
 * call unchanged.
 *
 * The walk binds each parameter to its keyword argument if there is one,
 * otherwise to the positional argument at its index; it stops at the first
 * parameter with no argument, skips parameters without annotation and
 * fails on the first argument that is not an instance of its annotation.
 */
module Typed {
  import opened Wrappers
  import opened ObjectModel
  import IsType

  /** A declared parameter; `annotation` is `None` where Python has `Parameter.empty`. */
  datatype Param = Param(name: string, annotation: Option<Annotation>)

  /** Python never lets two parameters of one signature share a name. */
  predicate DistinctNames(params: seq<Param>) {
    forall i, j :: 0 <= i < j < |params| ==> params[i].name != params[j].name
  }

  /**
   * The `TypeError` of a failed validation: an argument that is not an
   * instance of its annotation, or an annotation that is not a class, on
   * which `isinstance` itself raises `TypeError`.
   */
  datatype ValidationError =
    | Mismatch(name: string, argument: Value, expected: ClassId)
    | NotAClass(name: string, argument: Value, annotation: Annotation)

  /** What `validate_arguments` does: return normally, or raise. */
  datatype Verdict = Pass | Fail(error: ValidationError)

  /** Exceptions that reach the caller of a wrapped function. */
  datatype Exception =
    | TypeError(cause: ValidationError)
    | ReceiverClash              // `TypeError`: multiple values for `__call__`'s own argument `self`
    | Thrown(exception: Value)   // raised by the wrapped function itself

  /**
   * The name of the receiver of `__call__` and `validate_arguments`: a
   * keyword argument of this name collides with it when the wrapper
   * forwards the call to the `_Typed` object.
   */
  const CALL_RECEIVER: string := "self"

  /** How a call ends. */
  datatype Outcome = Returned(value: Value) | Raised(exception: Exception)

  /** A callable, seen only through what it does with its positional and keyword arguments. */
  type Callable = (seq<Value>, map<string, Value>) -> Outcome

  /** A Python function: what `signature` reports about it, and its behaviour. */
  datatype PyFunction = PyFunction(params: seq<Param>, body: Callable)

  /** The argument a call supplies for the parameter `p` at position `idx`, if any. */
  function Bind(p: Param, idx: nat, args: seq<Value>, kwargs: map<string, Value>): Option<Value> {
    if p.name in kwargs then Some(kwargs[p.name])
    else if idx < |args| then Some(args[idx])
    else None
  }

  /** The check of one bound argument: skipped without annotation, otherwise `isinstance`. */
  function CheckParam(t: ClassTable, p: Param, argument: Value): Verdict {
    match p.annotation
    case None => Pass
    case Some(Plain(c)) =>
      if IsInstance(t, argument, c) then Pass else Fail(Mismatch(p.name, argument, c))
    case Some(a) => Fail(NotAClass(p.name, argument, a))
  }

  /** The walk of `validate_arguments`, from the parameter at `idx` on. */
  function ValidateFrom(t: ClassTable, params: seq<Param>, args: seq<Value>, kwargs: map<string, Value>, idx: nat): Verdict
    decreases |params| - idx
  {
    if idx >= |params| then Pass
    else match Bind(params[idx], idx, args, kwargs)
      case None => Pass
      case Some(argument) =>
        var verdict := CheckParam(t, params[idx], argument);
        if verdict.Fail? then verdict else ValidateFrom(t, params, args, kwargs, idx + 1)
  }

  /** `validate_arguments(*args, **kwargs)` over the whole parameter list. */
  function Validate(t: ClassTable, params: seq<Param>, args: seq<Value>, kwargs: map<string, Value>): Verdict {
    ValidateFrom(t, params, args, kwargs, 0)
  }

  /** The index of the first parameter at or after `idx` that the call leaves without argument. */
  function WalkedFrom(params: seq<Param>, args: seq<Value>, kwargs: map<string, Value>, idx: nat): (n: nat)
    requires idx <= |params|
    decreases |params| - idx
    ensures idx <= n <= |params|
    ensures forall i :: idx <= i < n ==> Bind(params[i], i, args, kwargs).Some?
    ensures n < |params| ==> Bind(params[n], n, args, kwargs).None?
  {
    if idx == |params| || Bind(params[idx], idx, args, kwargs).None? then idx
    else WalkedFrom(params, args, kwargs, idx + 1)
  }

  /**
   * How many parameters the walk can reach: every parameter before this
   * index has an argument, and the one at it (if any) has none.
   */
  function Walked(params: seq<Param>, args: seq<Value>, kwargs: map<string, Value>): (n: nat)
    ensures n <= |params|
    ensures forall i :: 0 <= i < n ==> Bind(params[i], i, args, kwargs).Some?
    ensures n < |params| ==> Bind(params[n], n, args, kwargs).None?
  {
    WalkedFrom(params, args, kwargs, 0)
  }

  /** Parameter `i` has an argument and that argument passes its check. */
  predicate Accepted(t: ClassTable, params: seq<Param>, args: seq<Value>, kwargs: map<string, Value>, i: nat)
    requires i < |params|
  {
    var b := Bind(params[i], i, args, kwargs);
    b.Some? && CheckParam(t, params[i], b.value) == Pass
  }

  /** Parameter `k` is reached, fails its check, and every parameter before it passes. */
  predicate FirstRejectedAt(t: ClassTable, params: seq<Param>, args: seq<Value>, kwargs: map<string, Value>, k: nat) {
    && k < Walked(params, args, kwargs)
    && (forall i :: 0 <= i < k ==> Accepted(t, params, args, kwargs, i))
    && !Accepted(t, params, args, kwargs, k)
  }

  /**
   * What `wrapped(*args, **kwargs)` does: hand the call to the `_Typed`
   * object, which validates and then forwards the call unchanged or raises.
   */
  function Decorate(t: ClassTable, f: PyFunction): Callable {
    (args: seq<Value>, kwargs: map<string, Value>) =>
      if CALL_RECEIVER in kwargs then Raised(ReceiverClash)
      else match Validate(t, f.params, args, kwargs)
        case Pass => f.body(args, kwargs)
        case Fail(e) => Raised(TypeError(e))
  }

  /** A method bound to a receiver: the receiver becomes the first positional argument. */
  function BindMethod(w: Callable, receiver: Value): Callable {
    (args: seq<Value>, kwargs: map<string, Value>) => w([receiver] + args, kwargs)
  }

  /** `_Typed`: the wrapped function and the parameter list captured once, at construction. */
  class TypedFunction {
    const func: Callable
    const parameters: seq<Param>

    /** `_Typed(func)`: the parameter list is read from the signature here and never reassigned. */
    constructor (f: PyFunction)
      ensures func == f.body && parameters == f.params
    {
      func := f.body;
      parameters := f.params;
    }

    /** `validate_arguments`: the walk over the parameters in declaration order. */
    method ValidateArguments(t: ClassTable, args: seq<Value>, kwargs: map<string, Value>) returns (verdict: Verdict)
      ensures verdict == Validate(t, parameters, args, kwargs)
    {
      var idx := 0;
      while idx < |parameters|
        invariant idx <= |parameters|
        invariant ValidateFrom(t, parameters, args, kwargs, idx) == Validate(t, parameters, args, kwargs)
      {
        var name := parameters[idx].name;
        var argument: Value;
        if name in kwargs {
          argument := kwargs[name];
        } else if idx < |args| {
          argument := args[idx];
        } else {
          break;
        }
        var annotation := parameters[idx].annotation;
        if annotation.None? {
          // the parameter is not annotated
          idx := idx + 1;
          continue;
        }
        match annotation.value {
          case Plain(c) =>
            if !IsInstance(t, argument, c) {
              return Fail(Mismatch(name, argument, c));
            }
          case _ =>
            return Fail(NotAClass(name, argument, annotation.value));
        }
        idx := idx + 1;
      }
      return Pass;
    }

    /**
     * `__call__`: the wrapped function runs only when validation passes,
     * on the very arguments it was given, and its outcome is passed back
     * unchanged; otherwise the validation error is raised. A keyword
     * argument `self` never gets that far: it clashes with `__call__`'s own
     * receiver.
     */
    method Call(t: ClassTable, args: seq<Value>, kwargs: map<string, Value>) returns (r: Outcome)
      ensures CALL_RECEIVER in kwargs ==> r == Raised(ReceiverClash)
      ensures CALL_RECEIVER !in kwargs && Validate(t, parameters, args, kwargs).Pass? ==> r == func(args, kwargs)
      ensures CALL_RECEIVER !in kwargs && Validate(t, parameters, args, kwargs).Fail? ==>
                r == Raised(TypeError(Validate(t, parameters, args, kwargs).error))
    {
      if CALL_RECEIVER in kwargs {
        return Raised(ReceiverClash);
      }
      var verdict := ValidateArguments(t, args, kwargs);
      match verdict {
        case Fail(e) => r := Raised(TypeError(e));
        case Pass => r := func(args, kwargs);
      }
    }
  }

  // ---------------------------------------------------------------------
  // What the walk accepts and what it reports
  // ---------------------------------------------------------------------

  lemma {:induction false} ValidateFromPassIff(t: ClassTable, params: seq<Param>, args: seq<Value>, kwargs: map<string, Value>, idx: nat)
    requires idx <= |params|
    decreases |params| - idx
    ensures ValidateFrom(t, params, args, kwargs, idx) == Pass <==>
            forall i :: idx <= i < WalkedFrom(params, args, kwargs, idx) ==> Accepted(t, params, args, kwargs, i)
  {
    if idx < |params| && Bind(params[idx], idx, args, kwargs).Some? {
      ValidateFromPassIff(t, params, args, kwargs, idx + 1);
      assert WalkedFrom(params, args, kwargs, idx) == WalkedFrom(params, args, kwargs, idx + 1);
      if !Accepted(t, params, args, kwargs, idx) {
        assert ValidateFrom(t, params, args, kwargs, idx).Fail?;
        assert idx < WalkedFrom(params, args, kwargs, idx);
      }
    }
  }

  /**
   * Validation passes exactly when every parameter the walk reaches is
   * accepted: parameters from the first one without argument on are never
   * looked at.
   */
  lemma ValidatePassIff(t: ClassTable, params: seq<Param>, args: seq<Value>, kwargs: map<string, Value>)
    ensures Validate(t, params, args, kwargs) == Pass <==>
            forall i :: 0 <= i < Walked(params, args, kwargs) ==> Accepted(t, params, args, kwargs, i)
  {
    ValidateFromPassIff(t, params, args, kwargs, 0);
  }

  lemma {:induction false} ValidateFromReportsFirst(t: ClassTable, params: seq<Param>, args: seq<Value>, kwargs: map<string, Value>, idx: nat, k: nat)
    requires FirstRejectedAt(t, params, args, kwargs, k) && idx <= k
    decreases k - idx
    ensures ValidateFrom(t, params, args, kwargs, idx) ==
            CheckParam(t, params[k], Bind(params[k], k, args, kwargs).value)
  {
    if idx < k {
      assert Accepted(t, params, args, kwargs, idx);
      ValidateFromReportsFirst(t, params, args, kwargs, idx + 1, k);
    }
  }

  lemma {:induction false} FirstRejectedExists(t: ClassTable, params: seq<Param>, args: seq<Value>, kwargs: map<string, Value>, j: nat)
    requires j < Walked(params, args, kwargs) && !Accepted(t, params, args, kwargs, j)
    decreases j
    ensures exists k: nat :: k <= j && FirstRejectedAt(t, params, args, kwargs, k)
  {
    if forall i :: 0 <= i < j ==> Accepted(t, params, args, kwargs, i) {
      assert FirstRejectedAt(t, params, args, kwargs, j);
    } else {
      var i :| 0 <= i < j && !Accepted(t, params, args, kwargs, i);
      FirstRejectedExists(t, params, args, kwargs, i);
    }
  }

  /**
   * Validation fails exactly when some reached parameter is rejected, and
   * the error it raises is the one of the first rejected parameter in
   * declaration order: later parameters are not examined.
   */
  lemma ValidateFailIff(t: ClassTable, params: seq<Param>, args: seq<Value>, kwargs: map<string, Value>)
    ensures Validate(t, params, args, kwargs).Fail? <==>
            exists k: nat :: FirstRejectedAt(t, params, args, kwargs, k)
    ensures forall k: nat :: FirstRejectedAt(t, params, args, kwargs, k) ==>
              Validate(t, params, args, kwargs) == CheckParam(t, params[k], Bind(params[k], k, args, kwargs).value) &&
              Validate(t, params, args, kwargs).error.name == params[k].name
  {
    forall k: nat | FirstRejectedAt(t, params, args, kwargs, k)
      ensures Validate(t, params, args, kwargs) == CheckParam(t, params[k], Bind(params[k], k, args, kwargs).value)
    {
      ValidateFromReportsFirst(t, params, args, kwargs, 0, k);
    }
    ValidatePassIff(t, params, args, kwargs);
    if Validate(t, params, args, kwargs).Fail? {
      var j :| 0 <= j < Walked(params, args, kwargs) && !Accepted(t, params, args, kwargs, j);
      FirstRejectedExists(t, params, args, kwargs, j);
    }
  }

  // ---------------------------------------------------------------------
  // The stop at the first parameter without argument
  // ---------------------------------------------------------------------

  lemma {:induction false} StopsAtFrom(t: ClassTable, params: seq<Param>, args: seq<Value>, kwargs: map<string, Value>, k: nat, idx: nat)
    requires k < |params| && Bind(params[k], k, args, kwargs).None? && idx <= k
    decreases k - idx
    ensures ValidateFrom(t, params, args, kwargs, idx) == ValidateFrom(t, params[..k], args, kwargs, idx)
  {
    if idx < k {
      assert params[..k][idx] == params[idx];
      StopsAtFrom(t, params, args, kwargs, k, idx + 1);
    }
  }

  /**
   * Once parameter `k` has no argument, the call validates as if the
   * signature ended before it: neither `k` nor any later parameter is
   * checked, not even one passed by keyword. This is why omitted defaults
   * are never validated.
   */
  lemma UnsuppliedStopsValidation(t: ClassTable, params: seq<Param>, args: seq<Value>, kwargs: map<string, Value>, k: nat)
    requires k < |params| && Bind(params[k], k, args, kwargs).None?
    ensures Validate(t, params, args, kwargs) == Validate(t, params[..k], args, kwargs)
  {
    StopsAtFrom(t, params, args, kwargs, k, 0);
  }

  // ---------------------------------------------------------------------
  // Keyword and positional arguments
  // ---------------------------------------------------------------------

  lemma {:induction false} SameBindingsFrom(t: ClassTable, params: seq<Param>, args1: seq<Value>, kwargs1: map<string, Value>,
                                            args2: seq<Value>, kwargs2: map<string, Value>, idx: nat)
    requires forall i :: 0 <= i < |params| ==> Bind(params[i], i, args1, kwargs1) == Bind(params[i], i, args2, kwargs2)
    decreases |params| - idx
    ensures ValidateFrom(t, params, args1, kwargs1, idx) == ValidateFrom(t, params, args2, kwargs2, idx)
  {
    if idx < |params| {
      SameBindingsFrom(t, params, args1, kwargs1, args2, kwargs2, idx + 1);
    }
  }

  /** Validation depends on the arguments only through what each parameter is bound to. */
  lemma SameBindingsSameVerdict(t: ClassTable, params: seq<Param>, args1: seq<Value>, kwargs1: map<string, Value>,
                                args2: seq<Value>, kwargs2: map<string, Value>)
    requires forall i :: 0 <= i < |params| ==> Bind(params[i], i, args1, kwargs1) == Bind(params[i], i, args2, kwargs2)
    ensures Validate(t, params, args1, kwargs1) == Validate(t, params, args2, kwargs2)
  {
    SameBindingsFrom(t, params, args1, kwargs1, args2, kwargs2, 0);
  }

  /**
   * A keyword argument wins over the positional argument at the same
   * index: whatever sits at that position is never checked.
   */
  lemma KeywordShadowsPositional(t: ClassTable, params: seq<Param>, args: seq<Value>, kwargs: map<string, Value>, j: nat, x: Value)
    requires j < |params| && j < |args| && params[j].name in kwargs
    ensures Validate(t, params, args[j := x], kwargs) == Validate(t, params, args, kwargs)
  {
    SameBindingsSameVerdict(t, params, args[j := x], kwargs, args, kwargs);
  }

  /** Passing the last positional argument by keyword instead gives the same verdict. */
  lemma TrailingByKeyword(t: ClassTable, params: seq<Param>, args: seq<Value>, kwargs: map<string, Value>)
    requires DistinctNames(params)
    requires 0 < |args| <= |params| && params[|args| - 1].name !in kwargs
    ensures Validate(t, params, args, kwargs) ==
            Validate(t, params, args[..|args| - 1], kwargs[params[|args| - 1].name := args[|args| - 1]])
  {
    var k := |args| - 1;
    var kwargs' := kwargs[params[k].name := args[k]];
    forall i | 0 <= i < |params|
      ensures Bind(params[i], i, args, kwargs) == Bind(params[i], i, args[..k], kwargs')
    {
      if i != k {
        assert params[i].name != params[k].name;
      }
    }
    SameBindingsSameVerdict(t, params, args, kwargs, args[..k], kwargs');
  }

  /** Passing every argument by keyword, in whatever order, gives the same verdict as passing them by position. */
  lemma AllByKeyword(t: ClassTable, params: seq<Param>, args: seq<Value>, kwargs: map<string, Value>)
    requires |args| == |params|
    requires forall i :: 0 <= i < |params| ==> params[i].name in kwargs && kwargs[params[i].name] == args[i]
    ensures Validate(t, params, args, map[]) == Validate(t, params, [], kwargs)
  {
    SameBindingsSameVerdict(t, params, args, map[], [], kwargs);
  }

  // ---------------------------------------------------------------------
  // Unannotated parameters and methods
  // ---------------------------------------------------------------------

  lemma {:induction false} NoAnnotationsFrom(t: ClassTable, params: seq<Param>, args: seq<Value>, kwargs: map<string, Value>, idx: nat)
    requires forall i :: 0 <= i < |params| ==> params[i].annotation.None?
    decreases |params| - idx
    ensures ValidateFrom(t, params, args, kwargs, idx) == Pass
  {
    if idx < |params| {
      NoAnnotationsFrom(t, params, args, kwargs, idx + 1);
    }
  }

  /**
   * Without annotations validation always passes: every call is forwarded
   * and its outcome returned, except one with a keyword argument `self`,
   * which clashes with the wrapper's own receiver.
   */
  lemma NoAnnotationsForwardUnchanged(t: ClassTable, f: PyFunction, args: seq<Value>, kwargs: map<string, Value>)
    requires forall i :: 0 <= i < |f.params| ==> f.params[i].annotation.None?
    ensures Validate(t, f.params, args, kwargs) == Pass
    ensures CALL_RECEIVER !in kwargs ==> Decorate(t, f)(args, kwargs) == f.body(args, kwargs)
    ensures CALL_RECEIVER in kwargs ==> Decorate(t, f)(args, kwargs) == Raised(ReceiverClash)
  {
    NoAnnotationsFrom(t, f.params, args, kwargs, 0);
  }

  lemma {:induction false} ShiftFrom(t: ClassTable, receiver: Param, rest: seq<Param>, recv: Value,
                                     args: seq<Value>, kwargs: map<string, Value>, idx: nat)
    requires idx <= |rest|
    decreases |rest| - idx
    ensures ValidateFrom(t, [receiver] + rest, [recv] + args, kwargs, idx + 1) == ValidateFrom(t, rest, args, kwargs, idx)
  {
    if idx < |rest| {
      assert ([receiver] + rest)[idx + 1] == rest[idx];
      assert idx + 1 < |[recv] + args| ==> ([recv] + args)[idx + 1] == args[idx];
      ShiftFrom(t, receiver, rest, recv, args, kwargs, idx + 1);
    }
  }

  /**
   * An unannotated receiver in first position is never checked: a method
   * accepts and rejects exactly as its remaining parameters dictate.
   */
  lemma ReceiverNeverChecked(t: ClassTable, selfName: string, rest: seq<Param>, recv: Value,
                             args: seq<Value>, kwargs: map<string, Value>)
    ensures Validate(t, [Param(selfName, None)] + rest, [recv] + args, kwargs) == Validate(t, rest, args, kwargs)
  {
    ShiftFrom(t, Param(selfName, None), rest, recv, args, kwargs, 0);
  }

  /**
   * A decorated method called through an object: the receiver is passed
   * on, only the other parameters are validated, and on success the body
   * sees exactly the receiver and the given arguments. A keyword argument
   * `self` clashes with the wrapper's own receiver.
   */
  lemma DecoratedMethodCall(t: ClassTable, selfName: string, rest: seq<Param>, body: Callable, recv: Value,
                            args: seq<Value>, kwargs: map<string, Value>)
    ensures var call := BindMethod(Decorate(t, PyFunction([Param(selfName, None)] + rest, body)), recv);
            if CALL_RECEIVER in kwargs then call(args, kwargs) == Raised(ReceiverClash)
            else match Validate(t, rest, args, kwargs)
              case Pass => call(args, kwargs) == body([recv] + args, kwargs)
              case Fail(e) => call(args, kwargs) == Raised(TypeError(e))
  {
    ReceiverNeverChecked(t, selfName, rest, recv, args, kwargs);
  }

  // ---------------------------------------------------------------------
  // Forwarding
  // ---------------------------------------------------------------------

  /**
   * The decorated function raises the receiver clash or the validation
   * error without running the wrapped function (its outcome then does not
   * depend on the body), and otherwise returns the body's outcome on the
   * unchanged arguments.
   */
  lemma DecorateForwardsOrRaises(t: ClassTable, params: seq<Param>, body: Callable, other: Callable,
                                 args: seq<Value>, kwargs: map<string, Value>)
    ensures CALL_RECEIVER in kwargs ==>
              Decorate(t, PyFunction(params, body))(args, kwargs) == Raised(ReceiverClash)
    ensures CALL_RECEIVER !in kwargs && Validate(t, params, args, kwargs).Pass? ==>
              Decorate(t, PyFunction(params, body))(args, kwargs) == body(args, kwargs)
    ensures CALL_RECEIVER !in kwargs && Validate(t, params, args, kwargs).Fail? ==>
              Decorate(t, PyFunction(params, body))(args, kwargs) == Raised(TypeError(Validate(t, params, args, kwargs).error))
    ensures CALL_RECEIVER in kwargs || Validate(t, params, args, kwargs).Fail? ==>
              Decorate(t, PyFunction(params, body))(args, kwargs) == Decorate(t, PyFunction(params, other))(args, kwargs)
  {
  }

  /** A decorated function and a `_Typed` object built from it behave alike on every call. */
  method DecoratedAgreesWithTyped(t: ClassTable, f: PyFunction, args: seq<Value>, kwargs: map<string, Value>) returns (r: Outcome)
    ensures r == Decorate(t, f)(args, kwargs)
  {
    var typedFunc := new TypedFunction(f);
    r := typedFunc.Call(t, args, kwargs);
  }

  // ---------------------------------------------------------------------
  // isinstance versus istype
  // ---------------------------------------------------------------------

  /**
   * The walk checks with `isinstance`, not `istype`: the two agree on a
   * class annotation, but a `None` annotation (which `istype` accepts for
   * the value `None`) makes `isinstance` raise `TypeError`, as does a
   * parameterised one (on which `istype` raises `NotImplementedError`);
   * on any other annotation both raise `TypeError`.
   */
  lemma CheckIsIsInstanceNotIsType(t: ClassTable, name: string, v: Value, c: ClassId, origin: Origin, args: seq<Annotation>, special: string)
    ensures CheckParam(t, Param(name, Some(Plain(c))), v) == Pass <==> IsType.IsType(t, v, Plain(c)) == Success(true)
    ensures IsType.IsType(t, NoneValue, NoneAnnotation) == Success(true)
    ensures CheckParam(t, Param(name, Some(NoneAnnotation)), NoneValue) == Fail(NotAClass(name, NoneValue, NoneAnnotation))
    ensures CheckParam(t, Param(name, Some(Parameterised(origin, args))), v).Fail?
    ensures CheckParam(t, Param(name, Some(Special(special))), v) == Fail(NotAClass(name, v, Special(special)))
    ensures IsType.IsType(t, v, Special(special)) == Failure(IsType.TypeError)
  {
  }

  // ---------------------------------------------------------------------
  // The scenarios of the test suite
  // ---------------------------------------------------------------------

  /** `func(a, b: str, c: int)`. */
  const SomeTypes: seq<Param> := [Param("a", None), Param("b", Some(Plain(STR))), Param("c", Some(Plain(INT)))]

  /** `func(a: int, b: str = "2", c: int = 3)`: the parameters, defaults being invisible to the walk. */
  const WithDefaults: seq<Param> := [Param("a", Some(Plain(INT))), Param("b", Some(Plain(STR))), Param("c", Some(Plain(INT)))]

  /** Calls of `func(a, b: str, c: int)`: the first failing parameter in declaration order is reported. */
  lemma SomeTypesExamples(t: ClassTable)
    requires WellFormed(t)
    ensures Validate(t, SomeTypes, [Int(1), Str("2"), Int(3)], map[]) == Pass
    ensures Validate(t, SomeTypes, [Int(1), Int(2), Int(3)], map[]) == Fail(Mismatch("b", Int(2), STR))
    ensures Validate(t, SomeTypes, [Int(1), Str("2")], map["c" := Str("3")]) == Fail(Mismatch("c", Str("3"), INT))
    ensures Validate(t, SomeTypes, [Str("1"), Int(2), Str("3")], map[]) == Fail(Mismatch("b", Int(2), STR))
  {
    IntAndStrAreUnrelated(t, 2, "3");
    IntAndStrAreUnrelated(t, 3, "2");
    IntAndStrAreUnrelated(t, 1, "1");
    var ok := [Int(1), Str("2"), Int(3)];
    assert ValidateFrom(t, SomeTypes, ok, map[], 2) == Pass;
    assert ValidateFrom(t, SomeTypes, ok, map[], 1) == Pass;
    var kw := map["c" := Str("3")];
    assert ValidateFrom(t, SomeTypes, [Int(1), Str("2")], kw, 2) == Fail(Mismatch("c", Str("3"), INT));
    assert ValidateFrom(t, SomeTypes, [Int(1), Str("2")], kw, 1) == Fail(Mismatch("c", Str("3"), INT));
    assert ValidateFrom(t, SomeTypes, [Int(1), Int(2), Int(3)], map[], 1) == Fail(Mismatch("b", Int(2), STR));
    assert ValidateFrom(t, SomeTypes, [Str("1"), Int(2), Str("3")], map[], 1) == Fail(Mismatch("b", Int(2), STR));
  }

  /**
   * Omitted defaults are not validated, but an explicit wrong argument is;
   * a keyword argument after an omitted parameter is not validated either.
   */
  lemma DefaultsExamples(t: ClassTable)
    requires WellFormed(t)
    ensures Validate(t, WithDefaults, [Int(1)], map[]) == Pass
    ensures Validate(t, WithDefaults, [Str("1")], map[]) == Fail(Mismatch("a", Str("1"), INT))
    ensures Validate(t, WithDefaults, [Int(1)], map["c" := Str("3")]) == Pass
  {
    IntAndStrAreUnrelated(t, 1, "1");
    assert ValidateFrom(t, WithDefaults, [Int(1)], map[], 1) == Pass;
    assert ValidateFrom(t, WithDefaults, [Int(1)], map["c" := Str("3")], 1) == Pass;
  }
}
