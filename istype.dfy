/**
 * `istype(obj, annotation)` (istype.py): does a value satisfy a simple
 * annotation? `None` matches only the `None` value, a class matches its
 * instances and those of its subclasses, and a parameterised annotation
 * is refused with `NotImplementedError`. Any other annotation reaches
 * `isinstance`, which raises `TypeError` on it.
 */
module IsType {
  import opened Wrappers
  import opened ObjectModel

  /**
   * The exceptions `istype` raises: its own `NotImplementedError` for a
   * parameterised annotation, and the `TypeError` of `isinstance` for an
   * annotation that is not a class.
   */
  datatype IsTypeError = NotImplementedError | TypeError

  /** `istype(obj, annotation)`: a boolean answer, or an exception. */
  function IsType(t: ClassTable, obj: Value, annotation: Annotation): (r: Result<bool, IsTypeError>)
    ensures r == Failure(NotImplementedError) <==> annotation.Parameterised?
    ensures r.Success? <==> annotation.NoneAnnotation? || annotation.Plain?
    ensures annotation == NoneAnnotation ==> (r == Success(true) <==> obj == NoneValue)
  {
    match annotation
    case Parameterised(_, _) => Failure(NotImplementedError)
    case Special(_) => Failure(TypeError)
    case NoneAnnotation => Success(obj == NoneValue)
    case Plain(c) => Success(IsInstance(t, obj, c))
  }

  /**
   * For a plain class `C`, `istype(x, C)` holds exactly when the class of
   * `x` is `C` or a subclass of it; in particular every superclass of a
   * matched class matches too.
   */
  lemma IsTypeAcceptsSubclassInstances(t: ClassTable, obj: Value, c: ClassId, d: ClassId)
    requires IsType(t, obj, Plain(c)) == Success(true)
    requires IsSubclass(t, c, d)
    ensures IsType(t, obj, Plain(d)) == Success(true)
  {
    IsSubclassTransitive(t, ClassOf(obj), c, d);
  }

  /**
   * The `None` annotation and the `NoneType` class agree on every value a
   * well-formed program can hold: both accept `None` and nothing else.
   */
  lemma NoneAnnotationIsNoneType(t: ClassTable, obj: Value)
    requires WellFormed(t) && ValidValue(t, obj)
    ensures IsType(t, obj, NoneAnnotation) == IsType(t, obj, Plain(NONE_TYPE))
    ensures IsType(t, obj, Plain(NONE_TYPE)) == Success(obj == NoneValue)
  {
    NoneTypeIsFinal(t, ClassOf(obj));
  }

  /** `None` is an instance of neither `int` nor a user-defined class, but of `NoneType`. */
  lemma NoneMatchesOnlyNoneTypeAndObject(t: ClassTable, c: ClassId)
    requires WellFormed(t)
    ensures IsType(t, NoneValue, Plain(c)) == Success(c == NONE_TYPE || c == OBJECT)
  {
    NoneIsInstanceOnlyOfNoneTypeAndObject(t, c);
  }

  /** `istype(42, str)` and `istype("lorem ipsum", int)` are false; each value matches its own class. */
  lemma IsTypeRejectsOtherClass(t: ClassTable, n: int, s: string)
    requires WellFormed(t)
    ensures IsType(t, Int(n), Plain(INT)) == Success(true)
    ensures IsType(t, Str(s), Plain(STR)) == Success(true)
    ensures IsType(t, Int(n), Plain(STR)) == Success(false)
    ensures IsType(t, Str(s), Plain(INT)) == Success(false)
  {
    IntAndStrAreUnrelated(t, n, s);
  }

  /** The hierarchy of the user-defined-class example: the built-ins plus one class `DummyClass`. */
  const DUMMY_CLASS: ClassId := FIRST_USER_CLASS
  const DummyTable: ClassTable := ClassTable(BuiltinBases + [[OBJECT]])

  /** An object of `DummyClass` is a `DummyClass`; `None` is not. */
  lemma UserDefinedClassExample(id: nat)
    ensures WellFormed(DummyTable)
    ensures IsType(DummyTable, Instance(DUMMY_CLASS, id), Plain(DUMMY_CLASS)) == Success(true)
    ensures IsType(DummyTable, NoneValue, Plain(DUMMY_CLASS)) == Success(false)
  {
    assert DummyTable.bases[..FIRST_USER_CLASS] == BuiltinBases;
    NoneIsInstanceOnlyOfNoneTypeAndObject(DummyTable, DUMMY_CLASS);
  }
}
