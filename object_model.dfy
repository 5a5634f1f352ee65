/**
 * The slice of Python's object model that `isinstance` and annotations need:
 * runtime values, a class table (each class with its list of bases),
 * the subclass relation over it, and the shapes an annotation can take.
 */
module ObjectModel {

  /** A class is identified by the order in which it was created. */
  type ClassId = nat

  // The built-in classes the model knows about, in creation order.
  const OBJECT: ClassId := 0
  const NONE_TYPE: ClassId := 1
  const INT: ClassId := 2
  const BOOL: ClassId := 3
  const STR: ClassId := 4
  const TUPLE: ClassId := 5
  /** Classes from this id on are user-defined. */
  const FIRST_USER_CLASS: ClassId := 6

  /** The bases of the built-in classes: `bool` derives from `int`, the rest from `object`. */
  const BuiltinBases: seq<seq<ClassId>> := [[], [OBJECT], [OBJECT], [INT], [OBJECT], [OBJECT]]

  /** `bases[c]` lists the direct bases of class `c`. */
  datatype ClassTable = ClassTable(bases: seq<seq<ClassId>>)

  /**
   * A hierarchy Python can build: the built-ins come first, every base
   * existed before the class deriving from it, and neither `NoneType`
   * nor `bool` is ever used as a base (Python refuses to subclass them).
   */
  predicate WellFormed(t: ClassTable) {
    && |t.bases| >= FIRST_USER_CLASS
    && t.bases[..FIRST_USER_CLASS] == BuiltinBases
    && forall c, i :: 0 <= c < |t.bases| && 0 <= i < |t.bases[c]| ==>
         t.bases[c][i] < c && t.bases[c][i] != NONE_TYPE && t.bases[c][i] != BOOL
  }

  /** Runtime values; `Instance` is an object of a user-defined class. */
  datatype Value =
    | NoneValue
    | Int(i: int)
    | Bool(b: bool)
    | Str(s: string)
    | Tuple(items: seq<Value>)
    | Instance(cls: ClassId, id: nat)

  /** `type(v)`. */
  function ClassOf(v: Value): ClassId {
    match v
    case NoneValue => NONE_TYPE
    case Int(_) => INT
    case Bool(_) => BOOL
    case Str(_) => STR
    case Tuple(_) => TUPLE
    case Instance(c, _) => c
  }

  /** An `Instance` value belongs to a user-defined class of the table. */
  predicate ValidValue(t: ClassTable, v: Value) {
    v.Instance? ==> FIRST_USER_CLASS <= v.cls < |t.bases|
  }

  /** `issubclass(c, d)`: `d` is reachable from `c` through the bases (reflexively). */
  predicate IsSubclass(t: ClassTable, c: ClassId, d: ClassId)
    decreases c
  {
    c == d ||
    (c < |t.bases| &&
     exists i :: 0 <= i < |t.bases[c]| && t.bases[c][i] < c && IsSubclass(t, t.bases[c][i], d))
  }

  /** `isinstance(v, c)` for a class `c`. */
  predicate IsInstance(t: ClassTable, v: Value, c: ClassId) {
    IsSubclass(t, ClassOf(v), c)
  }

  /** What `get_origin` can report about a parameterised annotation such as `list[int]`. */
  type Origin = string

  /** The annotation objects a parameter can carry. */
  datatype Annotation =
    | NoneAnnotation                                 // the literal `None`
    | Plain(cls: ClassId)                            // a class; `get_origin` gives None
    | Parameterised(origin: Origin, args: seq<Annotation>)  // `get_origin` gives `origin`
    | Special(name: string)                          // neither `None` nor a class, and no origin: `typing.Any`, a `TypeVar`

  /** `issubclass` is transitive: a subclass of a subclass of `c` is a subclass of `c`. */
  lemma {:induction false} IsSubclassTransitive(t: ClassTable, a: ClassId, b: ClassId, c: ClassId)
    requires IsSubclass(t, a, b) && IsSubclass(t, b, c)
    ensures IsSubclass(t, a, c)
    decreases a
  {
    if a != b {
      var i :| 0 <= i < |t.bases[a]| && t.bases[a][i] < a && IsSubclass(t, t.bases[a][i], b);
      IsSubclassTransitive(t, t.bases[a][i], b, c);
    }
  }

  /** Only `NoneType` itself is a subclass of `NoneType`, since it cannot be subclassed. */
  lemma {:induction false} NoneTypeIsFinal(t: ClassTable, c: ClassId)
    requires WellFormed(t)
    ensures IsSubclass(t, c, NONE_TYPE) <==> c == NONE_TYPE
    decreases c
  {
    if c != NONE_TYPE && c < |t.bases| {
      forall i | 0 <= i < |t.bases[c]| && t.bases[c][i] < c
        ensures !IsSubclass(t, t.bases[c][i], NONE_TYPE)
      {
        NoneTypeIsFinal(t, t.bases[c][i]);
      }
    }
  }

  /** The bases of a built-in class are those Python gives it. */
  lemma BuiltinBasesOf(t: ClassTable)
    requires WellFormed(t)
    ensures t.bases[OBJECT] == [] && t.bases[NONE_TYPE] == [OBJECT] && t.bases[INT] == [OBJECT]
    ensures t.bases[BOOL] == [INT] && t.bases[STR] == [OBJECT] && t.bases[TUPLE] == [OBJECT]
  {
    assert t.bases[..FIRST_USER_CLASS] == BuiltinBases;
    assert forall c :: 0 <= c < FIRST_USER_CLASS ==> t.bases[c] == t.bases[..FIRST_USER_CLASS][c];
  }

  /** A built-in class other than `object` whose only base is `object` has no other superclass. */
  lemma DirectChildOfObject(t: ClassTable, c: ClassId, d: ClassId)
    requires WellFormed(t) && c < |t.bases| && t.bases[c] == [OBJECT]
    ensures IsSubclass(t, c, d) <==> d == c || d == OBJECT
  {
    BuiltinBasesOf(t);
    assert t.bases[c][0] == OBJECT < c;
    assert IsSubclass(t, OBJECT, d) <==> d == OBJECT;
    if IsSubclass(t, c, d) && d != c {
      var i :| 0 <= i < |t.bases[c]| && t.bases[c][i] < c && IsSubclass(t, t.bases[c][i], d);
      assert i == 0;
    }
  }

  /**
   * `isinstance(None, c)` holds exactly for `NoneType` and `object`: `None`
   * is not an `int`, a `str` or an instance of any user-defined class.
   */
  lemma NoneIsInstanceOnlyOfNoneTypeAndObject(t: ClassTable, c: ClassId)
    requires WellFormed(t)
    ensures IsInstance(t, NoneValue, c) <==> c == NONE_TYPE || c == OBJECT
  {
    BuiltinBasesOf(t);
    DirectChildOfObject(t, NONE_TYPE, c);
  }

  /** `bool` derives from `int`, so `True` is an `int`; an `int` is never a `bool`. */
  lemma BoolIsInt(t: ClassTable, b: bool, n: int)
    requires WellFormed(t)
    ensures IsInstance(t, Bool(b), INT)
    ensures !IsInstance(t, Int(n), BOOL)
  {
    BuiltinBasesOf(t);
    assert t.bases[BOOL][0] == INT;
    DirectChildOfObject(t, INT, BOOL);
  }

  /** Distinct built-in leaf classes reject each other's values: `42` is no `str`, `"lorem"` no `int`. */
  lemma IntAndStrAreUnrelated(t: ClassTable, n: int, s: string)
    requires WellFormed(t)
    ensures IsInstance(t, Int(n), INT) && IsInstance(t, Str(s), STR)
    ensures !IsInstance(t, Int(n), STR) && !IsInstance(t, Str(s), INT)
  {
    BuiltinBasesOf(t);
    DirectChildOfObject(t, INT, STR);
    DirectChildOfObject(t, STR, INT);
  }
}
