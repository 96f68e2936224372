/** Python values as the generated record classes see them: through their
    setters, in the dictionaries given to `__init__` and in the dictionaries
    `as_dict` returns. Also the error taxonomy and the type check every setter
    runs (`check_var`). */
module Values {

  /** A Python value. `NdArray` is a one-dimensional numpy array. */
  datatype Value =
    | PyNone
    | Str(s: string)
    | Int(i: int)
    | Float(f: real)
    | Bool(b: bool)
    | Dict(entries: map<string, Value>)
    | List(items: seq<Value>)
    | NdArray(elems: seq<Value>)

  /** The declared type of a field, as the class generator writes it. */
  datatype FieldType = TStr | TDict | TFloat | TInt | TBool | TNdarray | TDataNDDict

  /** The exceptions the modelled code raises. */
  datatype Error =
    | TypeMismatch(field: string, expected: FieldType)  // check_var rejects a value
    | InitDictNotDict                                   // `assert type(init_dict) is dict`
    | PyTypeError                                       // an operator applied to an operand of the wrong type
    | ZeroDivision
    | KeyError(key: Value)
    | IndexError                                        // a numpy array indexed by a string
    | AttributeError                                    // a method looked up on a value that lacks it
    | AxisError(message: string)
    | NormError
    | UnitError

  datatype Option<+T> = Nothing | Some(value: T)

  /** A computation that returns a value or raises. */
  datatype Result<+T> = Ok(value: T) | Err(error: Error) {
    predicate IsFailure() { Err? }
    function PropagateFailure<U>(): Result<U> requires Err? { Err(error) }
    function Extract(): T requires Ok? { value }
  }

  /** A statement that completes or raises. */
  datatype Outcome = Pass | Fail(error: Error)

  /** What `check_var(name, value, type)` lets through. `None` passes for every
      declared type, which is what lets `_set_None` route `None` through the
      setters. A float field also takes a Python int. */
  predicate Acceptable(v: Value, t: FieldType)
  {
    v.PyNone? ||
    match t
    case TStr => v.Str?
    case TDict => v.Dict?
    case TFloat => v.Int? || v.Float?
    case TInt => v.Int?
    case TBool => v.Bool?
    case TNdarray => v.NdArray?
    case TDataNDDict => v == Dict(map[])
  }

  /** `check_var(field, v, t)` followed by the store: the value to store, or the
      error naming the field and the expected type. */
  function CheckVar(field: string, v: Value, t: FieldType): (r: Result<Value>)
    ensures r.Ok? <==> Acceptable(v, t)
    ensures r.Ok? ==> r.value == v
    ensures r.Err? ==> r.error == TypeMismatch(field, t)
  {
    if Acceptable(v, t) then Ok(v) else Err(TypeMismatch(field, t))
  }

    /** The setter of a dict field (`symmetries`, `normalizations`): the
      integer -1 stands for an empty dict; any other value goes through the
      type check unchanged. */
  function DictSetter(field: string, v: Value): (r: Result<Value>)
    ensures v == Int(-1) ==> r == Ok(Dict(map[]))
    ensures v != Int(-1) ==> (r.Ok? <==> (v.PyNone? || v.Dict?))
    ensures v != Int(-1) && r.Ok? ==> r.value == v
    ensures r.Err? ==> r.error == TypeMismatch(field, TDict)
  {
    CheckVar(field, if v == Int(-1) then Dict(map[]) else v, TDict)
  }

/** The effect of a validating setter on its field: on success the field
      holds the checked (possibly normalised) value and nothing is raised; on
      failure the field keeps its old value and the error is raised. */
  predicate Assigned(r: Result<Value>, before: Value, after: Value, out: Outcome)
  {
    if r.Ok? then out == Pass && after == r.value else out == Fail(r.error) && after == before
  }

  /** `str(v)` for the fields `__str__` prints: a string prints as itself and
      None as "None"; the rendering of anything else is given. */
  function PyStr(v: Value, render: Value -> string): string
  {
    match v
    case Str(s) => s
    case PyNone => "None"
    case _ => render(v)
  }

  /** `if key in init_dict: arg = init_dict[key]` */
  function Override(arg: Value, d: map<string, Value>, key: string): Value
  {
    if key in d then d[key] else arg
  }

  /** The number a numeric Python value stands for (bool is a subtype of int). */
  function Number(v: Value): Option<real>
  {
    match v
    case Int(i) => Some(i as real)
    case Float(f) => Some(f)
    case Bool(b) => Some(if b then 1.0 else 0.0)
    case _ => Nothing
  }

  /** Python `a == b`: numbers compare by value across int, float and bool,
      dicts by key set and entries, lists and (one-dimensional) arrays element
      by element. */
  predicate PyEq(a: Value, b: Value)
    decreases a
  {
    match a
    case PyNone => b.PyNone?
    case Str(s) => b.Str? && b.s == s
    case Int(_) => Number(b).Some? && Number(b) == Number(a)
    case Float(_) => Number(b).Some? && Number(b) == Number(a)
    case Bool(_) => Number(b).Some? && Number(b) == Number(a)
    case Dict(m) =>
      b.Dict? && b.entries.Keys == m.Keys &&
      forall k :: k in m ==> PyEq(m[k], b.entries[k])
    case List(xs) =>
      b.List? && |b.items| == |xs| &&
      forall j :: 0 <= j < |xs| ==> PyEq(xs[j], b.items[j])
    case NdArray(xs) =>
      b.NdArray? && |b.elems| == |xs| &&
      forall j :: 0 <= j < |xs| ==> PyEq(xs[j], b.elems[j])
  }

  /** Every value equals itself under Python `==` (there is no NaN here). */
  lemma {:induction false} PyEqReflexive(a: Value)
    ensures PyEq(a, a)
    decreases a
  {
    match a
    case Dict(m) =>
      forall k | k in m ensures PyEq(m[k], m[k]) { PyEqReflexive(m[k]); }
    case List(xs) =>
      forall j | 0 <= j < |xs| ensures PyEq(xs[j], xs[j]) { PyEqReflexive(xs[j]); }
    case NdArray(xs) =>
      forall j | 0 <= j < |xs| ensures PyEq(xs[j], xs[j]) { PyEqReflexive(xs[j]); }
    case _ =>
  }

  /** Python `==` is symmetric on these values. */
  lemma {:induction false} PyEqSymmetric(a: Value, b: Value)
    requires PyEq(a, b)
    ensures PyEq(b, a)
    decreases a
  {
    match a
    case Dict(m) =>
      forall k | k in b.entries ensures PyEq(b.entries[k], m[k]) { PyEqSymmetric(m[k], b.entries[k]); }
    case List(xs) =>
      forall j | 0 <= j < |b.items| ensures PyEq(b.items[j], xs[j]) { PyEqSymmetric(xs[j], b.items[j]); }
    case NdArray(xs) =>
      forall j | 0 <= j < |b.elems| ensures PyEq(b.elems[j], xs[j]) { PyEqSymmetric(xs[j], b.elems[j]); }
    case _ =>
  }

  /** Python `key in container` for a string key: a key test on a dict, a
      substring test on a string, a membership test on a list or array; any
      other container raises TypeError. */
  function Contains(container: Value, key: string): (r: Result<bool>)
    ensures container.Dict? ==> r == Ok(key in container.entries)
    ensures (container.PyNone? || container.Int? || container.Float? || container.Bool?) ==> r == Err(PyTypeError)
    ensures container.Str? ==>
      (r == Ok(true) <==> exists i :: OccursAt(key, container.s, i))
    ensures container.Str? ==> r.Ok?
    ensures container.List? && Str(key) in container.items ==> r == Ok(true)
    ensures container.List? && (forall j :: 0 <= j < |container.items| ==> !container.items[j].Str?) ==> r == Ok(false)
  {
    match container
    case Dict(m) => Ok(key in m)
    case Str(s) => IsSubstringIffOccurs(key, s); Ok(IsSubstring(key, s))
    case List(xs) => Ok(exists j :: 0 <= j < |xs| && PyEq(xs[j], Str(key)))
    case NdArray(xs) => Ok(exists j :: 0 <= j < |xs| && PyEq(xs[j], Str(key)))
    case _ => Err(PyTypeError)
  }

  /** Python `k in s` for two strings: `k` occurs in `s` at some position. */
  predicate IsSubstring(k: string, s: string)
    decreases |s|
  {
    (|k| <= |s| && s[..|k|] == k) || (|s| > 0 && IsSubstring(k, s[1..]))
  }

  /** `k` occurs in `s` starting at position `i`. */
  predicate OccursAt(k: string, s: string, i: int)
  {
    0 <= i && i + |k| <= |s| && s[i..i + |k|] == k
  }

  /** The recursive substring test finds exactly the occurrences. */
  lemma {:induction false} IsSubstringIffOccurs(k: string, s: string)
    ensures IsSubstring(k, s) <==> exists i :: OccursAt(k, s, i)
    decreases |s|
  {
    if |s| == 0 {
      if IsSubstring(k, s) {
        assert OccursAt(k, s, 0);
      }
    } else {
      IsSubstringIffOccurs(k, s[1..]);
      if IsSubstring(k, s) {
        if |k| <= |s| && s[..|k|] == k {
          assert OccursAt(k, s, 0);
        } else {
          var i :| OccursAt(k, s[1..], i);
          assert s[1..][i..i + |k|] == s[i + 1..i + 1 + |k|];
          assert OccursAt(k, s, i + 1);
        }
      }
      if exists i :: OccursAt(k, s, i) {
        var i :| OccursAt(k, s, i);
        if i > 0 {
          assert s[1..][i - 1..i - 1 + |k|] == s[i..i + |k|];
          assert OccursAt(k, s[1..], i - 1);
        }
      }
    }
  }
}
