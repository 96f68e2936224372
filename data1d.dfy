/** The generated class `Data1D` (SciDataTool/Classes/Data1D.py): an axis
    given by its values. It extends `Data`; here the inherited part is the
    object `base`, which holds the four inherited fields and the parent and
    whose setters are the inherited ones. */
module Data1DClass {
  import opened Values
  import DataClass

  /** The keyword arguments of `Data1D.__init__`, and the value fields of a
      `Data1D` object. */
  datatype Data1DFields = Data1DFields(values: Value, isComponents: Value, base: DataClass.DataFields)

  /** `Data1D.__init__`'s defaults: values=None, is_components=False and the
      inherited defaults. */
  const DefaultArgs := Data1DFields(PyNone, Bool(false), DataClass.DefaultArgs)

  /** The keys of the class's own fields. */
  const OwnKeys: set<string> := {"values", "is_components"}

  predicate ValidFields(f: Data1DFields)
  {
    Acceptable(f.values, TNdarray) && Acceptable(f.isComponents, TBool) && DataClass.ValidFields(f.base)
  }

  /** `_set_values`: -1 stands for an empty array and a list is converted to
      an array; what results must pass the ndarray type check. */
  function ValuesSetter(v: Value): (r: Result<Value>)
    ensures v == Int(-1) ==> r == Ok(NdArray([]))
    ensures v.List? ==> r == Ok(NdArray(v.items))
    ensures v != Int(-1) && !v.List? ==> (r.Ok? <==> (v.PyNone? || v.NdArray?))
    ensures v != Int(-1) && !v.List? && r.Ok? ==> r.value == v
    ensures r.Err? ==> r.error == TypeMismatch("values", TNdarray)
  {
    var w := if v == Int(-1) then NdArray([]) else if v.List? then NdArray(v.items) else v;
    CheckVar("values", w, TNdarray)
  }

  /** `__init__`'s dictionary mode over the own and the inherited keys. */
  function Resolve(a: Data1DFields, d: map<string, Value>): Data1DFields
  {
    Data1DFields(Override(a.values, d, "values"), Override(a.isComponents, d, "is_components"),
                 DataClass.Resolve(a.base, d))
  }

  /** What `Data1D(…, init_dict=init)` produces: the own fields are stored
      first, then the inherited `__init__` runs on the resolved arguments. */
  function Build(a: Data1DFields, init: Value): (r: Result<Data1DFields>)
    ensures r.Ok? ==> ValidFields(r.value)
  {
    if !(init.PyNone? || init.Dict?) then Err(InitDictNotDict)
    else
      var e := if init.Dict? then Resolve(a, init.entries) else a;
      var values :- ValuesSetter(e.values);
      var isComponents :- CheckVar("is_components", e.isComponents, TBool);
      var base :- DataClass.Build(e.base, PyNone);
      Ok(Data1DFields(values, isComponents, base))
  }

  class Data1D {
    const base: DataClass.Data
    var values: Value
    var isComponents: Value

    function Fields(): Data1DFields
      reads this, base
    {
      Data1DFields(values, isComponents, base.Fields())
    }

    ghost predicate Valid()
      reads this, base
    {
      ValidFields(Fields())
    }

    /** The object `__init__` starts from: no field set yet. */
    constructor Blank()
      ensures fresh(base) && base.parent == null
      ensures Fields() == Data1DFields(PyNone, PyNone, DataClass.DataFields(PyNone, PyNone, PyNone, PyNone))
    {
      base := new DataClass.Data.Blank();
      values, isComponents := PyNone, PyNone;
    }

    method SetValues(v: Value) returns (out: Outcome)
      modifies this`values
      ensures Assigned(ValuesSetter(v), old(values), values, out)
    {
      var value := v;
      if value == Int(-1) {
        value := NdArray([]);
      } else if value.List? {
        value := NdArray(value.items);
      }
      out := Pass;
      if Acceptable(value, TNdarray) { values := value; } else { out := Fail(TypeMismatch("values", TNdarray)); }
    }

    method SetIsComponents(v: Value) returns (out: Outcome)
      modifies this`isComponents
      ensures Assigned(CheckVar("is_components", v, TBool), old(isComponents), isComponents, out)
    {
      out := Pass;
      if Acceptable(v, TBool) { isComponents := v; } else { out := Fail(TypeMismatch("is_components", TBool)); }
    }

    /** The body of `__init__`. */
    method Init(a: Data1DFields, init: Value) returns (out: Outcome)
      modifies this, base
      ensures Build(a, init).Ok? <==> out == Pass
      ensures Build(a, init).Err? ==> out == Fail(Build(a, init).error)
      ensures out == Pass ==> base.parent == null && Fields() == Build(a, init).value && Valid()
    {
      if !(init.PyNone? || init.Dict?) {
        return Fail(InitDictNotDict);
      }
      var values, isComponents, baseArgs := a.values, a.isComponents, a.base;
      if init.Dict? {
        var d := init.entries;
        if "values" in d { values := d["values"]; }
        if "is_components" in d { isComponents := d["is_components"]; }
        if "symbol" in d { baseArgs := baseArgs.(symbol := d["symbol"]); }
        if "name" in d { baseArgs := baseArgs.(name := d["name"]); }
        if "unit" in d { baseArgs := baseArgs.(unit := d["unit"]); }
        if "symmetries" in d { baseArgs := baseArgs.(symmetries := d["symmetries"]); }
      }
      out := SetValues(values);
      if out.Fail? { return; }
      out := SetIsComponents(isComponents);
      if out.Fail? { return; }
      out := base.Init(baseArgs, PyNone);
    }

    /** `Data1D(values=…, is_components=…, symbol=…, …, init_dict=init)`. */
    static method New(a: Data1DFields, init: Value) returns (r: Result<Data1D>)
      ensures Build(a, init).Ok? <==> r.Ok?
      ensures r.Err? ==> r.error == Build(a, init).error
      ensures r.Ok? ==> fresh(r.value) && fresh(r.value.base) && r.value.base.parent == null
      ensures r.Ok? ==> r.value.Valid() && r.value.Fields() == Build(a, init).value
    {
      var o := new Data1D.Blank();
      var out := o.Init(a, init);
      if out.Fail? {
        return Err(out.error);
      }
      return Ok(o);
    }

    /** `_set_None`: the own fields, then the inherited ones. */
    method SetNone()
      modifies this, base
      ensures Valid() && base.parent == old(base.parent)
      ensures Fields() == Data1DFields(PyNone, PyNone, DataClass.DataFields(PyNone, PyNone, PyNone, PyNone))
    {
      var out := SetValues(PyNone);
      out := SetIsComponents(PyNone);
      base.SetNone();
    }

    /** `__eq__`: false for an object of another class; otherwise the inherited
        fields, the values array (numpy `array_equal`) and `is_components`. */
    predicate Eq(other: object)
      reads this, base, other, if other is Data1D then {(other as Data1D).base} else {}
      ensures Eq(other) ==> other is Data1D
    {
      other is Data1D &&
      var o := other as Data1D;
      DataClass.FieldsEq(o.base.Fields(), base.Fields()) &&
      PyEq(o.values, values) && PyEq(o.isComponents, isComponents)
    }

    /** `as_dict`: the inherited dictionary extended with the values (as a
        list, None staying None) and `is_components`, tagged "Data1D". */
    function AsDict(): (d: map<string, Value>)
      reads this, base
      ensures d.Keys == DataClass.FieldKeys + OwnKeys + {"__class__"}
      ensures d["__class__"] == Str("Data1D")
      ensures forall k :: k in DataClass.FieldKeys ==> d[k] == base.AsDict()[k]
      ensures values.PyNone? ==> d["values"] == PyNone
      ensures values.NdArray? ==> d["values"] == List(values.elems)
      ensures d["is_components"] == isComponents
    {
      base.AsDict()["values" := if values.NdArray? then List(values.elems) else values]
                   ["is_components" := isComponents]
                   ["__class__" := Str("Data1D")]
    }
  }

  /** Dictionary mode is keyword mode with the present keys substituted;
      other keys play no part. */
  lemma InitDictOverridesPresentKeys(a: Data1DFields, d: map<string, Value>, k: string, v: Value)
    ensures Build(a, Dict(d)) == Build(Data1DFields(
      if "values" in d then d["values"] else a.values,
      if "is_components" in d then d["is_components"] else a.isComponents,
      DataClass.Resolve(a.base, d)), PyNone)
    ensures k !in OwnKeys + DataClass.FieldKeys ==> Build(a, Dict(d[k := v])) == Build(a, Dict(d))
  {
  }

  /** `Data1D()` has no values, is not components and has an empty
      symmetries dict. */
  lemma Defaults()
    ensures Build(DefaultArgs, PyNone)
         == Ok(Data1DFields(PyNone, Bool(false), DataClass.DataFields(Str(""), Str(""), Str(""), Dict(map[]))))
  {
  }

  /** `as_dict` can be fed back to `__init__`: it rebuilds the same fields. */
  lemma AsDictRoundTrip(x: Data1D)
    requires x.Valid()
    ensures Build(DefaultArgs, Dict(x.AsDict())) == Ok(x.Fields())
  {
  }

  /** Objects with the same fields are equal whatever their parents. */
  lemma EqOfSameFields(x: Data1D, y: Data1D)
    requires x.Fields() == y.Fields()
    ensures x.Eq(y) && y.Eq(x)
  {
    DataClass.EqOfSameFields(x.base, y.base);
    PyEqReflexive(x.values);
    PyEqReflexive(x.isComponents);
  }

  /** The object rebuilt from `x.as_dict()` compares equal to `x`. */
  lemma RoundTripEq(x: Data1D, y: Data1D)
    requires x.Valid() && Build(DefaultArgs, Dict(x.AsDict())) == Ok(y.Fields())
    ensures y.Eq(x) && x.Eq(y)
  {
    AsDictRoundTrip(x);
    EqOfSameFields(x, y);
  }
}
