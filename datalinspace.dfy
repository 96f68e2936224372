/** The generated class `DataLinspace` (SciDataTool/Classes/DataLinspace.py):
    an axis given by its first value, last value, step and number of points,
    together with its method `get_values`
    (SciDataTool/Methods/DataLinspace/get_values.py). It extends `Data`; here
    the inherited part is the object `base`. */
module DataLinspaceClass {
  import opened Values
  import opened Signals
  import opened LinspaceAxis
  import DataClass

  /** The keyword arguments of `DataLinspace.__init__`, and the value fields
      of a `DataLinspace` object. */
  datatype LinspaceFields = LinspaceFields(
    initial: Value, final: Value, step: Value, number: Value,
    includeEndpoint: Value, isComponents: Value, base: DataClass.DataFields)

  /** `DataLinspace.__init__`'s defaults: initial, final, step and number
      None, include_endpoint=True, is_components=False, and the inherited
      defaults. */
  const DefaultArgs := LinspaceFields(PyNone, PyNone, PyNone, PyNone, Bool(true), Bool(false), DataClass.DefaultArgs)

  /** The keys of the class's own fields. */
  const OwnKeys: set<string> := {"initial", "final", "step", "number", "include_endpoint", "is_components"}

  predicate ValidFields(f: LinspaceFields)
  {
    Acceptable(f.initial, TFloat) && Acceptable(f.final, TFloat) && Acceptable(f.step, TFloat) &&
    Acceptable(f.number, TInt) && Acceptable(f.includeEndpoint, TBool) &&
    Acceptable(f.isComponents, TBool) && DataClass.ValidFields(f.base)
  }

  /** `__init__`'s dictionary mode over the ten keys. */
  function Resolve(a: LinspaceFields, d: map<string, Value>): LinspaceFields
  {
    LinspaceFields(Override(a.initial, d, "initial"), Override(a.final, d, "final"),
                   Override(a.step, d, "step"), Override(a.number, d, "number"),
                   Override(a.includeEndpoint, d, "include_endpoint"),
                   Override(a.isComponents, d, "is_components"),
                   DataClass.Resolve(a.base, d))
  }

  /** The six own setters in declaration order, on resolved arguments: the
      arguments with the checked values, or the first error. */
  function StoreOwn(e: LinspaceFields): (r: Result<LinspaceFields>)
    ensures r.Ok? <==>
      && Acceptable(e.initial, TFloat) && Acceptable(e.final, TFloat) && Acceptable(e.step, TFloat)
      && Acceptable(e.number, TInt) && Acceptable(e.includeEndpoint, TBool) && Acceptable(e.isComponents, TBool)
    ensures r.Ok? ==> r.value == e
    ensures !Acceptable(e.initial, TFloat) ==> r == Err(TypeMismatch("initial", TFloat))
    ensures Acceptable(e.initial, TFloat) && !Acceptable(e.final, TFloat) ==> r == Err(TypeMismatch("final", TFloat))
    ensures Acceptable(e.initial, TFloat) && Acceptable(e.final, TFloat) && !Acceptable(e.step, TFloat) ==>
      r == Err(TypeMismatch("step", TFloat))
    ensures (Acceptable(e.initial, TFloat) && Acceptable(e.final, TFloat) && Acceptable(e.step, TFloat)
             && !Acceptable(e.number, TInt)) ==> r == Err(TypeMismatch("number", TInt))
    ensures (Acceptable(e.initial, TFloat) && Acceptable(e.final, TFloat) && Acceptable(e.step, TFloat)
             && Acceptable(e.number, TInt) && !Acceptable(e.includeEndpoint, TBool)) ==>
      r == Err(TypeMismatch("include_endpoint", TBool))
    ensures (Acceptable(e.initial, TFloat) && Acceptable(e.final, TFloat) && Acceptable(e.step, TFloat)
             && Acceptable(e.number, TInt) && Acceptable(e.includeEndpoint, TBool) && !Acceptable(e.isComponents, TBool)) ==>
      r == Err(TypeMismatch("is_components", TBool))
  {
    var initial :- CheckVar("initial", e.initial, TFloat);
    var final :- CheckVar("final", e.final, TFloat);
    var step :- CheckVar("step", e.step, TFloat);
    var number :- CheckVar("number", e.number, TInt);
    var includeEndpoint :- CheckVar("include_endpoint", e.includeEndpoint, TBool);
    var isComponents :- CheckVar("is_components", e.isComponents, TBool);
    Ok(e.(initial := initial, final := final, step := step, number := number,
          includeEndpoint := includeEndpoint, isComponents := isComponents))
  }

  /** What `DataLinspace(…, init_dict=init)` produces: the six own fields are
      stored in declaration order, then the inherited `__init__` runs. */
  function Build(a: LinspaceFields, init: Value): (r: Result<LinspaceFields>)
    ensures r.Ok? ==> ValidFields(r.value)
  {
    if !(init.PyNone? || init.Dict?) then Err(InitDictNotDict)
    else
      var e := if init.Dict? then Resolve(a, init.entries) else a;
      var own :- StoreOwn(e);
      var base :- DataClass.Build(e.base, PyNone);
      Ok(own.(base := base))
  }

  /** What `get_values(unit, is_oneperiod, is_antiperiod, is_smallestperiod)`
      returns or raises on an axis with fields `f`, and the symmetries dict
      afterwards. */
  function GetValuesSpec(f: LinspaceFields, unit: string,
                         isOnePeriod: bool, isAntiPeriod: bool, isSmallestPeriod: bool): (r: (Result<Signal>, Value))
    ensures r.0.Err? || isSmallestPeriod ==> r.1 == f.base.symmetries
    ensures r.0.Ok? ==> LinspaceArgs(f.initial, f.final, f.step, f.number).Ok?
  {
    match LinspaceArgs(f.initial, f.final, f.step, f.number)
    case Err(e) => (Err(e), f.base.symmetries)
    case Ok(args) =>
      var values := InUnit(Linspace(args.0, args.1, args.2, f.includeEndpoint), f.base.unit, unit);
      Rebuild(values, f.base.name, f.base.symmetries, isOnePeriod, isAntiPeriod, isSmallestPeriod)
  }

  class DataLinspace {
    const base: DataClass.Data
    var initial: Value
    var final: Value
    var step: Value
    var number: Value
    var includeEndpoint: Value
    var isComponents: Value

    function Fields(): LinspaceFields
      reads this, base
    {
      LinspaceFields(initial, final, step, number, includeEndpoint, isComponents, base.Fields())
    }

    ghost predicate Valid()
      reads this, base
    {
      ValidFields(Fields())
    }

    /** The object `__init__` starts from: no field set yet. */
    constructor Blank()
      ensures fresh(base) && base.parent == null
      ensures Fields() == LinspaceFields(PyNone, PyNone, PyNone, PyNone, PyNone, PyNone,
                                         DataClass.DataFields(PyNone, PyNone, PyNone, PyNone))
    {
      base := new DataClass.Data.Blank();
      initial, final, step, number, includeEndpoint, isComponents := PyNone, PyNone, PyNone, PyNone, PyNone, PyNone;
    }

    method SetInitial(v: Value) returns (out: Outcome)
      modifies this`initial
      ensures Assigned(CheckVar("initial", v, TFloat), old(initial), initial, out)
    {
      out := Pass;
      if Acceptable(v, TFloat) { initial := v; } else { out := Fail(TypeMismatch("initial", TFloat)); }
    }

    method SetFinal(v: Value) returns (out: Outcome)
      modifies this`final
      ensures Assigned(CheckVar("final", v, TFloat), old(final), final, out)
    {
      out := Pass;
      if Acceptable(v, TFloat) { final := v; } else { out := Fail(TypeMismatch("final", TFloat)); }
    }

    method SetStep(v: Value) returns (out: Outcome)
      modifies this`step
      ensures Assigned(CheckVar("step", v, TFloat), old(step), step, out)
    {
      out := Pass;
      if Acceptable(v, TFloat) { step := v; } else { out := Fail(TypeMismatch("step", TFloat)); }
    }

    method SetNumber(v: Value) returns (out: Outcome)
      modifies this`number
      ensures Assigned(CheckVar("number", v, TInt), old(number), number, out)
    {
      out := Pass;
      if Acceptable(v, TInt) { number := v; } else { out := Fail(TypeMismatch("number", TInt)); }
    }

    method SetIncludeEndpoint(v: Value) returns (out: Outcome)
      modifies this`includeEndpoint
      ensures Assigned(CheckVar("include_endpoint", v, TBool), old(includeEndpoint), includeEndpoint, out)
    {
      out := Pass;
      if Acceptable(v, TBool) { includeEndpoint := v; } else { out := Fail(TypeMismatch("include_endpoint", TBool)); }
    }

    method SetIsComponents(v: Value) returns (out: Outcome)
      modifies this`isComponents
      ensures Assigned(CheckVar("is_components", v, TBool), old(isComponents), isComponents, out)
    {
      out := Pass;
      if Acceptable(v, TBool) { isComponents := v; } else { out := Fail(TypeMismatch("is_components", TBool)); }
    }

    /** The body of `__init__`. */
    method Init(a: LinspaceFields, init: Value) returns (out: Outcome)
      modifies this, base
      ensures Build(a, init).Ok? <==> out == Pass
      ensures Build(a, init).Err? ==> out == Fail(Build(a, init).error)
      ensures out == Pass ==> base.parent == null && Fields() == Build(a, init).value && Valid()
    {
      if !(init.PyNone? || init.Dict?) {
        return Fail(InitDictNotDict);
      }
      var e := a;
      if init.Dict? {
        e := ApplyInitDict(a, init.entries);
      }
      out := SetOwn(e);
      if out.Fail? { return; }
      out := base.Init(e.base, PyNone);
    }

    /** `__init__`'s overrides: each of the ten keys present in `init_dict`
        replaces its argument. */
    static method ApplyInitDict(a: LinspaceFields, d: map<string, Value>) returns (e: LinspaceFields)
      ensures e == Resolve(a, d)
    {
      e := a;
      if "initial" in d { e := e.(initial := d["initial"]); }
      if "final" in d { e := e.(final := d["final"]); }
      if "step" in d { e := e.(step := d["step"]); }
      if "number" in d { e := e.(number := d["number"]); }
      if "include_endpoint" in d { e := e.(includeEndpoint := d["include_endpoint"]); }
      if "is_components" in d { e := e.(isComponents := d["is_components"]); }
      if "symbol" in d { e := e.(base := e.base.(symbol := d["symbol"])); }
      if "name" in d { e := e.(base := e.base.(name := d["name"])); }
      if "unit" in d { e := e.(base := e.base.(unit := d["unit"])); }
      if "symmetries" in d { e := e.(base := e.base.(symmetries := d["symmetries"])); }
    }

    /** The six own setter calls of `__init__`, in order, stopping at the
        first that raises. */
    method SetOwn(e: LinspaceFields) returns (out: Outcome)
      modifies this
      ensures StoreOwn(e).Ok? <==> out == Pass
      ensures StoreOwn(e).Err? ==> out == Fail(StoreOwn(e).error)
      ensures out == Pass ==> initial == e.initial && final == e.final && step == e.step &&
                              number == e.number && includeEndpoint == e.includeEndpoint &&
                              isComponents == e.isComponents
    {
      out := SetInitial(e.initial);
      if out.Fail? { return; }
      out := SetFinal(e.final);
      if out.Fail? { return; }
      out := SetStep(e.step);
      if out.Fail? { return; }
      out := SetNumber(e.number);
      if out.Fail? { return; }
      out := SetIncludeEndpoint(e.includeEndpoint);
      if out.Fail? { return; }
      out := SetIsComponents(e.isComponents);
    }

    /** `DataLinspace(initial=…, …, symmetries=…, init_dict=init)`. */
    static method New(a: LinspaceFields, init: Value) returns (r: Result<DataLinspace>)
      ensures Build(a, init).Ok? <==> r.Ok?
      ensures r.Err? ==> r.error == Build(a, init).error
      ensures r.Ok? ==> fresh(r.value) && fresh(r.value.base) && r.value.base.parent == null
      ensures r.Ok? ==> r.value.Valid() && r.value.Fields() == Build(a, init).value
    {
      var o := new DataLinspace.Blank();
      var out := o.Init(a, init);
      if out.Fail? {
        return Err(out.error);
      }
      return Ok(o);
    }

    /** `_set_None`: the six own fields, then the inherited ones. */
    method SetNone()
      modifies this, base
      ensures Valid() && base.parent == old(base.parent)
      ensures Fields() == LinspaceFields(PyNone, PyNone, PyNone, PyNone, PyNone, PyNone,
                                         DataClass.DataFields(PyNone, PyNone, PyNone, PyNone))
    {
      var out := SetInitial(PyNone);
      out := SetFinal(PyNone);
      out := SetStep(PyNone);
      out := SetNumber(PyNone);
      out := SetIncludeEndpoint(PyNone);
      out := SetIsComponents(PyNone);
      base.SetNone();
    }

    /** `__eq__`: false for an object of another class; otherwise the
        inherited fields and the six own fields compared with Python `==`. */
    predicate Eq(other: object)
      reads this, base, other, if other is DataLinspace then {(other as DataLinspace).base} else {}
      ensures Eq(other) ==> other is DataLinspace
    {
      other is DataLinspace &&
      var o := other as DataLinspace;
      DataClass.FieldsEq(o.base.Fields(), base.Fields()) &&
      PyEq(o.initial, initial) && PyEq(o.final, final) && PyEq(o.step, step) &&
      PyEq(o.number, number) && PyEq(o.includeEndpoint, includeEndpoint) &&
      PyEq(o.isComponents, isComponents)
    }

    /** `as_dict`: the inherited dictionary extended with the six own fields,
        tagged "DataLinspace". */
    function AsDict(): (d: map<string, Value>)
      reads this, base
      ensures d.Keys == DataClass.FieldKeys + OwnKeys + {"__class__"}
      ensures d["__class__"] == Str("DataLinspace")
      ensures forall k :: k in DataClass.FieldKeys ==> d[k] == base.AsDict()[k]
      ensures d["initial"] == initial && d["final"] == final && d["step"] == step && d["number"] == number
      ensures d["include_endpoint"] == includeEndpoint && d["is_components"] == isComponents
    {
      base.AsDict()["initial" := initial]["final" := final]["step" := step]["number" := number]
                   ["include_endpoint" := includeEndpoint]["is_components" := isComponents]
                   ["__class__" := Str("DataLinspace")]
    }

    /** `get_values`: the axis values rebuilt from the stored fields, in the
        requested unit, with the symmetry treatment the flags select. The
        one-period treatment of an antiperiodic axis rewrites the axis's
        entry of the symmetries dict; nothing else is changed. */
    method GetValues(unit: string, isOnePeriod: bool, isAntiPeriod: bool, isSmallestPeriod: bool)
      returns (r: Result<Signal>)
      modifies base`symmetries
      ensures (r, base.symmetries) == GetValuesSpec(old(Fields()), unit, isOnePeriod, isAntiPeriod, isSmallestPeriod)
    {
      var args :- LinspaceArgs(initial, final, step, number);
      var values := Linspace(args.0, args.1, args.2, includeEndpoint);
      if unit != "SI" && Str(unit) != base.unit {
        values := UnitConverted(values, base.unit, unit);
      }
      if isSmallestPeriod {
        return Ok(values);
      }
      var has :- HasEntry(base.name, base.symmetries);
      if isAntiPeriod {
        if !has {
          return Err(AxisError(NoAntiperiod));
        }
        var anti :- Contains(base.symmetries.entries[base.name.s], "antiperiod");
        if anti {
          return Ok(values);
        }
        return Err(AxisError(NoAntiperiod));
      } else if isOnePeriod {
        if !has {
          return Ok(values);
        }
        var n := base.name.s;
        var entry := base.symmetries.entries[n];
        var anti :- Contains(entry, "antiperiod");
        if anti {
          if entry.NdArray? {
            return Err(IndexError);
          } else if !entry.Dict? {
            return Err(PyTypeError);
          }
          ghost var m := base.symmetries.entries;
          var nper := entry.entries["antiperiod"];
          base.symmetries := Dict(base.symmetries.entries[n := Dict(entry.entries["antiperiod" := Int(2)])]);
          values := Rebuilt(values, base.symmetries.entries[n]);
          var e := base.symmetries.entries[n].entries;
          base.symmetries := Dict(base.symmetries.entries[n := Dict(e - {"antiperiod"})]);
          e := base.symmetries.entries[n].entries;
          base.symmetries := Dict(base.symmetries.entries[n := Dict(e["period" := nper])]);
          assert base.symmetries == Dict(m[n := Dict(AntiperiodToPeriod(entry.entries))]);
          return Ok(values);
        }
        var period :- Contains(entry, "period");
        if period {
          return Ok(values);
        }
        return Err(AxisError(UnknownPeriodicity));
      } else {
        if has {
          values := Rebuilt(values, base.symmetries.entries[base.name.s]);
        }
        return Ok(values);
      }
    }
  }

  /** Dictionary mode is keyword mode with the present keys substituted;
      other keys play no part. */
  lemma InitDictOverridesPresentKeys(a: LinspaceFields, d: map<string, Value>, k: string, v: Value)
    ensures Build(a, Dict(d)) == Build(LinspaceFields(
      if "initial" in d then d["initial"] else a.initial,
      if "final" in d then d["final"] else a.final,
      if "step" in d then d["step"] else a.step,
      if "number" in d then d["number"] else a.number,
      if "include_endpoint" in d then d["include_endpoint"] else a.includeEndpoint,
      if "is_components" in d then d["is_components"] else a.isComponents,
      DataClass.Resolve(a.base, d)), PyNone)
    ensures k !in OwnKeys + DataClass.FieldKeys ==> Build(a, Dict(d[k := v])) == Build(a, Dict(d))
  {
    if k !in OwnKeys + DataClass.FieldKeys {
      assert Resolve(a, d[k := v]) == Resolve(a, d);
    }
  }

  /** `DataLinspace()` has no bounds, step or count, includes its endpoint, is
      not components and has an empty symmetries dict. */
  lemma Defaults()
    ensures Build(DefaultArgs, PyNone)
         == Ok(LinspaceFields(PyNone, PyNone, PyNone, PyNone, Bool(true), Bool(false),
                              DataClass.DataFields(Str(""), Str(""), Str(""), Dict(map[]))))
  {
  }

  /** The setters' declared types: initial, final and step take an int or a
      float, number only an int, the two flags only a bool; the first field
      that fails raises the error naming it. */
  lemma SetterTypes(a: LinspaceFields)
    ensures Build(a.(initial := Int(0), final := Float(1.0), step := Float(0.5)), PyNone).Ok?
         == Build(a.(initial := PyNone, final := PyNone, step := PyNone), PyNone).Ok?
    ensures Build(a.(initial := Str("0")), PyNone) == Err(TypeMismatch("initial", TFloat))
    ensures Acceptable(a.initial, TFloat) ==>
              Build(a.(final := Bool(true)), PyNone) == Err(TypeMismatch("final", TFloat))
    ensures Acceptable(a.initial, TFloat) && Acceptable(a.final, TFloat) && Acceptable(a.step, TFloat) ==>
              Build(a.(number := Float(10.0)), PyNone) == Err(TypeMismatch("number", TInt))
    ensures Acceptable(a.initial, TFloat) && Acceptable(a.final, TFloat) && Acceptable(a.step, TFloat) &&
            Acceptable(a.number, TInt) ==>
              Build(a.(includeEndpoint := Int(1)), PyNone) == Err(TypeMismatch("include_endpoint", TBool))
  {
  }

  /** `as_dict` can be fed back to `__init__`: it rebuilds the same fields. */
  lemma AsDictRoundTrip(x: DataLinspace)
    requires x.Valid()
    ensures Build(DefaultArgs, Dict(x.AsDict())) == Ok(x.Fields())
  {
  }

  /** Objects with the same fields are equal whatever their parents. */
  lemma EqOfSameFields(x: DataLinspace, y: DataLinspace)
    requires x.Fields() == y.Fields()
    ensures x.Eq(y) && y.Eq(x)
  {
    DataClass.EqOfSameFields(x.base, y.base);
    PyEqReflexive(x.initial);
    PyEqReflexive(x.final);
    PyEqReflexive(x.step);
    PyEqReflexive(x.number);
    PyEqReflexive(x.includeEndpoint);
    PyEqReflexive(x.isComponents);
  }

  /** The object rebuilt from `x.as_dict()` compares equal to `x`. */
  lemma RoundTripEq(x: DataLinspace, y: DataLinspace)
    requires x.Valid() && Build(DefaultArgs, Dict(x.AsDict())) == Ok(y.Fields())
    ensures y.Eq(x) && x.Eq(y)
  {
    AsDictRoundTrip(x);
    EqOfSameFields(x, y);
  }

  /** An axis stored by initial, step and number (final None), read in its
      own unit with `is_smallestperiod`, is the linspace from `initial` to
      `initial + (number - 1) * step` with `number` points. */
  lemma GetValuesFromNumber(f: LinspaceFields, i: real, s: real, n: int, isOnePeriod: bool, isAntiPeriod: bool)
    requires Number(f.initial) == Some(i) && Number(f.step) == Some(s)
    requires f.number == Int(n) && f.final.PyNone?
    ensures GetValuesSpec(f, "SI", isOnePeriod, isAntiPeriod, true)
         == (Ok(Linspace(i, i + (n as real - 1.0) * s, n, f.includeEndpoint)), f.base.symmetries)
  {
    assert Truncate(n as real) == n;
    assert FinalFromNumber(i, n as real, s) == i + (n as real - 1.0) * s;
    var values := Linspace(i, i + (n as real - 1.0) * s, n, f.includeEndpoint);
    assert InUnit(values, f.base.unit, "SI") == values;
  }

  /** An axis with neither a count nor a final value, or without an initial
      value, raises TypeError and changes nothing; so does a zero step when
      the count has to be derived. */
  lemma GetValuesErrors(f: LinspaceFields, unit: string, isOnePeriod: bool, isAntiPeriod: bool, isSmallestPeriod: bool)
    ensures f.number.PyNone? && f.final.PyNone? ==>
      GetValuesSpec(f, unit, isOnePeriod, isAntiPeriod, isSmallestPeriod) == (Err(PyTypeError), f.base.symmetries)
    ensures f.initial.PyNone? ==>
      GetValuesSpec(f, unit, isOnePeriod, isAntiPeriod, isSmallestPeriod) == (Err(PyTypeError), f.base.symmetries)
    ensures f.number.PyNone? && Number(f.initial).Some? && Number(f.final).Some? && Number(f.step) == Some(0.0) ==>
      GetValuesSpec(f, unit, isOnePeriod, isAntiPeriod, isSmallestPeriod) == (Err(ZeroDivision), f.base.symmetries)
  {
  }

  /** The one-period rewrite happens at most once: after a successful
      one-period call, a second one returns the (converted) linspace without
      rebuilding it and leaves the symmetries dict as the first call left it. */
  lemma GetValuesOnePeriodTwice(f: LinspaceFields, unit: string)
    requires GetValuesSpec(f, unit, true, false, false).0.Ok?
    ensures var s := GetValuesSpec(f, unit, true, false, false).1;
      var args := LinspaceArgs(f.initial, f.final, f.step, f.number).value;
      GetValuesSpec(f.(base := f.base.(symmetries := s)), unit, true, false, false)
        == (Ok(InUnit(Linspace(args.0, args.1, args.2, f.includeEndpoint), f.base.unit, unit)), s)
  {
    var args := LinspaceArgs(f.initial, f.final, f.step, f.number).value;
    var values := InUnit(Linspace(args.0, args.1, args.2, f.includeEndpoint), f.base.unit, unit);
    OnePeriodSecondCallIsPlain(values, f.base.name, f.base.symmetries);
  }
}
