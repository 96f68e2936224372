/** `DataND`, the N-dimensional field, through the parts the modelled code
    uses: the record the `VectorField` components are (a `Data` with a
    dictionary of normalisations), and the methods `convert`
    (SciDataTool/Methods/DataND/convert.py) and `get_magnitude_along`
    (SciDataTool/Methods/DataND/get_magnitude_along.py). The class file
    DataND.py is not part of this model: its record part follows the
    generator's pattern for a dict field, the only one the methods read. */
module DataNDClass {
  import opened Values
  import opened Signals
  import DataClass

  /** The value fields of a `DataND` object that this model keeps. */
  datatype DataNDFields = DataNDFields(normalizations: Value, base: DataClass.DataFields)

  /** Defaults: normalizations=-1 (an empty dict) and the inherited defaults. */
  const DefaultArgs := DataNDFields(Int(-1), DataClass.DefaultArgs)

  const OwnKeys: set<string> := {"normalizations"}

  predicate ValidFields(f: DataNDFields)
  {
    Acceptable(f.normalizations, TDict) && DataClass.ValidFields(f.base)
  }

  /** What `DataND(normalizations=…, symbol=…, …, init_dict=init)` produces
      for the kept fields: the own setter first, then the inherited ones. */
  function Build(a: DataNDFields, init: Value): (r: Result<DataNDFields>)
    ensures r.Ok? ==> ValidFields(r.value)
  {
    if !(init.PyNone? || init.Dict?) then Err(InitDictNotDict)
    else
      var e := if init.Dict? then DataNDFields(Override(a.normalizations, init.entries, "normalizations"),
                                               DataClass.Resolve(a.base, init.entries))
               else a;
      var normalizations :- DictSetter("normalizations", e.normalizations);
      var base :- DataClass.Build(e.base, PyNone);
      Ok(DataNDFields(normalizations, base))
  }

  class DataND {
    const base: DataClass.Data
    var normalizations: Value

    function Fields(): DataNDFields
      reads this, base
    {
      DataNDFields(normalizations, base.Fields())
    }

    ghost predicate Valid()
      reads this, base
    {
      ValidFields(Fields())
    }

    constructor Blank()
      ensures fresh(base) && base.parent == null
      ensures Fields() == DataNDFields(PyNone, DataClass.DataFields(PyNone, PyNone, PyNone, PyNone))
    {
      base := new DataClass.Data.Blank();
      normalizations := PyNone;
    }

    method SetNormalizations(v: Value) returns (out: Outcome)
      modifies this`normalizations
      ensures Assigned(DictSetter("normalizations", v), old(normalizations), normalizations, out)
    {
      var value := v;
      if value == Int(-1) {
        value := Dict(map[]);
      }
      out := Pass;
      if Acceptable(value, TDict) { normalizations := value; } else { out := Fail(TypeMismatch("normalizations", TDict)); }
    }

    method Init(a: DataNDFields, init: Value) returns (out: Outcome)
      modifies this, base
      ensures Build(a, init).Ok? <==> out == Pass
      ensures Build(a, init).Err? ==> out == Fail(Build(a, init).error)
      ensures out == Pass ==> base.parent == null && Fields() == Build(a, init).value && Valid()
    {
      if !(init.PyNone? || init.Dict?) {
        return Fail(InitDictNotDict);
      }
      var normalizations, baseArgs := a.normalizations, a.base;
      if init.Dict? {
        var d := init.entries;
        if "normalizations" in d { normalizations := d["normalizations"]; }
        if "symbol" in d { baseArgs := baseArgs.(symbol := d["symbol"]); }
        if "name" in d { baseArgs := baseArgs.(name := d["name"]); }
        if "unit" in d { baseArgs := baseArgs.(unit := d["unit"]); }
        if "symmetries" in d { baseArgs := baseArgs.(symmetries := d["symmetries"]); }
      }
      out := SetNormalizations(normalizations);
      if out.Fail? { return; }
      out := base.Init(baseArgs, PyNone);
    }

    /** `DataND(init_dict=init)`, as the components setter of `VectorField`
        calls it on a dict entry. */
    static method New(a: DataNDFields, init: Value) returns (r: Result<DataND>)
      ensures Build(a, init).Ok? <==> r.Ok?
      ensures r.Err? ==> r.error == Build(a, init).error
      ensures r.Ok? ==> fresh(r.value) && fresh(r.value.base) && r.value.base.parent == null
      ensures r.Ok? ==> r.value.Valid() && r.value.Fields() == Build(a, init).value
    {
      var o := new DataND.Blank();
      var out := o.Init(a, init);
      if out.Fail? {
        return Err(out.error);
      }
      return Ok(o);
    }

    /** `__eq__`: same class, inherited fields and normalisations equal. */
    predicate Eq(other: object)
      reads this, base, other, if other is DataND then {(other as DataND).base} else {}
      ensures Eq(other) ==> other is DataND
    {
      other is DataND &&
      var o := other as DataND;
      DataClass.FieldsEq(o.base.Fields(), base.Fields()) && PyEq(o.normalizations, normalizations)
    }

    /** `as_dict`: the inherited dictionary with the normalisations, tagged
        "DataND". */
    function AsDict(): (d: map<string, Value>)
      reads this, base
      ensures d.Keys == DataClass.FieldKeys + OwnKeys + {"__class__"}
      ensures d["__class__"] == Str("DataND")
      ensures forall k :: k in DataClass.FieldKeys ==> d[k] == base.AsDict()[k]
      ensures d["normalizations"] == normalizations
    {
      base.AsDict()["normalizations" := normalizations]["__class__" := Str("DataND")]
    }
  }

  /** `as_dict` can be fed back to `__init__`: it rebuilds the same fields. */
  lemma AsDictRoundTrip(x: DataND)
    requires x.Valid()
    ensures Build(DefaultArgs, Dict(x.AsDict())) == Ok(x.Fields())
  {
  }

  /** Objects with the same fields are equal whatever their parents. */
  lemma EqOfSameFields(x: DataND, y: DataND)
    requires x.Fields() == y.Fields()
    ensures x.Eq(y) && y.Eq(x)
  {
    DataClass.EqOfSameFields(x.base, y.base);
    PyEqReflexive(x.normalizations);
  }

  // ---------------------------------------------------------------------
  // convert and get_magnitude_along

  /** The requested unit is the field's own unit or "SI". */
  predicate OwnOrSI(f: DataNDFields, unit: string)
  {
    Str(unit) == f.base.unit || unit == "SI"
  }

  /** `values / self.normalizations.get("ref")` inside `try … except`: any
      failure (normalisations that are not a dict, no "ref" entry, a
      reference that is neither a number nor an array-like of numbers)
      becomes NormError. */
  function DivideByRef(values: Signal, normalizations: Value): (r: Result<Signal>)
    ensures r.Ok? <==> normalizations.Dict? && "ref" in normalizations.entries &&
                       AsOperand(normalizations.entries["ref"]).Some?
    ensures r.Ok? ==> r == DivideBy(values, normalizations.entries["ref"])
    ensures r.Err? ==> r.error == NormError
  {
    if !normalizations.Dict? then Err(NormError)
    else
      var reference := if "ref" in normalizations.entries then normalizations.entries["ref"] else PyNone;
      match DivideBy(values, reference)
      case Ok(v) => Ok(v)
      case Err(_) => Err(NormError)
  }

  /** The own-unit branch shared by both methods: unscaled, or divided by the
      reference when a normalised result is asked for. */
  function InOwnUnit(values: Signal, normalizations: Value, isNorm: bool): (r: Result<Signal>)
    ensures !isNorm ==> r == Ok(values)
    ensures isNorm && r.Ok? ==> r.value.Scaled? && r.value.src == values
    ensures r.Err? ==> r.error == NormError
  {
    if isNorm then DivideByRef(values, normalizations) else Ok(values)
  }

  /** The last two branches shared by both methods: a unit that is a key of
      the normalisations divides by its entry, any other unit goes through
      the generic conversion. `unit in normalizations` on None raises
      TypeError. */
  function NormalizedOrConverted(values: Signal, ownUnit: Value, normalizations: Value, unit: string): (r: Result<Signal>)
    ensures r.Ok? ==> r.value == UnitConverted(values, ownUnit, unit) || (r.value.Scaled? && r.value.src == values)
    ensures normalizations.Dict? ==> (r == Ok(UnitConverted(values, ownUnit, unit)) <==> unit !in normalizations.entries)
    ensures r.Err? ==> r.error in {PyTypeError, AttributeError}
  {
    match Contains(normalizations, unit)
    case Err(e) => Err(e)
    case Ok(found) =>
      if !found then Ok(UnitConverted(values, ownUnit, unit))
      else if normalizations.Dict? then DivideBy(values, normalizations.entries[unit])
      else Err(AttributeError)  // `.get` on a string or a list
  }

  /** `convert(values, axes_list, unit, is_norm)`; `axes_list` plays no part. */
  function Convert(f: DataNDFields, values: Signal, unit: string, isNorm: bool): (r: Result<Signal>)
    ensures r.Ok? ==> r.value == values || ((r.value.Scaled? || r.value.UnitConverted?) && r.value.src == values)
    ensures r.Err? ==> r.error in {NormError, PyTypeError, AttributeError}
  {
    if OwnOrSI(f, unit) then InOwnUnit(values, f.normalizations, isNorm)
    else NormalizedOrConverted(values, f.base.unit, f.normalizations, unit)
  }

  /** In the field's own unit or in SI, without normalisation, the values come
      back unchanged; with normalisation they are divided by the numeric
      "ref" entry, and NormError is raised exactly when there is none. */
  lemma ConvertOwnUnit(f: DataNDFields, values: Signal, unit: string)
    requires OwnOrSI(f, unit)
    ensures Convert(f, values, unit, false) == Ok(values)
    ensures Convert(f, values, unit, true) == Err(NormError) <==>
      !(f.normalizations.Dict? && "ref" in f.normalizations.entries && AsOperand(f.normalizations.entries["ref"]).Some?)
    ensures f.normalizations.Dict? && "ref" in f.normalizations.entries && AsOperand(f.normalizations.entries["ref"]).Some? ==>
      Convert(f, values, unit, true) == Ok(Scaled(values, AsOperand(f.normalizations.entries["ref"]).value))
  {
  }

  /** Any other unit: a key of the normalisations divides by its entry
      (TypeError if that entry is not a number), any other unit is the
      generic conversion from the field's unit. */
  lemma ConvertOtherUnit(f: DataNDFields, values: Signal, unit: string, isNorm: bool, m: map<string, Value>)
    requires !OwnOrSI(f, unit) && f.normalizations == Dict(m)
    ensures unit in m ==> Convert(f, values, unit, isNorm) == DivideBy(values, m[unit])
    ensures unit in m && AsOperand(m[unit]).Nothing? ==> Convert(f, values, unit, isNorm) == Err(PyTypeError)
    ensures unit !in m ==> Convert(f, values, unit, isNorm) == Ok(UnitConverted(values, f.base.unit, unit))
  {
  }

  /** `is_norm` matters only in the own-unit branch. */
  lemma ConvertNormOnlyInOwnUnit(f: DataNDFields, values: Signal, unit: string)
    ensures !OwnOrSI(f, unit) ==> Convert(f, values, unit, true) == Convert(f, values, unit, false)
    ensures Convert(f, values, unit, true) != Convert(f, values, unit, false) ==> OwnOrSI(f, unit)
  {
  }

  /** NormError comes only from asking for a normalised result in the own
      unit or SI. */
  lemma ConvertNormErrorOnlyFromRef(f: DataNDFields, values: Signal, unit: string, isNorm: bool)
    ensures Convert(f, values, unit, isNorm) == Err(NormError) ==> OwnOrSI(f, unit) && isNorm
  {
    if !OwnOrSI(f, unit) {
      match Contains(f.normalizations, unit)
      case Err(e) =>
        assert e == PyTypeError;
      case Ok(found) =>
        if found && f.normalizations.Dict? {
          assert DivideBy(values, f.normalizations.entries[unit]) != Err(NormError);
        }
    }
  }

  /** An axis request as `get_along` takes it: a string, or a tuple of
      requests when the caller passes its own `*args` on. */
  datatype Arg = Request(s: string) | Tuple(items: seq<Arg>)

  /** A single tuple argument is unwrapped into the argument list. */
  function Unpacked(args: seq<Arg>): (r: seq<Arg>)
    ensures |args| == 1 && args[0].Tuple? ==> r == args[0].items
    ensures !(|args| == 1 && args[0].Tuple?) ==> r == args
  {
    if |args| == 1 && args[0].Tuple? then args[0].items else args
  }

  /** `ref_value = 1.0`, multiplied by the "ref" normalisation when there is
      one. `.keys()` on normalisations that are not a dict raises
      AttributeError. `1.0 * ref` is a number for a numeric ref and an array
      for an array of numbers; a float times a list, or times anything else,
      raises TypeError. */
  function ReferenceValue(normalizations: Value): (r: Result<Operand>)
    ensures !normalizations.Dict? ==> r == Err(AttributeError)
    ensures normalizations.Dict? && "ref" !in normalizations.entries ==> r == Ok(Scalar(1.0))
    ensures normalizations.Dict? && "ref" in normalizations.entries ==>
      var ref := normalizations.entries["ref"];
      && (r.Ok? <==> !ref.List? && AsOperand(ref).Some?)
      && (Number(ref).Some? ==> r == Ok(Scalar(Number(ref).value)))
      && (ref.NdArray? && Reals(ref.elems).Some? ==> r == Ok(Elementwise(Reals(ref.elems).value)))
      && (r.Err? ==> r.error == PyTypeError)
  {
    if !normalizations.Dict? then Err(AttributeError)
    else if "ref" !in normalizations.entries then Ok(Scalar(1.0))
    else
      var ref := normalizations.entries["ref"];
      if ref.List? then Err(PyTypeError)
      else
        match AsOperand(ref)
        case Some(Scalar(x)) => Ok(Scalar(1.0 * x))
        case Some(Elementwise(xs)) =>
          var scaled := seq(|xs|, j requires 0 <= j < |xs| => 1.0 * xs[j]);
          assert scaled == xs;
          Ok(Elementwise(scaled))
        case Nothing => Err(PyTypeError)
  }

  /** Lines 30-58: the magnitude `values` (already taken) in the requested
      unit; `along` is the dict `get_along` returned, whose "freqs" entry the
      A-weighting needs. */
  function MagnitudeInUnit(f: DataNDFields, along: map<string, Signal>, values: Signal,
                           unit: string, isNorm: bool): (r: Result<Signal>)
    ensures r.Ok? ==> r.value == values || (!r.value.Given? && !r.value.Linspace? && r.value.src == values)
    ensures r.Err? ==> r.error in {NormError, PyTypeError, AttributeError, UnitError}
  {
    if OwnOrSI(f, unit) then InOwnUnit(values, f.normalizations, isNorm)
    else if unit == "dB" then
      var reference :- ReferenceValue(f.normalizations);
      Ok(Decibel(values, f.base.unit, reference))
    else if unit == "dBA" then
      var reference :- ReferenceValue(f.normalizations);
      if "freqs" in along then Ok(DecibelA(values, along["freqs"], f.base.unit, reference))
      else Err(UnitError)
    else NormalizedOrConverted(values, f.base.unit, f.normalizations, unit)
  }

  /** `get_magnitude_along(*args, unit, is_norm, axis_data)`. `getAlong`
      stands for `self.get_along(…, axis_data=axis_data)`, which returns the
      requested axes and the field under its symbol, or raises. The field's
      entry is replaced by its magnitude in the requested unit. */
  function GetMagnitudeAlong(f: DataNDFields, getAlong: seq<Arg> -> Result<map<string, Signal>>,
                             args: seq<Arg>, unit: string, isNorm: bool): (r: Result<map<string, Signal>>)
    ensures getAlong(Unpacked(args)).Err? ==> r == Err(getAlong(Unpacked(args)).error)
    ensures r.Ok? ==> getAlong(Unpacked(args)).Ok? && r.value.Keys == getAlong(Unpacked(args)).value.Keys
  {
    var along :- getAlong(Unpacked(args));
    if !(f.base.symbol.Str? && f.base.symbol.s in along) then Err(KeyError(f.base.symbol))
    else
      var values :- MagnitudeInUnit(f, along, Magnitude(along[f.base.symbol.s]), unit, isNorm);
      Ok(along[f.base.symbol.s := values])
  }

  /** Calling with one tuple is calling with its items. */
  lemma TupleArgumentIsUnwrapped(f: DataNDFields, getAlong: seq<Arg> -> Result<map<string, Signal>>,
                                 items: seq<Arg>, unit: string, isNorm: bool)
    requires !(|items| == 1 && items[0].Tuple?)
    ensures GetMagnitudeAlong(f, getAlong, [Tuple(items)], unit, isNorm)
         == GetMagnitudeAlong(f, getAlong, items, unit, isNorm)
  {
  }

  /** On success only the field's own entry is replaced: the dict has the
      keys `get_along` returned, and every other entry is as returned; the
      new entry is derived from the magnitude of the old one. A symbol that
      is not a key raises KeyError. */
  lemma OnlySymbolEntryReplaced(f: DataNDFields, getAlong: seq<Arg> -> Result<map<string, Signal>>,
                                args: seq<Arg>, unit: string, isNorm: bool)
    requires getAlong(Unpacked(args)).Ok?
    ensures var along := getAlong(Unpacked(args)).value;
      var r := GetMagnitudeAlong(f, getAlong, args, unit, isNorm);
      && (!(f.base.symbol.Str? && f.base.symbol.s in along) ==> r == Err(KeyError(f.base.symbol)))
      && (r.Ok? ==> f.base.symbol.Str? && f.base.symbol.s in along &&
                    r.value.Keys == along.Keys &&
                    (forall k :: k in along && k != f.base.symbol.s ==> r.value[k] == along[k]) &&
                    r.value[f.base.symbol.s] ==
                      MagnitudeInUnit(f, along, Magnitude(along[f.base.symbol.s]), unit, isNorm).value)
  {
  }

  /** Outside the decibel units the field's entry is exactly what `convert`
      gives for its magnitude, and the errors are the same: the two methods
      apply the same rules in the same order. */
  lemma MagnitudeAgreesWithConvert(f: DataNDFields, along: map<string, Signal>, values: Signal,
                                   unit: string, isNorm: bool)
    requires OwnOrSI(f, unit) || (unit != "dB" && unit != "dBA")
    ensures MagnitudeInUnit(f, along, values, unit, isNorm) == Convert(f, values, unit, isNorm)
  {
  }

  /** In the own unit or SI without normalisation the entry is the plain
      magnitude: the magnitude is taken before any unit handling. */
  lemma MagnitudeFirst(f: DataNDFields, along: map<string, Signal>, unit: string)
    requires OwnOrSI(f, unit) && f.base.symbol.Str? && f.base.symbol.s in along
    ensures GetMagnitudeAlong(f, _ => Ok(along), [], unit, false)
         == Ok(along[f.base.symbol.s := Magnitude(along[f.base.symbol.s])])
  {
  }

  /** Decibels (unless "dB" is the field's own unit): the reference is 1.0
      without a "ref" normalisation and that normalisation otherwise (an
      array reference applies element by element, a list one raises
      TypeError). The
      decibel branches come before the normalisation table, so a "dB" or
      "dBA" key in it is never used. */
  lemma DecibelReference(f: DataNDFields, along: map<string, Signal>, values: Signal, isNorm: bool, m: map<string, Value>)
    requires !OwnOrSI(f, "dB") && f.normalizations == Dict(m)
    ensures "ref" !in m ==> MagnitudeInUnit(f, along, values, "dB", isNorm) == Ok(Decibel(values, f.base.unit, Scalar(1.0)))
    ensures "ref" in m && Number(m["ref"]).Some? ==>
      MagnitudeInUnit(f, along, values, "dB", isNorm) == Ok(Decibel(values, f.base.unit, Scalar(Number(m["ref"]).value)))
    ensures "ref" in m && m["ref"].NdArray? && Reals(m["ref"].elems).Some? ==>
      MagnitudeInUnit(f, along, values, "dB", isNorm) == Ok(Decibel(values, f.base.unit, Elementwise(Reals(m["ref"].elems).value)))
    ensures "ref" in m && m["ref"].List? ==> MagnitudeInUnit(f, along, values, "dB", isNorm) == Err(PyTypeError)
  {
  }

  /** A-weighted decibels need the frequencies: without a "freqs" entry in
      what `get_along` returned, UnitError is raised (once the reference is
      known); with one, the A-weighting uses it. */
  lemma DecibelANeedsFrequencies(f: DataNDFields, along: map<string, Signal>, values: Signal, isNorm: bool)
    requires !OwnOrSI(f, "dBA") && ReferenceValue(f.normalizations).Ok?
    ensures "freqs" !in along ==> MagnitudeInUnit(f, along, values, "dBA", isNorm) == Err(UnitError)
    ensures "freqs" in along ==>
      MagnitudeInUnit(f, along, values, "dBA", isNorm)
        == Ok(DecibelA(values, along["freqs"], f.base.unit, ReferenceValue(f.normalizations).value))
  {
  }
}
