/** The generated base class `Data` (SciDataTool/Classes/Data.py): four
    validated fields, a parent back-reference, construction from keyword
    arguments or from a dictionary, `as_dict`, `__eq__`, `_set_None` and
    `__str__`. */
module DataClass {
  import opened Values

  /** The keyword arguments of `Data.__init__`, and the value fields of a
      `Data` object (everything but `parent`). */
  datatype DataFields = DataFields(symbol: Value, name: Value, unit: Value, symmetries: Value)

  /** `Data.__init__`'s defaults: symbol="", name="", unit="", symmetries=-1. */
  const DefaultArgs := DataFields(Str(""), Str(""), Str(""), Int(-1))

  /** The keys `__init__` reads from `init_dict`. */
  const FieldKeys: set<string> := {"symbol", "name", "unit", "symmetries"}

  /** Every field holds a value of its declared type. */
  predicate ValidFields(f: DataFields)
  {
    Acceptable(f.symbol, TStr) && Acceptable(f.name, TStr) &&
    Acceptable(f.unit, TStr) && Acceptable(f.symmetries, TDict)
  }

  /** `__init__`'s dictionary mode: each of the four keys present in the
      dictionary replaces the corresponding argument. */
  function Resolve(a: DataFields, d: map<string, Value>): DataFields
  {
    DataFields(Override(a.symbol, d, "symbol"), Override(a.name, d, "name"),
               Override(a.unit, d, "unit"), Override(a.symmetries, d, "symmetries"))
  }

  /** What `Data(symbol, name, unit, symmetries, init_dict=init)` produces:
      the four fields after the setters ran, or the exception raised. */
  function Build(a: DataFields, init: Value): (r: Result<DataFields>)
    ensures r.Ok? ==> ValidFields(r.value)
  {
    if !(init.PyNone? || init.Dict?) then Err(InitDictNotDict)
    else
      var e := if init.Dict? then Resolve(a, init.entries) else a;
      var symbol :- CheckVar("symbol", e.symbol, TStr);
      var name :- CheckVar("name", e.name, TStr);
      var unit :- CheckVar("unit", e.unit, TStr);
      var symmetries :- DictSetter("symmetries", e.symmetries);
      Ok(DataFields(symbol, name, unit, symmetries))
  }

  /** The value-field part of `__eq__`: `other`'s fields against `self`'s. */
  predicate FieldsEq(other: DataFields, self: DataFields)
  {
    PyEq(other.symbol, self.symbol) && PyEq(other.name, self.name) &&
    PyEq(other.unit, self.unit) && PyEq(other.symmetries, self.symmetries)
  }

  /** Each string followed by the separator, in order. */
  function Terminated(lines: seq<string>, sep: string): string
  {
    if lines == [] then "" else lines[0] + sep + Terminated(lines[1..], sep)
  }

  /** The position of the first occurrence of `sep` in `s`, or `|s|` when it
      does not occur. */
  function Find(s: string, sep: string): (i: nat)
    requires |sep| > 0
    ensures i <= |s|
    ensures i < |s| ==> i + |sep| <= |s| && s[i..i + |sep|] == sep
    decreases |s|
  {
    if |s| < |sep| then |s|
    else if s[..|sep|] == sep then 0
    else 1 + Find(s[1..], sep)
  }

  /** Python's `s.split(sep)`: the pieces between the occurrences of `sep`,
      from left to right. */
  function Split(s: string, sep: string): seq<string>
    requires |sep| > 0
    decreases |s|
  {
    var i := Find(s, sep);
    if i == |s| then [s] else [s[..i]] + Split(s[i + |sep|..], sep)
  }

  class Data {
    var parent: object?
    var symbol: Value
    var name: Value
    var unit: Value
    var symmetries: Value

    function Fields(): DataFields
      reads this
    {
      DataFields(symbol, name, unit, symmetries)
    }

    ghost predicate Valid()
      reads this
    {
      ValidFields(Fields())
    }

    /** The object `__init__` starts from: no field set yet. */
    constructor Blank()
      ensures parent == null && Fields() == DataFields(PyNone, PyNone, PyNone, PyNone)
    {
      parent, symbol, name, unit, symmetries := null, PyNone, PyNone, PyNone, PyNone;
    }

    method SetSymbol(v: Value) returns (out: Outcome)
      modifies this`symbol
      ensures Assigned(CheckVar("symbol", v, TStr), old(symbol), symbol, out)
    {
      out := Pass;
      if Acceptable(v, TStr) { symbol := v; } else { out := Fail(TypeMismatch("symbol", TStr)); }
    }

    method SetName(v: Value) returns (out: Outcome)
      modifies this`name
      ensures Assigned(CheckVar("name", v, TStr), old(name), name, out)
    {
      out := Pass;
      if Acceptable(v, TStr) { name := v; } else { out := Fail(TypeMismatch("name", TStr)); }
    }

    method SetUnit(v: Value) returns (out: Outcome)
      modifies this`unit
      ensures Assigned(CheckVar("unit", v, TStr), old(unit), unit, out)
    {
      out := Pass;
      if Acceptable(v, TStr) { unit := v; } else { out := Fail(TypeMismatch("unit", TStr)); }
    }

    method SetSymmetries(v: Value) returns (out: Outcome)
      modifies this`symmetries
      ensures Assigned(DictSetter("symmetries", v), old(symmetries), symmetries, out)
    {
      var value := v;
      if value == Int(-1) {
        value := Dict(map[]);
      }
      out := Pass;
      if Acceptable(value, TDict) { symmetries := value; } else { out := Fail(TypeMismatch("symmetries", TDict)); }
    }

    /** The body of `__init__`: resolve the arguments against `init_dict`,
        clear `parent`, then store each field through its setter. */
    method Init(a: DataFields, init: Value) returns (out: Outcome)
      modifies this
      ensures Build(a, init).Ok? <==> out == Pass
      ensures Build(a, init).Err? ==> out == Fail(Build(a, init).error)
      ensures out == Pass ==> parent == null && Fields() == Build(a, init).value && Valid()
    {
      if !(init.PyNone? || init.Dict?) {
        return Fail(InitDictNotDict);
      }
      var symbol, name, unit, symmetries := a.symbol, a.name, a.unit, a.symmetries;
      if init.Dict? {
        var d := init.entries;
        if "symbol" in d { symbol := d["symbol"]; }
        if "name" in d { name := d["name"]; }
        if "unit" in d { unit := d["unit"]; }
        if "symmetries" in d { symmetries := d["symmetries"]; }
      }
      parent := null;
      out := SetSymbol(symbol);
      if out.Fail? { return; }
      out := SetName(name);
      if out.Fail? { return; }
      out := SetUnit(unit);
      if out.Fail? { return; }
      out := SetSymmetries(symmetries);
    }

    /** `Data(symbol=…, name=…, unit=…, symmetries=…, init_dict=init)`. */
    static method New(a: DataFields, init: Value) returns (r: Result<Data>)
      ensures Build(a, init).Ok? <==> r.Ok?
      ensures r.Err? ==> r.error == Build(a, init).error
      ensures r.Ok? ==> fresh(r.value) && r.value.parent == null && r.value.Valid()
      ensures r.Ok? ==> r.value.Fields() == Build(a, init).value
    {
      var o := new Data.Blank();
      var out := o.Init(a, init);
      if out.Fail? {
        return Err(out.error);
      }
      return Ok(o);
    }

    /** `_set_None`: every value field to None, through the setters. */
    method SetNone()
      modifies this
      ensures Valid()
      ensures Fields() == DataFields(PyNone, PyNone, PyNone, PyNone) && parent == old(parent)
    {
      var out := SetSymbol(PyNone);
      out := SetName(PyNone);
      out := SetUnit(PyNone);
      out := SetSymmetries(PyNone);
    }

    /** `__eq__`: false for an object of another class, otherwise the four
        value fields compared with Python `==`; `parent` plays no part. */
    predicate Eq(other: object)
      reads this, other
      ensures Eq(other) ==> other is Data
    {
      other is Data && FieldsEq((other as Data).Fields(), Fields())
    }

    /** `as_dict`: the four fields under their own names, tagged "Data". */
    function AsDict(): (d: map<string, Value>)
      reads this
      ensures d.Keys == FieldKeys + {"__class__"}
      ensures d["__class__"] == Str("Data")
    {
      map["symbol" := symbol, "name" := name, "unit" := unit, "symmetries" := symmetries,
          "__class__" := Str("Data")]
    }

    /** `__str__`. `linesep` is the platform's line separator, `parentType`
        stands for `str(type(self.parent))`, `render` for `str` on values other
        than strings and None. */
    function ToString(linesep: string, render: Value -> string, parentType: string): (text: string)
      reads this
      ensures |text| >= 9 && text[..9] == "parent = "
      ensures |linesep| <= |text| && text[|text| - |linesep|..] == linesep
    {
      var s := if parent == null then "parent = None " + linesep
               else "parent = " + parentType + " object" + linesep;
      var s := s + ("symbol = \"" + PyStr(symbol, render) + "\"" + linesep);
      var s := s + ("name = \"" + PyStr(name, render) + "\"" + linesep);
      var s := s + ("unit = \"" + PyStr(unit, render) + "\"" + linesep);
      s + ("symmetries = " + PyStr(symmetries, render) + linesep)
    }

    /** The five lines of `__str__`: the parent, the quoted symbol, name and
        unit, then the symmetries. */
    function StrLines(render: Value -> string, parentType: string): seq<string>
      reads this
    {
      [if parent == null then "parent = None " else "parent = " + parentType + " object",
       "symbol = \"" + PyStr(symbol, render) + "\"",
       "name = \"" + PyStr(name, render) + "\"",
       "unit = \"" + PyStr(unit, render) + "\"",
       "symmetries = " + PyStr(symmetries, render)]
    }
  }

  /** Dictionary mode is keyword mode with the present keys substituted. */
  lemma InitDictActsAsKeywords(a: DataFields, d: map<string, Value>)
    ensures Build(a, Dict(d)) == Build(DataFields(
      if "symbol" in d then d["symbol"] else a.symbol,
      if "name" in d then d["name"] else a.name,
      if "unit" in d then d["unit"] else a.unit,
      if "symmetries" in d then d["symmetries"] else a.symmetries), PyNone)
  {
  }

  /** Keys other than the four fields (such as "__class__") are ignored. */
  lemma InitDictIgnoresOtherKeys(a: DataFields, d: map<string, Value>, k: string, v: Value)
    requires k !in FieldKeys
    ensures Build(a, Dict(d[k := v])) == Build(a, Dict(d))
  {
  }

  /** `Data()` has empty strings and an empty symmetries dict; `Data(init_dict=
      {"name": "Flux"})` differs only in its name; `Data(name=42)` raises the
      type error naming `name`. */
  lemma DefaultsAndExamples()
    ensures Build(DefaultArgs, PyNone) == Ok(DataFields(Str(""), Str(""), Str(""), Dict(map[])))
    ensures Build(DefaultArgs, Dict(map["name" := Str("Flux")]))
         == Ok(DataFields(Str(""), Str("Flux"), Str(""), Dict(map[])))
    ensures Build(DefaultArgs.(name := Int(42)), PyNone) == Err(TypeMismatch("name", TStr))
  {
  }

  /** `as_dict` can be fed back to `__init__`: it rebuilds the same fields. */
  lemma AsDictRoundTrip(x: Data)
    requires x.Valid()
    ensures Build(DefaultArgs, Dict(x.AsDict())) == Ok(x.Fields())
  {
  }

  /** Objects with the same fields are equal whatever their parents. */
  lemma EqOfSameFields(x: Data, y: Data)
    requires x.Fields() == y.Fields()
    ensures x.Eq(y) && y.Eq(x)
  {
    PyEqReflexive(x.symbol);
    PyEqReflexive(x.name);
    PyEqReflexive(x.unit);
    PyEqReflexive(x.symmetries);
  }

  /** The object rebuilt from `x.as_dict()` compares equal to `x`. */
  lemma RoundTripEq(x: Data, y: Data)
    requires x.Valid() && Build(DefaultArgs, Dict(x.AsDict())) == Ok(y.Fields())
    ensures y.Eq(x) && x.Eq(y)
  {
    AsDictRoundTrip(x);
    EqOfSameFields(x, y);
  }

  /** `__str__` is five lines, each ended by `linesep`: the parent, the quoted
      symbol, name and unit, then the symmetries. */
  lemma ToStringLines(x: Data, linesep: string, render: Value -> string, parentType: string)
    ensures x.ToString(linesep, render, parentType) == Terminated(x.StrLines(render, parentType), linesep)
  {
    var lines := x.StrLines(render, parentType);
    var c0, c1, c2, c3, c4 := lines[0] + linesep, lines[1] + linesep, lines[2] + linesep,
                              lines[3] + linesep, lines[4] + linesep;
    assert Terminated(lines[4..], linesep) == c4;
    assert Terminated(lines[3..], linesep) == c3 + c4;
    assert Terminated(lines[2..], linesep) == c2 + (c3 + c4);
    assert Terminated(lines[1..], linesep) == c1 + (c2 + (c3 + c4));
    assert Terminated(lines, linesep) == c0 + (c1 + (c2 + (c3 + c4)));
    calc {
      c0 + (c1 + (c2 + (c3 + c4)));
      { Associative(c2, c3, c4); }
      c0 + (c1 + ((c2 + c3) + c4));
      { Associative(c1, c2 + c3, c4); Associative(c1, c2, c3); }
      c0 + (((c1 + c2) + c3) + c4);
      { Associative(c0, (c1 + c2) + c3, c4); Associative(c0, c1 + c2, c3); Associative(c0, c1, c2); }
      (((c0 + c1) + c2) + c3) + c4;
    }
  }

  lemma Associative(a: string, b: string, c: string)
    ensures (a + b) + c == a + (b + c)
  {
  }

  /** A line in which the separator's first character does not occur ends
      where the first separator after it starts. */
  lemma {:induction false} FindAfterLine(line: string, sep: string, rest: string)
    requires |sep| > 0 && sep[0] !in line
    ensures Find(line + sep + rest, sep) == |line|
    decreases |line|
  {
    var s := line + sep + rest;
    if line == [] {
      assert s[..|sep|] == sep;
    } else {
      assert s[..|sep|][0] == line[0] != sep[0];
      assert s[1..] == line[1..] + sep + rest;
      FindAfterLine(line[1..], sep, rest);
    }
  }

  /** Splitting separator-terminated lines at the separator gives the lines
      back, followed by the empty remainder, when the separator's first
      character occurs in none of them. */
  lemma {:induction false} SplitTerminated(lines: seq<string>, sep: string)
    requires |sep| > 0 && forall j :: 0 <= j < |lines| ==> sep[0] !in lines[j]
    ensures Split(Terminated(lines, sep), sep) == lines + [""]
    decreases |lines|
  {
    if lines != [] {
      var rest := Terminated(lines[1..], sep);
      assert Terminated(lines, sep) == lines[0] + sep + rest;
      FindAfterLine(lines[0], sep, rest);
      assert (lines[0] + sep + rest)[..|lines[0]|] == lines[0];
      assert (lines[0] + sep + rest)[|lines[0]| + |sep|..] == rest;
      SplitTerminated(lines[1..], sep);
      assert lines == [lines[0]] + lines[1..];
    }
  }

  /** `__str__` read back: when the line separator's first character occurs
      in none of the five lines, splitting the text at the separator gives
      the parent line and one `name = value` line per field, in declaration
      order, and nothing after the last separator. */
  lemma ToStringSplitsIntoFields(x: Data, linesep: string, render: Value -> string, parentType: string)
    requires |linesep| > 0
    requires forall j :: 0 <= j < 5 ==> linesep[0] !in x.StrLines(render, parentType)[j]
    ensures var pieces := Split(x.ToString(linesep, render, parentType), linesep);
      && |pieces| == 6 && pieces[5] == ""
      && pieces[..5] == x.StrLines(render, parentType)
      && pieces[1] == "symbol = \"" + PyStr(x.symbol, render) + "\""
      && pieces[4] == "symmetries = " + PyStr(x.symmetries, render)
  {
    ToStringLines(x, linesep, render, parentType);
    SplitTerminated(x.StrLines(render, parentType), linesep);
  }
}
