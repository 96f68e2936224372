/** The generated class `VectorField` (SciDataTool/Classes/VectorField.py): a
    named field made of `DataND` components keyed by component name. Its
    components setter turns dict entries into `DataND` objects, and its
    getter makes every component point back to the field; `as_dict` and
    `__eq__` read the components through that getter. */
module VectorFieldClass {
  import opened Values
  import DataClass
  import DataNDClass

  /** An entry of the dict given to the components setter: a `DataND` object
      or any other Python value (a dict to build one from, in particular). */
  datatype Entry = Component(nd: DataNDClass.DataND) | Plain(v: Value)

  /** What is given to the components setter: a dict whose entries may
      already be objects, or a plain Python value (which, when it is a dict,
      stands for the dict of its entries). */
  datatype ComponentsArg = Objects(entries: map<string, Entry>) | Given(v: Value)

  /** The keyword arguments of `VectorField.__init__`. */
  datatype VectorFieldArgs = VectorFieldArgs(name: Value, symbol: Value, components: ComponentsArg)

  /** `VectorField.__init__`'s defaults: name="", symbol="", components={}. */
  const DefaultArgs := VectorFieldArgs(Str(""), Str(""), Objects(map[]))

  /** `__init__`'s dictionary mode: "name", "symbol" and "components" present
      in `init_dict` replace the arguments. */
  function Resolve(a: VectorFieldArgs, init: Value): VectorFieldArgs
  {
    if !init.Dict? then a
    else
      var d := init.entries;
      VectorFieldArgs(Override(a.name, d, "name"), Override(a.symbol, d, "symbol"),
                      if "components" in d then Given(d["components"]) else a.components)
  }

  /** The entries of the setter's argument when it is a dict. */
  function EntriesOf(arg: ComponentsArg): (r: Option<map<string, Entry>>)
    ensures arg.Objects? ==> r == Some(arg.entries)
    ensures arg.Given? ==> (r.Some? <==> arg.v.Dict?)
    ensures arg.Given? && arg.v.Dict? ==>
      r.value.Keys == arg.v.entries.Keys && forall k :: k in arg.v.entries ==> r.value[k] == Plain(arg.v.entries[k])
  {
    match arg
    case Objects(m) => Some(m)
    case Given(v) => if v.Dict? then Some(map k | k in v.entries :: Plain(v.entries[k])) else Nothing
  }

  /** `class_obj(init_dict=obj)` on a dict entry. */
  function BuildEntry(d: map<string, Value>): (r: Result<DataNDClass.DataNDFields>)
    ensures r.Ok? ==> DataNDClass.ValidFields(r.value)
    ensures r.Err? ==> r.error.TypeMismatch?
    ensures r.Ok? && "name" in d && d["name"].Str? ==> r.value.base.name == d["name"]
  {
    DataNDClass.Build(DataNDClass.DefaultArgs, Dict(d))
  }

  /** A dict entry whose object cannot be built. */
  predicate BuildFails(e: Entry)
  {
    e.Plain? && e.v.Dict? && BuildEntry(e.v.entries).Err?
  }

  /** An entry that ends up as a `DataND` object: one already, or a dict
      it is built from. */
  predicate Usable(e: Entry)
  {
    e.Component? || (e.v.Dict? && BuildEntry(e.v.entries).Ok?)
  }

  /** The setter stores the argument: a dict all of whose entries are or
      become `DataND` objects, -1 (an empty dict) or None. */
  predicate Accepts(arg: ComponentsArg)
    ensures Accepts(arg) ==> arg.Objects? || arg.v.Dict? || arg.v == Int(-1) || arg.v.PyNone?
    ensures arg.Given? && arg.v.Dict? ==>
      (Accepts(arg) <==> forall k :: k in arg.v.entries ==> arg.v.entries[k].Dict? && BuildEntry(arg.v.entries[k].entries).Ok?)
  {
    match EntriesOf(arg)
    case Some(m) => AllUsable(m)
    case Nothing => arg.v == Int(-1) || arg.v.PyNone?
  }

  predicate AllUsable(m: map<string, Entry>)
  {
    forall k :: k in m ==> Usable(m[k])
  }

  /** The errors the setter may raise on a rejected argument: the error of an
      entry whose object cannot be built (the first in iteration order), or,
      when every object could be built, the type error. */
  predicate SetterError(arg: ComponentsArg, e: Error)
  {
    match EntriesOf(arg)
    case Some(m) => EntriesError(m, e)
    case Nothing => e == TypeMismatch("components", TDataNDDict)
  }

  predicate EntriesError(m: map<string, Entry>, e: Error)
  {
    if exists k :: k in m && BuildFails(m[k])
    then exists k :: k in m && BuildFails(m[k]) && e == BuildEntry(m[k].v.entries).error
    else e == TypeMismatch("components", TDataNDDict)
  }

  /** The objects of a components dict and their inherited parts. */
  function Footprint(c: Option<map<string, DataNDClass.DataND>>): set<object>
  {
    if c.Nothing? then {}
    else (set k | k in c.value :: c.value[k] as object) + (set k | k in c.value :: c.value[k].base as object)
  }

  /** The objects an entry refers to. */
  function EntryFootprint(x: Entry): set<object>
  {
    if x.Component? then {x.nd, x.nd.base} else {}
  }

  /** The setter's loop on one entry: a `DataND` object stays as it is, a
      dict is replaced by a new object built from it, any other value stays. */
  twostate predicate Converted(e: Entry, new x: Entry)
    reads EntryFootprint(x)
  {
    match e
    case Component(nd) => x == e
    case Plain(v) =>
      if v.Dict? then
        x.Component? && BuildEntry(v.entries).Ok? &&
        fresh(x.nd) && fresh(x.nd.base) && x.nd.base.parent == null &&
        x.nd.Valid() && x.nd.Fields() == BuildEntry(v.entries).value
      else x == e
  }

  /** What the setter stores for an accepted argument: each entry converted
      as the loop does it (so every entry is an object); -1 as an empty
      dict; None as None. */
  twostate predicate Stored(arg: ComponentsArg, new c: Option<map<string, DataNDClass.DataND>>)
    reads Footprint(c)
  {
    match EntriesOf(arg)
    case Some(m) => StoredEntries(m, c)
    case Nothing => c == (if arg.v == Int(-1) then Some(map[]) else Nothing)
  }

  twostate predicate StoredEntries(m: map<string, Entry>, new c: Option<map<string, DataNDClass.DataND>>)
    reads Footprint(c)
  {
    c.Some? && c.value.Keys == m.Keys &&
    forall k :: k in m ==> Converted(m[k], Component(c.value[k]))
  }

  /** Two components dicts compare equal: both None, or the same keys with
      equal objects under each key. */
  predicate ComponentsEq(a: Option<map<string, DataNDClass.DataND>>, b: Option<map<string, DataNDClass.DataND>>)
    reads Footprint(a), Footprint(b)
  {
    match a
    case Nothing => b.Nothing?
    case Some(x) => b.Some? && x.Keys == b.value.Keys && forall k :: k in x ==> x[k].Eq(b.value[k])
  }

  /** The `as_dict` of every component, under its key. */
  function ComponentsAsDict(m: map<string, DataNDClass.DataND>): map<string, Value>
    reads Footprint(Some(m))
  {
    map k | k in m :: Dict(m[k].AsDict())
  }

  class VectorField {
    var parent: object?
    var name: Value
    var symbol: Value
    var components: Option<map<string, DataNDClass.DataND>>

    ghost predicate Valid()
      reads this
    {
      Acceptable(name, TStr) && Acceptable(symbol, TStr)
    }

    /** Every component holds values of its fields' declared types. */
    ghost predicate ComponentsValid()
      reads this, Footprint(components)
    {
      components.Some? ==> forall k :: k in components.value ==> components.value[k].Valid()
    }

    /** The parts of the components that reading `components` rewires. */
    function Bases(): set<DataClass.Data>
      reads this
    {
      if components.Nothing? then {} else set k | k in components.value :: components.value[k].base
    }

    constructor Blank()
      ensures parent == null && name == PyNone && symbol == PyNone && components == Nothing
    {
      parent, name, symbol, components := null, PyNone, PyNone, Nothing;
    }

    method SetName(v: Value) returns (out: Outcome)
      modifies this`name
      ensures Assigned(CheckVar("name", v, TStr), old(name), name, out)
    {
      out := Pass;
      if Acceptable(v, TStr) { name := v; } else { out := Fail(TypeMismatch("name", TStr)); }
    }

    method SetSymbol(v: Value) returns (out: Outcome)
      modifies this`symbol
      ensures Assigned(CheckVar("symbol", v, TStr), old(symbol), symbol, out)
    {
      out := Pass;
      if Acceptable(v, TStr) { symbol := v; } else { out := Fail(TypeMismatch("symbol", TStr)); }
    }

    /** `_set_components`: every dict entry of a dict argument is replaced by
        a `DataND` built from it; -1 becomes an empty dict; what results must
        be None or a dict of `DataND` objects. A failure leaves the field as
        it was. */
    method SetComponents(arg: ComponentsArg) returns (out: Outcome)
      modifies this`components
      ensures out == Pass <==> Accepts(arg)
      ensures out.Fail? ==> SetterError(arg, out.error) && components == old(components)
      ensures out == Pass ==> Stored(arg, components)
    {
      var entries := EntriesOf(arg);
      if entries.Nothing? {
        if arg.v == Int(-1) {
          components := Some(map[]);
          return Pass;
        } else if arg.v.PyNone? {
          components := Nothing;
          return Pass;
        }
        return Fail(TypeMismatch("components", TDataNDDict));
      }
      out := SetEntries(entries.value);
    }

    /** The components setter on a dict argument. */
    method SetEntries(m: map<string, Entry>) returns (out: Outcome)
      modifies this`components
      ensures out == Pass <==> AllUsable(m)
      ensures out.Fail? ==> EntriesError(m, out.error) && components == old(components)
      ensures out == Pass ==> StoredEntries(m, components)
    {
      var converted := ConvertEntries(m);
      if converted.Err? {
        return Fail(converted.error);
      }
      var value := converted.value;
      if exists k :: k in value && value[k].Plain? {
        ghost var k :| k in value && value[k].Plain?;
        assert !Usable(m[k]);
        return Fail(TypeMismatch("components", TDataNDDict));
      }
      assert forall k :: k in m ==> Usable(m[k]);
      components := Some(map k | k in value :: value[k].nd);
      assert forall k :: k in m ==> value[k] == Component(components.value[k]);
      out := Pass;
    }

    /** The loop of the components setter: every dict entry replaced by an
        object built from it, or the error of the first that cannot be
        built. */
    static method ConvertEntries(m: map<string, Entry>) returns (r: Result<map<string, Entry>>)
      ensures r.Err? <==> exists k :: k in m && BuildFails(m[k])
      ensures r.Err? ==> exists k :: k in m && BuildFails(m[k]) && r.error == BuildEntry(m[k].v.entries).error
      ensures r.Ok? ==> r.value.Keys == m.Keys && forall k :: k in m ==> Converted(m[k], r.value[k])
    {
      var value := m;
      var pending := m.Keys;
      while pending != {}
        invariant pending <= m.Keys && value.Keys == m.Keys
        invariant forall k :: k in pending ==> value[k] == m[k]
        invariant forall k :: k in m && k !in pending ==> !BuildFails(m[k]) && Converted(m[k], value[k])
        decreases pending
      {
        var k :| k in pending;
        var entry := m[k];
        if entry.Plain? && entry.v.Dict? {
          var built := DataNDClass.DataND.New(DataNDClass.DefaultArgs, entry.v);
          if built.Err? {
            return Err(built.error);
          }
          value := value[k := Component(built.value)];
        }
        pending := pending - {k};
      }
      return Ok(value);
    }

    /** `_get_components`: every component's parent becomes this field; the
        dict itself and the components' fields are returned unchanged. */
    method GetComponents() returns (r: Option<map<string, DataNDClass.DataND>>)
      modifies Bases()
      ensures r == components
      ensures r.Some? ==> forall k :: k in r.value ==> r.value[k].base.parent == this
      ensures r.Some? ==> forall k :: k in r.value ==>
        r.value[k].base.Fields() == old(r.value[k].base.Fields()) &&
        r.value[k].normalizations == old(r.value[k].normalizations)
    {
      r := components;
      if r.Some? {
        var m := r.value;
        var pending := m.Keys;
        while pending != {}
          invariant pending <= m.Keys
          invariant forall k :: k in m && k !in pending ==> m[k].base.parent == this
          invariant forall k :: k in m ==> m[k].base.Fields() == old(m[k].base.Fields())
          decreases pending
        {
          var k :| k in pending;
          m[k].base.parent := this;
          pending := pending - {k};
        }
      }
    }

    /** The body of `__init__`: resolve the arguments against `init_dict`,
        clear `parent`, then store name, symbol and components through their
        setters, stopping at the first that raises. */
    method Init(a: VectorFieldArgs, init: Value) returns (out: Outcome)
      modifies this
      ensures !(init.PyNone? || init.Dict?) ==> out == Fail(InitDictNotDict)
      ensures var e := Resolve(a, init);
        (init.PyNone? || init.Dict?) ==>
          && (out == Pass <==> Acceptable(e.name, TStr) && Acceptable(e.symbol, TStr) && Accepts(e.components))
          && (!Acceptable(e.name, TStr) ==> out == Fail(TypeMismatch("name", TStr)))
          && (Acceptable(e.name, TStr) && !Acceptable(e.symbol, TStr) ==> out == Fail(TypeMismatch("symbol", TStr)))
          && (Acceptable(e.name, TStr) && Acceptable(e.symbol, TStr) && out.Fail? ==> SetterError(e.components, out.error))
      ensures out == Pass ==>
        var e := Resolve(a, init);
        parent == null && name == e.name && symbol == e.symbol && Stored(e.components, components) && Valid()
    {
      if !(init.PyNone? || init.Dict?) {
        return Fail(InitDictNotDict);
      }
      var name, symbol, components := a.name, a.symbol, a.components;
      if init.Dict? {
        var d := init.entries;
        if "name" in d { name := d["name"]; }
        if "symbol" in d { symbol := d["symbol"]; }
        if "components" in d { components := Given(d["components"]); }
      }
      parent := null;
      out := SetName(name);
      if out.Fail? { return; }
      out := SetSymbol(symbol);
      if out.Fail? { return; }
      out := SetComponents(components);
    }

    /** `VectorField(name=…, symbol=…, components=…, init_dict=init)`. */
    static method New(a: VectorFieldArgs, init: Value) returns (r: Result<VectorField>)
      ensures var e := Resolve(a, init);
        r.Ok? <==> (init.PyNone? || init.Dict?) && Acceptable(e.name, TStr) && Acceptable(e.symbol, TStr) && Accepts(e.components)
      ensures var e := Resolve(a, init);
        r.Ok? ==>
          && fresh(r.value) && r.value.parent == null && r.value.Valid()
          && r.value.name == e.name && r.value.symbol == e.symbol && Stored(e.components, r.value.components)
      ensures !(init.PyNone? || init.Dict?) ==> r == Err(InitDictNotDict)
      ensures var e := Resolve(a, init);
        (init.PyNone? || init.Dict?) ==>
          && (!Acceptable(e.name, TStr) ==> r == Err(TypeMismatch("name", TStr)))
          && (Acceptable(e.name, TStr) && !Acceptable(e.symbol, TStr) ==> r == Err(TypeMismatch("symbol", TStr)))
          && (Acceptable(e.name, TStr) && Acceptable(e.symbol, TStr) && r.Err? ==> SetterError(e.components, r.error))
    {
      var o := new VectorField.Blank();
      var out := o.Init(a, init);
      if out.Fail? {
        return Err(out.error);
      }
      return Ok(o);
    }

    /** `_set_None`: name, symbol and components to None. */
    method SetNone()
      modifies this
      ensures name == PyNone && symbol == PyNone && components == Nothing && parent == old(parent)
    {
      var out := SetName(PyNone);
      out := SetSymbol(PyNone);
      out := SetComponents(Given(PyNone));
    }

    /** Name, symbol and components compared with `==`, for an object of the
        same class; `parent` plays no part. */
    predicate Eq(other: object)
      reads this, other, Footprint(components),
            if other is VectorField then Footprint((other as VectorField).components) else {}
      ensures Eq(other) ==> other is VectorField
    {
      other is VectorField &&
      var o := other as VectorField;
      PyEq(o.name, name) && PyEq(o.symbol, symbol) && ComponentsEq(o.components, components)
    }

    /** `__eq__`. The comparison stops at the first field that differs; only
        when it reaches the components does it read them through the getter,
        the other field's first, which rewires both sets of parents. */
    method Equals(other: object) returns (b: bool)
      modifies Bases(), if other is VectorField then (other as VectorField).Bases() else {}
      ensures b == Eq(other)
      ensures other is VectorField && PyEq((other as VectorField).name, name) &&
              PyEq((other as VectorField).symbol, symbol) ==>
        (components.Some? ==> forall k :: k in components.value ==> components.value[k].base.parent == this) &&
        var o := other as VectorField;
        o.components.Some? ==> forall k :: k in o.components.value ==>
          o.components.value[k].base.parent == o || o.components.value[k].base in Bases()
      ensures !(other is VectorField && PyEq((other as VectorField).name, name) &&
                PyEq((other as VectorField).symbol, symbol)) ==>
        (forall c: DataClass.Data :: c in Bases() ==> c.parent == old(c.parent)) &&
        (other is VectorField ==> forall c: DataClass.Data :: c in (other as VectorField).Bases() ==> c.parent == old(c.parent))
      ensures forall c: DataClass.Data :: c in Bases() ==> c.Fields() == old(c.Fields())
      ensures other is VectorField ==>
        forall c: DataClass.Data :: c in (other as VectorField).Bases() ==> c.Fields() == old(c.Fields())
    {
      if !(other is VectorField) {
        return false;
      }
      var o := other as VectorField;
      if !PyEq(o.name, name) || !PyEq(o.symbol, symbol) {
        return false;
      }
      var theirs := o.GetComponents();
      var ours := GetComponents();
      b := ComponentsEq(theirs, ours);
    }

    /** `as_dict`: name, symbol, the `as_dict` of every component under its
        key (None staying None), tagged "VectorField". The components are read
        through the getter, which rewires their parents. */
    method AsDict() returns (d: map<string, Value>)
      modifies Bases()
      ensures d.Keys == {"name", "symbol", "components", "__class__"}
      ensures d["name"] == name && d["symbol"] == symbol && d["__class__"] == Str("VectorField")
      ensures components.Nothing? ==> d["components"] == PyNone
      ensures components.Some? ==> d["components"] == Dict(ComponentsAsDict(components.value))
      ensures components.Some? ==> forall k :: k in components.value ==>
        components.value[k].base.parent == this &&
        components.value[k].Fields() == old(components.value[k].Fields())
    {
      d := map["name" := name, "symbol" := symbol];
      var c := GetComponents();
      if c.Nothing? {
        d := d["components" := PyNone];
      } else {
        var nested := ComponentDicts(c.value);
        d := d["components" := Dict(nested)];
      }
      d := d["__class__" := Str("VectorField")];
    }
  }

  /** The loop of `as_dict` over the components: each one's `as_dict` under
      its key. */
  method ComponentDicts(m: map<string, DataNDClass.DataND>) returns (nested: map<string, Value>)
    ensures nested == ComponentsAsDict(m)
  {
    nested := map[];
    var pending := m.Keys;
    while pending != {}
      invariant pending <= m.Keys
      invariant nested.Keys == m.Keys - pending
      invariant forall k :: k in nested ==> nested[k] == ComponentsAsDict(m)[k]
      decreases pending
    {
      var k :| k in pending;
      nested := nested[k := Dict(m[k].AsDict())];
      pending := pending - {k};
    }
  }

  /** Dictionary mode: each of "name", "symbol" and "components" present in
      `init_dict` replaces its argument, an absent one keeps it, and other
      keys play no part. */
  lemma InitDictOverridesPresentKeys(a: VectorFieldArgs, d: map<string, Value>, k: string, v: Value)
    ensures Resolve(a, Dict(d)).name == (if "name" in d then d["name"] else a.name)
    ensures Resolve(a, Dict(d)).symbol == (if "symbol" in d then d["symbol"] else a.symbol)
    ensures Resolve(a, Dict(d)).components == (if "components" in d then Given(d["components"]) else a.components)
    ensures k !in {"name", "symbol", "components"} ==> Resolve(a, Dict(d[k := v])) == Resolve(a, Dict(d))
  {
  }

  /** The components setter's normalisations: -1 stores an empty dict, an
      empty dict is accepted, a dict whose entries are dicts is accepted
      exactly when each of them builds a `DataND`, and a non-dict entry, a
      string or a number other than -1 is rejected with the type error. */
  lemma SetterCases(m: map<string, Value>, k: string, s: string)
    ensures Accepts(Given(Int(-1))) && Accepts(Given(Dict(map[]))) && Accepts(Given(PyNone))
    ensures Accepts(Given(Dict(m))) <==> forall j :: j in m ==> m[j].Dict? && BuildEntry(m[j].entries).Ok?
    ensures !Accepts(Given(Str(s))) && !Accepts(Given(Int(0)))
    ensures k in m && !m[k].Dict? && (forall j :: j in m && m[j].Dict? ==> BuildEntry(m[j].entries).Ok?) ==>
      forall e :: SetterError(Given(Dict(m)), e) <==> e == TypeMismatch("components", TDataNDDict)
  {
    var entries := EntriesOf(Given(Dict(m)));
    if k in m && !m[k].Dict? && (forall j :: j in m && m[j].Dict? ==> BuildEntry(m[j].entries).Ok?) {
      assert !Usable(entries.value[k]);
      assert !exists j :: j in entries.value && BuildFails(entries.value[j]);
    }
  }

  /** Fields with the same name, symbol and component objects are equal,
      whatever their parents. */
  lemma EqOfSameFields(x: VectorField, y: VectorField)
    requires x.name == y.name && x.symbol == y.symbol && x.components == y.components
    ensures x.Eq(y) && y.Eq(x)
  {
    PyEqReflexive(x.name);
    PyEqReflexive(x.symbol);
    if x.components.Some? {
      var m := x.components.value;
      forall k | k in m ensures m[k].Eq(m[k]) {
        DataNDClass.EqOfSameFields(m[k], m[k]);
      }
    }
  }

  /** A rebuilt component is equal to the component whose `as_dict` it was
      built from. */
  lemma RebuiltComponentEq(x: DataNDClass.DataND, y: DataNDClass.DataND)
    requires x.Valid() && y.Fields() == BuildEntry(x.AsDict()).value
    ensures y.Eq(x) && x.Eq(y)
  {
    DataNDClass.AsDictRoundTrip(x);
    DataNDClass.EqOfSameFields(x, y);
  }

  /** `VectorField(init_dict=x.as_dict())` succeeds for a field whose values
      have their declared types, and compares equal to `x` in both
      directions. */
  method AsDictRoundTrip(x: VectorField) returns (y: VectorField)
    requires x.Valid() && x.ComponentsValid()
    modifies x.Bases()
    ensures fresh(y) && y.parent == null && y.Eq(x) && x.Eq(y)
  {
    var d := x.AsDict();
    assert x.ComponentsValid();
    RebuiltComponentsAccepted(x.components);
    var r := VectorField.New(DefaultArgs, Dict(d));
    y := r.value;
    PyEqReflexive(x.name);
    PyEqReflexive(x.symbol);
    if x.components.Some? {
      var m, n := x.components.value, y.components.value;
      forall k | k in m ensures n[k].Eq(m[k]) && m[k].Eq(n[k]) {
        assert Converted(Plain(Dict(m[k].AsDict())), Component(n[k]));
        RebuiltComponentEq(m[k], n[k]);
      }
    }
  }

  /** The dict `as_dict` makes of valid components is accepted by the
      components setter. */
  lemma RebuiltComponentsAccepted(c: Option<map<string, DataNDClass.DataND>>)
    requires c.Some? ==> forall k :: k in c.value ==> c.value[k].Valid()
    ensures Accepts(Given(if c.Some? then Dict(ComponentsAsDict(c.value)) else PyNone))
  {
    if c.Some? {
      var m := c.value;
      var entries := EntriesOf(Given(Dict(ComponentsAsDict(m)))).value;
      forall k | k in entries ensures Usable(entries[k]) {
        DataNDClass.AsDictRoundTrip(m[k]);
      }
    }
  }
}
