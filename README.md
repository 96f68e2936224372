# SciDataTool core in Dafny

This project models the core of SciDataTool, a library for scientific fields and their axes:

- **Record classes.** The generated record classes `Data`, `Data1D`, `DataLinspace` and `VectorField`: their constructors (keyword mode and `init_dict` mode), type-checking setters, `_set_None`, `__eq__`, `as_dict` and the `parent` back-reference.
- **Axis values.** The way a `DataLinspace` axis rebuilds its values (`get_values`).
- **Field values.** The way an N-dimensional field converts, normalises or expresses its values in decibels (`DataND.convert`, `DataND.get_magnitude_along`).

Each generated class is a Dafny `class` whose fields the setters update in place. Each setter returns an `Outcome`: `Pass`, or `Fail` with the exception Python would raise.

- **Inheritance.** It becomes composition. A subclass holds the inherited part as the object `base` (a `DataClass.Data`). Its `Init` calls `base.Init` where Python calls `super().__init__`.
- **Pure specifications.** The constructors of `Data`, `Data1D`, `DataLinspace` and the `DataND` stand-in are proved against a pure function `Build`, which gives the stored fields or the first exception in the order the setters run; their `as_dict` round trip through `init_dict` is stated against `Build`. `VectorField` holds objects, so its constructor is stated directly: the resolved arguments (`Resolve`), which component arguments the setter accepts (`Accepts`), what it stores (`Stored`) and which errors it raises (`SetterError`). Its round trip is stated through `__eq__`: the field rebuilt from `as_dict` compares equal to the original.

Python values are the datatype `Values.Value`: None, str, int, float (an exact real), bool, dict, list and a one-dimensional ndarray. `PyEq` is Python's `==` on them, except that an ndarray nested inside a dict or a list is compared element by element (see "## Left out").

- **Type check.** `check_var` is the predicate `Acceptable`: None passes every check, and a float field also accepts an int.
- **Numerical terms.** Numerical results are the symbolic terms of `Signals.Signal`: a linspace, a unit conversion, a symmetry rebuild, an absolute value, a division, a decibel level. Numpy and the unit library are not modelled, but which operation is applied, in which order and to what is.
- **Collaborators.** What the methods receive from collaborators is a parameter: `get_along`'s result, the rendering of values in `__str__`, and the type name of the parent.

`DataND.py` is not part of this model. Its stand-in `DataNDClass.DataND` has the `Data` fields and `normalizations`, which are the only fields `convert` and `get_magnitude_along` read. It is what a `VectorField` component dict builds.

The symmetries property is documented as `:Type: dict` (`SciDataTool/Classes/Data.py:178-184`), yet its setter's `check_var` accepts None, which `_set_None` (`SciDataTool/Classes/Data.py:105-111`) relies on; the model accepts None in every setter.

## Model

| member | source | states |
|---|---|---|
| Values.PyEqReflexive | SciDataTool/Classes/Data.py:83-90 | every modelled field value compares equal to itself, so an object equals one with the same fields |
| Values.PyEqSymmetric | SciDataTool/Classes/Data.py:83-90 | field comparison is symmetric, so `__eq__` on the value fields gives the same answer both ways |
| Values.Contains | SciDataTool/Methods/DataLinspace/get_values.py:47 | `key in container`: key membership for a dict; for a str, True exactly when the key occurs at some position; a list holding the key answers True and one holding no string False; None or a number raises TypeError |
| Values.IsSubstringIffOccurs | SciDataTool/Methods/DataLinspace/get_values.py:47 | the substring test of `in` on strings is true exactly when the key occurs at some position |
| Signals.DivideBy | SciDataTool/Methods/DataND/convert.py:36 | `values / d` succeeds exactly when numpy takes `d` as an operand (a number, or a list or array of numbers) and gives the values scaled by it; anything else raises TypeError |
| Signals.AsOperand | SciDataTool/Methods/DataND/convert.py:36 | a number is a scalar operand, a list or array of numbers an element-wise one; None, a string or a dict is not an operand |
| Signals.Reals | SciDataTool/Methods/DataND/convert.py:36 | an array-like divides element-wise exactly when every element is numeric, and then by those numbers in order |
| Signals.ArrayDivisorBroadcasts | SciDataTool/Methods/DataND/convert.py:36 | dividing by a list of numbers is dividing by the array of them: element by element, by each element's number |
| Values.DictSetter | SciDataTool/Classes/Data.py:171-176 | the setter of a dict field: -1 is stored as an empty dict, a dict or None as given, and anything else raises the type error naming the field |
| DataClass.Build | SciDataTool/Classes/Data.py:43-59 | a constructed `Data` holds values of the declared types in all four fields |
| DataClass.Data.SetSymbol | SciDataTool/Classes/Data.py:117-120 | the symbol setter stores an accepted value and leaves the field unchanged on the type error |
| DataClass.Data.SetName | SciDataTool/Classes/Data.py:135-138 | the same, for name |
| DataClass.Data.SetUnit | SciDataTool/Classes/Data.py:153-156 | the same, for unit |
| DataClass.Data.SetSymmetries | SciDataTool/Classes/Data.py:171-176 | the symmetries setter stores what `DictSetter` yields, or raises its error and changes nothing |
| DataClass.Data.Init | SciDataTool/Classes/Data.py:43-59 | `__init__` fails exactly when `Build` fails, with `Build`'s first error; on success the parent is None and the fields are `Build`'s |
| DataClass.Data.New | SciDataTool/Classes/Data.py:28-59 | the constructor returns a fresh object with `Build`'s fields or raises `Build`'s error |
| DataClass.Data.SetNone | SciDataTool/Classes/Data.py:105-111 | `_set_None` makes every value field None and keeps the parent |
| DataClass.Data.Eq | SciDataTool/Classes/Data.py:78-91 | `__eq__` holds only for another `Data` object; parent is ignored |
| DataClass.Data.AsDict | SciDataTool/Classes/Data.py:93-103 | `as_dict` has exactly the four field keys and "__class__" = "Data", each field under its own key |
| DataClass.InitDictActsAsKeywords | SciDataTool/Classes/Data.py:43-53 | `init_dict` mode is keyword mode with every key present in the dict replacing its argument |
| DataClass.InitDictIgnoresOtherKeys | SciDataTool/Classes/Data.py:43-53 | keys of `init_dict` that are not field names change nothing |
| DataClass.DefaultsAndExamples | SciDataTool/Classes/Data.py:28-59 | `Data()` has empty strings and an empty symmetries dict; an `init_dict` naming only the name differs only in the name; a non-string name raises the type error naming `name` |
| DataClass.AsDictRoundTrip | SciDataTool/Classes/Data.py:93-103 | `Data(init_dict=x.as_dict())` rebuilds exactly the fields of any valid `x` |
| DataClass.EqOfSameFields | SciDataTool/Classes/Data.py:78-91 | objects with the same fields are equal both ways whatever their parents |
| DataClass.RoundTripEq | SciDataTool/Classes/Data.py:78-103 | the object rebuilt from `x.as_dict()` compares equal to `x` both ways |
| DataClass.Data.ToString | SciDataTool/Classes/Data.py:64-76 | `__str__` starts with the parent line and ends with the line separator |
| DataClass.ToStringSplitsIntoFields | SciDataTool/Classes/Data.py:64-76 | splitting `__str__` at the line separator (whose first character occurs in no line) gives back the parent line and one `name = value` line per field in declaration order, then nothing |
| DataClass.SplitTerminated | SciDataTool/Classes/Data.py:64-76 | `split` undoes writing lines each followed by the separator, when the separator's first character occurs in no line |
| Data1DClass.ValuesSetter | SciDataTool/Classes/Data1D.py:197-207 | -1 becomes an empty array, a list becomes the array of its items, an array or None is stored as given, anything else raises the type error for "values" |
| Data1DClass.Build | SciDataTool/Classes/Data1D.py:112-135 | a constructed `Data1D` holds values of the declared types in all its own and inherited fields |
| Data1DClass.Data1D.SetValues | SciDataTool/Classes/Data1D.py:197-207 | the values setter stores what `ValuesSetter` yields or raises its error and changes nothing |
| Data1DClass.Data1D.SetIsComponents | SciDataTool/Classes/Data1D.py:222-225 | `is_components` accepts only a bool or None |
| Data1DClass.Data1D.Init | SciDataTool/Classes/Data1D.py:112-135 | `__init__` fails exactly when `Build` fails, with its error; otherwise the fields are `Build`'s |
| Data1DClass.Data1D.New | SciDataTool/Classes/Data1D.py:91-135 | the constructor returns a fresh object with `Build`'s fields or raises `Build`'s error |
| Data1DClass.Data1D.SetNone | SciDataTool/Classes/Data1D.py:185-191 | `_set_None` makes the own and the inherited fields None |
| Data1DClass.Data1D.Eq | SciDataTool/Classes/Data1D.py:155-168 | `__eq__` holds only for another `Data1D` |
| Data1DClass.Data1D.AsDict | SciDataTool/Classes/Data1D.py:170-183 | `as_dict` extends the inherited dict with the values as a list (None kept) and `is_components`, tagged "Data1D" |
| Data1DClass.InitDictOverridesPresentKeys | SciDataTool/Classes/Data1D.py:114-128 | `init_dict` mode is keyword mode with the present keys substituted; other keys play no part |
| Data1DClass.Defaults | SciDataTool/Classes/Data1D.py:91-101 | `Data1D()` has no values, `is_components` False and an empty symmetries dict |
| Data1DClass.AsDictRoundTrip | SciDataTool/Classes/Data1D.py:170-183 | `Data1D(init_dict=x.as_dict())` rebuilds exactly the fields of any valid `x` |
| Data1DClass.EqOfSameFields | SciDataTool/Classes/Data1D.py:155-168 | objects with the same fields are equal both ways |
| Data1DClass.RoundTripEq | SciDataTool/Classes/Data1D.py:155-183 | the object rebuilt from `x.as_dict()` compares equal to `x` both ways |
| LinspaceAxis.DerivationsAreInverse | SciDataTool/Methods/DataLinspace/get_values.py:29-32 | the number derived from the final value and the final value derived from the number are inverse to each other |
| LinspaceAxis.NumberFromFinal | SciDataTool/Methods/DataLinspace/get_values.py:29 | the derived count places its last point, `step` apart from `initial`, exactly at `final` |
| LinspaceAxis.FinalFromNumber | SciDataTool/Methods/DataLinspace/get_values.py:32 | the derived final value lies `number - 1` steps after `initial`, and deriving the count back from it gives `number` |
| LinspaceAxis.Truncate | SciDataTool/Methods/DataLinspace/get_values.py:36 | `int()` truncates toward zero, also for negative numbers |
| LinspaceAxis.LinspaceArgs | SciDataTool/Methods/DataLinspace/get_values.py:26-36 | the linspace starts at `initial`; without a number it ends at `final`; with one, the count is the truncated number |
| LinspaceAxis.DerivationsAgree | SciDataTool/Methods/DataLinspace/get_values.py:26-36 | whichever of number and final is given, consistent values give the same linspace as giving both |
| LinspaceAxis.InUnitConvertsIff | SciDataTool/Methods/DataLinspace/get_values.py:39-40 | the values are converted exactly when the unit is neither "SI" nor the axis's own unit |
| LinspaceAxis.InUnit | SciDataTool/Methods/DataLinspace/get_values.py:39-40 | the values stay as they are exactly when the unit is "SI" or the axis's own unit, and are converted from the axis's unit otherwise |
| LinspaceAxis.AntiperiodToPeriod | SciDataTool/Methods/DataLinspace/get_values.py:56-60 | after the rewrite the entry has no "antiperiod", its "period" is the old antiperiod, and every other key keeps its value |
| LinspaceAxis.Rebuild | SciDataTool/Methods/DataLinspace/get_values.py:43-73 | the symmetry treatment returns the values or their rebuild; when it raises (TypeError, IndexError or one of the two AxisErrors) the symmetries are untouched |
| LinspaceAxis.OnePeriodIndexesEntry | SciDataTool/Methods/DataLinspace/get_values.py:55-56 | with `is_oneperiod`, an entry holding "antiperiod" that is an array raises IndexError, and one that is a string or a list TypeError, when indexed by that key; the symmetries stay as they were |
| LinspaceAxis.FlagPrecedence | SciDataTool/Methods/DataLinspace/get_values.py:43-53 | `is_smallestperiod` returns the values untouched whatever the other flags; `is_antiperiod` overrides `is_oneperiod` |
| LinspaceAxis.AntiPeriodRequiresAntiperiod | SciDataTool/Methods/DataLinspace/get_values.py:45-52 | with `is_antiperiod` the values come back exactly when the axis's entry holds "antiperiod", and AxisError is raised otherwise |
| LinspaceAxis.OnePeriodTurnsAntiperiodIntoPeriod | SciDataTool/Methods/DataLinspace/get_values.py:55-61 | the axis is rebuilt with antiperiod 2; afterwards its entry's "antiperiod" key is gone and "period" holds the old antiperiod; all else is unchanged |
| LinspaceAxis.OnePeriodOtherCases | SciDataTool/Methods/DataLinspace/get_values.py:53-67 | with `is_oneperiod`, no entry or an entry with a period gives the values back, and an entry with neither key raises AxisError |
| LinspaceAxis.NoFlagRebuildsIffEntry | SciDataTool/Methods/DataLinspace/get_values.py:68-73 | without flags the values are rebuilt with the axis's entry when it has one, and returned as they are otherwise |
| LinspaceAxis.OnlyOnePeriodRewrites | SciDataTool/Methods/DataLinspace/get_values.py:43-73 | only the one-period treatment of an antiperiodic entry changes the symmetries dict |
| LinspaceAxis.OnePeriodSecondCallIsPlain | SciDataTool/Methods/DataLinspace/get_values.py:53-63 | after a one-period rewrite, the same call returns the plain values: the side effect is visible |
| LinspaceAxis.AntiPeriodFailsAfterOnePeriod | SciDataTool/Methods/DataLinspace/get_values.py:45-60 | after a one-period rewrite, asking for the antiperiod of the same axis raises AxisError |
| DataLinspaceClass.StoreOwn | SciDataTool/Classes/DataLinspace.py:148-153 | the six own setters succeed exactly when every value passes its type check, then store the values unchanged; otherwise the first refusing setter, in source order, raises its type error |
| DataLinspaceClass.Build | SciDataTool/Classes/DataLinspace.py:122-157 | a constructed `DataLinspace` holds values of the declared types in all ten fields |
| DataLinspaceClass.DataLinspace.SetInitial | SciDataTool/Classes/DataLinspace.py:230-233 | `initial` accepts a float, an int or None, and anything else raises the type error |
| DataLinspaceClass.DataLinspace.SetFinal | SciDataTool/Classes/DataLinspace.py:248-251 | the same, for `final` |
| DataLinspaceClass.DataLinspace.SetStep | SciDataTool/Classes/DataLinspace.py:266-269 | the same, for `step` |
| DataLinspaceClass.DataLinspace.SetNumber | SciDataTool/Classes/DataLinspace.py:284-287 | `number` accepts an int or None |
| DataLinspaceClass.DataLinspace.SetIncludeEndpoint | SciDataTool/Classes/DataLinspace.py:302-305 | `include_endpoint` accepts a bool or None |
| DataLinspaceClass.DataLinspace.SetIsComponents | SciDataTool/Classes/DataLinspace.py:320-323 | `is_components` accepts a bool or None |
| DataLinspaceClass.DataLinspace.Init | SciDataTool/Classes/DataLinspace.py:124-157 | `__init__` fails exactly when `Build` fails, with its error; otherwise the fields are `Build`'s |
| DataLinspaceClass.DataLinspace.ApplyInitDict | SciDataTool/Classes/DataLinspace.py:124-146 | the ten overrides of `init_dict` mode: each present key replaces its argument |
| DataLinspaceClass.DataLinspace.SetOwn | SciDataTool/Classes/DataLinspace.py:147-153 | the own setters run in order and stop at the first error, storing what `StoreOwn` gives |
| DataLinspaceClass.DataLinspace.New | SciDataTool/Classes/DataLinspace.py:97-157 | the constructor returns a fresh object with `Build`'s fields or raises `Build`'s error |
| DataLinspaceClass.DataLinspace.SetNone | SciDataTool/Classes/DataLinspace.py:214-224 | `_set_None` makes all ten fields None |
| DataLinspaceClass.DataLinspace.Eq | SciDataTool/Classes/DataLinspace.py:175-196 | `__eq__` holds only for another `DataLinspace` |
| DataLinspaceClass.DataLinspace.AsDict | SciDataTool/Classes/DataLinspace.py:198-212 | `as_dict` extends the inherited dict with the six own fields, tagged "DataLinspace" |
| DataLinspaceClass.DataLinspace.GetValues | SciDataTool/Methods/DataLinspace/get_values.py:8-73 | `get_values` returns what the linspace derivation, the unit conversion and the symmetry treatment give, and leaves the symmetries as the treatment rewrites them |
| DataLinspaceClass.GetValuesSpec | SciDataTool/Methods/DataLinspace/get_values.py:26-73 | `get_values` changes the symmetries only when it returns and no flag skips the treatment, and returns only when the linspace arguments can be computed |
| DataLinspaceClass.InitDictOverridesPresentKeys | SciDataTool/Classes/DataLinspace.py:124-146 | `init_dict` mode is keyword mode with the present keys substituted; other keys play no part |
| DataLinspaceClass.Defaults | SciDataTool/Classes/DataLinspace.py:97-111 | `DataLinspace()` has no bounds, includes the endpoint, is not components and has an empty symmetries dict |
| DataLinspaceClass.SetterTypes | SciDataTool/Classes/DataLinspace.py:230-323 | an int is accepted where a float is declared; a string initial, a bool final, a float number or an int `include_endpoint` raises the type error naming that field, in setter order |
| DataLinspaceClass.AsDictRoundTrip | SciDataTool/Classes/DataLinspace.py:198-212 | `DataLinspace(init_dict=x.as_dict())` rebuilds exactly the fields of any valid `x` |
| DataLinspaceClass.EqOfSameFields | SciDataTool/Classes/DataLinspace.py:175-196 | objects with the same fields are equal both ways |
| DataLinspaceClass.RoundTripEq | SciDataTool/Classes/DataLinspace.py:175-212 | the object rebuilt from `x.as_dict()` compares equal to `x` both ways |
| DataLinspaceClass.GetValuesFromNumber | SciDataTool/Methods/DataLinspace/get_values.py:30-36 | with an int number and no final value, the linspace has that many points and ends `number - 1` steps after `initial` |
| DataLinspaceClass.GetValuesErrors | SciDataTool/Methods/DataLinspace/get_values.py:26-36 | neither number nor final raises TypeError; no initial raises TypeError; a derived number with a zero step raises ZeroDivisionError |
| DataLinspaceClass.GetValuesOnePeriodTwice | SciDataTool/Methods/DataLinspace/get_values.py:53-63 | a second one-period call on an object returns the plain linspace, not the rebuilt one |
| DataNDClass.DataND.New | SciDataTool/Classes/VectorField.py:397-400 | a component dict builds a fresh `DataND` with the fields it names, or raises the error of the first setter refusing it |
| DataNDClass.DataND.Eq | SciDataTool/Classes/VectorField.py:321 | component comparison holds only between `DataND` objects |
| DataNDClass.DataND.AsDict | SciDataTool/Classes/VectorField.py:336 | a component's `as_dict` has the `Data` keys and "normalizations", tagged "DataND" |
| DataNDClass.AsDictRoundTrip | SciDataTool/Classes/VectorField.py:336 | a component's `as_dict` builds a component with the same fields |
| DataNDClass.EqOfSameFields | SciDataTool/Classes/VectorField.py:321 | components with the same fields are equal both ways |
| DataNDClass.Build | SciDataTool/Classes/VectorField.py:397-400 | a component built from a dict holds values of the declared types in all its kept fields |
| DataNDClass.DataND.Init | SciDataTool/Classes/VectorField.py:397-400 | building a component fails exactly when `Build` fails, with its error; otherwise the fields are `Build`'s |
| DataNDClass.DataND.SetNormalizations | SciDataTool/Classes/VectorField.py:397-400 | the normalisations setter stores what `DictSetter` yields or raises its error and changes nothing |
| DataNDClass.DivideByRef | SciDataTool/Methods/DataND/convert.py:28-34 | normalising succeeds exactly when normalizations is a dict whose "ref" numpy can divide by (a number or an array-like of numbers), and then divides by it; any failure becomes NormError |
| DataNDClass.InOwnUnit | SciDataTool/Methods/DataND/convert.py:27-34 | in the own unit the values come back unscaled unless normalising, when they are divided; the only error is NormError |
| DataNDClass.NormalizedOrConverted | SciDataTool/Methods/DataND/convert.py:35-38 | for a dict of normalisations, the generic conversion is applied exactly when the unit is not one of its keys, and a key divides instead; the errors are TypeError and AttributeError |
| DataNDClass.Convert | SciDataTool/Methods/DataND/convert.py:27-39 | `convert` returns the values, a division of them or their unit conversion, and raises only NormError, TypeError or AttributeError |
| DataNDClass.ConvertOwnUnit | SciDataTool/Methods/DataND/convert.py:27-34 | in the field's own unit or SI the values are returned as they are, or divided by the "ref" operand when normalising, NormError being raised exactly when there is none |
| DataNDClass.ConvertOtherUnit | SciDataTool/Methods/DataND/convert.py:35-38 | in another unit a normalisation of that name divides the values (TypeError when it is not an operand) and the unit library converts them otherwise; `is_norm` plays no part |
| DataNDClass.ConvertNormOnlyInOwnUnit | SciDataTool/Methods/DataND/convert.py:27-38 | `is_norm` changes the result only in the own unit or SI |
| DataNDClass.ConvertNormErrorOnlyFromRef | SciDataTool/Methods/DataND/convert.py:27-38 | NormError comes only from a missing or non-numeric "ref" when normalising in the own unit or SI |
| DataNDClass.TupleArgumentIsUnwrapped | SciDataTool/Methods/DataND/get_magnitude_along.py:25-27 | calling with one tuple is calling with its items |
| DataNDClass.ReferenceValue | SciDataTool/Methods/DataND/get_magnitude_along.py:41-48 | the decibel reference is 1.0 without a "ref" normalisation, the number for a numeric ref and the array for an array of numbers; a list or any other ref raises TypeError, and normalisations that are not a dict AttributeError |
| DataNDClass.MagnitudeInUnit | SciDataTool/Methods/DataND/get_magnitude_along.py:32-58 | the entry is the magnitude or a transformation of it, and the only errors are NormError, TypeError, AttributeError and UnitError |
| DataNDClass.GetMagnitudeAlong | SciDataTool/Methods/DataND/get_magnitude_along.py:25-60 | an error of `get_along` propagates, and a successful result has exactly the keys `get_along` returned |
| DataNDClass.OnlySymbolEntryReplaced | SciDataTool/Methods/DataND/get_magnitude_along.py:25-60 | only the field's own entry of the returned dict is replaced, with a value derived from its magnitude; a symbol that is not a key raises KeyError |
| DataNDClass.MagnitudeAgreesWithConvert | SciDataTool/Methods/DataND/get_magnitude_along.py:32-58 | outside the decibel units the new entry and the errors are exactly `convert`'s |
| DataNDClass.MagnitudeFirst | SciDataTool/Methods/DataND/get_magnitude_along.py:28-39 | in the own unit or SI without normalisation the entry is the absolute value of the field's values |
| DataNDClass.DecibelReference | SciDataTool/Methods/DataND/get_magnitude_along.py:40-44 | "dB" uses reference 1.0 without a "ref" normalisation, the numeric ref as a scalar, an array ref element by element, and raises TypeError for a list ref |
| DataNDClass.DecibelANeedsFrequencies | SciDataTool/Methods/DataND/get_magnitude_along.py:45-54 | "dBA" raises UnitError without a "freqs" axis and otherwise A-weights with those frequencies |
| VectorFieldClass.InitDictOverridesPresentKeys | SciDataTool/Classes/VectorField.py:279-287 | each of name, symbol and components present in `init_dict` replaces its argument; other keys play no part |
| VectorFieldClass.SetterCases | SciDataTool/Classes/VectorField.py:392-404 | -1, an empty dict and None are accepted; a dict of dicts is accepted exactly when each builds a component; a string, another int or a non-dict entry raises the "{DataND}" type error |
| VectorFieldClass.BuildEntry | SciDataTool/Classes/VectorField.py:396-400 | a component built from a dict entry holds values of the declared types and its name from the dict; building fails only with a type error |
| VectorFieldClass.Accepts | SciDataTool/Classes/VectorField.py:392-404 | the setter accepts only a dict, -1 or None, and a dict of dicts exactly when every entry builds a component |
| VectorFieldClass.VectorField.SetName | SciDataTool/Classes/VectorField.py:352-355 | `name` accepts a string or None and otherwise raises the type error |
| VectorFieldClass.VectorField.SetSymbol | SciDataTool/Classes/VectorField.py:370-373 | the same, for `symbol` |
| VectorFieldClass.VectorField.SetComponents | SciDataTool/Classes/VectorField.py:392-404 | dict entries are built into fresh components; the result is stored exactly when the setter accepts it, and otherwise a failing entry's error or the type error is raised with the field unchanged |
| VectorFieldClass.VectorField.SetEntries | SciDataTool/Classes/VectorField.py:394-404 | a dict of entries is stored, with every dict entry built into a fresh component, exactly when all of them are usable |
| VectorFieldClass.VectorField.ConvertEntries | SciDataTool/Classes/VectorField.py:394-400 | the loop over the entries builds each dict entry into a component and keeps the others, or returns the error of a failing build |
| VectorFieldClass.VectorField.GetComponents | SciDataTool/Classes/VectorField.py:384-390 | reading the components sets each component's parent to the field and changes nothing else |
| VectorFieldClass.VectorField.Init | SciDataTool/Classes/VectorField.py:277-292 | the parent is None and name, symbol and components are set in that order, stopping at the first error |
| VectorFieldClass.VectorField.New | SciDataTool/Classes/VectorField.py:264-292 | the constructor returns a fresh, parentless field, or raises the first failing step's error: a non-dict `init_dict`, then name, then symbol, then the components setter's error |
| VectorFieldClass.VectorField.SetNone | SciDataTool/Classes/VectorField.py:341-346 | `_set_None` makes name, symbol and components None |
| VectorFieldClass.VectorField.Eq | SciDataTool/Classes/VectorField.py:312-323 | equality holds only for another `VectorField` with equal name, symbol and components |
| VectorFieldClass.VectorField.Equals | SciDataTool/Classes/VectorField.py:312-323 | `__eq__` returns `Eq`; when name and symbol match, both components dicts' parents are set to their fields; otherwise no parent of either field changes; no component field changes |
| VectorFieldClass.VectorField.AsDict | SciDataTool/Classes/VectorField.py:325-339 | `as_dict` holds name, symbol and each component's `as_dict` (None kept), tagged "VectorField" |
| VectorFieldClass.ComponentDicts | SciDataTool/Classes/VectorField.py:334-336 | the loop of `as_dict` puts each component's dict under its key |
| VectorFieldClass.EqOfSameFields | SciDataTool/Classes/VectorField.py:312-323 | fields with the same name, symbol and component objects are equal both ways |
| VectorFieldClass.RebuiltComponentEq | SciDataTool/Classes/VectorField.py:397-400 | a component rebuilt from another's `as_dict` compares equal to it |
| VectorFieldClass.RebuiltComponentsAccepted | SciDataTool/Classes/VectorField.py:392-404 | the components dict `as_dict` makes of valid components is accepted by the setter |
| VectorFieldClass.AsDictRoundTrip | SciDataTool/Classes/VectorField.py:325-339 | `VectorField(init_dict=x.as_dict())` succeeds for a valid field and compares equal to it both ways |

## Left out

- Loading from a file (`init_str`, `load_init_dict`), `save`, `copy`, `get_logger` and the import-error wrappers of the methods: these are I/O and plumbing.
- `_freeze` and the closed field set: Dafny classes cannot gain attributes anyway.
- `__str__` of `Data1D`, `DataLinspace` and `VectorField`: only `Data.__str__` is modelled. How a value is rendered and the parent's type name are parameters.
- `check_var` itself is not part of this model. It is the predicate `Acceptable`: None passes, and an int passes for a float. A bool is not accepted as an int.
- `import_class`: every component dict builds a `DataND`, whatever its "__class__" names. An unknown class name is not modelled.
- `DataND.py` is not part of this model. Its stand-in has only the `Data` fields and `normalizations`.
- Values.PyEq: an ndarray inside a dict or a list is compared element by element. Python compares such a nested array with `==` and takes the truth value of the resulting array. That raises ValueError unless the array has exactly one element, and it is skipped when both sides hold the same array object. Making `PyEq` raise would make every `__eq__` a computation that can fail.
- DataClass.Data.Eq: the symmetries are compared with `PyEq`, so two objects whose symmetries hold equal but separate ndarrays compare equal where `Data.__eq__` raises ValueError. `DataClass.EqOfSameFields` and the `__eq__` of `Data1D`, `DataLinspace` and `VectorField`, which all call this comparison, share the gap.
- DataNDClass.DataND.Eq: the normalisations are compared with `PyEq`, so an ndarray "ref" that is not one element long compares element-wise where Python raises ValueError.
- Signals.DivideBy: a divisor whose shape does not broadcast against the values (numpy ValueError) and nested-list divisors are not modelled; an array-like divisor is taken as its flat sequence of numbers.
- Numpy's `linspace` and `abs`, the unit library's `convert`, `to_dB` and `to_dBA`, and `rebuild_symmetries_axis` are symbolic `Signal` terms. Numpy's `array` on a list is the value `NdArray` of the list's items, and `array_equal` is `PyEq` on two arrays. Their numbers are not computed, and errors raised inside them (an unknown unit, a negative point count) are not modelled.
- Floating point: floats are exact reals, so rounding in the derived point count and NaN are not modelled.
- `get_along` is a parameter returning the axes and values (or its error). The `axis_data` argument it receives is folded into it.
- Data1DClass.ValuesSetter: a list always becomes an array, because values are one-dimensional here. A ragged list that numpy refuses is not modelled. The elements keep their types: numpy's dtype unification is not modelled, so `[0, 0.5, 1]` is stored (and returned by `as_dict`) with int elements where numpy makes floats, and `[1, "a"]` keeps the int where numpy makes the string "1". Numeric comparisons are unaffected, since `PyEq` compares ints and floats by value.
- Aliasing of dicts is not modelled, because dicts are values:
  - the components setter writes the built components back into the caller's dict, even when a later entry fails;
  - the default `components={}` is one dict object shared by every call;
  - the symmetries entry that `get_values` rewrites is the object the caller passed in.

  `get_values`' rewrite is modelled as a new dict stored in the symmetries field.
- VectorFieldClass.VectorField.SetComponents: when several entries fail, the error raised is one of theirs rather than the first in insertion order, because maps are unordered.
- VectorFieldClass.SetterCases: a None entry inside the components dict is rejected. The getter's tolerance of None entries therefore never applies.
