/** The value-level steps of `DataLinspace.get_values`
    (SciDataTool/Methods/DataLinspace/get_values.py): which of `number` and
    `final` is derived, the linspace call, the unit conversion and the choice
    of symmetry treatment. The method itself, which also rewrites the
    symmetries dict, is `DataLinspaceClass.DataLinspace.GetValues`. */
module LinspaceAxis {
  import opened Values
  import opened Signals

  /** `number = (final - initial + step) / step`: the count of points `step`
      apart from `initial` to `final`, both included. */
  function NumberFromFinal(initial: real, final: real, step: real): (n: real)
    requires step != 0.0
    ensures initial + (n - 1.0) * step == final
  {
    (final - initial + step) / step
  }

  /** `final = initial + (number - 1) * step`: the last of `number` points
      `step` apart from `initial`. */
  function FinalFromNumber(initial: real, number: real, step: real): (f: real)
    ensures step != 0.0 ==> (f - initial + step) / step == number
    ensures f - initial == (number - 1.0) * step
  {
    initial + (number - 1.0) * step
  }

  /** Over exact arithmetic the two derivations undo each other, in both
      orders. */
  lemma DerivationsAreInverse(initial: real, final: real, number: real, step: real)
    requires step != 0.0
    ensures FinalFromNumber(initial, NumberFromFinal(initial, final, step), step) == final
    ensures NumberFromFinal(initial, FinalFromNumber(initial, number, step), step) == number
  {
    var n := NumberFromFinal(initial, final, step);
    assert n * step == final - initial + step;
    assert (n - 1.0) * step == n * step - step;
    var f := FinalFromNumber(initial, number, step);
    assert f - initial + step == number * step;
    assert (number * step) / step == number;
  }

  /** Python `int(x)` on a float: truncation toward zero. */
  function Truncate(x: real): (n: int)
    ensures 0.0 <= x ==> n as real <= x < n as real + 1.0
    ensures x < 0.0 ==> n as real - 1.0 < x <= n as real
  {
    if 0.0 <= x then x.Floor else -((-x).Floor)
  }

  /** Lines 26-36: start, stop and count of the linspace call. When `number`
      is None it is derived from `final`; otherwise, when `final` is None, it
      is derived from `number`; otherwise both are taken as stored. Arithmetic
      on None raises TypeError and a zero step ZeroDivisionError. */
  function LinspaceArgs(initial: Value, final: Value, step: Value, number: Value): (r: Result<(real, real, int)>)
    ensures r.Ok? ==> Number(initial) == Some(r.value.0)
    ensures r.Ok? && number.PyNone? ==> Number(final) == Some(r.value.1)
    ensures r.Ok? && !number.PyNone? ==> Number(number).Some? && r.value.2 == Truncate(Number(number).value)
  {
    if number.PyNone? then
      if Number(final).Nothing? || Number(initial).Nothing? || Number(step).Nothing? then Err(PyTypeError)
      else if Number(step).value == 0.0 then Err(ZeroDivision)
      else
        var i, f, s := Number(initial).value, Number(final).value, Number(step).value;
        Ok((i, f, Truncate(NumberFromFinal(i, f, s))))
    else if final.PyNone? then
      if Number(initial).Nothing? || Number(number).Nothing? || Number(step).Nothing? then Err(PyTypeError)
      else
        var i, n, s := Number(initial).value, Number(number).value, Number(step).value;
        Ok((i, FinalFromNumber(i, n, s), Truncate(n)))
    else
      if Number(initial).Nothing? || Number(final).Nothing? || Number(number).Nothing? then Err(PyTypeError)
      else Ok((Number(initial).value, Number(final).value, Truncate(Number(number).value)))
  }

  /** An axis stored with both ends and a consistent count gives the same
      linspace call as the same axis stored without its count or without its
      final value. */
  lemma DerivationsAgree(initial: real, final: real, step: real, number: int)
    requires step != 0.0 && number as real == NumberFromFinal(initial, final, step)
    ensures LinspaceArgs(Float(initial), Float(final), Float(step), PyNone) == Ok((initial, final, number))
    ensures LinspaceArgs(Float(initial), PyNone, Float(step), Int(number)) == Ok((initial, final, number))
    ensures LinspaceArgs(Float(initial), Float(final), Float(step), Int(number)) == Ok((initial, final, number))
  {
    DerivationsAreInverse(initial, final, number as real, step);
  }

  /** Lines 39-40: the conversion to the requested unit. */
  function InUnit(values: Signal, ownUnit: Value, unit: string): (r: Signal)
    ensures r == values <==> (unit == "SI" || Str(unit) == ownUnit)
    ensures r != values ==> r == UnitConverted(values, ownUnit, unit)
  {
    if unit != "SI" && Str(unit) != ownUnit then UnitConverted(values, ownUnit, unit) else values
  }

  /** The axis is converted exactly when the requested unit is neither "SI"
      nor the axis's own unit, and is otherwise returned as it is. */
  lemma InUnitConvertsIff(values: Signal, ownUnit: Value, unit: string)
    ensures InUnit(values, ownUnit, unit) == UnitConverted(values, ownUnit, unit) <==> (unit != "SI" && Str(unit) != ownUnit)
    ensures !(unit != "SI" && Str(unit) != ownUnit) ==> InUnit(values, ownUnit, unit) == values
  {
  }

  /** `self.name in self.symmetries`. A name that is not a string is never a
      key of the (string-keyed) dict; symmetries that are not a dict (None
      after `_set_None`) raise TypeError. */
  function HasEntry(name: Value, symmetries: Value): (r: Result<bool>)
    ensures r.Ok? <==> symmetries.Dict?
    ensures r == Ok(true) <==> symmetries.Dict? && name.Str? && name.s in symmetries.entries
  {
    if !symmetries.Dict? then Err(PyTypeError)
    else Ok(name.Str? && name.s in symmetries.entries)
  }

  const NoAntiperiod := "ERROR: axis has no antiperiodicity"
  const UnknownPeriodicity := "ERROR: unknown periodicity"

  /** The symmetries entry after the one-period rewrite of lines 56-60: the
      antiperiod is removed and becomes the period. */
  function AntiperiodToPeriod(entry: map<string, Value>): (r: map<string, Value>)
    requires "antiperiod" in entry
    ensures r.Keys == entry.Keys - {"antiperiod"} + {"period"}
    ensures r["period"] == entry["antiperiod"]
    ensures forall k :: k in entry && k != "antiperiod" && k != "period" ==> r[k] == entry[k]
  {
    (entry["antiperiod" := Int(2)] - {"antiperiod"})["period" := entry["antiperiod"]]
  }

  /** Lines 43-73: the symmetry treatment the flags select, given the
      (converted) linspace. Returns the result or the exception, and the
      symmetries dict afterwards. */
  function Rebuild(values: Signal, name: Value, symmetries: Value,
                   isOnePeriod: bool, isAntiPeriod: bool, isSmallestPeriod: bool): (r: (Result<Signal>, Value))
    ensures r.0.Ok? ==> r.0.value == values || (r.0.value.Rebuilt? && r.0.value.src == values)
    ensures r.0.Err? ==> r.1 == symmetries
    ensures r.0.Err? ==> r.0.error in {PyTypeError, IndexError, AxisError(NoAntiperiod), AxisError(UnknownPeriodicity)}
  {
    if isSmallestPeriod then (Ok(values), symmetries)
    else
      match HasEntry(name, symmetries)
      case Err(e) => (Err(e), symmetries)
      case Ok(has) =>
        if isAntiPeriod then
          if !has then (Err(AxisError(NoAntiperiod)), symmetries)
          else
            match Contains(symmetries.entries[name.s], "antiperiod")
            case Err(e) => (Err(e), symmetries)
            case Ok(anti) => (if anti then Ok(values) else Err(AxisError(NoAntiperiod)), symmetries)
        else if isOnePeriod then
          if !has then (Ok(values), symmetries)
          else
            var entry := symmetries.entries[name.s];
            match Contains(entry, "antiperiod")
            case Err(e) => (Err(e), symmetries)
            case Ok(anti) =>
              if anti then
                if entry.NdArray? then (Err(IndexError), symmetries)  // `entry["antiperiod"]` on an array
                else if !entry.Dict? then (Err(PyTypeError), symmetries)  // `entry["antiperiod"]` on a str or list
                else
                  (Ok(Rebuilt(values, Dict(entry.entries["antiperiod" := Int(2)]))),
                   Dict(symmetries.entries[name.s := Dict(AntiperiodToPeriod(entry.entries))]))
              else
                match Contains(entry, "period")
                case Err(e) => (Err(e), symmetries)
                case Ok(period) => (if period then Ok(values) else Err(AxisError(UnknownPeriodicity)), symmetries)
        else
          (if has then Ok(Rebuilt(values, symmetries.entries[name.s])) else Ok(values), symmetries)
  }

  /** `is_smallestperiod` wins over the other flags and returns the linspace
      without any symmetry treatment; `is_antiperiod` comes next, whatever
      `is_oneperiod` says. */
  lemma FlagPrecedence(values: Signal, name: Value, symmetries: Value, isOnePeriod: bool, isAntiPeriod: bool)
    ensures Rebuild(values, name, symmetries, isOnePeriod, isAntiPeriod, true) == (Ok(values), symmetries)
    ensures Rebuild(values, name, symmetries, isOnePeriod, true, false) == Rebuild(values, name, symmetries, false, true, false)
  {
  }

  /** With `is_antiperiod` the linspace comes back exactly when the axis has
      a symmetries entry containing "antiperiod"; a missing entry or one
      without it raises AxisError. Nothing is rewritten. */
  lemma AntiPeriodRequiresAntiperiod(values: Signal, name: Value, m: map<string, Value>, isOnePeriod: bool)
    ensures var r := Rebuild(values, name, Dict(m), isOnePeriod, true, false);
      && r.1 == Dict(m)
      && (r.0 == Ok(values) <==> name.Str? && name.s in m && Contains(m[name.s], "antiperiod") == Ok(true))
      && (!(name.Str? && name.s in m) ==> r.0 == Err(AxisError(NoAntiperiod)))
      && (name.Str? && name.s in m && Contains(m[name.s], "antiperiod") == Ok(false) ==> r.0 == Err(AxisError(NoAntiperiod)))
  {
  }

  /** With `is_oneperiod` and an antiperiodic entry, the axis is rebuilt with
      the antiperiod set to 2, and afterwards the entry has no "antiperiod"
      key and its "period" is the old antiperiod; every other key of the
      entry and every other entry of the dict is unchanged. */
  lemma OnePeriodTurnsAntiperiodIntoPeriod(values: Signal, n: string, m: map<string, Value>, e: map<string, Value>)
    requires n in m && m[n] == Dict(e) && "antiperiod" in e
    ensures var r := Rebuild(values, Str(n), Dict(m), true, false, false);
      && r.0 == Ok(Rebuilt(values, Dict(e["antiperiod" := Int(2)])))
      && r.1.Dict? && r.1.entries.Keys == m.Keys
      && (forall k :: k in m && k != n ==> r.1.entries[k] == m[k])
      && r.1.entries[n].Dict?
      && var after := r.1.entries[n].entries;
         && after.Keys == e.Keys - {"antiperiod"} + {"period"}
         && after["period"] == e["antiperiod"]
         && (forall k :: k in e && k != "antiperiod" && k != "period" ==> after[k] == e[k])
  {
  }

  /** With `is_oneperiod`: no entry for the axis gives the linspace back; an
      entry with neither "antiperiod" nor "period" raises AxisError; an entry
      with a period only gives the linspace back. None of these rewrites the
      dict. */
  lemma OnePeriodOtherCases(values: Signal, name: Value, m: map<string, Value>)
    ensures !(name.Str? && name.s in m) ==>
      Rebuild(values, name, Dict(m), true, false, false) == (Ok(values), Dict(m))
    ensures name.Str? && name.s in m && m[name.s].Dict? &&
            "antiperiod" !in m[name.s].entries && "period" !in m[name.s].entries ==>
      Rebuild(values, name, Dict(m), true, false, false) == (Err(AxisError(UnknownPeriodicity)), Dict(m))
    ensures name.Str? && name.s in m && m[name.s].Dict? &&
            "antiperiod" !in m[name.s].entries && "period" in m[name.s].entries ==>
      Rebuild(values, name, Dict(m), true, false, false) == (Ok(values), Dict(m))
  {
  }

  /** With `is_oneperiod`, an entry that holds "antiperiod" without being a
      dict cannot be indexed by that key: an array raises IndexError, a
      string or a list TypeError, and the symmetries are left as they were. */
  lemma OnePeriodIndexesEntry(values: Signal, name: string, m: map<string, Value>)
    requires name in m && Contains(m[name], "antiperiod") == Ok(true)
    ensures m[name].NdArray? ==>
      Rebuild(values, Str(name), Dict(m), true, false, false) == (Err(IndexError), Dict(m))
    ensures (m[name].Str? || m[name].List?) ==>
      Rebuild(values, Str(name), Dict(m), true, false, false) == (Err(PyTypeError), Dict(m))
  {
  }

  /** With no flag the linspace is rebuilt exactly when the axis has a
      symmetries entry, and with that entry. */
  lemma NoFlagRebuildsIffEntry(values: Signal, name: Value, m: map<string, Value>)
    ensures var r := Rebuild(values, name, Dict(m), false, false, false);
      && r.1 == Dict(m)
      && (name.Str? && name.s in m ==> r.0 == Ok(Rebuilt(values, m[name.s])))
      && (!(name.Str? && name.s in m) ==> r.0 == Ok(values))
  {
  }

  /** Only the one-period treatment of an antiperiodic entry changes the
      symmetries dict. */
  lemma OnlyOnePeriodRewrites(values: Signal, name: Value, symmetries: Value,
                              isOnePeriod: bool, isAntiPeriod: bool, isSmallestPeriod: bool)
    ensures var r := Rebuild(values, name, symmetries, isOnePeriod, isAntiPeriod, isSmallestPeriod);
      r.1 != symmetries ==>
        isOnePeriod && !isAntiPeriod && !isSmallestPeriod && r.0.Ok? &&
        symmetries.Dict? && name.Str? && name.s in symmetries.entries &&
        symmetries.entries[name.s].Dict? && "antiperiod" in symmetries.entries[name.s].entries
  {
  }

  /** A successful one-period treatment leaves a dict on which the same
      treatment returns the linspace as it is and rewrites nothing: the
      rewritten entry has a period and no antiperiod. */
  lemma OnePeriodSecondCallIsPlain(values: Signal, name: Value, symmetries: Value)
    requires Rebuild(values, name, symmetries, true, false, false).0.Ok?
    ensures var s := Rebuild(values, name, symmetries, true, false, false).1;
      Rebuild(values, name, s, true, false, false) == (Ok(values), s)
  {
    var s := Rebuild(values, name, symmetries, true, false, false).1;
    if s != symmetries {
      var n := name.s;
      var e := symmetries.entries[n].entries;
      var after := AntiperiodToPeriod(e);
      assert s.entries[n] == Dict(after);
      assert "antiperiod" !in after && "period" in after;
      assert Contains(Dict(after), "antiperiod") == Ok(false);
      assert Contains(Dict(after), "period") == Ok(true);
    }
  }
  /** The rewrite persists: once a one-period treatment has turned the
      antiperiod into a period, an antiperiodic treatment of the same axis
      raises AxisError. */
  lemma AntiPeriodFailsAfterOnePeriod(values: Signal, name: Value, symmetries: Value, isOnePeriod: bool)
    requires Rebuild(values, name, symmetries, true, false, false).1 != symmetries
    ensures var s := Rebuild(values, name, symmetries, true, false, false).1;
      Rebuild(values, name, s, isOnePeriod, true, false) == (Err(AxisError(NoAntiperiod)), s)
  {
    var s := Rebuild(values, name, symmetries, true, false, false).1;
    var after := AntiperiodToPeriod(symmetries.entries[name.s].entries);
    assert s.entries[name.s] == Dict(after);
    assert "antiperiod" !in after;
    assert Contains(Dict(after), "antiperiod") == Ok(false);
  }
}
