/** numpy arrays computed by numerical code outside this model, as terms that
    record which operation produced them. Two results are equal exactly when
    the same operations were applied to the same operands, so a contract can
    say which conversion a branch applies without modelling floating point. */
module Signals {
  import opened Values

  /** The right operand of an arithmetic operator on an array: a number, or
      an array of numbers that numpy broadcasts element by element. */
  datatype Operand = Scalar(x: real) | Elementwise(xs: seq<real>)

  datatype Signal =
    | Given(id: nat)                                        // an array handed in by the caller
    | Linspace(start: real, stop: real, num: int, endpoint: Value)
    | UnitConverted(src: Signal, fromUnit: Value, toUnit: string)
    | Rebuilt(src: Signal, symmetry: Value)                 // rebuild_symmetries_axis
    | Magnitude(src: Signal)                                // numpy abs
    | Scaled(src: Signal, divisor: Operand)                 // values / divisor
    | Decibel(src: Signal, unit: Value, reference: Operand) // to_dB
    | DecibelA(src: Signal, freqs: Signal, unit: Value, reference: Operand)  // to_dBA

  /** The numbers a sequence of Python values stands for, when every one of
      them is numeric. */
  function Reals(xs: seq<Value>): (r: Option<seq<real>>)
    ensures r.Some? <==> forall j :: 0 <= j < |xs| ==> Number(xs[j]).Some?
    ensures r.Some? ==> |r.value| == |xs| && forall j :: 0 <= j < |xs| ==> Some(r.value[j]) == Number(xs[j])
  {
    if xs == [] then Some([])
    else
      match Number(xs[0])
      case Nothing => Nothing
      case Some(x) =>
        match Reals(xs[1..])
        case Nothing => Nothing
        case Some(rest) => Some([x] + rest)
  }

  /** How numpy takes a Python value as the right operand of `/` on an
      array: a number as a scalar, a list or an array of numbers as an array
      to broadcast. Anything else (None, a string, a dict, a list holding a
      non-number) makes the operator raise TypeError. */
  function AsOperand(d: Value): (r: Option<Operand>)
    ensures Number(d).Some? ==> r == Some(Scalar(Number(d).value))
    ensures r.Some? && r.value.Elementwise? ==>
      (d.List? || d.NdArray?) && Reals(if d.List? then d.items else d.elems) == Some(r.value.xs)
    ensures d.List? && Reals(d.items).Some? ==> r == Some(Elementwise(Reals(d.items).value))
    ensures d.NdArray? && Reals(d.elems).Some? ==> r == Some(Elementwise(Reals(d.elems).value))
    ensures d.List? && r.Nothing? ==> exists j :: 0 <= j < |d.items| && Number(d.items[j]).Nothing?
    ensures d.NdArray? && r.Nothing? ==> exists j :: 0 <= j < |d.elems| && Number(d.elems[j]).Nothing?
    ensures (d.PyNone? || d.Str? || d.Dict?) ==> r == Nothing
  {
    match d
    case List(xs) => (match Reals(xs) case Some(ys) => Some(Elementwise(ys)) case Nothing => Nothing)
    case NdArray(xs) => (match Reals(xs) case Some(ys) => Some(Elementwise(ys)) case Nothing => Nothing)
    case _ => (match Number(d) case Some(x) => Some(Scalar(x)) case Nothing => Nothing)
  }

  /** `values / d` where `d` is a Python value: a number or an array-like of
      numbers divides, anything else raises TypeError. (Division of an array
      by zero gives infinities in numpy rather than an exception.) */
  function DivideBy(values: Signal, d: Value): (r: Result<Signal>)
    ensures r.Ok? <==> AsOperand(d).Some?
    ensures r.Ok? ==> r.value == Scaled(values, AsOperand(d).value)
    ensures r.Err? ==> r.error == PyTypeError
  {
    match AsOperand(d)
    case Some(x) => Ok(Scaled(values, x))
    case Nothing => Err(PyTypeError)
  }

  /** A list or an array divisor is divided by element by element: the
      divisors are exactly its elements' numbers, in order. */
  lemma ArrayDivisorBroadcasts(values: Signal, xs: seq<Value>)
    requires forall j :: 0 <= j < |xs| ==> Number(xs[j]).Some?
    ensures DivideBy(values, List(xs)) == DivideBy(values, NdArray(xs))
    ensures DivideBy(values, List(xs)).Ok?
    ensures var op := DivideBy(values, List(xs)).value.divisor;
      op.Elementwise? && |op.xs| == |xs| &&
      forall j :: 0 <= j < |xs| ==> Some(op.xs[j]) == Number(xs[j])
  {
  }
}
