/**
  The parameter guard that admits a Lotka-Volterra configuration into the
  kernel: an ordered chain of checks where the first failing check decides
  the message, and a front-end for loosely typed key-value bundles.

  Inputs arrive untyped (form fields, a JSON body), so each value is a
  `Field`: absent (`None`), a number, or some other Python object. Comparing
  a non-number with `0` raises `TypeError`; the positional validator lets it
  escape, the dictionary front-end turns it into a failed verdict.
 */
module Validators {

  const MaxTime: real := 300.0
  const MinTime: real := 5.0
  const MaxPopulation: real := 5000.0

  const RequiredMsg := "⛔ ERROR: Todos los campos son obligatorios."
  const NegativeMsg := "⛔ ERROR BIOLÓGICO: No se aceptan valores negativos."
  const ZeroDivisorMsg := "⛔ ERROR MATEMÁTICO: Beta y Delta no pueden ser 0 (División por cero)."
  // The three alerts below embed MAX_TIME, MIN_TIME and MAX_POPULATION as Python formats them.
  const MaxTimeMsg := "⚠️ ALERTA: Tiempo máximo excedido (Límite: 300)."
  const MinTimeMsg := "⚠️ ALERTA: El tiempo es muy corto para simular (Mínimo: 5)."
  const PopulationMsg := "⚠️ ALERTA: Poblaciones iniciales demasiado altas (Máximo: 5000)."
  const InvalidPrefix := "⛔ ERROR: Parámetros inválidos o faltantes - "

  /** A loosely typed input value: `None`, a number, or an object of another Python type. */
  datatype Field = Missing | Num(value: real) | NonNumeric(typeName: string)

  /** The pair `(is_valid, error_message)` returned to callers. */
  datatype Verdict = Verdict(ok: bool, message: string)

  /** What a call to the positional validator does: return a verdict, or raise `TypeError`. */
  datatype Outcome = Returned(verdict: Verdict) | RaisedTypeError(detail: string)

  /** The words of the `TypeError` Python raises for `x < 0` when `x` is of type `typeName`. */
  function CompareError(typeName: string): string {
    "'<' not supported between instances of '" + typeName + "' and 'int'"
  }

  /** Result of `any(x < 0 for x in xs)`, which stops at the first negative number
      and raises at the first value that cannot be compared with 0. */
  datatype Scan = NoneNegative | FoundNegative | ScanRaised(detail: string)

  function TypeNameOf(f: Field): string {
    match f
    case Missing => "NoneType"
    case Num(_) => "float"
    case NonNumeric(t) => t
  }

  /** The first value of `xs` that is not a non-negative number. */
  predicate StopsAt(xs: seq<Field>, i: int) {
    && 0 <= i < |xs|
    && !(xs[i].Num? && xs[i].value >= 0.0)
    && forall j :: 0 <= j < i ==> xs[j].Num? && xs[j].value >= 0.0
  }

  function NegativeScan(xs: seq<Field>): (r: Scan)
    ensures r.NoneNegative? <==> forall i :: 0 <= i < |xs| ==> xs[i].Num? && xs[i].value >= 0.0
    ensures r.FoundNegative? <==> exists i :: StopsAt(xs, i) && xs[i].Num?
    ensures r.ScanRaised? <==> exists i :: StopsAt(xs, i) && !xs[i].Num?
  {
    if xs == [] then NoneNegative
    else
      var r := match xs[0]
        case Num(v) => if v < 0.0 then FoundNegative else NegativeScan(xs[1..])
        case _ => ScanRaised(CompareError(TypeNameOf(xs[0])));
      assert StopsAt(xs, 0) ==> !r.NoneNegative? by {
        if StopsAt(xs, 0) { assert !(xs[0].Num? && xs[0].value >= 0.0); }
      }
      assert xs[0].Num? && xs[0].value >= 0.0 ==>
          forall i :: StopsAt(xs[1..], i) <==> StopsAt(xs, i + 1) by {
        if xs[0].Num? && xs[0].value >= 0.0 {
          forall i ensures StopsAt(xs[1..], i) <==> StopsAt(xs, i + 1) {
            StopsAtTail(xs, i);
          }
        }
      }
      r
  }

  lemma StopsAtTail(xs: seq<Field>, i: int)
    requires |xs| > 0 && xs[0].Num? && xs[0].value >= 0.0
    ensures StopsAt(xs[1..], i) <==> StopsAt(xs, i + 1)
  {
    if StopsAt(xs, i + 1) {
      assert forall j :: 0 <= j < i ==> xs[1..][j] == xs[j + 1];
    }
    if StopsAt(xs[1..], i) {
      forall j | 0 <= j < i + 1 ensures xs[j].Num? && xs[j].value >= 0.0 {
        if j > 0 { assert xs[j] == xs[1..][j - 1]; }
      }
    }
  }

  /** The seven values in the order `validate_inputs` lists them. */
  function Fields(a: Field, b: Field, d: Field, g: Field, p0: Field, d0: Field, tmax: Field): (xs: seq<Field>)
    ensures |xs| == 7
  {
    [a, b, d, g, p0, d0, tmax]
  }

  /** `validate_inputs`: the ordered chain of checks. */
  function ValidateInputs(a: Field, b: Field, d: Field, g: Field, p0: Field, d0: Field, tmax: Field): (r: Outcome)
    ensures r.Returned? && !r.verdict.ok ==> r.verdict.message != ""
    ensures r.Returned? && r.verdict.ok ==> r.verdict.message == ""
  {
    var xs := Fields(a, b, d, g, p0, d0, tmax);
    if Missing in xs then Returned(Verdict(false, RequiredMsg))
    else match NegativeScan(xs)
      case ScanRaised(e) => RaisedTypeError(e)
      case FoundNegative => Returned(Verdict(false, NegativeMsg))
      case NoneNegative =>
        assert xs[1] == b && xs[2] == d && xs[4] == p0 && xs[5] == d0 && xs[6] == tmax;
        if b.value == 0.0 || d.value == 0.0 then Returned(Verdict(false, ZeroDivisorMsg))
        else if tmax.value > MaxTime then Returned(Verdict(false, MaxTimeMsg))
        else if tmax.value < MinTime then Returned(Verdict(false, MinTimeMsg))
        else if p0.value > MaxPopulation || d0.value > MaxPopulation then Returned(Verdict(false, PopulationMsg))
        else Returned(Verdict(true, ""))
  }

  /** The admissible configurations, stated in closed form. */
  predicate Admissible(a: Field, b: Field, d: Field, g: Field, p0: Field, d0: Field, tmax: Field) {
    && a.Num? && b.Num? && d.Num? && g.Num? && p0.Num? && d0.Num? && tmax.Num?
    && a.value >= 0.0 && b.value > 0.0 && d.value > 0.0 && g.value >= 0.0
    && 0.0 <= p0.value <= MaxPopulation && 0.0 <= d0.value <= MaxPopulation
    && MinTime <= tmax.value <= MaxTime
  }

  /** The validator accepts, with an empty message, exactly the admissible configurations;
      in particular a = 0 and g = 0 are accepted, and both ends of the time range are. */
  lemma AcceptsExactlyAdmissible(a: Field, b: Field, d: Field, g: Field, p0: Field, d0: Field, tmax: Field)
    ensures ValidateInputs(a, b, d, g, p0, d0, tmax) == Returned(Verdict(true, ""))
        <==> Admissible(a, b, d, g, p0, d0, tmax)
  {
    var xs := Fields(a, b, d, g, p0, d0, tmax);
    if Admissible(a, b, d, g, p0, d0, tmax) {
      assert Missing !in xs;
      assert NegativeScan(xs).NoneNegative?;
    }
    if ValidateInputs(a, b, d, g, p0, d0, tmax) == Returned(Verdict(true, "")) {
      assert NegativeScan(xs).NoneNegative?;
      assert xs[0] == a && xs[1] == b && xs[2] == d && xs[3] == g;
      assert xs[4] == p0 && xs[5] == d0 && xs[6] == tmax;
    }
  }

  /** An absent value decides the outcome before any other check. */
  lemma MissingFieldFirst(a: Field, b: Field, d: Field, g: Field, p0: Field, d0: Field, tmax: Field)
    requires Missing in [a, b, d, g, p0, d0, tmax]
    ensures ValidateInputs(a, b, d, g, p0, d0, tmax) == Returned(Verdict(false, RequiredMsg))
  {
  }

  /** With every value a number, any negative one (the time horizon included)
      gives the negative-values error before the zero and limit checks. */
  lemma NegativeSecond(a: real, b: real, d: real, g: real, p0: real, d0: real, tmax: real)
    requires a < 0.0 || b < 0.0 || d < 0.0 || g < 0.0 || p0 < 0.0 || d0 < 0.0 || tmax < 0.0
    ensures ValidateInputs(Num(a), Num(b), Num(d), Num(g), Num(p0), Num(d0), Num(tmax))
         == Returned(Verdict(false, NegativeMsg))
  {
    var xs := Fields(Num(a), Num(b), Num(d), Num(g), Num(p0), Num(d0), Num(tmax));
    assert !NegativeScan(xs).NoneNegative? by {
      if a < 0.0 { assert xs[0] == Num(a); }
      else if b < 0.0 { assert xs[1] == Num(b); }
      else if d < 0.0 { assert xs[2] == Num(d); }
      else if g < 0.0 { assert xs[3] == Num(g); }
      else if p0 < 0.0 { assert xs[4] == Num(p0); }
      else if d0 < 0.0 { assert xs[5] == Num(d0); }
      else { assert xs[6] == Num(tmax); }
    }
  }

  /** The positional validator raises `TypeError` exactly when, with nothing absent, the
      scan meets a non-number before it meets a negative number. */
  lemma RaisesExactlyOnNonNumber(a: Field, b: Field, d: Field, g: Field, p0: Field, d0: Field, tmax: Field)
    ensures ValidateInputs(a, b, d, g, p0, d0, tmax).RaisedTypeError?
        <==> Missing !in Fields(a, b, d, g, p0, d0, tmax)
             && exists i :: StopsAt(Fields(a, b, d, g, p0, d0, tmax), i) && !Fields(a, b, d, g, p0, d0, tmax)[i].Num?
  {
  }

  /** With non-negative numbers, b = 0 or d = 0 gives the division-by-zero error. */
  lemma ZeroDivisorThird(a: real, b: real, d: real, g: real, p0: real, d0: real, tmax: real)
    requires a >= 0.0 && b >= 0.0 && d >= 0.0 && g >= 0.0 && p0 >= 0.0 && d0 >= 0.0 && tmax >= 0.0
    requires b == 0.0 || d == 0.0
    ensures ValidateInputs(Num(a), Num(b), Num(d), Num(g), Num(p0), Num(d0), Num(tmax))
         == Returned(Verdict(false, ZeroDivisorMsg))
  {
    var xs := Fields(Num(a), Num(b), Num(d), Num(g), Num(p0), Num(d0), Num(tmax));
    assert NegativeScan(xs).NoneNegative?;
  }

  /** Past the zero check, the time horizon is compared with 300 first and with 5 second,
      then the initial populations with 5000. */
  lemma LimitChecksInOrder(a: real, b: real, d: real, g: real, p0: real, d0: real, tmax: real)
    requires a >= 0.0 && b > 0.0 && d > 0.0 && g >= 0.0 && p0 >= 0.0 && d0 >= 0.0 && tmax >= 0.0
    ensures tmax > MaxTime ==>
         ValidateInputs(Num(a), Num(b), Num(d), Num(g), Num(p0), Num(d0), Num(tmax))
         == Returned(Verdict(false, MaxTimeMsg))
    ensures tmax < MinTime ==>
         ValidateInputs(Num(a), Num(b), Num(d), Num(g), Num(p0), Num(d0), Num(tmax))
         == Returned(Verdict(false, MinTimeMsg))
    ensures MinTime <= tmax <= MaxTime && (p0 > MaxPopulation || d0 > MaxPopulation) ==>
         ValidateInputs(Num(a), Num(b), Num(d), Num(g), Num(p0), Num(d0), Num(tmax))
         == Returned(Verdict(false, PopulationMsg))
  {
    var xs := Fields(Num(a), Num(b), Num(d), Num(g), Num(p0), Num(d0), Num(tmax));
    assert NegativeScan(xs).NoneNegative?;
  }

  /** `params.get(key)`: an absent key reads as `None`. */
  function Get(params: map<string, Field>, key: string): (f: Field)
    ensures key !in params ==> f == Missing
  {
    if key in params then params[key] else Missing
  }

  /** `validate_params_dict`: looks the seven keys up and delegates, turning a raised
      `TypeError` into a failed verdict; it always returns a verdict. */
  function ValidateParamsDict(params: map<string, Field>): (r: Verdict)
    ensures !r.ok ==> r.message != ""
  {
    match ValidateInputs(Get(params, "alpha"), Get(params, "beta"), Get(params, "delta"),
                         Get(params, "gamma"), Get(params, "P0"), Get(params, "D0"), Get(params, "tmax"))
    case Returned(v) => v
    case RaisedTypeError(e) => Verdict(false, InvalidPrefix + e)
  }

  /** The dictionary front-end agrees with the positional validator whenever that returns,
      and otherwise fails with the invalid-parameters message. */
  lemma DictAgreesWithPositional(params: map<string, Field>)
    ensures var o := ValidateInputs(Get(params, "alpha"), Get(params, "beta"), Get(params, "delta"),
                                    Get(params, "gamma"), Get(params, "P0"), Get(params, "D0"), Get(params, "tmax"));
            && (o.Returned? ==> ValidateParamsDict(params) == o.verdict)
            && (o.RaisedTypeError? ==> ValidateParamsDict(params) == Verdict(false, InvalidPrefix + o.detail))
  {
  }

  /** A missing key gives the "all fields required" verdict. */
  lemma DictMissingKey(params: map<string, Field>)
    requires exists k :: k in ["alpha", "beta", "delta", "gamma", "P0", "D0", "tmax"] && k !in params
    ensures ValidateParamsDict(params) == Verdict(false, RequiredMsg)
  {
    var k :| k in ["alpha", "beta", "delta", "gamma", "P0", "D0", "tmax"] && k !in params;
    assert Get(params, k) == Missing;
    assert Missing in Fields(Get(params, "alpha"), Get(params, "beta"), Get(params, "delta"),
                             Get(params, "gamma"), Get(params, "P0"), Get(params, "D0"), Get(params, "tmax"));
  }

  /** The default configuration of the simulator is accepted; P0 = -1, b = 0 and
      tmax = 1000 are each rejected with their own message. */
  lemma ValidatorExamples()
    ensures ValidateInputs(Num(0.8), Num(0.05), Num(0.02), Num(0.6), Num(80.0), Num(20.0), Num(50.0))
         == Returned(Verdict(true, ""))
    ensures ValidateInputs(Num(0.8), Num(0.05), Num(0.02), Num(0.6), Num(-1.0), Num(20.0), Num(50.0))
         == Returned(Verdict(false, NegativeMsg))
    ensures ValidateInputs(Num(0.8), Num(0.0), Num(0.02), Num(0.6), Num(80.0), Num(20.0), Num(50.0))
         == Returned(Verdict(false, ZeroDivisorMsg))
    ensures ValidateInputs(Num(0.8), Num(0.05), Num(0.02), Num(0.6), Num(80.0), Num(20.0), Num(1000.0))
         == Returned(Verdict(false, MaxTimeMsg))
  {
    AcceptsExactlyAdmissible(Num(0.8), Num(0.05), Num(0.02), Num(0.6), Num(80.0), Num(20.0), Num(50.0));
    NegativeSecond(0.8, 0.05, 0.02, 0.6, -1.0, 20.0, 50.0);
    ZeroDivisorThird(0.8, 0.0, 0.02, 0.6, 80.0, 20.0, 50.0);
    LimitChecksInOrder(0.8, 0.05, 0.02, 0.6, 80.0, 20.0, 1000.0);
  }
}
