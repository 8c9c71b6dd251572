/**
  The Euler-vs-RK4 comparison page, without its HTML: the two trajectories
  built side by side from the same seed, the three-way classification of
  per-sample differences, and the substitution of defaults for blank inputs.
  The page's own copies of the vector field and the two steps are the
  kernel's `Rhs`, `EulerStep` and `Rk4Step`.
 */
module Comparativa {
  import opened Numerics
  import opened LotkaVolterra

  /** Time point k of `np.arange(0, (n_steps + 1) * h, h)[:n_steps + 1]`, over the reals. */
  function TimeAt(h: real, k: int): real {
    k as real * h
  }

  /** What `generate_comparison_data` returns for these inputs: a time grid of k*h for
      k = 0..n_steps (empty when n_steps < 0), and the Euler and RK4 trajectories run
      for max(n_steps, 0) steps from the same seed (P0, D0). */
  ghost predicate IsComparisonData(p0: real, d0: real, h: real, nSteps: int, prm: Params,
                                   t: seq<real>, eulerP: seq<real>, eulerD: seq<real>,
                                   rk4P: seq<real>, rk4D: seq<real>)
  {
    var n := if nSteps < 0 then 0 else nSteps;
    && |eulerP| == |eulerD| == |rk4P| == |rk4D| == n + 1
    && |t| == (if nSteps < 0 then 0 else n + 1)
    && (forall k :: 0 <= k < |t| ==> t[k] == TimeAt(h, k))
    && (forall k :: 0 <= k <= n ==>
          State(eulerP[k], eulerD[k]) == Orbit(Euler, State(p0, d0), h, prm, n)[k])
    && (forall k :: 0 <= k <= n ==>
          State(rk4P[k], rk4D[k]) == Orbit(Rk4, State(p0, d0), h, prm, n)[k])
  }

  /** `generate_comparison_data`: the time grid and four population lists, Euler and RK4
      each run for `n_steps` steps from (P0, D0); a negative `n_steps` runs no step. */
  method GenerateComparisonData(p0: real, d0: real, h: real, nSteps: int, prm: Params)
      returns (t: seq<real>, eulerP: seq<real>, eulerD: seq<real>, rk4P: seq<real>, rk4D: seq<real>)
    requires h != 0.0
    ensures IsComparisonData(p0, d0, h, nSteps, prm, t, eulerP, eulerD, rk4P, rk4D)
  {
    var n: nat := if nSteps < 0 then 0 else nSteps;
    t := seq(if nSteps < 0 then 0 else n + 1, k => TimeAt(h, k));
    eulerP, eulerD := [p0], [d0];
    rk4P, rk4D := [p0], [d0];
    ghost var eOrbit := Orbit(Euler, State(p0, d0), h, prm, n);
    ghost var rOrbit := Orbit(Rk4, State(p0, d0), h, prm, n);

    var pe, de := p0, d0;
    for i := 0 to n
      invariant |eulerP| == |eulerD| == i + 1
      invariant State(pe, de) == eOrbit[i]
      invariant forall j :: 0 <= j <= i ==> State(eulerP[j], eulerD[j]) == eOrbit[j]
    {
      var next := EulerStep(State(pe, de), h, prm);
      pe, de := next.prey, next.pred;
      eulerP := eulerP + [pe];
      eulerD := eulerD + [de];
      OrbitRecurrence(Euler, State(p0, d0), h, prm, n, i);
    }

    var pr, dr := p0, d0;
    for i := 0 to n
      invariant |rk4P| == |rk4D| == i + 1
      invariant State(pr, dr) == rOrbit[i]
      invariant forall j :: 0 <= j <= i ==> State(rk4P[j], rk4D[j]) == rOrbit[j]
    {
      var next := Rk4Step(State(pr, dr), h, prm);
      pr, dr := next.prey, next.pred;
      rk4P := rk4P + [pr];
      rk4D := rk4D + [dr];
      OrbitRecurrence(Rk4, State(p0, d0), h, prm, n, i);
    }
  }

  /** The CSS class of one row of the iteration table. */
  const DiffHigh := "diff-high"
  const DiffMedium := "diff-medium"
  const DiffLow := "diff-low"

  /** The classification in `make_iteration_row`, from the two absolute differences. */
  function DiffClass(eulerP: real, eulerD: real, rk4P: real, rk4D: real): (c: string)
    ensures c == DiffHigh <==> Abs(eulerP - rk4P) > 5.0 || Abs(eulerD - rk4D) > 5.0
    ensures c == DiffMedium <==>
      Abs(eulerP - rk4P) <= 5.0 && Abs(eulerD - rk4D) <= 5.0 && (Abs(eulerP - rk4P) > 1.0 || Abs(eulerD - rk4D) > 1.0)
    ensures c == DiffLow <==> Abs(eulerP - rk4P) <= 1.0 && Abs(eulerD - rk4D) <= 1.0
  {
    var diffP := Abs(eulerP - rk4P);
    var diffD := Abs(eulerD - rk4D);
    if diffP > 5.0 || diffD > 5.0 then DiffHigh
    else if diffP > 1.0 || diffD > 1.0 then DiffMedium
    else DiffLow
  }

  /** Swapping the Euler and RK4 values does not change the class. */
  lemma DiffClassSymmetric(eulerP: real, eulerD: real, rk4P: real, rk4D: real)
    ensures DiffClass(eulerP, eulerD, rk4P, rk4D) == DiffClass(rk4P, rk4D, eulerP, eulerD)
  {
    AbsDiffSymmetric(eulerP, rk4P);
    AbsDiffSymmetric(eulerD, rk4D);
  }

  /** Rank of a class: low < medium < high. */
  function Severity(c: string): nat {
    if c == DiffHigh then 2 else if c == DiffMedium then 1 else 0
  }

  /** Larger differences never get a milder class. */
  lemma DiffClassMonotone(eP: real, eD: real, rP: real, rD: real,
                          eP': real, eD': real, rP': real, rD': real)
    requires Abs(eP - rP) <= Abs(eP' - rP') && Abs(eD - rD) <= Abs(eD' - rD')
    ensures Severity(DiffClass(eP, eD, rP, rD)) <= Severity(DiffClass(eP', eD', rP', rD'))
  {
  }

  /** A form value: `None` when the field is blank. */
  datatype Option = None | Some(value: real)

  /** Python truthiness of a numeric form value: `None` and `0` are falsy. */
  predicate Falsy(x: Option) {
    x.None? || x.value == 0.0
  }

  /** Python's `x or default` for a numeric form value. */
  function OrDefault(x: Option, default: real): (r: real)
    ensures Falsy(x) ==> r == default
    ensures !Falsy(x) ==> r == x.value
  {
    match x
    case Some(v) => if v != 0.0 then v else default
    case None => default
  }

  /** The inputs of the comparison after default substitution. */
  datatype Config = Config(p0: real, d0: real, h: real, nSteps: int, prm: Params)

  /** The default rule of `update_comparison`: every blank or zero input is replaced by
      its default (P0 80, D0 20, h 0.5, n 10, a 0.8, b 0.05, d 0.02, g 0.6), and the
      step count then goes through `int()`. No substituted value is zero, so in
      particular the step size h and the divisors b and d never are. */
  function ComparisonConfig(p0: Option, d0: Option, h: Option, n: Option,
                            alpha: Option, beta: Option, delta: Option, gamma: Option): (c: Config)
    ensures c.p0 == OrDefault(p0, 80.0) && c.d0 == OrDefault(d0, 20.0) && c.h == OrDefault(h, 0.5)
    ensures c.prm.alpha == OrDefault(alpha, 0.8) && c.prm.beta == OrDefault(beta, 0.05)
    ensures c.prm.delta == OrDefault(delta, 0.02) && c.prm.gamma == OrDefault(gamma, 0.6)
    ensures c.nSteps == Trunc(OrDefault(n, 10.0))
    ensures c.p0 != 0.0 && c.d0 != 0.0 && c.h != 0.0
    ensures c.prm.alpha != 0.0 && c.prm.beta != 0.0 && c.prm.delta != 0.0 && c.prm.gamma != 0.0
  {
    Config(OrDefault(p0, 80.0), OrDefault(d0, 20.0), OrDefault(h, 0.5), Trunc(OrDefault(n, 10.0)),
           Params(OrDefault(alpha, 0.8), OrDefault(beta, 0.05), OrDefault(delta, 0.02), OrDefault(gamma, 0.6)))
  }

  /** The final sample of a scheme's trajectory for a configuration: the state after
      max(n_steps, 0) steps from (P0, D0). */
  ghost function FinalSample(scheme: Scheme, c: Config): State {
    var n := if c.nSteps < 0 then 0 else c.nSteps;
    Orbit(scheme, State(c.p0, c.d0), c.h, c.prm, n)[n]
  }

  /** The last Euler and RK4 entries of the comparison data are the final samples of the
      two trajectories. */
  lemma LastEntries(c: Config, t: seq<real>, eulerP: seq<real>, eulerD: seq<real>,
                    rk4P: seq<real>, rk4D: seq<real>)
    requires IsComparisonData(c.p0, c.d0, c.h, c.nSteps, c.prm, t, eulerP, eulerD, rk4P, rk4D)
    ensures |eulerP| > 0 && |eulerD| > 0 && |rk4P| > 0 && |rk4D| > 0
    ensures State(eulerP[|eulerP| - 1], eulerD[|eulerD| - 1]) == FinalSample(Euler, c)
    ensures State(rk4P[|rk4P| - 1], rk4D[|rk4D| - 1]) == FinalSample(Rk4, c)
  {
    var n := if c.nSteps < 0 then 0 else c.nSteps;
    assert State(eulerP[n], eulerD[n]) == Orbit(Euler, State(c.p0, c.d0), c.h, c.prm, n)[n];
    assert State(rk4P[n], rk4D[n]) == Orbit(Rk4, State(c.p0, c.d0), c.h, c.prm, n)[n];
  }

  /** `update_comparison` without its HTML: substitutes defaults, generates the data and
      returns it with the final absolute differences shown in the summary. The summary
      then reads the last time point, which raises `IndexError` when the step count is
      negative and the time grid is empty; `raised` reports that outcome. */
  method UpdateComparison(p0: Option, d0: Option, h: Option, n: Option,
                          alpha: Option, beta: Option, delta: Option, gamma: Option)
      returns (t: seq<real>, eulerP: seq<real>, eulerD: seq<real>, rk4P: seq<real>, rk4D: seq<real>,
               finalDiffP: real, finalDiffD: real, raised: bool)
    ensures var c := ComparisonConfig(p0, d0, h, n, alpha, beta, delta, gamma);
      IsComparisonData(c.p0, c.d0, c.h, c.nSteps, c.prm, t, eulerP, eulerD, rk4P, rk4D)
    ensures var c := ComparisonConfig(p0, d0, h, n, alpha, beta, delta, gamma);
      && finalDiffP == Abs(FinalSample(Euler, c).prey - FinalSample(Rk4, c).prey)
      && finalDiffD == Abs(FinalSample(Euler, c).pred - FinalSample(Rk4, c).pred)
      && (raised <==> c.nSteps < 0)
    ensures finalDiffP >= 0.0 && finalDiffD >= 0.0
    ensures raised <==> |t| == 0
  {
    var c := ComparisonConfig(p0, d0, h, n, alpha, beta, delta, gamma);
    t, eulerP, eulerD, rk4P, rk4D := GenerateComparisonData(c.p0, c.d0, c.h, c.nSteps, c.prm);
    LastEntries(c, t, eulerP, eulerD, rk4P, rk4D);
    finalDiffP := Abs(eulerP[|eulerP| - 1] - rk4P[|rk4P| - 1]);
    finalDiffD := Abs(eulerD[|eulerD| - 1] - rk4D[|rk4D| - 1]);
    raised := |t| == 0;
  }
}
