/**
  The simulator's trajectory driver: `n = int(t_max/dt) + 1` samples of the
  clamped RK4 step, written into preallocated arrays, together with a time
  grid of n evenly spaced points from 0 to t_max.
 */
module Simulation {
  import opened Numerics
  import opened LotkaVolterra

  /** The default arguments of the driver. */
  const DefaultParams := Params(0.8, 0.05, 0.02, 0.6)
  const DefaultP0 := 80.0
  const DefaultD0 := 20.0
  const DefaultTMax := 50.0
  const DefaultDt := 0.05

  /** Number of samples: Python's `int(t_max / dt) + 1`. */
  function SampleCount(tMax: real, dt: real): (n: int)
    requires dt != 0.0
    ensures tMax / dt > -1.0 ==> n >= 1
    ensures tMax / dt >= 0.0 ==> (n - 1) as real <= tMax / dt < n as real
  {
    TruncSign(tMax / dt);
    Trunc(tMax / dt) + 1
  }

  /** Point k of `linspace(0, t_max, n)`: n points from 0 to t_max inclusive. */
  function LinspaceAt(tMax: real, n: nat, k: nat): real
    requires k < n
  {
    if n == 1 then 0.0 else k as real * tMax / (n - 1) as real
  }

  /** The grid starts at 0, ends at t_max, and its spacing is t_max / (n - 1),
      which is `dt` only when `dt` divides `t_max`. */
  lemma LinspaceShape(tMax: real, n: nat, k: nat)
    requires 1 <= n && k + 1 < n
    ensures LinspaceAt(tMax, n, 0) == 0.0
    ensures LinspaceAt(tMax, n, n - 1) == tMax
    ensures LinspaceAt(tMax, n, k + 1) - LinspaceAt(tMax, n, k) == tMax / (n - 1) as real
  {
    var m := (n - 1) as real;
    assert (k + 1) as real * tMax / m - k as real * tMax / m == tMax / m;
  }

  /** `simulate_lotka_volterra`: fills P and D with the clamped RK4 trajectory from (P0, D0). */
  method SimulateLotkaVolterra(prm: Params, p0: real, d0: real, tMax: real, dt: real)
      returns (t: array<real>, P: array<real>, D: array<real>)
    requires dt != 0.0 && tMax / dt > -1.0
    ensures fresh(t) && fresh(P) && fresh(D)
    ensures t.Length == P.Length == D.Length == SampleCount(tMax, dt)
    ensures P[0] == p0 && D[0] == d0
    ensures forall k :: 0 <= k < t.Length ==> t[k] == LinspaceAt(tMax, t.Length, k)
    ensures forall k :: 0 <= k < P.Length ==>
              State(P[k], D[k]) == Orbit(Rk4, State(p0, d0), dt, prm, P.Length - 1)[k]
  {
    var n := SampleCount(tMax, dt);
    t := new real[n](k requires 0 <= k < n => LinspaceAt(tMax, n, k));
    P := new real[n](_ => 0.0);
    D := new real[n](_ => 0.0);
    P[0], D[0] := p0, d0;
    ghost var orbit := Orbit(Rk4, State(p0, d0), dt, prm, n - 1);
    var pi, di := p0, d0;
    for k := 1 to n
      invariant State(pi, di) == orbit[k - 1]
      invariant forall j :: 0 <= j < k ==> State(P[j], D[j]) == orbit[j]
      invariant forall j :: 0 <= j < n ==> t[j] == LinspaceAt(tMax, n, j)
    {
      var next := Rk4Step(State(pi, di), dt, prm);
      pi, di := next.prey, next.pred;
      P[k], D[k] := pi, di;
      OrbitRecurrence(Rk4, State(p0, d0), dt, prm, n - 1, k - 1);
    }
  }

  /** Every sample after the first is non-negative (and the first too when P0, D0 are). */
  lemma SimulationNonNegative(prm: Params, p0: real, d0: real, dt: real, n: nat, k: nat)
    requires 0 < k <= n || (k == 0 && p0 >= 0.0 && d0 >= 0.0)
    ensures Orbit(Rk4, State(p0, d0), dt, prm, n)[k].prey >= 0.0
    ensures Orbit(Rk4, State(p0, d0), dt, prm, n)[k].pred >= 0.0
  {
    OrbitNonNegative(Rk4, State(p0, d0), dt, prm, n, k);
  }

  /** The default configuration yields 1001 samples. */
  lemma DefaultSampleCount()
    ensures SampleCount(DefaultTMax, DefaultDt) == 1001
  {
    assert DefaultTMax / DefaultDt == 1000.0;
  }

  /** Run with every argument at its default, the simulator's 1001 samples are all
      non-negative, and the default parameters put the equilibrium at (30, 16). */
  lemma DefaultRun(k: nat)
    requires k < SampleCount(DefaultTMax, DefaultDt)
    ensures Orbit(Rk4, State(DefaultP0, DefaultD0), DefaultDt, DefaultParams, 1000)[k].prey >= 0.0
    ensures Orbit(Rk4, State(DefaultP0, DefaultD0), DefaultDt, DefaultParams, 1000)[k].pred >= 0.0
    ensures Equilibrium(DefaultParams) == State(30.0, 16.0)
  {
    DefaultSampleCount();
    SimulationNonNegative(DefaultParams, DefaultP0, DefaultD0, DefaultDt, 1000, k);
  }
}
