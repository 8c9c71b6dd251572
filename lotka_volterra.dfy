/**
  The numerical kernel shared by the simulator, the Euler-vs-RK4 comparison
  page and the video scene: the Lotka-Volterra vector field, the explicit
  Euler step, the classical fourth-order Runge-Kutta step (with and without
  the final clamp at zero), and the trajectory obtained by applying a step
  repeatedly. All arithmetic is over `real`.
 */
module LotkaVolterra {
  import opened Numerics

  /** The four model coefficients: prey growth, predation, predator efficiency, predator death. */
  datatype Params = Params(alpha: real, beta: real, delta: real, gamma: real)

  /** A point of the phase plane: prey population P and predator population D
      (also used for the pair of rates (dP, dD)). */
  datatype State = State(prey: real, pred: real)

  /** The vector field dP = aP - bPD, dD = dPD - gD. */
  function Rhs(s: State, prm: Params): (r: State)
    ensures s.prey == 0.0 ==> r.prey == 0.0
    ensures s.pred == 0.0 ==> r.pred == 0.0
  {
    State(prm.alpha * s.prey - prm.beta * s.prey * s.pred,
          prm.delta * s.prey * s.pred - prm.gamma * s.pred)
  }

  /** Both coordinates of a state are at least zero. */
  predicate NonNegative(s: State) {
    s.prey >= 0.0 && s.pred >= 0.0
  }

  /** The final clamp `max(x, 0)` applied to each coordinate. */
  function Clamp(s: State): (r: State)
    ensures NonNegative(r)
    ensures NonNegative(s) ==> r == s
    ensures s.prey == 0.0 ==> r.prey == 0.0
    ensures s.pred == 0.0 ==> r.pred == 0.0
  {
    State(ClampAtZero(s.prey), ClampAtZero(s.pred))
  }

  /** The explicit Euler update P + h*dP, D + h*dD, before clamping. */
  function EulerRaw(s: State, h: real, prm: Params): (r: State)
    ensures s.prey == 0.0 ==> r.prey == 0.0
    ensures s.pred == 0.0 ==> r.pred == 0.0
  {
    var k := Rhs(s, prm);
    State(s.prey + h * k.prey, s.pred + h * k.pred)
  }

  /** One Euler step of the comparison page: the Euler update clamped at zero. */
  function EulerStep(s: State, h: real, prm: Params): (r: State)
    ensures NonNegative(r)
    ensures NonNegative(EulerRaw(s, h, prm)) ==> r == EulerRaw(s, h, prm)
  {
    Clamp(EulerRaw(s, h, prm))
  }

  /** The stage argument s + c*k (a state moved along a rate k for a time c). */
  function Shift(s: State, c: real, k: State): (r: State)
    ensures s.prey == 0.0 && k.prey == 0.0 ==> r.prey == 0.0
    ensures s.pred == 0.0 && k.pred == 0.0 ==> r.pred == 0.0
  {
    State(s.prey + c * k.prey, s.pred + c * k.pred)
  }

  /** The RK4 weighted average s + h/6 (k1 + 2 k2 + 2 k3 + k4). */
  function Rk4Combine(s: State, h: real, k1: State, k2: State, k3: State, k4: State): (r: State)
    ensures s.prey == 0.0 && k1.prey == k2.prey == k3.prey == k4.prey == 0.0 ==> r.prey == 0.0
    ensures s.pred == 0.0 && k1.pred == k2.pred == k3.pred == k4.pred == 0.0 ==> r.pred == 0.0
  {
    State(s.prey + (h / 6.0) * (k1.prey + 2.0 * k2.prey + 2.0 * k3.prey + k4.prey),
          s.pred + (h / 6.0) * (k1.pred + 2.0 * k2.pred + 2.0 * k3.pred + k4.pred))
  }

  /** The classical RK4 combination with stages at the half and full step,
      and no clamping anywhere (this is the step of the video scene). */
  function Rk4Raw(s: State, h: real, prm: Params): (r: State)
    ensures s.prey == 0.0 ==> r.prey == 0.0
    ensures s.pred == 0.0 ==> r.pred == 0.0
  {
    var k1 := Rhs(s, prm);
    var k2 := Rhs(Shift(s, 0.5 * h, k1), prm);
    var k3 := Rhs(Shift(s, 0.5 * h, k2), prm);
    var k4 := Rhs(Shift(s, h, k3), prm);
    Rk4Combine(s, h, k1, k2, k3, k4)
  }

  /** One RK4 step of the simulator and of the comparison page: the stages are
      left unclamped and only the final combination is clamped at zero. */
  function Rk4Step(s: State, h: real, prm: Params): (r: State)
    ensures NonNegative(r)
    ensures NonNegative(Rk4Raw(s, h, prm)) ==> r == Rk4Raw(s, h, prm)
    ensures s.prey == 0.0 ==> r.prey == 0.0
    ensures s.pred == 0.0 ==> r.pred == 0.0
  {
    Clamp(Rk4Raw(s, h, prm))
  }

  /** The three stepping rules found in the repository. */
  datatype Scheme = Euler | Rk4 | Rk4Unclamped

  /** The clamped schemes never produce a negative population. */
  predicate Clamped(sc: Scheme) {
    sc != Rk4Unclamped
  }

  function Step(sc: Scheme, s: State, h: real, prm: Params): (r: State)
    ensures Clamped(sc) ==> NonNegative(r)
  {
    match sc
    case Euler => EulerStep(s, h, prm)
    case Rk4 => Rk4Step(s, h, prm)
    case Rk4Unclamped => Rk4Raw(s, h, prm)
  }

  /** The n + 1 samples obtained from `s0` by n applications of the step,
      built the way the drivers build them: by appending the next state. */
  function Orbit(sc: Scheme, s0: State, h: real, prm: Params, n: nat): (r: seq<State>)
    ensures |r| == n + 1
    ensures r[0] == s0
  {
    if n == 0 then [s0]
    else
      var prev := Orbit(sc, s0, h, prm, n - 1);
      prev + [Step(sc, prev[n - 1], h, prm)]
  }

  /** Sample k + 1 of a trajectory is the step applied to sample k. */
  lemma {:induction false} OrbitRecurrence(sc: Scheme, s0: State, h: real, prm: Params, n: nat, k: nat)
    requires k < n
    ensures Orbit(sc, s0, h, prm, n)[k + 1] == Step(sc, Orbit(sc, s0, h, prm, n)[k], h, prm)
  {
    if k + 1 < n {
      OrbitRecurrence(sc, s0, h, prm, n - 1, k);
      OrbitPrefix(sc, s0, h, prm, n - 1, n, k);
      OrbitPrefix(sc, s0, h, prm, n - 1, n, k + 1);
    }
  }

  /** A longer trajectory extends a shorter one from the same seed. */
  lemma {:induction false} OrbitPrefix(sc: Scheme, s0: State, h: real, prm: Params, m: nat, n: nat, k: nat)
    requires k <= m <= n
    ensures Orbit(sc, s0, h, prm, n)[k] == Orbit(sc, s0, h, prm, m)[k]
  {
    if m < n {
      OrbitPrefix(sc, s0, h, prm, m, n - 1, k);
    }
  }

  /** Every sample after the seed of a clamped trajectory is non-negative,
      and so is the seed when it is. */
  lemma OrbitNonNegative(sc: Scheme, s0: State, h: real, prm: Params, n: nat, k: nat)
    requires Clamped(sc)
    requires k <= n
    requires k > 0 || NonNegative(s0)
    ensures NonNegative(Orbit(sc, s0, h, prm, n)[k])
  {
    if k > 0 {
      OrbitRecurrence(sc, s0, h, prm, n, k - 1);
    }
  }

  /** Extinction is absorbing, species by species: a zero coordinate of the
      seed stays exactly zero in every sample, for every scheme. */
  lemma {:induction false} OrbitKeepsAxes(sc: Scheme, s0: State, h: real, prm: Params, n: nat, k: nat)
    requires k <= n
    ensures s0.prey == 0.0 ==> Orbit(sc, s0, h, prm, n)[k].prey == 0.0
    ensures s0.pred == 0.0 ==> Orbit(sc, s0, h, prm, n)[k].pred == 0.0
  {
    if k > 0 {
      OrbitKeepsAxes(sc, s0, h, prm, n, k - 1);
      OrbitRecurrence(sc, s0, h, prm, n, k - 1);
      StepKeepsAxes(sc, Orbit(sc, s0, h, prm, n)[k - 1], h, prm);
    }
  }

  lemma StepKeepsAxes(sc: Scheme, s: State, h: real, prm: Params)
    ensures s.prey == 0.0 ==> Step(sc, s, h, prm).prey == 0.0
    ensures s.pred == 0.0 ==> Step(sc, s, h, prm).pred == 0.0
  {
  }

  /** The coexistence equilibrium (g/d, a/b) of the scene's equilibrium marker. */
  function Equilibrium(prm: Params): (r: State)
    requires prm.beta != 0.0 && prm.delta != 0.0
    ensures r.prey * prm.delta == prm.gamma
    ensures r.pred * prm.beta == prm.alpha
  {
    State(prm.gamma / prm.delta, prm.alpha / prm.beta)
  }

  /** Both rates vanish at the equilibrium. */
  lemma EquilibriumIsRest(prm: Params)
    requires prm.beta != 0.0 && prm.delta != 0.0
    ensures Rhs(Equilibrium(prm), prm) == State(0.0, 0.0)
  {
    var e := Equilibrium(prm);
    assert prm.beta * e.prey * e.pred == prm.alpha * e.prey by {
      assert prm.beta * e.prey * e.pred == (e.pred * prm.beta) * e.prey;
    }
    assert prm.delta * e.prey * e.pred == prm.gamma * e.pred by {
      assert prm.delta * e.prey * e.pred == (e.prey * prm.delta) * e.pred;
    }
  }

  /** A state where the vector field vanishes is left unchanged by the
      unclamped updates; the clamped steps also need it to be non-negative. */
  lemma RestPointIsFixed(sc: Scheme, s: State, h: real, prm: Params)
    requires Rhs(s, prm) == State(0.0, 0.0)
    requires Clamped(sc) ==> NonNegative(s)
    ensures Step(sc, s, h, prm) == s
  {
    var k1 := Rhs(s, prm);
    assert Shift(s, 0.5 * h, k1) == s;
    assert Shift(s, h, k1) == s;
    assert EulerRaw(s, h, prm) == s;
    assert Rk4Raw(s, h, prm) == s;
  }

  /** The equilibrium is a fixed point of every step; for the clamped steps it
      must lie in the non-negative quadrant (as it does when a, g >= 0 and b, d > 0). */
  lemma EquilibriumIsFixed(sc: Scheme, h: real, prm: Params)
    requires prm.beta != 0.0 && prm.delta != 0.0
    requires Clamped(sc) ==> NonNegative(Equilibrium(prm))
    ensures Step(sc, Equilibrium(prm), h, prm) == Equilibrium(prm)
  {
    EquilibriumIsRest(prm);
    RestPointIsFixed(sc, Equilibrium(prm), h, prm);
  }

  /** With non-negative coefficients and non-zero b and d the equilibrium is non-negative. */
  lemma EquilibriumNonNegative(prm: Params)
    requires prm.alpha >= 0.0 && prm.beta > 0.0 && prm.delta > 0.0 && prm.gamma >= 0.0
    ensures NonNegative(Equilibrium(prm))
  {
  }

  /** A trajectory seeded at a fixed point of the step is constant. */
  lemma {:induction false} OrbitAtFixedPoint(sc: Scheme, s0: State, h: real, prm: Params, n: nat, k: nat)
    requires Step(sc, s0, h, prm) == s0
    requires k <= n
    ensures Orbit(sc, s0, h, prm, n)[k] == s0
  {
    if k > 0 {
      OrbitAtFixedPoint(sc, s0, h, prm, n, k - 1);
      OrbitRecurrence(sc, s0, h, prm, n, k - 1);
    }
  }

  /** Started at the equilibrium, every sample of every scheme's trajectory is the equilibrium. */
  lemma OrbitAtEquilibrium(sc: Scheme, h: real, prm: Params, n: nat, k: nat)
    requires prm.beta != 0.0 && prm.delta != 0.0
    requires Clamped(sc) ==> NonNegative(Equilibrium(prm))
    requires k <= n
    ensures Orbit(sc, Equilibrium(prm), h, prm, n)[k] == Equilibrium(prm)
  {
    EquilibriumIsFixed(sc, h, prm);
    OrbitAtFixedPoint(sc, Equilibrium(prm), h, prm, n, k);
  }
}
