/**
  The numerical engine of the explanatory video scene: its own copy of the
  vector field (which takes, and ignores, the time), and an RK4 driver that
  fills the rows of a two-column matrix from the previous row, without any
  clamping at zero. The scene's drawing code is not modelled.
 */
module Video3 {
  import opened LotkaVolterra

  /** `rhs_lotka(t, y, ...)`: the vector field at the state y; the time t is unused. */
  function RhsLotka(t: real, y: State, prm: Params): (r: State)
    ensures r == Rhs(y, prm)
  {
    State(prm.alpha * y.prey - prm.beta * y.prey * y.pred,
          prm.delta * y.prey * y.pred - prm.gamma * y.pred)
  }

  /** The ceiling numpy's `arange` applies to its length: the least integer not below x. */
  function Ceil(x: real): (r: int)
    ensures r as real - 1.0 < x <= r as real
  {
    -((-x).Floor)
  }

  /** Length of `np.arange(start, stop, step)` over the reals. */
  function ArangeLength(start: real, stop: real, step: real): (n: nat)
    requires step != 0.0
    ensures (stop - start) / step > 0.0 ==> n >= 1
    ensures (stop - start) / step <= n as real < (stop - start) / step + 1.0 || n == 0
  {
    var c := Ceil((stop - start) / step);
    if c < 0 then 0 else c
  }

  /** The default arguments `t0=0`, `tf=50` and `h=0.05` of `rk4_lotka`; both call sites of
      the scene pass t0 and tf and leave the step at its default. */
  const DefaultT0 := 0.0
  const DefaultTf := 50.0
  const DefaultStep := 0.05

  /** With the default step, a horizon of `tf` seconds gives `tf / 0.05 + 1` time points
      when that is a whole number; the default horizon gives 1001. */
  lemma DefaultSceneGrid(tf: real, m: nat)
    requires tf == m as real * DefaultStep
    ensures ArangeLength(DefaultT0, tf + DefaultStep, DefaultStep) == m + 1
    ensures ArangeLength(DefaultT0, DefaultTf + DefaultStep, DefaultStep) == 1001
  {
    assert (tf + DefaultStep - DefaultT0) / DefaultStep == (m + 1) as real;
    assert (DefaultTf + DefaultStep - DefaultT0) / DefaultStep == 1001.0;
  }

  /** One row of `rk4_lotka`: the four stages, evaluated at t, t + h/2, t + h/2 and t + h,
      and their weighted combination. The time argument plays no part, so the row is the
      kernel's unclamped RK4 update. */
  method SceneRow(t: real, y: State, h: real, prm: Params) returns (next: State)
    ensures next == Step(Rk4Unclamped, y, h, prm)
  {
    var k1 := RhsLotka(t, y, prm);
    var k2 := RhsLotka(t + h / 2.0, Shift(y, h / 2.0, k1), prm);
    var k3 := RhsLotka(t + h / 2.0, Shift(y, h / 2.0, k2), prm);
    var k4 := RhsLotka(t + h, Shift(y, h, k3), prm);
    assert h / 2.0 == 0.5 * h;
    next := Rk4Combine(y, h, k1, k2, k3, k4);
  }

  /** `rk4_lotka`: time points from t0 in steps of h up to tf (inclusive of the step
      past tf that `arange(t0, tf + h, h)` admits), and the P and D columns of the
      row-by-row unclamped RK4 trajectory from (P0, D0). */
  method Rk4Lotka(prm: Params, p0: real, d0: real, t0: real, tf: real, h: real)
      returns (t: seq<real>, P: seq<real>, D: seq<real>)
    requires h != 0.0 && (tf + h - t0) / h > 0.0
    ensures |t| == |P| == |D| == ArangeLength(t0, tf + h, h)
    ensures t[0] == t0 && P[0] == p0 && D[0] == d0
    ensures forall k :: 0 <= k < |t| ==> t[k] == t0 + k as real * h
    ensures forall k :: 0 <= k < |P| ==>
              State(P[k], D[k]) == Orbit(Rk4Unclamped, State(p0, d0), h, prm, |P| - 1)[k]
  {
    var n := ArangeLength(t0, tf + h, h);
    t := seq(n, k => t0 + k as real * h);
    assert forall k :: 0 <= k < |t| ==> t[k] == t0 + k as real * h;
    var Y := new real[n, 2]((_, _) => 0.0);
    Y[0, 0], Y[0, 1] := p0, d0;
    ghost var orbit := Orbit(Rk4Unclamped, State(p0, d0), h, prm, n - 1);
    for i := 1 to n
      invariant forall j :: 0 <= j < i ==> State(Y[j, 0], Y[j, 1]) == orbit[j]
    {
      var next := SceneRow(t[i - 1], State(Y[i - 1, 0], Y[i - 1, 1]), h, prm);
      Y[i, 0], Y[i, 1] := next.prey, next.pred;
      OrbitRecurrence(Rk4Unclamped, State(p0, d0), h, prm, n - 1, i - 1);
    }
    P := seq(n, k requires 0 <= k < n reads Y => Y[k, 0]);
    D := seq(n, k requires 0 <= k < n reads Y => Y[k, 1]);
  }

  /** Rows of the unclamped trajectory are exactly the kernel's unclamped RK4 update of the
      previous row, so a row may go negative where the clamped step would stop at zero. */
  lemma UnclampedRowVsClampedStep(s: State, h: real, prm: Params)
    ensures Step(Rk4Unclamped, s, h, prm) == Rk4Raw(s, h, prm)
    ensures Step(Rk4, s, h, prm) == Clamp(Step(Rk4Unclamped, s, h, prm))
    ensures NonNegative(Step(Rk4Unclamped, s, h, prm)) ==> Step(Rk4, s, h, prm) == Step(Rk4Unclamped, s, h, prm)
  {
  }

  /** A concrete state where the unclamped row goes negative while the clamped step stops at
      zero: with a = 0, b = d = 1, g = 0, one prey and two predators, a step of 2 drives the
      predators below 0. */
  lemma UnclampedCanGoNegative()
    ensures Rk4Raw(State(1.0, 2.0), 2.0, Params(0.0, 1.0, 1.0, 0.0)).pred < 0.0
    ensures Rk4Step(State(1.0, 2.0), 2.0, Params(0.0, 1.0, 1.0, 0.0)).pred == 0.0
  {
    var prm := Params(0.0, 1.0, 1.0, 0.0);
    var s := State(1.0, 2.0);
    var k1 := State(-2.0, 2.0);
    var k2 := State(4.0, -4.0);
    var k3 := State(10.0, -10.0);
    var k4 := State(378.0, -378.0);
    assert Rhs(s, prm) == k1;
    assert Shift(s, 0.5 * 2.0, k1) == State(-1.0, 4.0);
    assert Rhs(State(-1.0, 4.0), prm) == k2;
    assert Shift(s, 0.5 * 2.0, k2) == State(5.0, -2.0);
    assert Rhs(State(5.0, -2.0), prm) == k3;
    assert Shift(s, 2.0, k3) == State(21.0, -18.0);
    assert Rhs(State(21.0, -18.0), prm) == k4;
    assert Rk4Raw(s, 2.0, prm) == Rk4Combine(s, 2.0, k1, k2, k3, k4);
    assert Rk4Combine(s, 2.0, k1, k2, k3, k4).pred == -398.0 / 3.0;
  }
}
