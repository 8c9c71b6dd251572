# Lotka-Volterra numerical kernel, modelled in Dafny

This project models the computational core of a predator-prey dashboard built on the
Lotka-Volterra equations dP/dt = aP - bPD, dD/dt = dPD - gD. P is the prey and D the predators.
The dashboard validates the parameters and integrates the system with explicit Euler and
classical RK4. It compares the two schemes and drives a progress bar while a video renders.
All arithmetic is over Dafny's `real`. Floating-point rounding is not modelled.

Modules, one per source file, plus two shared modules:

- `Numerics` (numerics.dfy): the Python built-ins the code relies on, over `real`.
  These are `int(x)` on a float (truncation toward zero), `max(x, 0)` and `abs`.
  `min(100, x)` lives with its only user, as `RenderState.AtMost100`.
- `LotkaVolterra` (lotka_volterra.dfy): the vector field, the Euler step and the RK4 step.
  The RK4 step comes unclamped (`Rk4Raw`) and with the final clamp at zero (`Rk4Step`).
  `Orbit` is the trajectory obtained by applying a step n times. It is the specification every
  driver is proved against. The file also holds the equilibrium (g/d, a/b) and the lemmas about
  all three schemes.
  backend/simulation.py has `lotka_volterra_rhs` and `rk4_step`. pages/comparativa.py has its
  own copies of both and adds `euler_step`. The copies are the same expressions, so each is
  modelled once here. The video
  scene's RK4 does not clamp, so it is kept apart as the scheme `Rk4Unclamped`.
- `Validators` (validators.dfy): `validate_inputs` and `validate_params_dict`.
  Each input is a loosely typed `Field`: `None`, a number, or another Python object.
- `Simulation` (simulation.dfy): `simulate_lotka_volterra`. It fills fresh arrays `P` and `D`
  in a loop and builds the `linspace` time grid.
- `Comparativa` (comparativa.dfy): `generate_comparison_data`, which builds four lists by
  appending. Also the diff-low/medium/high classification of `make_iteration_row`, and the
  default substitution and final differences of `update_comparison`.
- `Video3` (video3.dfy): `rhs_lotka` and `rk4_lotka`, which fills the rows of a two-column
  `array2` from the previous row.
- `RenderState` (render_state.dfy): the `render_status` record as a class. Its start and poll
  methods take the clock reading `now` as a parameter.

Points where the model keeps the code's literal behaviour:

- The sample count is `int(t_max/dt) + 1`. This is truncation toward zero, not floor.
  The two agree for non-negative quotients.
- The video scene's RK4 does not clamp at zero, so populations in that trajectory can go
  negative. `Video3.UnclampedCanGoNegative` exhibits such a state.
- `validate_inputs` raises `TypeError` exactly when no value is `None` and the negativity
  scan, which reads a, b, d, g, P0, D0, tmax in that order, meets a value that is not a
  number before it meets a negative number. A `None` anywhere gives "all fields required"
  first. A negative number earlier in the order gives the negative-values error and the scan
  stops there. The positional validator is modelled with the `TypeError` outcome.
- `validate_params_dict` catches that `TypeError`. In exactly the same case it returns the
  invalid-parameters message with the error text, not "all fields required". A missing key
  reads as `None` and does give "all fields required".
- `update_comparison` with a step count whose `int()` is negative builds an empty time grid,
  and reading its last point for the summary raises `IndexError`. `UpdateComparison` reports
  that outcome in `raised`.

## Model

| member | source | states |
|---|---|---|
| `Numerics.Trunc` | backend/simulation.py:63 | `int(x)` lies within 1 of x on the side of zero: floor for x >= 0, ceiling for x < 0 |
| `Numerics.ClampAtZero` | backend/simulation.py:42 | `max(x, 0)` is non-negative, at least x, and is either x or 0 |
| `Numerics.Abs` | pages/comparativa.py:76-77 | `abs(x)` is non-negative and is x or -x |
| `LotkaVolterra.Rhs` | backend/simulation.py:22-26 | the vector field keeps each axis: P = 0 gives dP = 0, and D = 0 gives dD = 0 |
| `LotkaVolterra.Clamp` | backend/simulation.py:42 | the final clamp yields a non-negative state, and leaves a non-negative state and a zero coordinate unchanged |
| `LotkaVolterra.EulerRaw` | pages/comparativa.py:24-26 | the unclamped Euler update keeps a zero species at zero |
| `LotkaVolterra.EulerStep` | pages/comparativa.py:22-27 | the Euler step is non-negative, and equals the unclamped update whenever that is non-negative |
| `LotkaVolterra.Rk4Raw` | backend/scenes/video3.py:37-44 | the unclamped RK4 update keeps a zero species exactly zero |
| `LotkaVolterra.Rk4Step` | backend/simulation.py:32-42 | the RK4 step is non-negative, equals the unclamped update whenever that is non-negative (only the final value is clamped), and keeps a zero species at zero |
| `LotkaVolterra.Step` | pages/comparativa.py:22-38 | both clamped schemes return a non-negative state |
| `LotkaVolterra.Orbit` | backend/simulation.py:66-75 | a driver run of n steps has n + 1 samples and its first sample is the seed |
| `LotkaVolterra.OrbitRecurrence` | backend/simulation.py:73-75 | sample k + 1 is the step applied to sample k, for every k < n |
| `LotkaVolterra.OrbitNonNegative` | pages/comparativa.py:49-60 | every sample after the seed of a clamped trajectory is non-negative, and so is the seed when it is |
| `LotkaVolterra.OrbitKeepsAxes` | backend/scenes/video3.py:37-44 | a zero initial species stays exactly zero in every sample, under every scheme |
| `LotkaVolterra.StepKeepsAxes` | pages/comparativa.py:16-38 | each of the three steps leaves a zero species at zero |
| `LotkaVolterra.Equilibrium` | backend/scenes/video3.py:109-110 | the equilibrium (g/d, a/b) satisfies P* d = g and D* b = a |
| `LotkaVolterra.EquilibriumIsRest` | backend/simulation.py:22-26 | both rates vanish at the equilibrium |
| `LotkaVolterra.RestPointIsFixed` | pages/comparativa.py:22-38 | a state where the field vanishes is a fixed point of every step; the clamped steps also need it non-negative |
| `LotkaVolterra.EquilibriumIsFixed` | backend/simulation.py:32-42 | the equilibrium is a fixed point of the Euler, clamped RK4 and unclamped RK4 steps (clamped ones: when it is non-negative) |
| `LotkaVolterra.EquilibriumNonNegative` | backend/validators.py:42-47 | with a, g >= 0 and b, d > 0, which the validator guarantees, the equilibrium is non-negative |
| `LotkaVolterra.OrbitAtFixedPoint` | backend/simulation.py:71-75 | a trajectory seeded at a fixed point of its step is constant |
| `LotkaVolterra.OrbitAtEquilibrium` | backend/scenes/video3.py:32-46 | seeded at the equilibrium, every sample of every scheme equals the seed |
| `Validators.NegativeScan` | backend/validators.py:42 | `any(x < 0 ...)` finds no negative exactly when all values are non-negative numbers. It finds one exactly when a negative number comes before any non-number. It raises exactly when a non-number comes first |
| `Validators.ValidateInputs` | backend/validators.py:37-59 | a failed verdict always has a non-empty message, and a passed one has an empty message |
| `Validators.AcceptsExactlyAdmissible` | backend/validators.py:37-59 | (True, "") is returned exactly for all-numeric inputs with a, g >= 0, b, d > 0, 0 <= P0, D0 <= 5000 and 5 <= tmax <= 300 |
| `Validators.MissingFieldFirst` | backend/validators.py:38-39 | any absent value gives "all fields required", whatever the other values are |
| `Validators.NegativeSecond` | backend/validators.py:42-43 | with all values numbers, any negative one (tmax included) gives the negative-values error |
| `Validators.RaisesExactlyOnNonNumber` | backend/validators.py:38-43 | `TypeError` escapes exactly when nothing is absent and the scan meets a non-number before a negative number |
| `Validators.ZeroDivisorThird` | backend/validators.py:46-47 | with non-negative numbers, b = 0 or d = 0 gives the division-by-zero error |
| `Validators.LimitChecksInOrder` | backend/validators.py:50-57 | tmax > 300 gives the maximum-time error and tmax < 5 the minimum-time error. With tmax in range, P0 or D0 above 5000 gives the population error |
| `Validators.Get` | backend/validators.py:74-80 | `params.get(key)` reads an absent key as `None` |
| `Validators.ValidateParamsDict` | backend/validators.py:72-83 | the dictionary version always returns a verdict, never an exception. A failed verdict has a non-empty message |
| `Validators.DictAgreesWithPositional` | backend/validators.py:72-83 | the dictionary version equals `validate_inputs` on the looked-up values. When that raises `TypeError`, the result is False with the invalid-parameters message and the error text |
| `Validators.DictMissingKey` | backend/validators.py:72-81 | a missing key yields (False, "all fields required") |
| `Validators.ValidatorExamples` | backend/validators.py:10-12 | the default configuration is accepted. P0 = -1, b = 0 and tmax = 1000 each get their own error |
| `Simulation.SampleCount` | backend/simulation.py:63 | `int(t_max/dt) + 1` is at least 1 when t_max/dt > -1. For a non-negative quotient, n - 1 <= t_max/dt < n |
| `Simulation.LinspaceShape` | backend/simulation.py:64 | the grid starts at 0 and ends at t_max. Its spacing is t_max/(n-1), which is not necessarily dt |
| `Simulation.SimulateLotkaVolterra` | backend/simulation.py:63-77 | three fresh arrays of length `int(t_max/dt) + 1`. The time array is the linspace grid. (P[k], D[k]) is sample k of the clamped-RK4 trajectory from (P0, D0), so P[0] = P0 and D[0] = D0 |
| `Simulation.SimulationNonNegative` | backend/simulation.py:71-75 | every sample of the simulator after the first is non-negative |
| `Simulation.DefaultSampleCount` | backend/simulation.py:7-16 | the default t_max = 50 and dt = 0.05 give 1001 samples |
| `Simulation.DefaultRun` | backend/simulation.py:7-16 | with every argument at its default, all 1001 samples are non-negative, and the default parameters put the equilibrium at (30, 16) |
| `Comparativa.GenerateComparisonData` | pages/comparativa.py:40-68 | four lists of length max(n_steps, 0) + 1, holding the Euler and RK4 trajectories run independently from the same seed. The time list has n_steps + 1 points k*h, and none when n_steps < 0 |
| `Comparativa.DiffClass` | pages/comparativa.py:74-86 | "diff-high" exactly when some abs difference is > 5. "diff-medium" exactly when both are <= 5 and some is > 1. "diff-low" exactly when both are <= 1 |
| `Comparativa.DiffClassSymmetric` | pages/comparativa.py:76-86 | swapping the Euler and RK4 values does not change the class |
| `Comparativa.DiffClassMonotone` | pages/comparativa.py:81-86 | larger differences never get a milder class |
| `Comparativa.OrDefault` | pages/comparativa.py:385 | `x or default` is the default when x is `None` or 0, and x otherwise |
| `Comparativa.ComparisonConfig` | pages/comparativa.py:384-395 | each blank or zero input is replaced by its own default, and `int()` is applied to the step count. No substituted value is zero, so h, b and d never are |
| `Comparativa.LastEntries` | pages/comparativa.py:45-60 | the last entries of the Euler and RK4 lists are the final samples of the two trajectories, max(n_steps, 0) steps from the seed |
| `Comparativa.UpdateComparison` | pages/comparativa.py:382-409 | the time grid and the four lists are the comparison data of the substituted inputs, row by row: t[k] = k*h, and (P, D) at k is sample k of the Euler and of the RK4 trajectory. The final differences are the absolute gaps between the final Euler and RK4 samples. `IndexError` is raised exactly when `int(n_steps)` is negative, which is exactly when the time grid is empty |
| `Video3.RhsLotka` | backend/scenes/video3.py:25-30 | the scene's vector field ignores t and equals the shared field |
| `Video3.ArangeLength` | backend/scenes/video3.py:33 | `arange(start, stop, step)` has ceil((stop - start)/step) points, and at least 1 when that quotient is positive |
| `Video3.DefaultSceneGrid` | backend/scenes/video3.py:32-33 | with the default step h = 0.05, which both call sites rely on, a horizon of m*0.05 gives m + 1 time points, and the default horizon tf = 50 gives 1001 |
| `Video3.SceneRow` | backend/scenes/video3.py:37-44 | one row of the scene's loop (four stages at t, t + h/2, t + h/2 and t + h, then their weighted sum) is the kernel's unclamped RK4 update of the previous row, whatever t is |
| `Video3.Rk4Lotka` | backend/scenes/video3.py:32-46 | three sequences of equal length, with t[k] = t0 + k h. Row 0 is (P0, D0), and each later row is the unclamped RK4 update of the previous one |
| `Video3.UnclampedRowVsClampedStep` | backend/scenes/video3.py:44 | the scene's row update is the unclamped RK4 update. The simulator's step is its clamp, and the two agree whenever the row is non-negative |
| `Video3.UnclampedCanGoNegative` | backend/scenes/video3.py:44 | at P = 1, D = 2, h = 2, a = g = 0, b = d = 1 the scene's row has D < 0, where the clamped step gives 0 |
| `RenderState.AtMost100` | backend/render_state.py:20 | `min(100, x)` is at most 100 and is x or 100 |
| `RenderState.ProgressAt` | backend/render_state.py:19-20 | the polled percentage never exceeds 100 |
| `RenderState.ProgressNonNegative` | backend/render_state.py:19-20 | with the clock not before the start time, the percentage lies in [0, 100] |
| `RenderState.ProgressMonotone` | backend/render_state.py:19-20 | the percentage never decreases as `now` increases |
| `RenderState.ProgressFullAfterEstimate` | backend/render_state.py:7 | once the estimated 30 seconds have elapsed, the percentage is 100 |
| `RenderState.RenderStatus.constructor` | backend/render_state.py:3-8 | the record starts not started, with progress 0, start time 0 and estimate 30 |
| `RenderState.RenderStatus.StartRenderTimer` | backend/render_state.py:10-13 | sets started, progress 0 and start time `now`. The estimate is unchanged |
| `RenderState.RenderStatus.GetProgress` | backend/render_state.py:15-22 | not started: returns 0 and changes nothing. Started: returns the elapsed-time percentage, stores it, and keeps the start time. The result is at most 100 |
| `RenderState.RenderStatus.FinishRender` | backend/render_state.py:24-26 | sets progress 100 and not started, and keeps the start time, so a later poll returns 0 |

## Left out

- Floating-point behaviour: rounding, overflow, `NaN` and `inf`. All arithmetic is over `real`, and the source has no overflow detection to model.
- The accuracy and convergence-order claims for Euler and RK4 (O(h) and O(h^4)). They are statements about floating-point approximation of the exact solution.
- `numpy` grid quirks: `np.arange` and `np.linspace` lengths and end points under rounding. `Simulation.LinspaceAt`, `Comparativa.TimeAt` and `Video3.ArangeLength` give the exact real-number grids.
- The wall clock: `time.time()` is the parameter `now` of `StartRenderTimer` and `GetProgress`.
- The module-level `render_status` dictionary is one `RenderStatus` object. Sharing it between concurrent requests is not modelled.
- Simulation.SimulateLotkaVolterra: requires dt != 0 and t_max/dt > -1. Otherwise the source raises (`ZeroDivisionError` at line 63 when dt = 0, `ValueError` from `np.linspace` at line 64 when n < 0, `IndexError` at line 68 when n = 0). The model does not represent those exceptions.
- Video3.Rk4Lotka: requires h != 0 and at least one time point. Otherwise the source raises on `arange` or on `Y[0]`.
- Comparativa.GenerateComparisonData: requires h != 0, because `np.arange` with a zero step raises. `update_comparison` never passes 0, since `ComparisonConfig` substitutes 0.5.
- Validators.ValidateInputs: a value that is neither a number nor `None` is compared with 0 as a non-number. This raises `TypeError` with the text `CompareError` gives. Other Python objects, such as objects with custom comparison, are not modelled.
- `validate_params_dict` applied to a non-dictionary raises `AttributeError`, which it does not catch. The model's input is always a map.
- The Manim scene (`VideoLotkaProV2.construct` apart from the equilibrium formula), `make_glowing`, `create_label_with_background` and `load_params`. These are rendering and file I/O.
- The Dash pages and figure builders, and the HTML table and summary in pages/comparativa.py. Also pages/simulador.py, pages/inicio.py, pages/informe.py and pages/beamer.py, and the `np.exp` closed forms of the one-species graphs.
- HTTP routing (app.py, backend/app.py), backend/video_tools.py (subprocess and filesystem work) and verify_installation.py (import probes).
