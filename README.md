# Tempo engine: macro engine and scenario registry in Dafny

This project models the **Macro Tempo Engine** of the Foresight 88 "Tempo
Intelligence" research appendix, and the frozen **Scenario Registry** that
seeds it. The engine takes three scalars: a target growth rate in percent, a
systemic stress and a base resilience. From them it computes:

- the nominal output trajectory for the years 2025..2035, which is compound
  growth from a base of 100;
- the growth pressure and the effective resilience (base resilience degraded
  by growth pressure);
- the tempo misalignment: the excess of stress over effective resilience,
  divided by 100 and floored at zero;
- a per-year capacity multiplier. It combines an oscillation, a policy-relief
  pulse at year indices 4 and 8 (2029 and 2033), and an irreversible drag,
  and is floored at zero;
- the adjusted trajectory (nominal output times multiplier) and the capacity
  ratio between adjusted and nominal output;
- a three-way diagnosis of the misalignment: `Synchronized`,
  `StructuralDrag` or `SystemFailure`.

In the source these are top-level script statements. Here they are functions
of `(growth, stress, resilience)` in module `MacroEngine`
(`macro_engine.dfy`). The registry is module `Scenarios` (`registry.dfy`).

Modelling choices:

- All quantities are Dafny `real`, so arithmetic is exact. Nothing here is
  about IEEE-754 rounding.
- Stress and resilience are integers in the registry. They are modelled as
  reals, which covers the integer values.
- `np.sin(i / 1.5)` and `i ** 1.5` are parameters of the engine:
  `sine: real -> real` and `pow15: nat -> real`. Three things are assumed of
  them, each only in the contracts that need it: `SineBounded` (values in
  [-1, 1]), `NonNegativePower` (values at least 0) and `NonDecreasingPower`
  (a later index never has a smaller power; used only by
  `DragNonDecreasing`). All other properties hold for any functions.
- The compound-growth power with an integer exponent is the recursive `Pow`.
- The `ghdp` loop (app.py:103-110) is the method `AdjustedSeries`. It appends
  one point per year. Its postcondition ties the result to the pure
  per-index function `Adjusted`, which is built from `Multiplier`.
- The vectorised division for `capacity_ratio` is the function
  `CapacityRatio`.
- The engine does no input validation. The input ranges (growth in [0, 10],
  stress and resilience in [0, 100]) appear as the `requires InRange(...)` of
  `ComputeMacro`.
- A scenario name missing from the registry would make the dictionary access
  fail. `Lookup` models that case as `None`.
- The policy relief is not gated by misalignment. So with zero misalignment
  the adjusted output is 8 percent above nominal at year indices 4 and 8
  (2029 and 2033). This behaviour is kept as written and proved as `ZeroMisalignmentSeries`.

## Model

| member | source | states |
|---|---|---|
| `Scenarios.Registry` | app.py:48-73 | The registry has exactly four entries, keyed by the four jurisdiction names; every entry has growth in [0, 10] and stress and resilience in [0, 100]. |
| `Scenarios.Lookup` | app.py:83 | Looking up a name gives an entry exactly when the name is a registry key; that entry is the registry's entry for the name, and its parameters are in range. |
| `Scenarios.RegistryValues` | app.py:48-73 | The four entries are (5.5, 45, 85), (3.5, 70, 75), (1.2, 65, 40) and (2.5, 90, 30), each with its note. |
| `MacroEngine.Years` | app.py:90-91 | There are 11 consecutive years, from 2025 to 2035. |
| `MacroEngine.Nominal` | app.py:97 | The nominal series has 11 points; the first is 100 and each next point is the previous one times (1 + g/100); for growth >= 0 no point is below 100. |
| `MacroEngine.Pow` | app.py:97 | The integer-exponent power: a zero exponent gives 1, and a base >= 1 gives a power >= 1. |
| `MacroEngine.GrowthFactor` | app.py:97 | The yearly factor 1 + g/100 is positive for growth above -100 percent, at least 1 for growth >= 0, and exactly 1 for zero growth. |
| `MacroEngine.PowPositive` | app.py:97 | A positive base raised to any natural power is positive. |
| `MacroEngine.PowOfOne` | app.py:97 | One raised to any natural power is one. |
| `MacroEngine.NominalPositive` | app.py:97 | Every nominal point is positive for any growth above -100 percent, so for every growth >= 0. |
| `MacroEngine.NominalFlat` | app.py:97 | With zero growth every nominal point is 100. |
| `MacroEngine.GrowthPressure` | app.py:99 | Growth in [0, 10] gives a pressure in [0, 1]. |
| `MacroEngine.EffectiveResilience` | app.py:100 | For growth in range and resilience >= 0, effective resilience lies between half the base resilience and the base resilience; with zero growth it is the base resilience. |
| `MacroEngine.EffectiveResilienceAntitone` | app.py:99-100 | Raising growth never raises effective resilience, and lowers it strictly when resilience > 0. |
| `MacroEngine.FloorZero` | app.py:101 | `max(0, x)`: the result is >= 0 and >= x, and is either 0 or x. |
| `MacroEngine.Misalignment` | app.py:101 | Misalignment is >= 0; it is 0 exactly when stress <= effective resilience; otherwise 100 times it is the excess of stress over effective resilience. |
| `MacroEngine.MisalignmentAtMostOne` | app.py:99-101 | For in-range inputs misalignment is at most 1. |
| `MacroEngine.Oscillation` | app.py:105 | For a bounded sine and misalignment >= 0 the oscillation lies within plus or minus 0.12 times misalignment; it is 0 when misalignment is 0. |
| `MacroEngine.PolicyRelief` | app.py:106 | The relief is 0 or 0.08; within the 11-year horizon it is 0.08 exactly at year indices 4 and 8 (2029, 2033); it is 0 off multiples of four. |
| `MacroEngine.Drag` | app.py:107 | The drag is >= 0 for misalignment >= 0 and a non-negative power; it is 0 when misalignment is 0. |
| `MacroEngine.DragNonDecreasing` | app.py:107 | For misalignment >= 0 and a non-decreasing power, the drag of a later year index is at least that of an earlier one. |
| `MacroEngine.Multiplier` | app.py:109 | The multiplier is the floor at zero of 1 - drag + oscillation + relief: it is >= 0 and >= that sum, and equal to 0 or to that sum. Under the bounds it is at most 1 + relief + 0.12 times misalignment. With zero misalignment it is 1 + relief. |
| `MacroEngine.ZeroMisalignmentMultiplier` | app.py:105-109 | With zero misalignment the multiplier is 1.08 at year indices 4 and 8 (2029, 2033) and 1 in every other year of the horizon, whatever the sine and power return. |
| `MacroEngine.Adjusted` | app.py:103-110 | The adjusted series has one point per nominal point; a non-negative nominal point gives a non-negative adjusted point; with zero misalignment each point is the nominal point times 1 plus that year's relief. |
| `MacroEngine.Multipliers` | app.py:109-112 | There are 11 multipliers, all >= 0; with zero misalignment they are 1.08 at year indices 4 and 8 (2029, 2033) and 1 elsewhere. |
| `MacroEngine.AdjustedSeries` | app.py:103-110 | The loop's result is the adjusted series: one point per nominal point, each the nominal point times that year's multiplier. |
| `MacroEngine.CapacityRatio` | app.py:112 | The ratio series has one entry per year, and each entry times the nominal point gives back the adjusted point. |
| `MacroEngine.CapacityRatioIsMultiplier` | app.py:103-112 | The capacity ratio of the adjusted series is exactly the sequence of per-year multipliers. |
| `MacroEngine.AdjustedNonNegative` | app.py:109-110 | Every adjusted point is >= 0 when the nominal points are. |
| `MacroEngine.ZeroMisalignmentSeries` | app.py:105-110 | With zero misalignment the adjusted series equals the nominal one, except at year indices 4 and 8 (2029, 2033) where it is 1.08 times nominal. |
| `MacroEngine.Diagnose` | app.py:154-166 | Misalignment > 0.4 gives SystemFailure; 0.1 < misalignment <= 0.4 gives StructuralDrag; misalignment <= 0.1 gives Synchronized; each in both directions. |
| `MacroEngine.DiagnoseMonotone` | app.py:154-166 | A larger misalignment never gives a milder diagnosis; exactly 0.4 gives StructuralDrag and exactly 0.1 gives Synchronized. |
| `MacroEngine.ComputeMacro` | app.py:90-112 | One run gives the years, the nominal series (every point positive), the effective resilience and misalignment, the diagnosis of that misalignment, the adjusted series, and a capacity ratio that is both the element-wise ratio of adjusted to nominal output and the per-year multipliers. Every adjusted point is >= 0. With zero misalignment, adjusted equals nominal except 1.08 times it at year indices 4 and 8 (2029, 2033). |
| `MacroEngine.ComputeForScenario` | app.py:83-112 | A registry name yields the engine's result on that entry's parameters; any other name yields None. |
| `MacroEngine.ScenarioOutcomes` | app.py:99-101 | With the diagnosis chain of app.py:154-166, the registry entries' effective resilience, misalignment and diagnosis: 61.625, 0, Synchronized; 61.875, 0.08125, Synchronized; 37.6, 0.274, StructuralDrag; 26.25, 0.6375, SystemFailure. |
| `MacroEngine.AbuDhabiTracksNominal` | app.py:105-110 | For the first registry entry the adjusted series equals the nominal one, except 1.08 times it at year indices 4 and 8 (2029, 2033). |

## Left out

- Page configuration, styling, title, captions and the context-note info box (app.py:14-43, 85): presentation only.
- The scenario select box (app.py:78-83): widget input. The chosen name is a parameter of `ComputeForScenario`.
- All plotting (app.py:117-142): rendering.
- The metric panel (app.py:147-152): its `int(...)` truncation of the final values and the gap display are presentation formatting.
- The message strings and the `st.error` / `st.warning` / `st.success` calls (app.py:155-166): only the diagnosis value is modelled.
- The research boundary expander text (app.py:171-192).
- The actual values of `np.sin` and of the fractional power `i ** 1.5`: they are parameters, bounded as described above.
- IEEE-754 floating-point rounding: all arithmetic is exact real arithmetic, so no float-exact equality is claimed.
- No micro or biological engine and no input-validation error path appear in app.py, so neither is modelled.
- CapacityRatio: requires every nominal point to be non-zero. The source divides with numpy, which would give infinities or NaN for a zero point. Nominal points are positive for every in-range input, so this case never arises.
