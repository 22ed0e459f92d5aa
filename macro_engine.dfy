/**
 * The Macro Tempo Engine: from a target growth rate, a systemic stress and a
 * base resilience it derives the nominal output trajectory for 2025..2035,
 * the capacity-adjusted trajectory, the capacity ratio between the two, the
 * misalignment severity and a three-way diagnosis.
 *
 * The two transcendental ingredients of the per-year multiplier, the sine of
 * the oscillation and the power i^1.5 of the drag, are parameters: `sine` is
 * any function. What is assumed of them is named where it is used: the sine
 * bounded by [-1, 1] (`SineBounded`), the power non-negative
 * (`NonNegativePower`) and, for the drag's growth over time, non-decreasing
 * (`NonDecreasingPower`). Every other property holds whatever they return.
 */
module MacroEngine {
  import opened Scenarios

  const FIRST_YEAR: int := 2025
  const LAST_YEAR: int := 2035
  /** Number of annual points, the length of the year range. */
  const HORIZON: nat := 11

  const BASE_OUTPUT: real := 100.0
  const PRESSURE_SCALE: real := 10.0
  const RESILIENCE_EROSION: real := 0.5
  const MISALIGNMENT_SCALE: real := 100.0
  const OSCILLATION_PHASE_DIVISOR: real := 1.5
  const OSCILLATION_AMPLITUDE: real := 0.12
  const POLICY_RELIEF_MAGNITUDE: real := 0.08
  const POLICY_RELIEF_PERIOD: nat := 4
  const DRAG_COEFFICIENT: real := 0.02
  const FAILURE_THRESHOLD: real := 0.4
  const DRAG_THRESHOLD: real := 0.1

  datatype Diagnosis = Synchronized | StructuralDrag | SystemFailure

  datatype MacroResult = MacroResult(
    years: seq<int>,
    nominal: seq<real>,
    adjusted: seq<real>,
    capacityRatio: seq<real>,
    misalignment: real,
    effectiveResilience: real,
    diagnosis: Diagnosis)

  /** What is assumed of the sine: its values lie in [-1, 1]. */
  ghost predicate SineBounded(sine: real -> real) {
    forall x :: -1.0 <= sine(x) <= 1.0
  }

  /** What is assumed of the power i^1.5: it is never negative. */
  ghost predicate NonNegativePower(pow15: nat -> real) {
    forall k :: 0.0 <= pow15(k)
  }

  /** What is assumed of the power for the drag to grow over time: a later
      index never has a smaller power. */
  ghost predicate NonDecreasingPower(pow15: nat -> real) {
    forall a: nat, b: nat :: a <= b ==> pow15(a) <= pow15(b)
  }

  /** `max(0, x)`: the floor at zero used for misalignment and multiplier. */
  function FloorZero(x: real): (r: real)
    ensures r >= 0.0 && r >= x
    ensures r == 0.0 || r == x
  {
    if x > 0.0 then x else 0.0
  }

  // ---------------------------------------------------------------------
  // Years and nominal trajectory
  // ---------------------------------------------------------------------

  /** The calendar years of the horizon, 2025 to 2035 inclusive. */
  function Years(): (ys: seq<int>)
    ensures |ys| == HORIZON
    ensures ys[0] == FIRST_YEAR && ys[|ys| - 1] == LAST_YEAR
    ensures forall i :: 0 <= i < |ys| - 1 ==> ys[i + 1] == ys[i] + 1
  {
    seq(HORIZON, i => FIRST_YEAR + i)
  }

  /** `b` raised to the natural power `n`. */
  function Pow(b: real, n: nat): (r: real)
    ensures n == 0 ==> r == 1.0
    ensures b >= 1.0 ==> r >= 1.0
  {
    if n == 0 then 1.0 else b * Pow(b, n - 1)
  }

  lemma {:induction false} PowPositive(b: real, n: nat)
    requires b > 0.0
    ensures Pow(b, n) > 0.0
  {
    if n > 0 {
      PowPositive(b, n - 1);
    }
  }

  lemma {:induction false} PowOfOne(n: nat)
    ensures Pow(1.0, n) == 1.0
  {
    if n > 0 {
      PowOfOne(n - 1);
    }
  }

  /** One year's compounding factor for a growth rate given in percent. */
  function GrowthFactor(growth: real): (f: real)
    ensures growth > -100.0 ==> f > 0.0
    ensures growth >= 0.0 ==> f >= 1.0
    ensures growth == 0.0 ==> f == 1.0
  {
    1.0 + growth / 100.0
  }

  /** Nominal output: compound growth from a base of 100, one point per year. */
  function Nominal(growth: real): (gdp: seq<real>)
    ensures |gdp| == HORIZON
    ensures gdp[0] == BASE_OUTPUT
    ensures forall i :: 0 <= i < HORIZON - 1 ==> gdp[i + 1] == gdp[i] * GrowthFactor(growth)
    ensures growth >= 0.0 ==> forall i :: 0 <= i < HORIZON ==> gdp[i] >= BASE_OUTPUT
  {
    seq(HORIZON, i requires 0 <= i => BASE_OUTPUT * Pow(GrowthFactor(growth), i))
  }

  /** Nominal output stays positive for every growth rate above -100 percent,
      in particular for every non-negative one. */
  lemma NominalPositive(growth: real)
    requires growth > -100.0
    ensures forall i :: 0 <= i < HORIZON ==> Nominal(growth)[i] > 0.0
  {
    forall i | 0 <= i < HORIZON
      ensures Nominal(growth)[i] > 0.0
    {
      PowPositive(GrowthFactor(growth), i);
    }
  }

  /** With zero growth the nominal trajectory is flat at 100. */
  lemma NominalFlat()
    ensures forall i :: 0 <= i < HORIZON ==> Nominal(0.0)[i] == BASE_OUTPUT
  {
    forall i | 0 <= i < HORIZON
      ensures Nominal(0.0)[i] == BASE_OUTPUT
    {
      PowOfOne(i);
    }
  }

  // ---------------------------------------------------------------------
  // Resilience and misalignment
  // ---------------------------------------------------------------------

  /** Growth ambition mapped linearly onto [0, 1] over the 0..10 percent range. */
  function GrowthPressure(growth: real): (p: real)
    ensures 0.0 <= growth <= PRESSURE_SCALE ==> 0.0 <= p <= 1.0
  {
    growth / PRESSURE_SCALE
  }

  /** A fraction in [0, 1] of a non-negative amount lies between 0 and it. */
  lemma FractionWithin(amount: real, fraction: real)
    ensures 0.0 <= amount && 0.0 <= fraction <= 1.0 ==> 0.0 <= amount * fraction <= amount
  {
  }

  /** Base resilience degraded by growth pressure, by up to one half. */
  function EffectiveResilience(growth: real, resilience: real): (eff: real)
    ensures 0.0 <= growth <= PRESSURE_SCALE && 0.0 <= resilience ==>
              resilience / 2.0 <= eff <= resilience
    ensures growth == 0.0 ==> eff == resilience
  {
    var p := GrowthPressure(growth);
    FractionWithin(resilience, p);
    var eff := resilience * (1.0 - p * RESILIENCE_EROSION);
    assert eff == resilience - (resilience * p) * RESILIENCE_EROSION;
    eff
  }

  /** The product of two non-negative reals is non-negative, and positive
      when both factors are. */
  lemma ProductSign(a: real, b: real)
    requires 0.0 <= a && 0.0 <= b
    ensures 0.0 <= a * b
    ensures 0.0 < a && 0.0 < b ==> 0.0 < a * b
  {
  }

  /** Raising the growth target never raises effective resilience, and lowers
      it strictly whenever there is resilience to lose. */
  lemma EffectiveResilienceAntitone(g1: real, g2: real, resilience: real)
    requires g1 <= g2
    requires 0.0 <= resilience
    ensures EffectiveResilience(g2, resilience) <= EffectiveResilience(g1, resilience)
    ensures g1 < g2 && resilience > 0.0 ==>
              EffectiveResilience(g2, resilience) < EffectiveResilience(g1, resilience)
  {
    var loss := EffectiveResilience(g1, resilience) - EffectiveResilience(g2, resilience);
    assert loss == resilience * (g2 - g1) / 20.0;
    ProductSign(resilience, g2 - g1);
  }

  /** Severity of stress in excess of effective resilience, scaled by 1/100
      and floored at zero. */
  function Misalignment(stress: real, effectiveResilience: real): (m: real)
    ensures m >= 0.0
    ensures m == 0.0 <==> stress <= effectiveResilience
    ensures stress > effectiveResilience ==> m * MISALIGNMENT_SCALE == stress - effectiveResilience
  {
    FloorZero((stress - effectiveResilience) / MISALIGNMENT_SCALE)
  }

  /** Misalignment never exceeds one for inputs in range. */
  lemma MisalignmentAtMostOne(growth: real, stress: real, resilience: real)
    requires InRange(growth, stress, resilience)
    ensures Misalignment(stress, EffectiveResilience(growth, resilience)) <= 1.0
  {
  }

  // ---------------------------------------------------------------------
  // The per-year capacity multiplier
  // ---------------------------------------------------------------------

  /** Periodic perturbation whose amplitude scales with misalignment. */
  function Oscillation(i: nat, misalignment: real, sine: real -> real): (o: real)
    ensures SineBounded(sine) && misalignment >= 0.0 ==>
              -OSCILLATION_AMPLITUDE * misalignment <= o <= OSCILLATION_AMPLITUDE * misalignment
    ensures misalignment == 0.0 ==> o == 0.0
  {
    var s := sine(i as real / OSCILLATION_PHASE_DIVISOR);
    assert SineBounded(sine) && misalignment >= 0.0 ==>
             -misalignment <= s * misalignment <= misalignment by {
      if SineBounded(sine) && misalignment >= 0.0 {
        assert -1.0 <= s <= 1.0;
        assert (1.0 + s) * misalignment >= 0.0;
        assert (1.0 - s) * misalignment >= 0.0;
      }
    }
    s * misalignment * OSCILLATION_AMPLITUDE
  }

  /** Quadrennial relief pulse: it fires on every positive multiple of four,
      which inside the horizon means year indices 4 and 8 (2029 and 2033)
      only. */
  function PolicyRelief(i: nat): (r: real)
    ensures r == 0.0 || r == POLICY_RELIEF_MAGNITUDE
    ensures i < HORIZON ==> (r == POLICY_RELIEF_MAGNITUDE <==> i == 4 || i == 8)
    ensures i % POLICY_RELIEF_PERIOD != 0 ==> r == 0.0
  {
    if i > 0 && i % POLICY_RELIEF_PERIOD == 0 then POLICY_RELIEF_MAGNITUDE else 0.0
  }

  /** Irreversible drag, growing with misalignment and with i^1.5. */
  function Drag(i: nat, misalignment: real, pow15: nat -> real): (d: real)
    ensures NonNegativePower(pow15) && misalignment >= 0.0 ==> d >= 0.0
    ensures misalignment == 0.0 ==> d == 0.0
  {
    misalignment * DRAG_COEFFICIENT * pow15(i)
  }

  /** The drag never shrinks from one year to a later one, as long as the
      power it is built on does not. */
  lemma DragNonDecreasing(i: nat, j: nat, misalignment: real, pow15: nat -> real)
    requires i <= j
    requires misalignment >= 0.0
    requires NonDecreasingPower(pow15)
    ensures Drag(i, misalignment, pow15) <= Drag(j, misalignment, pow15)
  {
    var rise := pow15(j) - pow15(i);
    assert rise >= 0.0;
    assert Drag(j, misalignment, pow15) - Drag(i, misalignment, pow15)
        == (misalignment * DRAG_COEFFICIENT) * rise;
    assert (misalignment * DRAG_COEFFICIENT) * rise >= 0.0;
  }

  /** The capacity multiplier of year index `i`: one, less the drag, plus the
      oscillation and the relief, floored at zero. */
  function Multiplier(i: nat, misalignment: real, sine: real -> real, pow15: nat -> real): (m: real)
    ensures m >= 0.0
    ensures m >= 1.0 - Drag(i, misalignment, pow15) + Oscillation(i, misalignment, sine) + PolicyRelief(i)
    ensures m == 0.0 ||
            m == 1.0 - Drag(i, misalignment, pow15) + Oscillation(i, misalignment, sine) + PolicyRelief(i)
    ensures SineBounded(sine) && NonNegativePower(pow15) && misalignment >= 0.0 ==>
              m <= 1.0 + PolicyRelief(i) + OSCILLATION_AMPLITUDE * misalignment
    ensures misalignment == 0.0 ==> m == 1.0 + PolicyRelief(i)
  {
    FloorZero(1.0 - Drag(i, misalignment, pow15) + Oscillation(i, misalignment, sine) + PolicyRelief(i))
  }

  /** With no misalignment the multiplier is 1 in every year of the horizon
      except at the relief year indices 4 and 8, where it is 1.08: the relief is
      not gated by misalignment, so adjusted output then exceeds nominal. */
  lemma ZeroMisalignmentMultiplier(i: nat, sine: real -> real, pow15: nat -> real)
    requires i < HORIZON
    ensures Multiplier(i, 0.0, sine, pow15) == if i == 4 || i == 8 then 1.08 else 1.0
  {
  }

  // ---------------------------------------------------------------------
  // Diagnosis
  // ---------------------------------------------------------------------

  /** Classification of a misalignment by the fixed strict thresholds. */
  function Diagnose(misalignment: real): (d: Diagnosis)
    ensures d == SystemFailure <==> misalignment > FAILURE_THRESHOLD
    ensures d == StructuralDrag <==> DRAG_THRESHOLD < misalignment <= FAILURE_THRESHOLD
    ensures d == Synchronized <==> misalignment <= DRAG_THRESHOLD
  {
    if misalignment > FAILURE_THRESHOLD then SystemFailure
    else if misalignment > DRAG_THRESHOLD then StructuralDrag
    else Synchronized
  }

  /** Rank of a diagnosis by severity. */
  function Severity(d: Diagnosis): nat {
    match d
    case Synchronized => 0
    case StructuralDrag => 1
    case SystemFailure => 2
  }

  /** A larger misalignment never yields a milder diagnosis; the thresholds
      themselves fall into the milder class. */
  lemma DiagnoseMonotone(m1: real, m2: real)
    requires m1 <= m2
    ensures Severity(Diagnose(m1)) <= Severity(Diagnose(m2))
    ensures Diagnose(FAILURE_THRESHOLD) == StructuralDrag
    ensures Diagnose(DRAG_THRESHOLD) == Synchronized
  {
  }

  // ---------------------------------------------------------------------
  // Adjusted series and capacity ratio
  // ---------------------------------------------------------------------

  /** The adjusted trajectory a nominal one yields: each point scaled by the
      multiplier of its year. */
  function Adjusted(gdp: seq<real>, misalignment: real, sine: real -> real, pow15: nat -> real)
    : (ghdp: seq<real>)
    ensures |ghdp| == |gdp|
    ensures forall i :: 0 <= i < |gdp| && gdp[i] >= 0.0 ==> ghdp[i] >= 0.0
    ensures misalignment == 0.0 ==> forall i :: 0 <= i < |gdp| ==> ghdp[i] == gdp[i] * (1.0 + PolicyRelief(i))
  {
    seq(|gdp|, i requires 0 <= i < |gdp| => gdp[i] * Multiplier(i, misalignment, sine, pow15))
  }

  /** The multipliers of the years of the horizon. */
  function Multipliers(misalignment: real, sine: real -> real, pow15: nat -> real): (ms: seq<real>)
    ensures |ms| == HORIZON
    ensures forall i :: 0 <= i < HORIZON ==> ms[i] >= 0.0
    ensures misalignment == 0.0 ==> forall i :: 0 <= i < HORIZON ==>
              ms[i] == if i == 4 || i == 8 then 1.08 else 1.0
  {
    seq(HORIZON, i requires 0 <= i => Multiplier(i, misalignment, sine, pow15))
  }

  /** The adjusted output loop: one point per year, appended in order. */
  method AdjustedSeries(gdp: seq<real>, misalignment: real, sine: real -> real, pow15: nat -> real)
    returns (ghdp: seq<real>)
    ensures ghdp == Adjusted(gdp, misalignment, sine, pow15)
  {
    ghdp := [];
    var i := 0;
    while i < |gdp|
      invariant 0 <= i <= |gdp|
      invariant |ghdp| == i
      invariant forall k :: 0 <= k < i ==> ghdp[k] == gdp[k] * Multiplier(k, misalignment, sine, pow15)
    {
      var oscillation := Oscillation(i, misalignment, sine);
      var policyRelief := PolicyRelief(i);
      var irreversibleDrag := Drag(i, misalignment, pow15);
      var adjusted := FloorZero(1.0 - irreversibleDrag + oscillation + policyRelief);
      ghdp := ghdp + [gdp[i] * adjusted];
      i := i + 1;
    }
    var spec := Adjusted(gdp, misalignment, sine, pow15);
    assert |spec| == |ghdp|;
    assert forall k :: 0 <= k < |ghdp| ==> ghdp[k] == spec[k];
  }

  /** Element-wise division of the adjusted by the nominal series. */
  function CapacityRatio(ghdp: seq<real>, gdp: seq<real>): (ratio: seq<real>)
    requires |ghdp| == |gdp|
    requires forall i :: 0 <= i < |gdp| ==> gdp[i] != 0.0
    ensures |ratio| == |gdp|
    ensures forall i :: 0 <= i < |gdp| ==> ratio[i] * gdp[i] == ghdp[i]
  {
    seq(|gdp|, i requires 0 <= i < |gdp| => ghdp[i] / gdp[i])
  }

  /** The capacity ratio of an adjusted trajectory is exactly the multiplier
      of each year. */
  lemma CapacityRatioIsMultiplier(gdp: seq<real>, misalignment: real, sine: real -> real, pow15: nat -> real)
    requires |gdp| == HORIZON
    requires forall i :: 0 <= i < |gdp| ==> gdp[i] != 0.0
    ensures CapacityRatio(Adjusted(gdp, misalignment, sine, pow15), gdp) == Multipliers(misalignment, sine, pow15)
  {
    var ghdp := Adjusted(gdp, misalignment, sine, pow15);
    var ratio := CapacityRatio(ghdp, gdp);
    var ms := Multipliers(misalignment, sine, pow15);
    forall i | 0 <= i < HORIZON
      ensures ratio[i] == ms[i]
    {
      assert ms[i] == Multiplier(i, misalignment, sine, pow15);
      assert ghdp[i] == gdp[i] * ms[i];
    }
  }

  /** A non-negative trajectory stays non-negative once adjusted. */
  lemma AdjustedNonNegative(gdp: seq<real>, misalignment: real, sine: real -> real, pow15: nat -> real)
    requires forall i :: 0 <= i < |gdp| ==> gdp[i] >= 0.0
    ensures forall i :: 0 <= i < |gdp| ==> Adjusted(gdp, misalignment, sine, pow15)[i] >= 0.0
  {
  }

  /** With no misalignment the adjusted trajectory equals the nominal one
      except at the relief year indices 4 and 8 (2029 and 2033), where it is
      8 percent above. */
  lemma ZeroMisalignmentSeries(gdp: seq<real>, sine: real -> real, pow15: nat -> real)
    requires |gdp| == HORIZON
    ensures forall i :: 0 <= i < HORIZON ==>
              Adjusted(gdp, 0.0, sine, pow15)[i] == if i == 4 || i == 8 then gdp[i] * 1.08 else gdp[i]
  {
  }

  // ---------------------------------------------------------------------
  // The whole engine
  // ---------------------------------------------------------------------

  /** One run of the macro engine on in-range inputs. */
  method ComputeMacro(growth: real, stress: real, resilience: real,
                      sine: real -> real, pow15: nat -> real)
    returns (r: MacroResult)
    requires InRange(growth, stress, resilience)
    ensures r.years == Years()
    ensures r.nominal == Nominal(growth)
    ensures forall i :: 0 <= i < HORIZON ==> r.nominal[i] > 0.0
    ensures r.effectiveResilience == EffectiveResilience(growth, resilience)
    ensures r.misalignment == Misalignment(stress, r.effectiveResilience)
    ensures r.diagnosis == Diagnose(r.misalignment)
    ensures r.adjusted == Adjusted(r.nominal, r.misalignment, sine, pow15)
    ensures r.capacityRatio == Multipliers(r.misalignment, sine, pow15)
    ensures |r.adjusted| == HORIZON
    ensures r.capacityRatio == CapacityRatio(r.adjusted, r.nominal)
    ensures forall i :: 0 <= i < HORIZON ==> r.adjusted[i] >= 0.0
    ensures r.misalignment == 0.0 ==> forall i :: 0 <= i < HORIZON ==>
              r.adjusted[i] == if i == 4 || i == 8 then r.nominal[i] * 1.08 else r.nominal[i]
  {
    var years := Years();
    var gdp := Nominal(growth);
    var effectiveResilience := EffectiveResilience(growth, resilience);
    var misalignment := Misalignment(stress, effectiveResilience);
    var ghdp := AdjustedSeries(gdp, misalignment, sine, pow15);
    NominalPositive(growth);
    CapacityRatioIsMultiplier(gdp, misalignment, sine, pow15);
    AdjustedNonNegative(gdp, misalignment, sine, pow15);
    if misalignment == 0.0 {
      ZeroMisalignmentSeries(gdp, sine, pow15);
    }
    var capacityRatio := CapacityRatio(ghdp, gdp);
    r := MacroResult(years, gdp, ghdp, capacityRatio, misalignment, effectiveResilience,
                     Diagnose(misalignment));
  }

  /** The engine seeded from a registry entry; a name the registry lacks
      yields None. */
  method ComputeForScenario(name: string, sine: real -> real, pow15: nat -> real)
    returns (r: Option<MacroResult>)
    ensures r.Some? <==> name in Registry()
    ensures r.Some? ==>
              var s := Registry()[name];
              && r.value.years == Years()
              && r.value.nominal == Nominal(s.growth)
              && r.value.effectiveResilience == EffectiveResilience(s.growth, s.resilience)
              && r.value.misalignment == Misalignment(s.stress, r.value.effectiveResilience)
              && r.value.diagnosis == Diagnose(r.value.misalignment)
              && r.value.adjusted == Adjusted(r.value.nominal, r.value.misalignment, sine, pow15)
              && r.value.capacityRatio == Multipliers(r.value.misalignment, sine, pow15)
  {
    match Lookup(name)
    case None =>
      r := None;
    case Some(s) =>
      var result := ComputeMacro(s.growth, s.stress, s.resilience, sine, pow15);
      r := Some(result);
  }

  /** What the engine concludes for each registry entry. */
  lemma ScenarioOutcomes()
    ensures var s := Registry()[ABU_DHABI];
            var eff := EffectiveResilience(s.growth, s.resilience);
            var m := Misalignment(s.stress, eff);
            eff == 61.625 && m == 0.0 && Diagnose(m) == Synchronized
    ensures var s := Registry()[SINGAPORE];
            var eff := EffectiveResilience(s.growth, s.resilience);
            var m := Misalignment(s.stress, eff);
            eff == 61.875 && m == 0.08125 && Diagnose(m) == Synchronized
    ensures var s := Registry()[JAPAN];
            var eff := EffectiveResilience(s.growth, s.resilience);
            var m := Misalignment(s.stress, eff);
            eff == 37.6 && m == 0.274 && Diagnose(m) == StructuralDrag
    ensures var s := Registry()[SOUTH_KOREA];
            var eff := EffectiveResilience(s.growth, s.resilience);
            var m := Misalignment(s.stress, eff);
            eff == 26.25 && m == 0.6375 && Diagnose(m) == SystemFailure
  {
  }

  /** The first registry entry has no misalignment, so its adjusted
      trajectory is its nominal one, lifted by 8 percent at year indices 4 and
      8 only. */
  lemma AbuDhabiTracksNominal(sine: real -> real, pow15: nat -> real)
    ensures var s := Registry()[ABU_DHABI];
            var gdp := Nominal(s.growth);
            var m := Misalignment(s.stress, EffectiveResilience(s.growth, s.resilience));
            forall i :: 0 <= i < HORIZON ==>
              Adjusted(gdp, m, sine, pow15)[i] == if i == 4 || i == 8 then gdp[i] * 1.08 else gdp[i]
  {
    ScenarioOutcomes();
    ZeroMisalignmentSeries(Nominal(5.5), sine, pow15);
  }
}
