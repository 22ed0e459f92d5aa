/**
 * The frozen Scenario Registry: four reference jurisdictions, each carrying
 * the default macro parameters (target growth in percent, systemic stress,
 * base resilience) and a short context note.
 */
module Scenarios {

  datatype Option<T> = None | Some(value: T)

  /** One entry of the registry. */
  datatype Scenario = Scenario(growth: real, stress: real, resilience: real, desc: string)

  const ABU_DHABI: string := "Abu Dhabi — Vision 2030 (High Buffer)"
  const SINGAPORE: string := "Singapore — Smart Nation (Optimization Ceiling)"
  const JAPAN: string := "Japan — Structural Stagnation"
  const SOUTH_KOREA: string := "South Korea — Acceleration Crisis"

  /** The domain the macro inputs are drawn from: growth in [0, 10] percent,
      stress and resilience in [0, 100]. */
  predicate InRange(growth: real, stress: real, resilience: real) {
    && 0.0 <= growth <= 10.0
    && 0.0 <= stress <= 100.0
    && 0.0 <= resilience <= 100.0
  }

  /** The registry table, keyed by jurisdiction name. */
  function Registry(): (m: map<string, Scenario>)
    ensures m.Keys == {ABU_DHABI, SINGAPORE, JAPAN, SOUTH_KOREA}
    ensures |m| == 4
    ensures forall name :: name in m ==> InRange(m[name].growth, m[name].stress, m[name].resilience)
  {
    var m := map[
      ABU_DHABI := Scenario(5.5, 45.0, 85.0, "High resource buffer with tempo-setting optionality."),
      SINGAPORE := Scenario(3.5, 70.0, 75.0, "Peak efficiency regime with limited recovery slack."),
      JAPAN := Scenario(1.2, 65.0, 40.0, "Low volatility equilibrium with embedded fatigue."),
      SOUTH_KOREA := Scenario(2.5, 90.0, 30.0, "Tempo misalignment exceeds biological limits.")
    ];
    m
  }

  /** Looking a jurisdiction up by name; a name the table lacks (a KeyError
      in a dictionary access) yields None. */
  function Lookup(name: string): (r: Option<Scenario>)
    ensures r.Some? <==> name in Registry()
    ensures r.Some? ==> r.value == Registry()[name]
    ensures r.Some? ==> InRange(r.value.growth, r.value.stress, r.value.resilience)
  {
    var m := Registry();
    if name in m then Some(m[name]) else None
  }

  /** The registry's parameter triples, entry by entry. */
  lemma RegistryValues()
    ensures Lookup(ABU_DHABI) == Some(Scenario(5.5, 45.0, 85.0, "High resource buffer with tempo-setting optionality."))
    ensures Lookup(SINGAPORE) == Some(Scenario(3.5, 70.0, 75.0, "Peak efficiency regime with limited recovery slack."))
    ensures Lookup(JAPAN) == Some(Scenario(1.2, 65.0, 40.0, "Low volatility equilibrium with embedded fatigue."))
    ensures Lookup(SOUTH_KOREA) == Some(Scenario(2.5, 90.0, 30.0, "Tempo misalignment exceeds biological limits."))
  {
  }
}
