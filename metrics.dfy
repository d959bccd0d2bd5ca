/** The metrics engine: the per-emission water and energy increments, the
    derived CO2 offset, efficiency delta and cooling benefit. */
module Metrics {
  import opened Samples
  import opened Physics

  datatype DerivedMetrics = DerivedMetrics(
    waterSavedLiters: real,
    efficiencyDelta: real,
    totalEnergyKwh: real,
    co2OffsetKg: real,
    panelCoolingBenefit: real)

  /** The metrics shown before the first emission. */
  const Initial: DerivedMetrics := DerivedMetrics(0.0, 0.0, 0.0, 0.0, 0.0)

  // Literals below: 15000 m2 of canal under panels, 0.5 s = 0.5 / 3600 h
  // per emission, 0.85 kg CO2 per kWh on the grid.

  /** Water saved during one 0.5 s interval; positive for any reading whose
      humidity is at most 100 %. */
  function WaterIncrement(data: Sample, expVal: real): (w: real)
    requires data.temperatureAmbient > -237.3
    requires expVal > 0.0
    ensures data.humidityPercent <= 100.0 ==> w > 0.0
  {
    EvapRate(data.temperatureAmbient, data.humidityPercent, 15000.0, expVal) * (0.5 / 3600.0)
  }

  /** Energy produced during one 0.5 s interval: 1/7200 of the power. */
  function EnergyIncrement(data: Sample): (e: real)
    ensures e * 7200.0 == data.powerOutputKw
    ensures data.powerOutputKw >= 0.0 ==> e >= 0.0
  {
    data.powerOutputKw * (0.5 / 3600.0)
  }

  /** The metrics published after an update: the cumulative totals, the CO2
      offset recomputed from the energy total, the constant efficiency delta
      and the cooling benefit floored at zero. */
  function Published(water: real, energy: real, data: Sample): (m: DerivedMetrics)
    ensures m.waterSavedLiters == water && m.totalEnergyKwh == energy
    ensures m.co2OffsetKg == m.totalEnergyKwh * 0.85
    ensures m.efficiencyDelta == 13.5
    ensures m.panelCoolingBenefit >= 0.0
    ensures m.panelCoolingBenefit >= 30.0 - (data.temperaturePanel - data.temperatureAmbient)
    ensures m.panelCoolingBenefit == 0.0 ||
            m.panelCoolingBenefit == 30.0 - (data.temperaturePanel - data.temperatureAmbient)
  {
    var coolingBenefit := 30.0 - (data.temperaturePanel - data.temperatureAmbient);
    DerivedMetrics(
      water,
      EfficiencyDelta(data.temperaturePanel, data.waterTemp),
      energy,
      energy * 0.85,
      Max(0.0, coolingBenefit))
  }

  /** Total energy over a sequence of emissions. */
  function EnergyOf(stream: seq<Sample>): real
  {
    if stream == [] then 0.0
    else EnergyOf(stream[..|stream| - 1]) + EnergyIncrement(stream[|stream| - 1])
  }

  lemma EnergyOfSnoc(stream: seq<Sample>, x: Sample)
    ensures EnergyOf(stream + [x]) == EnergyOf(stream) + EnergyIncrement(x)
  {
    assert (stream + [x])[..|stream|] == stream;
  }

  /** The energy total never decreases as further emissions with
      non-negative power are folded in. */
  lemma {:induction false} EnergyMonotone(s: seq<Sample>, t: seq<Sample>)
    requires forall i :: 0 <= i < |t| ==> t[i].powerOutputKw >= 0.0
    ensures EnergyOf(s + t) >= EnergyOf(s)
  {
    if t != [] {
      var t' := t[..|t| - 1];
      EnergyMonotone(s, t');
      assert (s + t)[..|s + t| - 1] == s + t';
      assert EnergyOf(s + t) == EnergyOf(s + t') + EnergyIncrement(t[|t| - 1]);
    } else {
      assert s + t == s;
    }
  }
}
