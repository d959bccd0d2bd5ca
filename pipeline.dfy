/** The useTelemetry hook's state and its 100 ms interval callback. The
    React refs and state cells become fields of one object; one firing of
    the interval is one call of Tick, with the clock, the random draws and
    the transcendental values passed in. */
module Pipeline {
  import opened Wrappers
  import opened Samples
  import opened Physics
  import opened Generator
  import opened Aggregation
  import opened Smoothing
  import History
  import opened Metrics

  /** Minimum milliseconds between two emissions. */
  const EmitPeriodMs: int := 500

  /** The hook's invariant, on the values of its state and the record of
      every sample it has emitted: the buffer, the record and the current
      telemetry lie in the physical ranges; the history is the newest
      window of the record and the previous output its last element; the
      energy total is the record's energy; the metrics carry the totals. */
  ghost predicate Consistent(telemetry: Sample, metrics: DerivedMetrics, history: seq<Sample>,
                             buffer: seq<Sample>, water: real, energy: real,
                             lastData: Option<Sample>, emitted: seq<Sample>)
  {
    AllInBounds(buffer) &&
    AllInBounds(emitted) &&
    InBounds(telemetry) &&
    history == History.Newest(emitted) &&
    lastData == (if emitted == [] then None else Some(emitted[|emitted| - 1])) &&
    energy == EnergyOf(emitted) &&
    water >= 0.0 &&
    (emitted == [] ==> water == 0.0 && metrics == Initial) &&
    metrics.waterSavedLiters == water &&
    metrics.totalEnergyKwh == energy &&
    metrics.co2OffsetKg == energy * 0.85 &&
    metrics.panelCoolingBenefit >= 0.0 &&
    (emitted != [] ==> metrics.efficiencyDelta == 13.5)
  }

  /** Publishing an in-range sample keeps the invariant: it becomes the
      telemetry and the previous output, the history and the record gain
      it, the totals take in its increments, and the buffer is emptied. */
  lemma PublishKeepsConsistent(telemetry: Sample, metrics: DerivedMetrics, history: seq<Sample>,
                               buffer: seq<Sample>, water: real, energy: real,
                               lastData: Option<Sample>, emitted: seq<Sample>,
                               smoothed: Sample, expVal: real)
    requires Consistent(telemetry, metrics, history, buffer, water, energy, lastData, emitted)
    requires InBounds(smoothed)
    requires expVal > 0.0
    ensures var water', energy' :=
        water + WaterIncrement(smoothed, expVal), energy + EnergyIncrement(smoothed);
      Consistent(smoothed, Published(water', energy', smoothed), History.Append(history, smoothed),
                 [], water', energy', Some(smoothed), emitted + [smoothed])
  {
    AllInBoundsSnoc(emitted, smoothed);
    History.AppendNewest(emitted, smoothed);
    EnergyOfSnoc(emitted, smoothed);
  }

  class TelemetryPipeline {
    var telemetry: Sample             // current telemetry shown to consumers
    var metrics: DerivedMetrics
    var history: seq<Sample>          // historicalData, oldest first
    var buffer: seq<Sample>           // raw readings since the last emission
    var cumulativeWater: real
    var cumulativeEnergy: real
    var lastUpdate: int               // clock value of the last emission
    var lastData: Option<Sample>      // previous smoothed output, if any
    ghost var emitted: seq<Sample>    // every smoothed output so far, in order

    ghost predicate Valid()
      reads this
    {
      Consistent(telemetry, metrics, history, buffer, cumulativeWater, cumulativeEnergy,
                 lastData, emitted)
    }

    /** The hook's initial state; start is the clock when it mounts and stamp
        the Date of the placeholder reading. */
    constructor (start: int, stamp: int)
      ensures Valid()
      ensures telemetry == Sample(0.0, 35.0, 28.0, 65.0, 850.0, 24.0, 15.0, stamp)
      ensures metrics == Initial && history == [] && buffer == []
      ensures cumulativeWater == 0.0 && cumulativeEnergy == 0.0
      ensures lastUpdate == start && lastData == None && emitted == []
    {
      telemetry := Sample(0.0, 35.0, 28.0, 65.0, 850.0, 24.0, 15.0, stamp);
      metrics := Initial;
      history := [];
      buffer := [];
      cumulativeWater := 0.0;
      cumulativeEnergy := 0.0;
      lastUpdate := start;
      lastData := None;
      emitted := [];
    }

    /** updateMetrics: add this interval's water and energy to the running
        totals and publish the derived metrics. expVal stands for the
        Math.exp value of the evaporation model at this reading. */
    method UpdateMetrics(data: Sample, expVal: real)
      requires data.temperatureAmbient > -237.3
      requires expVal > 0.0
      modifies this`cumulativeWater, this`cumulativeEnergy, this`metrics
      ensures cumulativeWater == old(cumulativeWater) + WaterIncrement(data, expVal)
      ensures cumulativeEnergy == old(cumulativeEnergy) + EnergyIncrement(data)
      ensures metrics == Published(cumulativeWater, cumulativeEnergy, data)
      ensures metrics.co2OffsetKg == cumulativeEnergy * 0.85
      ensures data.humidityPercent <= 100.0 ==> cumulativeWater > old(cumulativeWater)
      ensures data.powerOutputKw >= 0.0 ==> cumulativeEnergy >= old(cumulativeEnergy)
    {
      var evapRate := EvapRate(data.temperatureAmbient, data.humidityPercent, 15000.0, expVal);
      var waterSavedIncrement := evapRate * (0.5 / 3600.0);
      cumulativeWater := cumulativeWater + waterSavedIncrement;
      var energyIncrement := data.powerOutputKw * (0.5 / 3600.0);
      cumulativeEnergy := cumulativeEnergy + energyIncrement;
      var efficiencyDelta := EfficiencyDelta(data.temperaturePanel, data.waterTemp);
      var co2OffsetKg := cumulativeEnergy * 0.85;
      var panelCoolingBenefit := 30.0 - (data.temperaturePanel - data.temperatureAmbient);
      metrics := DerivedMetrics(cumulativeWater, efficiencyDelta, cumulativeEnergy,
                                co2OffsetKg, Max(0.0, panelCoolingBenefit));
    }

    /** Appends an emitted sample to the history window (the newest 59
        entries plus the new one) and to the ghost record of emissions. */
    method Record(smoothed: Sample)
      modifies this`history, this`emitted
      ensures history == History.Append(old(history), smoothed)
      ensures emitted == old(emitted) + [smoothed]
    {
      history := History.Append(history, smoothed);
      emitted := emitted + [smoothed];
    }

    /** Publishes one smoothed sample: it becomes the current telemetry and
        the previous output, the metrics take it in, the history window
        gains it, and the buffer is cleared and the gate time recorded. */
    method Publish(smoothed: Sample, now: int, expVal: real)
      requires Valid()
      requires InBounds(smoothed)
      requires expVal > 0.0
      modifies this
      ensures Valid()
      ensures buffer == [] && lastUpdate == now
      ensures lastData == Some(smoothed) && telemetry == smoothed
      ensures history == History.Append(old(history), smoothed)
      ensures emitted == old(emitted) + [smoothed]
      ensures cumulativeEnergy == old(cumulativeEnergy) + EnergyIncrement(smoothed)
      ensures cumulativeWater == old(cumulativeWater) + WaterIncrement(smoothed, expVal)
      ensures metrics == Published(cumulativeWater, cumulativeEnergy, smoothed)
      ensures cumulativeWater > old(cumulativeWater)
      ensures cumulativeEnergy >= old(cumulativeEnergy)
    {
      PublishKeepsConsistent(telemetry, metrics, history, buffer, cumulativeWater,
                             cumulativeEnergy, lastData, emitted, smoothed, expVal);
      telemetry := smoothed;
      UpdateMetrics(smoothed, expVal);
      lastData := Some(smoothed);
      Record(smoothed);
      buffer := [];
      lastUpdate := now;
    }

    /** The body of the 500 ms gate: average the buffered readings, smooth
        the average against the previous output and publish it. */
    method Emit(now: int, averageStamp: int, expVal: real)
      requires Valid()
      requires |buffer| > 0
      requires expVal > 0.0
      modifies this
      ensures Valid()
      ensures var smoothed := Smooth(Average(old(buffer), averageStamp), old(lastData));
        buffer == [] && lastUpdate == now &&
        lastData == Some(smoothed) && telemetry == smoothed &&
        history == History.Append(old(history), smoothed) &&
        emitted == old(emitted) + [smoothed] &&
        cumulativeEnergy == old(cumulativeEnergy) + EnergyIncrement(smoothed) &&
        cumulativeWater == old(cumulativeWater) + WaterIncrement(lastData.value, expVal) &&
        metrics == Published(cumulativeWater, cumulativeEnergy, smoothed)
      ensures cumulativeWater > old(cumulativeWater)
      ensures cumulativeEnergy >= old(cumulativeEnergy)
    {
      var averaged := AverageBuffer(buffer, averageStamp);
      SmoothInBounds(averaged, lastData);
      var smoothed := Smooth(averaged, lastData);
      Publish(smoothed, now, expVal);
    }

    /** One firing of the 100 ms interval. now is Date.now(); hour, draws and
        sinVal drive the generator; sampleStamp and averageStamp are the two
        new Date() values; expVal is the Math.exp value used if this tick
        emits. Below the 500 ms gate only the buffer grows; at the gate the
        buffer, which holds at least the reading just pushed, is averaged,
        smoothed and emitted, and cleared. */
    method Tick(now: int, hour: int, draws: Draws, sinVal: real,
                sampleStamp: int, averageStamp: int, expVal: real)
      requires Valid()
      requires expVal > 0.0
      modifies this
      ensures Valid()
      ensures old(now - lastUpdate) < EmitPeriodMs ==>
        buffer == old(buffer) + [Generate(hour, draws, sinVal, sampleStamp)] &&
        telemetry == old(telemetry) && metrics == old(metrics) &&
        history == old(history) && lastData == old(lastData) &&
        lastUpdate == old(lastUpdate) && emitted == old(emitted) &&
        cumulativeWater == old(cumulativeWater) && cumulativeEnergy == old(cumulativeEnergy)
      ensures old(now - lastUpdate) >= EmitPeriodMs ==>
        var pending := old(buffer) + [Generate(hour, draws, sinVal, sampleStamp)];
        var smoothed := Smooth(Average(pending, averageStamp), old(lastData));
        buffer == [] && lastUpdate == now &&
        lastData == Some(smoothed) && telemetry == smoothed &&
        history == History.Append(old(history), smoothed) &&
        emitted == old(emitted) + [smoothed] &&
        cumulativeEnergy == old(cumulativeEnergy) + EnergyIncrement(smoothed) &&
        cumulativeWater == old(cumulativeWater) + WaterIncrement(lastData.value, expVal) &&
        cumulativeWater > old(cumulativeWater) &&
        metrics == Published(cumulativeWater, cumulativeEnergy, smoothed)
      ensures cumulativeWater >= old(cumulativeWater)
      ensures cumulativeEnergy >= old(cumulativeEnergy)
    {
      var newData := Generate(hour, draws, sinVal, sampleStamp);
      AllInBoundsSnoc(buffer, newData);
      buffer := buffer + [newData];
      if now - lastUpdate >= EmitPeriodMs {
        if |buffer| > 0 {
          Emit(now, averageStamp, expVal);
        }
      }
    }
  }
}
