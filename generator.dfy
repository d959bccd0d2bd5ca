/** The simulated sensor: one raw reading per fast tick from the hour of
    the day, the sine of the diurnal phase and six uniform random draws. */
module Generator {
  import opened Samples

  /** The six Math.random() results a reading consumes, in call order. */
  datatype Draws = Draws(
    irradianceNoise: real,
    efficiency: real,
    ambientNoise: real,
    humidityNoise: real,
    silt: real,
    spike: real)
  {
    /** Math.random() returns values in [0, 1). */
    predicate InRange()
    {
      0.0 <= irradianceNoise < 1.0 && 0.0 <= efficiency < 1.0 &&
      0.0 <= ambientNoise < 1.0 && 0.0 <= humidityNoise < 1.0 &&
      0.0 <= silt < 1.0 && 0.0 <= spike < 1.0
    }
  }

  predicate IsDaytime(hour: int)
  {
    6 <= hour <= 18
  }

  /** A raw reading. hour is the local hour of the clock, sinVal stands for
      Math.sin(((hour - 6) / 12) * PI) (the same argument at all three uses)
      and stamp for the Date the reading is stamped with. Every field is
      floored or clamped before it is returned, so the reading is within the
      physical ranges whatever the draws and the sine value are. Solar peak
      1000 W/m2, system capacity 250 kW. */
  function Generate(hour: int, d: Draws, sinVal: real, stamp: int): (s: Sample)
    ensures InBounds(s)
    ensures s.timestamp == stamp
  {
    var solarBase := if IsDaytime(hour) then 1000.0 * sinVal else 0.0;
    var irradiance := Max(0.0, solarBase + (d.irradianceNoise - 0.5) * 100.0);
    var efficiency := 0.18 + d.efficiency * 0.03;
    var power := (irradiance / 1000.0) * 250.0 * efficiency;
    var ambient := 25.0 + sinVal * 8.0 + (d.ambientNoise - 0.5) * 3.0;
    var panel := ambient + 10.0 + irradiance * 0.015;
    var humidity := 80.0 - ambient + (d.humidityNoise - 0.5) * 10.0;
    var water := 22.0 + sinVal * 4.0;
    var silt := 10.0 + d.silt * 20.0 + (if d.spike > 0.95 then 30.0 else 0.0);
    Sample(
      Max(0.0, power),
      Max(20.0, panel),
      Max(15.0, ambient),
      Min(100.0, Max(30.0, humidity)),
      Max(0.0, irradiance),
      Max(15.0, water),
      Min(100.0, Max(0.0, silt)),
      stamp)
  }

  /** Outside 06:00-18:59 the irradiance is only the noise term: below 50
      W/m2, and exactly zero, with zero power, if and only if the noise draw
      is at most one half. */
  lemma NightReading(hour: int, d: Draws, sinVal: real, stamp: int)
    requires !IsDaytime(hour)
    requires d.InRange()
    ensures Generate(hour, d, sinVal, stamp).solarIrradiance < 50.0
    ensures Generate(hour, d, sinVal, stamp).powerOutputKw < 2.7
    ensures Generate(hour, d, sinVal, stamp).solarIrradiance == 0.0 <==> d.irradianceNoise <= 0.5
    ensures Generate(hour, d, sinVal, stamp).powerOutputKw == 0.0 <==> d.irradianceNoise <= 0.5
  {
    var s := Generate(hour, d, sinVal, stamp);
    var irradiance := Max(0.0, (d.irradianceNoise - 0.5) * 100.0);
    var efficiency := 0.18 + d.efficiency * 0.03;
    assert s.solarIrradiance == irradiance < 50.0;
    assert s.powerOutputKw == Max(0.0, (irradiance / 1000.0) * 250.0 * efficiency);
    PowerBound(irradiance, efficiency);
    if d.irradianceNoise > 0.5 {
      // a positive noise term yields at least 18 % of it as power
      var i := irradiance / 1000.0 * 250.0;
      assert i > 0.0;
      assert i * efficiency >= i * 0.18;
    }
  }

  /** Helper of NightReading: the power formula of the 250 kW system stays
      below 2.7 kW for an irradiance below 50 and an efficiency below 0.21. */
  lemma PowerBound(irradiance: real, efficiency: real)
    requires 0.0 <= irradiance < 50.0
    requires 0.0 <= efficiency < 0.21
    ensures (irradiance / 1000.0) * 250.0 * efficiency < 2.7
  {
    var i := irradiance / 1000.0 * 250.0;
    assert 0.0 <= i < 12.5;
    assert i * efficiency <= 12.5 * efficiency;
  }

  /** With genuine random draws the silt level stays in [10, 60): the base
      level plus at most one spike of 30, so the cap of 100 never bites. */
  lemma SiltRange(hour: int, d: Draws, sinVal: real, stamp: int)
    requires d.InRange()
    ensures 10.0 <= Generate(hour, d, sinVal, stamp).siltLevel < 60.0
    ensures d.spike > 0.95 ==> Generate(hour, d, sinVal, stamp).siltLevel >= 40.0
  {
  }

  /** With genuine random draws the power is the irradiance in kW/m2 times
      the 250 kW capacity times an efficiency in [0.18, 0.21): between 4.5 %
      and 5.25 % of the irradiance value. */
  lemma PowerFollowsIrradiance(hour: int, d: Draws, sinVal: real, stamp: int)
    requires d.InRange()
    ensures var s := Generate(hour, d, sinVal, stamp);
      0.045 * s.solarIrradiance <= s.powerOutputKw <= 0.0525 * s.solarIrradiance
  {
    var s := Generate(hour, d, sinVal, stamp);
    var i := s.solarIrradiance / 1000.0 * 250.0;
    var e := 0.18 + d.efficiency * 0.03;
    assert i >= 0.0;
    EfficiencyScale(i, e);
    assert s.powerOutputKw == Max(0.0, i * e);
  }

  /** Helper of PowerFollowsIrradiance: scaling by an efficiency in
      [0.18, 0.21] keeps a non-negative value between the two extremes. */
  lemma EfficiencyScale(a: real, e: real)
    requires a >= 0.0
    requires 0.18 <= e <= 0.21
    ensures 0.18 * a <= a * e <= 0.21 * a
  {
    assert a * (e - 0.18) >= 0.0;
    assert a * (0.21 - e) >= 0.0;
  }
}
