/** The two closed-form physical models: the simplified Penman-Monteith
    evaporation estimate and the panel-cooling efficiency delta. */
module Physics {
  import opened Samples

  /** Litres of evaporation per hour that shading prevents over shadedArea
      square metres at the given ambient temperature and humidity.
      expVal stands for Math.exp(17.27 * T / (T + 237.3)); only its
      positivity is used. The literals are the model's constants: the
      psychrometric constant 0.066 kPa per degree C, net radiation
      0.0864 * 500 MJ/m2/day, soil heat flux 0, wind speed 2 m/s at 2 m,
      and a shading factor of 0.85. */
  function EvapRate(temperature: real, humidity: real, shadedArea: real, expVal: real): (r: real)
    requires temperature > -237.3
    requires expVal > 0.0
    ensures humidity <= 100.0 && shadedArea > 0.0 ==> r > 0.0
  {
    var es := SaturationPressure(expVal);
    var delta := Slope(temperature, es);
    PenmanMonteithPositive(temperature, humidity, shadedArea, es, delta);
    PenmanMonteith(temperature, humidity, shadedArea, es, delta)
  }

  /** The water saved per hour once the saturation pressure es and the
      slope delta of its curve are known. */
  function PenmanMonteith(temperature: real, humidity: real, shadedArea: real,
                          es: real, delta: real): real
    requires temperature > -237.3
    requires delta > 0.0
  {
    var ea := es * (humidity / 100.0);
    var et0 := (0.408 * delta * (0.0864 * 500.0 - 0.0)
                + 0.066 * (900.0 / (temperature + 273.0)) * 2.0 * (es - ea))
               / (delta + 0.066 * (1.0 + 0.34 * 2.0));
    (et0 / 24.0) * shadedArea * 0.85
  }

  /** Helper of EvapRate: humidity at most 100 % leaves the vapour-pressure
      deficit es - ea non-negative, the radiation term is positive, and so
      a positive area saves a positive amount of water. */
  lemma PenmanMonteithPositive(temperature: real, humidity: real, shadedArea: real,
                               es: real, delta: real)
    requires temperature > -237.3
    requires es > 0.0 && delta > 0.0
    ensures humidity <= 100.0 && shadedArea > 0.0 ==>
      PenmanMonteith(temperature, humidity, shadedArea, es, delta) > 0.0
  {
    if humidity <= 100.0 && shadedArea > 0.0 {
      var ea := es * (humidity / 100.0);
      assert es - ea == es * (1.0 - humidity / 100.0);
      ProductNonNeg(es, 1.0 - humidity / 100.0);
      QuotientPos(900.0, temperature + 273.0);
      ProductNonNeg(0.066 * (900.0 / (temperature + 273.0)) * 2.0, es - ea);
      var num := 0.408 * delta * (0.0864 * 500.0 - 0.0)
                 + 0.066 * (900.0 / (temperature + 273.0)) * 2.0 * (es - ea);
      var den := delta + 0.066 * (1.0 + 0.34 * 2.0);
      assert num > 0.0;
      assert den > 0.0;
      QuotientPos(num, den);
      ProductPos((num / den) / 24.0, shadedArea);
      ProductPos(((num / den) / 24.0) * shadedArea, 0.85);
    }
  }

  /** Saturation vapour pressure es, in kPa. */
  function SaturationPressure(expVal: real): (es: real)
    requires expVal > 0.0
    ensures es > 0.0
  {
    0.6108 * expVal
  }

  /** Slope of the saturation vapour pressure curve at temperature. */
  function Slope(temperature: real, es: real): (d: real)
    requires temperature > -237.3
    requires es > 0.0
    ensures d > 0.0
  {
    var t := temperature + 237.3;
    ProductPos(t, t);
    QuotientPos(4098.0 * es, t * t);
    (4098.0 * es) / (t * t)
  }

  lemma ProductPos(a: real, b: real)
    requires a > 0.0 && b > 0.0
    ensures a * b > 0.0
  {
  }

  lemma QuotientPos(a: real, b: real)
    requires a > 0.0 && b > 0.0
    ensures a / b > 0.0
  {
  }

  lemma ProductNonNeg(a: real, b: real)
    requires a >= 0.0 && b >= 0.0
    ensures a * b >= 0.0
  {
  }

  /** Percentage points of efficiency regained by keeping the panel cooler.
      Both losses scale by the same coefficient, so the panel temperature
      cancels out and the water temperature is never read. The literals:
      temperature coefficient -0.0045 per degree C, standard test
      conditions at 25 degrees C, and an uncooled panel 30 degrees hotter. */
  function EfficiencyDelta(panelTemp: real, waterTemp: real): (r: real)
    ensures r == 13.5
  {
    var withoutCooling := panelTemp + 30.0;
    var lossWithCooling := -0.0045 * (panelTemp - 25.0) * 100.0;
    var lossWithoutCooling := -0.0045 * (withoutCooling - 25.0) * 100.0;
    Abs(lossWithoutCooling - lossWithCooling)
  }
}
