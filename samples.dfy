/** One telemetry reading (the TelemetryData record) and the physical ranges
    that the generator and the smoothing filter keep every numeric field in. */
module Samples {

  /** A telemetry reading. Numbers are exact reals; the timestamp is the
      millisecond value of the JavaScript Date the reading carries. */
  datatype Sample = Sample(
    powerOutputKw: real,
    temperaturePanel: real,
    temperatureAmbient: real,
    humidityPercent: real,
    solarIrradiance: real,
    waterTemp: real,
    siltLevel: real,
    timestamp: int)

  /** The seven numeric fields, so that per-field code is written once. */
  datatype Field = Power | Panel | Ambient | Humidity | Irradiance | Water | Silt

  function Get(s: Sample, f: Field): real
  {
    match f
    case Power => s.powerOutputKw
    case Panel => s.temperaturePanel
    case Ambient => s.temperatureAmbient
    case Humidity => s.humidityPercent
    case Irradiance => s.solarIrradiance
    case Water => s.waterTemp
    case Silt => s.siltLevel
  }

  /** Math.max / Math.min on reals (NaN is not modelled). */
  function Max(a: real, b: real): (r: real)
    ensures r >= a && r >= b && (r == a || r == b)
  {
    if a >= b then a else b
  }

  function Min(a: real, b: real): (r: real)
    ensures r <= a && r <= b && (r == a || r == b)
  {
    if a <= b then a else b
  }

  function Abs(x: real): (r: real)
    ensures r >= 0.0 && (r == x || r == -x)
  {
    if x < 0.0 then -x else x
  }

  /** The lowest value the generator lets each field take. */
  function Floor(f: Field): real
  {
    match f
    case Power => 0.0
    case Panel => 20.0
    case Ambient => 15.0
    case Humidity => 30.0
    case Irradiance => 0.0
    case Water => 15.0
    case Silt => 0.0
  }

  /** Humidity and silt are percentages and are also capped at 100. */
  predicate Capped(f: Field)
  {
    f == Humidity || f == Silt
  }

  const Cap: real := 100.0

  predicate FieldInRange(s: Sample, f: Field)
  {
    Floor(f) <= Get(s, f) && (Capped(f) ==> Get(s, f) <= Cap)
  }

  /** Every field of s lies in its physical range, written out field by
      field; InBoundsField and FieldsInBounds show it is FieldInRange for
      every field. */
  predicate InBounds(s: Sample)
  {
    s.powerOutputKw >= 0.0 && s.temperaturePanel >= 20.0 && s.temperatureAmbient >= 15.0 &&
    30.0 <= s.humidityPercent <= 100.0 && s.solarIrradiance >= 0.0 && s.waterTemp >= 15.0 &&
    0.0 <= s.siltLevel <= 100.0
  }

  lemma InBoundsField(s: Sample, f: Field)
    requires InBounds(s)
    ensures FieldInRange(s, f)
  {
  }

  lemma FieldsInBounds(s: Sample)
    requires forall f: Field :: FieldInRange(s, f)
    ensures InBounds(s)
  {
    assert FieldInRange(s, Power) && FieldInRange(s, Panel) && FieldInRange(s, Ambient);
    assert FieldInRange(s, Humidity) && FieldInRange(s, Irradiance);
    assert FieldInRange(s, Water) && FieldInRange(s, Silt);
  }

  predicate AllInBounds(buf: seq<Sample>)
  {
    forall i :: 0 <= i < |buf| ==> InBounds(buf[i])
  }

  lemma AllInBoundsSnoc(buf: seq<Sample>, x: Sample)
    requires AllInBounds(buf) && InBounds(x)
    ensures AllInBounds(buf + [x])
  {
  }
}
