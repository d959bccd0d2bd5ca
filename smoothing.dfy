/** The smoothing filter: an exponential moving average against the
    previous output, followed by the per-field clamps. */
module Smoothing {
  import opened Wrappers
  import opened Samples

  predicate Between(x: real, a: real, b: real)
  {
    Min(a, b) <= x <= Max(a, b)
  }

  /** One EMA step from prev towards next with weight 0.3 on the new value
      (30 % new, 70 % previous). The result lies between the two, and its
      distance to next is 70 % of the distance prev had. */
  function Blend(prev: real, next: real): (r: real)
    ensures Between(r, prev, next)
    ensures r - next == 0.7 * (prev - next)
  {
    prev + 0.3 * (next - prev)
  }

  /** r is v clamped to [lo, hi]: v itself when it lies in the range,
      otherwise the bound it crossed. */
  predicate ClampedTo(r: real, v: real, lo: real, hi: real)
  {
    (lo <= v <= hi ==> r == v) && (v < lo ==> r == lo) && (v > hi ==> r == hi)
  }

  /** r is v floored at lo: v itself when it is at least lo, otherwise lo. */
  predicate FlooredAt(r: real, v: real, lo: real)
  {
    (v >= lo ==> r == v) && (v < lo ==> r == lo)
  }

  /** smoothData: with no previous output the new reading passes through
      untouched; otherwise power and the two temperatures are the EMA step
      from the previous output (70 % of the old gap to the new value
      remains), humidity and silt are that step clamped to [30, 100] and
      [0, 100], irradiance and water temperature that step floored at 0 and
      15, and the timestamp is the new reading's. */
  function Smooth(next: Sample, last: Option<Sample>): (r: Sample)
    ensures last.None? ==> r == next
    ensures r.timestamp == next.timestamp
    ensures last.Some? ==>
      r.powerOutputKw - next.powerOutputKw ==
        0.7 * (last.value.powerOutputKw - next.powerOutputKw) &&
      r.temperaturePanel - next.temperaturePanel ==
        0.7 * (last.value.temperaturePanel - next.temperaturePanel) &&
      r.temperatureAmbient - next.temperatureAmbient ==
        0.7 * (last.value.temperatureAmbient - next.temperatureAmbient)
    ensures last.Some? ==>
      Between(r.powerOutputKw, last.value.powerOutputKw, next.powerOutputKw) &&
      Between(r.temperaturePanel, last.value.temperaturePanel, next.temperaturePanel) &&
      Between(r.temperatureAmbient, last.value.temperatureAmbient, next.temperatureAmbient)
    ensures last.Some? ==>
      ClampedTo(r.humidityPercent,
        Blend(last.value.humidityPercent, next.humidityPercent), 30.0, 100.0) &&
      FlooredAt(r.solarIrradiance,
        Blend(last.value.solarIrradiance, next.solarIrradiance), 0.0) &&
      FlooredAt(r.waterTemp, Blend(last.value.waterTemp, next.waterTemp), 15.0) &&
      ClampedTo(r.siltLevel, Blend(last.value.siltLevel, next.siltLevel), 0.0, 100.0)
    ensures last.Some? ==>
      30.0 <= r.humidityPercent <= 100.0 && r.solarIrradiance >= 0.0 &&
      r.waterTemp >= 15.0 && 0.0 <= r.siltLevel <= 100.0
  {
    match last
    case None => next
    case Some(prev) =>
      next.(
        powerOutputKw := Blend(prev.powerOutputKw, next.powerOutputKw),
        temperaturePanel := Blend(prev.temperaturePanel, next.temperaturePanel),
        temperatureAmbient := Blend(prev.temperatureAmbient, next.temperatureAmbient),
        humidityPercent := Min(100.0, Max(30.0, Blend(prev.humidityPercent, next.humidityPercent))),
        solarIrradiance := Max(0.0, Blend(prev.solarIrradiance, next.solarIrradiance)),
        waterTemp := Max(15.0, Blend(prev.waterTemp, next.waterTemp)),
        siltLevel := Min(100.0, Max(0.0, Blend(prev.siltLevel, next.siltLevel))),
        timestamp := next.timestamp)
  }

  /** Smoothing two readings that are within the physical ranges gives a
      reading within them: the clamped fields by their clamps, power and the
      two temperatures because a blend lies between its inputs. */
  lemma SmoothInBounds(next: Sample, last: Option<Sample>)
    requires InBounds(next)
    requires last.Some? ==> InBounds(last.value)
    ensures InBounds(Smooth(next, last))
  {
  }

  /** A steady signal is a fixed point: smoothing a reading within the
      ranges against an identical previous output returns it unchanged. */
  lemma SmoothSteady(x: Sample, prev: Sample)
    requires InBounds(x)
    requires prev == x.(timestamp := prev.timestamp)
    ensures Smooth(x, Some(prev)) == x
  {
  }

  lemma MulAssoc(a: real, b: real, c: real)
    ensures a * (b * c) == (a * b) * c
  {
  }

  /** Repeatedly smoothing against a constant value v, from start. */
  function Iterate(start: real, v: real, k: nat): real
  {
    if k == 0 then start else Blend(Iterate(start, v, k - 1), v)
  }

  function Pow(b: real, k: nat): real
  {
    if k == 0 then 1.0 else b * Pow(b, k - 1)
  }

  /** After k EMA steps towards a constant the remaining gap is 0.7^k of the
      initial gap, so the filter converges geometrically. */
  lemma {:induction false} IterateGap(start: real, v: real, k: nat)
    ensures Iterate(start, v, k) - v == Pow(0.7, k) * (start - v)
  {
    if k > 0 {
      IterateGap(start, v, k - 1);
      var p, gap := Pow(0.7, k - 1), start - v;
      var prev := Iterate(start, v, k - 1);
      assert Iterate(start, v, k) - v == 0.7 * (prev - v);
      assert Pow(0.7, k) == 0.7 * p;
      MulAssoc(0.7, p, gap);
    }
  }
}
