/** The aggregation step of the slow tick: the field-wise arithmetic mean
    of the raw readings buffered since the previous emission. */
module Aggregation {
  import opened Samples

  /** Sum of field f over buf, folded from the left as Array.reduce does. */
  function FieldSum(buf: seq<Sample>, f: Field): real
  {
    if buf == [] then 0.0 else FieldSum(buf[..|buf| - 1], f) + Get(buf[|buf| - 1], f)
  }

  /** buf.reduce((a, b) => a + b.f, 0): one pass over the buffer. */
  method SumField(buf: seq<Sample>, f: Field) returns (total: real)
    ensures total == FieldSum(buf, f)
  {
    total := 0.0;
    var i := 0;
    while i < |buf|
      invariant 0 <= i <= |buf|
      invariant total == FieldSum(buf[..i], f)
    {
      assert buf[..i + 1][..i] == buf[..i];
      total := total + Get(buf[i], f);
      i := i + 1;
    }
    assert buf[..|buf|] == buf;
  }

  function Mean(buf: seq<Sample>, f: Field): real
    requires |buf| > 0
  {
    FieldSum(buf, f) / |buf| as real
  }

  /** The averaged reading; its timestamp is a fresh clock reading, not one
      taken from the buffered samples. */
  function Average(buf: seq<Sample>, stamp: int): (avg: Sample)
    requires |buf| > 0
    ensures AllInBounds(buf) ==> InBounds(avg)
    ensures avg.timestamp == stamp
  {
    var avg := Sample(
      Mean(buf, Power), Mean(buf, Panel), Mean(buf, Ambient), Mean(buf, Humidity),
      Mean(buf, Irradiance), Mean(buf, Water), Mean(buf, Silt), stamp);
    if AllInBounds(buf) then
      MeanInRange(buf, Power); MeanInRange(buf, Panel); MeanInRange(buf, Ambient);
      MeanInRange(buf, Humidity); MeanInRange(buf, Irradiance); MeanInRange(buf, Water);
      MeanInRange(buf, Silt);
      avg
    else
      avg
  }

  /** Computes the average with one summing pass per field, as the seven
      reduce calls do. */
  method AverageBuffer(buf: seq<Sample>, stamp: int) returns (avg: Sample)
    requires |buf| > 0
    ensures avg == Average(buf, stamp)
  {
    var n := |buf| as real;
    var power := SumField(buf, Power);
    var panel := SumField(buf, Panel);
    var ambient := SumField(buf, Ambient);
    var humidity := SumField(buf, Humidity);
    var irradiance := SumField(buf, Irradiance);
    var water := SumField(buf, Water);
    var silt := SumField(buf, Silt);
    avg := Sample(power / n, panel / n, ambient / n, humidity / n,
                  irradiance / n, water / n, silt / n, stamp);
  }

  /** If every reading has field f at least lo, the sum is at least |buf| * lo. */
  lemma {:induction false} SumAtLeast(buf: seq<Sample>, f: Field, lo: real)
    requires forall i :: 0 <= i < |buf| ==> lo <= Get(buf[i], f)
    ensures FieldSum(buf, f) >= |buf| as real * lo
  {
    if buf != [] {
      var init := buf[..|buf| - 1];
      SumAtLeast(init, f, lo);
    }
  }

  /** If every reading has field f at most hi, the sum is at most |buf| * hi. */
  lemma {:induction false} SumAtMost(buf: seq<Sample>, f: Field, hi: real)
    requires forall i :: 0 <= i < |buf| ==> Get(buf[i], f) <= hi
    ensures FieldSum(buf, f) <= |buf| as real * hi
  {
    if buf != [] {
      var init := buf[..|buf| - 1];
      SumAtMost(init, f, hi);
    }
  }

  /** The mean of a field is at least any bound that every buffered
      reading respects... */
  lemma MeanAtLeast(buf: seq<Sample>, f: Field, lo: real)
    requires |buf| > 0
    requires forall i :: 0 <= i < |buf| ==> lo <= Get(buf[i], f)
    ensures lo <= Mean(buf, f)
  {
    SumAtLeast(buf, f, lo);
    QuotientAtLeast(FieldSum(buf, f), |buf| as real, lo);
  }

  /** ... and at most any bound that every buffered reading respects. */
  lemma MeanAtMost(buf: seq<Sample>, f: Field, hi: real)
    requires |buf| > 0
    requires forall i :: 0 <= i < |buf| ==> Get(buf[i], f) <= hi
    ensures Mean(buf, f) <= hi
  {
    SumAtMost(buf, f, hi);
    QuotientAtMost(FieldSum(buf, f), |buf| as real, hi);
  }

  lemma QuotientAtLeast(sum: real, n: real, lo: real)
    requires n > 0.0 && n * lo <= sum
    ensures lo <= sum / n
  {
  }

  lemma QuotientAtMost(sum: real, n: real, hi: real)
    requires n > 0.0 && sum <= n * hi
    ensures sum / n <= hi
  {
  }

  /** The mean respects the floor (and, for percentages, the cap) of a field
      when every buffered reading is within the physical ranges. */
  lemma MeanInRange(buf: seq<Sample>, f: Field)
    requires |buf| > 0
    requires AllInBounds(buf)
    ensures Floor(f) <= Mean(buf, f)
    ensures Capped(f) ==> Mean(buf, f) <= Cap
  {
    forall i | 0 <= i < |buf|
      ensures FieldInRange(buf[i], f)
    {
      InBoundsField(buf[i], f);
    }
    MeanAtLeast(buf, f, Floor(f));
    if Capped(f) {
      MeanAtMost(buf, f, Cap);
    }
  }

  /** A buffer that holds one reading repeatedly averages to that reading
      (stamped with the fresh clock value). */
  lemma AverageOfSteadyBuffer(buf: seq<Sample>, x: Sample, stamp: int)
    requires |buf| > 0
    requires forall i :: 0 <= i < |buf| ==> buf[i] == x
    ensures Average(buf, stamp) == x.(timestamp := stamp)
  {
    forall f: Field
      ensures Mean(buf, f) == Get(x, f)
    {
      MeanAtLeast(buf, f, Get(x, f));
      MeanAtMost(buf, f, Get(x, f));
    }
  }
}
