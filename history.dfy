/** The history window fed by every smoothed emission: the newest
    Capacity samples, oldest first. */
module History {

  const Capacity: nat := 60

  function MinNat(a: nat, b: nat): nat
  {
    if a <= b then a else b
  }

  /** [...prev.slice(-59), x]: keep the newest 59 entries of prev (all of
      them when there are fewer) and add x at the end. */
  function Append<T>(prev: seq<T>, x: T): (r: seq<T>)
    ensures |r| == MinNat(|prev| + 1, Capacity)
    ensures r[|r| - 1] == x
  {
    prev[|prev| - MinNat(|prev|, Capacity - 1)..] + [x]
  }

  /** Everything before the new entry is the newest part of prev, in order. */
  lemma AppendKeepsNewest<T>(prev: seq<T>, x: T)
    ensures var r := Append(prev, x);
      r[..|r| - 1] == prev[|prev| - (|r| - 1)..]
  {
  }

  /** The newest min(Capacity, |stream|) elements of stream, in order. */
  function Newest<T>(stream: seq<T>): (r: seq<T>)
    ensures |r| <= Capacity
  {
    stream[|stream| - MinNat(Capacity, |stream|)..]
  }

  /** Appending to the window of a stream gives the window of the longer
      stream: the oldest entry is evicted exactly when the window is full. */
  lemma AppendNewest<T>(stream: seq<T>, x: T)
    ensures Append(Newest(stream), x) == Newest(stream + [x])
  {
    var w, s := Newest(stream), stream + [x];
    var r := Append(w, x);
    AppendKeepsNewest(w, x);
    var k := MinNat(Capacity, |s|);
    assert |r| == k == |Newest(s)|;
    forall j | 0 <= j < k
      ensures r[j] == Newest(s)[j]
    {
      if j < k - 1 {
        assert r[j] == r[..k - 1][j] == w[|w| - (k - 1) + j];
      }
    }
  }

  /** The window after appending every element of stream, in order, to an
      empty history. */
  function Window<T>(stream: seq<T>): (r: seq<T>)
    ensures |r| == MinNat(|stream|, Capacity)
    ensures stream != [] ==> r[|r| - 1] == stream[|stream| - 1]
  {
    if stream == [] then [] else Append(Window(stream[..|stream| - 1]), stream[|stream| - 1])
  }

  /** Whatever was appended, the window holds exactly the newest
      min(Capacity, |stream|) appended samples in arrival order: entries are
      evicted from the front, first in first out. */
  lemma {:induction false} WindowIsNewest<T>(stream: seq<T>)
    ensures Window(stream) == Newest(stream)
  {
    if stream != [] {
      var init, x := stream[..|stream| - 1], stream[|stream| - 1];
      WindowIsNewest(init);
      AppendNewest(init, x);
      assert init + [x] == stream;
    }
  }

  /** After 100 emissions the oldest entry shown is the 41st emission. */
  lemma OldestAfterHundred<T>(stream: seq<T>)
    requires |stream| == 100
    ensures |Window(stream)| == Capacity
    ensures Window(stream)[0] == stream[40]
  {
    WindowIsNewest(stream);
  }
}
