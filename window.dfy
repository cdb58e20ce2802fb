/**
 * The rolling baseline and the touch classifier of the notification handler:
 * the two bounded deques `live_values` and `live_touch` (`deque(maxlen=200)`),
 * the threshold `mean(window) * 0.92` (or 0 on an empty window) and the label
 * `1 if value < threshold else 0`.
 */
module RollingWindow {

  /** The `maxlen` of both deques. */
  const MaxLen: nat := 200
  /** The fraction of the window's mean below which a reading is a touch. */
  const Factor: real := 0.92

  /** A touch label as the source writes it: 1 for touch, 0 for no touch. */
  type Bit = b: nat | b <= 1

  /** What a `deque(maxlen=200)` can hold. */
  type Deque<T> = d: seq<T> | |d| <= MaxLen witness []

  function Min(a: nat, b: nat): nat { if a <= b then a else b }

  /** `d.append(x)` on a `deque` with `maxlen = n`, which never holds more
      than `n` elements. */
  function DequeAppend<T>(d: seq<T>, x: T, n: nat): (r: seq<T>)
    requires |d| <= n
    ensures |r| == Min(n, |d| + 1)
    ensures |d| < n ==> r == d + [x]
    ensures |d| == n > 0 ==> r == d[1..] + [x]
    ensures n > 0 ==> r[|r| - 1] == x
  {
    if |d| < n then d + [x] else (d + [x])[1..]
  }

  /** The last `n` elements of `s` (all of `s` when it is shorter). */
  function LastN<T>(s: seq<T>, n: nat): (r: seq<T>)
    ensures |r| == Min(n, |s|)
    ensures forall i :: 0 <= i < |r| ==> r[i] == s[|s| - |r| + i]
  {
    if |s| <= n then s else s[|s| - n..]
  }

  /** Appending to a bounded deque that holds the last `n` elements of a
      history gives the last `n` elements of the longer history. */
  lemma LastNAppend<T>(s: seq<T>, x: T, n: nat)
    ensures LastN(s + [x], n) == DequeAppend(LastN(s, n), x, n)
  {
    if |s| < n {
      assert LastN(s + [x], n) == s + [x];
    } else {
      var d := s[|s| - n..];
      assert (d + [x])[1..] == (s + [x])[|s| + 1 - n..];
    }
  }

  function Sum(w: seq<real>): real {
    if w == [] then 0.0 else Sum(w[..|w| - 1]) + w[|w| - 1]
  }

  /** `sum(w) / len(w) * 0.92 if w else 0`. */
  function Threshold(w: seq<real>): real {
    if |w| == 0 then 0.0 else Sum(w) / (|w| as real) * Factor
  }

  /** `1 if value < threshold else 0`, against the threshold of window `w`. */
  function Label(v: real, w: seq<real>): Bit {
    if v < Threshold(w) then 1 else 0
  }

  /** The label as a comparison without division: on a non-empty window a
      reading is a touch iff it lies below 92% of the window's mean, and on
      an empty window iff it is negative. */
  lemma LabelIsBelowBaseline(v: real, w: seq<real>)
    ensures w == [] ==> (Label(v, w) == 1 <==> v < 0.0)
    ensures w != [] ==> (Label(v, w) == 1 <==> v * (|w| as real) < Factor * Sum(w))
  {
    if w != [] {
      var n := |w| as real;
      var m := Sum(w) / n;
      assert Sum(w) == m * n;
      assert Threshold(w) == m * Factor;
      assert v < m * Factor <==> v * n < (m * Factor) * n;
      assert (m * Factor) * n == Factor * (m * n);
    }
  }

  function Repeat(c: real, k: nat): (r: seq<real>)
    ensures |r| == k
    ensures forall i :: 0 <= i < k ==> r[i] == c
  {
    if k == 0 then [] else Repeat(c, k - 1) + [c]
  }

  lemma {:induction false} SumRepeat(c: real, k: nat)
    ensures Sum(Repeat(c, k)) == (k as real) * c
  {
    if k > 0 {
      assert Repeat(c, k)[..k - 1] == Repeat(c, k - 1);
      SumRepeat(c, k - 1);
    }
  }

  /** On a steady signal of level `c` the threshold is 92% of `c`. */
  lemma SteadyThreshold(c: real, k: nat)
    requires k > 0
    ensures Threshold(Repeat(c, k)) == Factor * c
  {
    SumRepeat(c, k);
    var n := k as real;
    assert (n * c) / n == c;
  }

  /** The labels of a whole history of parsed readings: each reading is
      classified against the window as it stood just before that reading
      was appended, i.e. the last `MaxLen` readings before it. */
  function Labels(h: seq<real>): (r: seq<Bit>)
    ensures |r| == |h|
  {
    if h == [] then []
    else
      var p := h[..|h| - 1];
      Labels(p) + [Label(h[|h| - 1], LastN(p, MaxLen))]
  }

  lemma {:induction false} LabelsAt(h: seq<real>, j: nat)
    requires j < |h|
    ensures Labels(h)[j] == Label(h[j], LastN(h[..j], MaxLen))
  {
    var p := h[..|h| - 1];
    if j < |h| - 1 {
      LabelsAt(p, j);
      assert p[..j] == h[..j];
    } else {
      assert p == h[..j];
    }
  }

  /** The windows of two aligned deques that always hold the last `MaxLen`
      readings and the last `MaxLen` labels: element `i` of the touch deque
      is the label that was computed for element `i` of the value deque. */
  lemma WindowAligned(h: seq<real>, i: nat)
    requires i < |LastN(h, MaxLen)|
    ensures |LastN(Labels(h), MaxLen)| == |LastN(h, MaxLen)|
    ensures var j := |h| - |LastN(h, MaxLen)| + i;
            LastN(Labels(h), MaxLen)[i] == Label(LastN(h, MaxLen)[i], LastN(h[..j], MaxLen))
  {
    LabelsAt(h, |h| - |LastN(h, MaxLen)| + i);
  }

  /** Four steady readings of 10 and then a 5: the baseline before the 5 is
      the mean 10, its threshold 9.2, so only the 5 is a touch (the first
      reading meets the empty window and its threshold 0). */
  lemma DropAfterSteadySignal()
    ensures Labels([10.0, 10.0, 10.0, 10.0, 5.0]) == [0, 0, 0, 0, 1]
    ensures Threshold([10.0, 10.0, 10.0, 10.0]) == 9.2
  {
    var h := [10.0, 10.0, 10.0, 10.0, 5.0];
    forall k | 1 <= k <= 4 ensures Threshold(Repeat(10.0, k)) == 9.2 {
      SteadyThreshold(10.0, k);
    }
    assert Repeat(10.0, 1) == [10.0];
    assert Repeat(10.0, 2) == [10.0, 10.0];
    assert Repeat(10.0, 3) == [10.0, 10.0, 10.0];
    assert Repeat(10.0, 4) == h[..4];
    assert h[..4] == [10.0, 10.0, 10.0, 10.0];
    assert Labels(h[..1]) == [0] by { assert h[..1][..0] == []; }
    assert Labels(h[..2]) == [0, 0] by { assert h[..2][..1] == h[..1]; }
    assert Labels(h[..3]) == [0, 0, 0] by { assert h[..3][..2] == h[..2]; }
    assert Labels(h[..4]) == [0, 0, 0, 0] by { assert h[..4][..3] == h[..3]; }
  }
}
