/// Arithmetic behind the soil-moisture filter: a circular buffer of the last
/// `N` raw ADC samples whose running sum is kept beside it, and the conversion
/// of the filtered value to a moisture percentage.
module MovingAverage {
  /// Number of samples in the moving average (`NUM_READINGS`).
  const N: int := 20
  /// Full-scale value of the ESP32's 12-bit ADC (`MAX_ANALOG_VALUE`).
  const MAX_ANALOG: int := 4095
  /// Largest deviation from the average that the outlier test lets through.
  const OUTLIER_THRESHOLD: int := 50

  function Sum(s: seq<int>): int
  {
    if s == [] then 0 else s[0] + Sum(s[1..])
  }

  lemma {:induction false} SumConcat(a: seq<int>, b: seq<int>)
    ensures Sum(a + b) == Sum(a) + Sum(b)
  {
    if a == [] {
      assert a + b == b;
    } else {
      assert (a + b)[1..] == a[1..] + b;
      SumConcat(a[1..], b);
    }
  }

  /// Overwriting one slot changes the sum by the difference of the two values:
  /// what the running total of `readSoilMoisture` relies on.
  lemma {:induction false} SumUpdate(s: seq<int>, i: int, v: int)
    requires 0 <= i < |s|
    ensures Sum(s[i := v]) == Sum(s) - s[i] + v
  {
    if i == 0 {
      assert s[i := v][1..] == s[1..];
    } else {
      assert s[i := v][1..] == s[1..][i - 1 := v];
      SumUpdate(s[1..], i - 1, v);
    }
  }

  /// A buffer filled with one value sums to that value times its length:
  /// what the seeding in `setup` relies on.
  lemma {:induction false} SumConstant(s: seq<int>, v: int)
    requires forall k :: 0 <= k < |s| ==> s[k] == v
    ensures Sum(s) == |s| * v
  {
    if s != [] {
      SumConstant(s[1..], v);
    }
  }

  /// Every sample lies within the ADC's range.
  predicate InAdcRange(s: seq<int>)
  {
    forall k :: 0 <= k < |s| ==> 0 <= s[k] <= MAX_ANALOG
  }

  /// Samples within the ADC's range sum to a value within `|s|` times that range.
  lemma {:induction false} SumBounds(s: seq<int>)
    requires InAdcRange(s)
    ensures 0 <= Sum(s) <= |s| * MAX_ANALOG
  {
    if s != [] {
      assert InAdcRange(s[1..]);
      SumBounds(s[1..]);
    }
  }

  /// A full buffer holding `v` in every slot.
  function Filled(v: int): (r: seq<int>)
    ensures |r| == N
    ensures forall k :: 0 <= k < N ==> r[k] == v
  {
    seq(N, _ => v)
  }

  /// The circular buffer read oldest sample first, when slot `i` is the next to
  /// be overwritten.
  function Rotate(s: seq<int>, i: int): (r: seq<int>)
    requires 0 <= i <= |s|
    ensures |r| == |s|
  {
    s[i..] + s[..i]
  }

  /// Reading the buffer in another order does not change its sum.
  lemma SumRotate(s: seq<int>, i: int)
    requires 0 <= i <= |s|
    ensures Sum(Rotate(s, i)) == Sum(s)
  {
    SumConcat(s[i..], s[..i]);
    SumConcat(s[..i], s[i..]);
    assert s[..i] + s[i..] == s;
  }

  /// Storing `x` in slot `i` and advancing the index circularly drops the
  /// oldest sample of the window and appends `x` as the newest.
  lemma PushRotate(s: seq<int>, i: int, x: int)
    requires 0 <= i < |s|
    ensures Rotate(s[i := x], if i + 1 < |s| then i + 1 else 0) == Rotate(s, i)[1..] + [x]
  {
    var t := s[i := x];
    assert (s[i..] + s[..i])[1..] == s[i + 1..] + s[..i];
    if i + 1 < |s| {
      assert t[i + 1..] == s[i + 1..];
      assert t[..i + 1] == s[..i] + [x];
      assert Rotate(t, i + 1) == s[i + 1..] + (s[..i] + [x]);
    } else {
      assert t[..0] == [] && t[0..] == t;
      assert t == s[..i] + [x];
    }
  }

  /// Pushing `x` into a buffer whose window is the last `N` entries of
  /// `history` leaves a buffer whose window is the last `N` entries of
  /// `history + [x]`.
  lemma PushWindow(buffer: seq<int>, i: int, x: int, history: seq<int>)
    requires |buffer| == N && 0 <= i < N && |history| >= N
    requires Rotate(buffer, i) == history[|history| - N..]
    ensures Rotate(buffer[i := x], (i + 1) % N) == (history + [x])[|history| + 1 - N..]
  {
    PushRotate(buffer, i, x);
    assert (i + 1) % N == if i + 1 < N then i + 1 else 0;
    assert (history + [x])[|history| + 1 - N..] == history[|history| - N..][1..] + [x];
  }

  /// Everything one push does to the buffer, its sum and its window: the
  /// sum stays the sum of the window, the window slides by one sample, and
  /// the average stays within the ADC's range.
  lemma PushStep(buffer: seq<int>, i: int, x: int, history: seq<int>)
    requires |buffer| == N && 0 <= i < N && |history| >= N
    requires InAdcRange(buffer) && 0 <= x <= MAX_ANALOG
    requires Rotate(buffer, i) == history[|history| - N..]
    ensures InAdcRange(buffer[i := x])
    ensures Sum(buffer[i := x]) == Sum(buffer) - buffer[i] + x
    ensures 0 <= Sum(buffer[i := x]) / N <= MAX_ANALOG
    ensures Rotate(buffer[i := x], (i + 1) % N) == (history + [x])[|history| + 1 - N..]
    ensures Rotate(buffer[i := x], (i + 1) % N) == Rotate(buffer, i)[1..] + [x]
    ensures Sum((history + [x])[|history| + 1 - N..]) == Sum(buffer[i := x])
  {
    var after := buffer[i := x];
    assert InAdcRange(after);
    SumUpdate(buffer, i, x);
    SumBounds(after);
    PushWindow(buffer, i, x, history);
    PushRotate(buffer, i, x);
    SumRotate(after, (i + 1) % N);
  }

  /// A filled buffer reads the same from any starting slot and sums to `N`
  /// times its value.
  lemma FilledFacts(v: int, i: int)
    requires 0 <= i <= N
    ensures Rotate(Filled(v), i) == Filled(v)
    ensures Sum(Filled(v)) == N * v
  {
    SumConstant(Filled(v), v);
  }

  /// The moisture percentage of a filtered ADC value, `100 - average / 4095 * 100`,
  /// computed exactly and truncated toward zero as the conversion to `int` does.
  function Percent(average: int): (r: int)
    requires 0 <= average <= MAX_ANALOG
    ensures 0 <= r <= 100
    ensures average == 0 ==> r == 100
    ensures average == MAX_ANALOG ==> r == 0
    ensures r as real <= 100.0 - (average as real / MAX_ANALOG as real) * 100.0 < r as real + 1.0
  {
    (100 * MAX_ANALOG - 100 * average) / MAX_ANALOG
  }

  /// A wetter soil gives a lower ADC reading and never a lower percentage.
  lemma PercentAntitone(a: int, b: int)
    requires 0 <= a <= b <= MAX_ANALOG
    ensures Percent(b) <= Percent(a)
  {
  }
}
