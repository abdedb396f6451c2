/**
 * The analysis of channel 0 of each board in each event: the trapezoid area
 * and the minimum of the pulse, the cut on both, the histogram of accepted
 * pulses in 0.1 ns bins, and the average pulse.
 */
module Pulse {
  import opened Bytes
  import opened Results
  import opened Calibration

  /** Accepted pulses have `-area` strictly between these two values. */
  const AREA_CUT_MIN: real := 5.2
  const AREA_CUT_MAX: real := 5.4
  /** Accepted pulses stay strictly above this voltage. */
  const MIN_CUT: real := -0.4999
  /** Histogram bins of 0.1 ns from 0 to 200 ns. */
  const BINS: nat := 2001

  /** The trapezoid between samples `i` and `i + 1`. */
  function Segment(v: seq<real>, t: seq<real>, i: nat): real
    requires |v| == |t| && i + 1 < |v|
  {
    (v[i + 1] + v[i]) / 2.0 * (t[i + 1] - t[i])
  }

  /** The area of the first `n` trapezoids. */
  function Area(v: seq<real>, t: seq<real>, n: nat): real
    requires |v| == |t| && n < |v|
  {
    if n == 0 then 0.0 else Area(v, t, n - 1) + Segment(v, t, n - 1)
  }

  /** A pulse that stays at `x` has area `x` times the time it spans. */
  lemma {:induction false} ConstantPulseArea(v: seq<real>, t: seq<real>, x: real, n: nat)
    requires |v| == |t| && n < |v| && forall i :: 0 <= i < |v| ==> v[i] == x
    ensures Area(v, t, n) == x * (t[n] - t[0])
  {
    if n > 0 {
      ConstantPulseArea(v, t, x, n - 1);
      var before, step := t[n - 1] - t[0], t[n] - t[n - 1];
      assert (v[n] + v[n - 1]) / 2.0 == x;
      Distribute(x, before, step, Area(v, t, n - 1), Segment(v, t, n - 1), t[n] - t[0]);
    }
  }

  /** Two spans at the same height add up to the joint span at that height. */
  lemma Distribute(x: real, a: real, b: real, p: real, q: real, c: real)
    requires p == x * a && q == x * b && c == a + b
    ensures p + q == x * c
  {
  }

  /** Moving every sample time by the same amount leaves the area unchanged. */
  lemma {:induction false} AreaShiftInvariant(v: seq<real>, t: seq<real>, u: seq<real>, d: real, n: nat)
    requires |v| == |t| == |u| && n < |v|
    requires forall i :: 0 <= i < |t| ==> u[i] == t[i] + d
    ensures Area(v, u, n) == Area(v, t, n)
  {
    if n > 0 {
      AreaShiftInvariant(v, t, u, d, n - 1);
      assert u[n] - u[n - 1] == t[n] - t[n - 1];
      assert Segment(v, u, n - 1) == Segment(v, t, n - 1);
    }
  }

  /** The running minimum of a pulse, scanned from its first sample. */
  function MinOf(v: seq<real>): (m: real)
    requires |v| > 0
    ensures m in v
    ensures forall i :: 0 <= i < |v| ==> m <= v[i]
  {
    if |v| == 1 then v[0]
    else
      var m := MinOf(v[..|v| - 1]);
      assert forall i :: 0 <= i < |v| - 1 ==> v[..|v| - 1][i] == v[i];
      if v[|v| - 1] < m then v[|v| - 1] else m
  }

  /**
   * The area and minimum loop of the reader over channel 0 of a board: one
   * trapezoid per pair of neighbouring samples, the minimum updated on the way.
   */
  method AnalyzePulse(v: seq<real>, t: seq<real>) returns (area: real, min: real)
    requires |v| == |t| == CELLS
    ensures area == Area(v, t, CELLS - 1)
    ensures min == MinOf(v)
  {
    area := 0.0;
    min := v[0];
    for i := 0 to CELLS - 1
      invariant area == Area(v, t, i)
      invariant min == MinOf(v[..i + 1])
    {
      MinOfStep(v, i + 1);
      if v[i + 1] < min {
        min := v[i + 1];
      }
      area := area + Segment(v, t, i);
    }
    assert v[..CELLS] == v;
  }

  /** Extending the scanned prefix by one sample keeps the smaller of the old minimum and that sample. */
  lemma MinOfStep(v: seq<real>, n: nat)
    requires 0 < n < |v|
    ensures MinOf(v[..n + 1]) == if v[n] < MinOf(v[..n]) then v[n] else MinOf(v[..n])
  {
    assert v[..n + 1][..n] == v[..n];
  }

  /** The cut: `-area` strictly inside the window and every sample above the voltage cut. */
  predicate Accepted(area: real, min: real)
  {
    -area > AREA_CUT_MIN && -area < AREA_CUT_MAX && min > MIN_CUT
  }

  /** A pulse passes the cut exactly when its area is in the window and none of its samples reaches the voltage cut. */
  lemma AcceptedPulse(v: seq<real>, t: seq<real>)
    requires |v| == |t| == CELLS
    ensures Accepted(Area(v, t, CELLS - 1), MinOf(v)) <==>
      -AREA_CUT_MAX < Area(v, t, CELLS - 1) < -AREA_CUT_MIN && forall i :: 0 <= i < CELLS ==> v[i] > MIN_CUT
  {
    var m := MinOf(v);
    if forall i :: 0 <= i < CELLS ==> v[i] > MIN_CUT {
      var k :| 0 <= k < |v| && v[k] == m;
    }
  }

  /** A pulse that stays at `x` passes the cut exactly when `x` is above the voltage cut and `x` times its span is in the window. */
  lemma ConstantPulseAccepted(v: seq<real>, t: seq<real>, x: real)
    requires |v| == |t| == CELLS && forall i :: 0 <= i < CELLS ==> v[i] == x
    ensures Accepted(Area(v, t, CELLS - 1), MinOf(v)) <==>
      AREA_CUT_MIN < -(x * (t[CELLS - 1] - t[0])) < AREA_CUT_MAX && x > MIN_CUT
  {
    ConstantPulseArea(v, t, x, CELLS - 1);
    ConstantPulseMin(v, x);
    assert Area(v, t, CELLS - 1) == x * (t[CELLS - 1] - t[0]);
    assert MinOf(v) == x;
    AcceptedAt(Area(v, t, CELLS - 1), MinOf(v), x, t[CELLS - 1] - t[0]);
  }

  /** A pulse that stays at `x` has minimum `x`. */
  lemma ConstantPulseMin(v: seq<real>, x: real)
    requires |v| > 0 && forall i :: 0 <= i < |v| ==> v[i] == x
    ensures MinOf(v) == x
  {
    var k :| 0 <= k < |v| && v[k] == MinOf(v);
  }

  /** The cut of a pulse whose area is `x * span` and whose minimum is `x`. */
  lemma AcceptedAt(area: real, min: real, x: real, span: real)
    requires area == x * span && min == x
    ensures Accepted(area, min) <==> AREA_CUT_MIN < -(x * span) < AREA_CUT_MAX && x > MIN_CUT
  {
  }

  // ---------------------------------------------------------------------------
  // Histogram

  /** The bin of a sample time in ns: `int(time * 10)`, truncated toward zero. */
  function Bin(time: real): (k: int)
    ensures time >= 0.0 ==> k as real <= time * 10.0 < k as real + 1.0
    ensures time < 0.0 ==> k as real - 1.0 < time * 10.0 <= k as real
  {
    TruncToInt(time * 10.0)
  }

  /** The first `n` sample times all fall into the histogram. */
  predicate BinsInRange(t: seq<real>, n: nat)
    requires n <= |t|
  {
    forall i :: 0 <= i < n ==> 0 <= Bin(t[i]) < BINS
  }

  /** A histogram after the first `n` samples of a pulse were added to the bins of their times. */
  function AddPulse(sum: seq<real>, v: seq<real>, t: seq<real>, n: nat): (s: seq<real>)
    requires |sum| == BINS && |v| == |t| && n <= |v| && BinsInRange(t, n)
    ensures |s| == BINS
  {
    if n == 0 then sum
    else
      var s := AddPulse(sum, v, t, n - 1);
      s[Bin(t[n - 1]) := s[Bin(t[n - 1])] + v[n - 1]]
  }

  /** The total of the first `n` samples whose time falls into bin `k`. */
  function BinShare(v: seq<real>, t: seq<real>, k: int, n: nat): real
    requires |v| == |t| && n <= |v|
  {
    if n == 0 then 0.0 else BinShare(v, t, k, n - 1) + (if Bin(t[n - 1]) == k then v[n - 1] else 0.0)
  }

  /** Every bin grows by exactly the samples that fall into it. */
  lemma {:induction false} AddPulseBin(sum: seq<real>, v: seq<real>, t: seq<real>, n: nat, k: nat)
    requires |sum| == BINS && |v| == |t| && n <= |v| && BinsInRange(t, n) && k < BINS
    ensures AddPulse(sum, v, t, n)[k] == sum[k] + BinShare(v, t, k, n)
  {
    if n > 0 {
      AddPulseBin(sum, v, t, n - 1, k);
    }
  }

  /** The sum of a sequence. */
  function Total(s: seq<real>): real
  {
    if s == [] then 0.0 else Total(s[..|s| - 1]) + s[|s| - 1]
  }

  /** Replacing one element changes the total by the difference. */
  lemma {:induction false} TotalUpdate(s: seq<real>, k: nat, x: real)
    requires k < |s|
    ensures Total(s[k := x]) == Total(s) - s[k] + x
  {
    var last := |s| - 1;
    if k == last {
      assert s[k := x][..last] == s[..last];
    } else {
      TotalUpdate(s[..last], k, x);
      assert s[k := x][..last] == s[..last][k := x];
    }
  }

  /** Adding a pulse adds the sum of its samples to the histogram's total: no sample is lost or counted twice. */
  lemma {:induction false} AddPulseTotal(sum: seq<real>, v: seq<real>, t: seq<real>, n: nat)
    requires |sum| == BINS && |v| == |t| && n <= |v| && BinsInRange(t, n)
    ensures Total(AddPulse(sum, v, t, n)) == Total(sum) + Total(v[..n])
  {
    if n > 0 {
      AddPulseTotal(sum, v, t, n - 1);
      var s := AddPulse(sum, v, t, n - 1);
      TotalUpdate(s, Bin(t[n - 1]), s[Bin(t[n - 1])] + v[n - 1]);
      assert v[..n][..n - 1] == v[..n - 1];
    }
  }

  /**
   * Adds an accepted pulse to the histogram in place, sample by sample. It
   * stops with `false` at the first sample whose bin is outside the histogram.
   */
  method Accumulate(sum: array<real>, v: seq<real>, t: seq<real>) returns (ok: bool)
    requires sum.Length == BINS && |v| == |t| == CELLS
    modifies sum
    ensures ok <==> BinsInRange(t, CELLS)
    ensures ok ==> sum[..] == AddPulse(old(sum[..]), v, t, CELLS)
  {
    for i := 0 to CELLS
      invariant BinsInRange(t, i)
      invariant sum[..] == AddPulse(old(sum[..]), v, t, i)
    {
      var ibin := Bin(t[i]);
      if !(0 <= ibin < BINS) {
        return false;
      }
      sum[ibin] := sum[ibin] + v[i];
    }
    return true;
  }

  /** The average pulse: every bin divided by the number of accepted pulses. */
  function AverageOf(sum: seq<real>, count: nat): (avg: seq<real>)
    requires count > 0
    ensures |avg| == |sum|
    ensures forall k :: 0 <= k < |sum| ==> avg[k] * count as real == sum[k]
  {
    seq(|sum|, k requires 0 <= k < |sum| => sum[k] / count as real)
  }

  /** The averaging loop of the reader; without an accepted pulse there is nothing to divide by. */
  method Average(sum: seq<real>, count: nat) returns (r: Result<seq<real>>)
    ensures r.Ok? <==> count > 0
    ensures r.Ok? ==> r.value == AverageOf(sum, count)
    ensures r.Err? ==> r.error == NoAcceptedEvents
  {
    if count == 0 {
      return Err(NoAcceptedEvents);
    }
    var avg := new real[|sum|];
    for i := 0 to |sum|
      invariant forall k :: 0 <= k < i ==> avg[k] == sum[k] / count as real
    {
      avg[i] := sum[i] / count as real;
    }
    return Ok(avg[..]);
  }
}
