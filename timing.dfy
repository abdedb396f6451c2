/**
 * One channel of one event: 1024 raw 16-bit samples turned into volts, the
 * time axis rebuilt from the calibration widths starting at the trigger cell
 * of the sampling ring, and the alignment of a board's channels on the
 * instant at which ring cell 0 was sampled.
 */
module Timing {
  import opened Bytes
  import opened Headers
  import opened Calibration

  /** Payload of an event channel block: the 4-byte scaler, then 1024 16-bit samples. */
  const SCALER_SIZE: nat := 4
  const SAMPLES_SIZE: nat := SCALER_SIZE + 2 * CELLS

  /** A raw sample in volts: `raw / 65536 + range / 1000 - 0.5`, with the range in millivolts. */
  function Volt(raw: nat, range: nat): (v: real)
    requires raw < 0x1_0000
    ensures range as real / 1000.0 - 0.5 <= v < range as real / 1000.0 + 0.5
  {
    raw as real / 65536.0 + range as real / 1000.0 - 0.5
  }

  /** Distinct raw values give distinct voltages, in the same order. */
  lemma VoltStrictlyIncreasing(a: nat, b: nat, range: nat)
    requires a < b < 0x1_0000
    ensures Volt(a, range) < Volt(b, range)
    ensures Volt(b, range) - Volt(a, range) == (b - a) as real / 65536.0
  {
  }

  /** The `i`-th little-endian 16-bit sample of the block whose samples start at `at`. */
  function Sample(data: seq<byte>, at: nat, i: nat): (raw: nat)
    requires at + 2 * CELLS <= |data| && i < CELLS
    ensures raw < 0x1_0000
  {
    U16(data[at + 2 * i], data[at + 2 * i + 1])
  }

  /** The 1024 samples of a block in volts. */
  function Volts(data: seq<byte>, at: nat, range: nat): (v: seq<real>)
    requires at + 2 * CELLS <= |data|
    ensures |v| == CELLS
  {
    seq(CELLS, i requires 0 <= i < CELLS => Volt(Sample(data, at, i), range))
  }

  /** The ring cell sampled `j` steps after the trigger cell `tc`: `(j + tc) % 1024` in C. */
  function WidthIndex(j: nat, tc: nat): (k: int)
    ensures 0 <= k < CELLS
    ensures k == (j + tc) % CELLS
  {
    CRem(j + tc, CELLS)
  }

  /** The time of sample `i`: the widths of the `i` cells sampled before it, from the trigger cell on. */
  function TimeAt(w: seq<real>, tc: nat, i: nat): real
    requires |w| == CELLS
  {
    if i == 0 then 0.0 else TimeAt(w, tc, i - 1) + w[WidthIndex(i - 1, tc)]
  }

  /** The time axis of a channel. */
  function TimeAxis(w: seq<real>, tc: nat): (t: seq<real>)
    requires |w| == CELLS
    ensures |t| == CELLS && t[0] == 0.0
  {
    seq(CELLS, i requires 0 <= i < CELLS => TimeAt(w, tc, i))
  }

  /** The axis starts at 0 and each step adds the width of the cell just sampled. */
  lemma TimeAxisRecurrence(w: seq<real>, tc: nat)
    requires |w| == CELLS
    ensures TimeAxis(w, tc)[0] == 0.0
    ensures forall i :: 0 <= i < CELLS - 1 ==>
      TimeAxis(w, tc)[i + 1] == TimeAxis(w, tc)[i] + w[(i + tc) % CELLS]
  {
  }

  /** Equal widths `x` give the uniform axis `i * x`. */
  lemma {:induction false} UniformTimeAt(w: seq<real>, tc: nat, x: real, i: nat)
    requires |w| == CELLS && forall k :: 0 <= k < CELLS ==> w[k] == x
    ensures TimeAt(w, tc, i) == i as real * x
  {
    if i > 0 {
      UniformTimeAt(w, tc, x, i - 1);
      var k := WidthIndex(i - 1, tc);
      assert TimeAt(w, tc, i) == TimeAt(w, tc, i - 1) + w[k];
      OneMoreStep(i, x, TimeAt(w, tc, i - 1), w[k]);
    }
  }

  /** `i - 1` steps of `x` and one more make `i` steps. */
  lemma OneMoreStep(i: nat, x: real, before: real, step: real)
    requires i > 0 && before == (i - 1) as real * x && step == x
    ensures before + step == i as real * x
  {
  }

  lemma RingPeriodic(a: nat)
    ensures (a + CELLS) % CELLS == a % CELLS
  {
    var q, m := a / CELLS, a % CELLS;
    assert a + CELLS == (q + 1) * CELLS + m;
  }

  /** The trigger cell only matters modulo the ring size. */
  lemma {:induction false} TimeAtPeriodic(w: seq<real>, tc: nat, i: nat)
    requires |w| == CELLS
    ensures TimeAt(w, tc + CELLS, i) == TimeAt(w, tc, i)
  {
    if i > 0 {
      TimeAtPeriodic(w, tc, i - 1);
      RingPeriodic(i - 1 + tc);
    }
  }

  /** With non-negative widths the time axis never decreases. */
  lemma {:induction false} TimeAtMonotone(w: seq<real>, tc: nat, i: nat, j: nat)
    requires |w| == CELLS && forall k :: 0 <= k < CELLS ==> w[k] >= 0.0
    requires i <= j
    ensures TimeAt(w, tc, i) <= TimeAt(w, tc, j)
    decreases j
  {
    if i < j {
      TimeAtMonotone(w, tc, i, j - 1);
    }
  }

  /** The inner loop of the reader: the time of sample `i`, summed from zero over the `i` widths before it. */
  method SampleTime(w: seq<real>, tc: nat, i: nat) returns (time: real)
    requires |w| == CELLS
    ensures time == TimeAt(w, tc, i)
  {
    time := 0.0;
    for j := 0 to i
      invariant time == TimeAt(w, tc, j)
    {
      time := time + w[WidthIndex(j, tc)];
    }
  }

  /**
   * Converts one channel block: each sample to volts, and each sample time
   * recomputed from scratch as a sum of widths, as the reader's nested loop does.
   */
  method DecodeChannel(data: seq<byte>, at: nat, range: nat, w: seq<real>, tc: nat)
    returns (volts: seq<real>, time: seq<real>)
    requires at + 2 * CELLS <= |data| && |w| == CELLS
    ensures volts == Volts(data, at, range)
    ensures time == TimeAxis(w, tc)
  {
    var v := new real[CELLS];
    var t := new real[CELLS];
    for i := 0 to CELLS
      invariant forall k :: 0 <= k < i ==> v[k] == Volts(data, at, range)[k]
      invariant forall k :: 0 <= k < i ==> t[k] == TimeAxis(w, tc)[k]
    {
      v[i] := Volt(Sample(data, at, i), range);
      t[i] := SampleTime(w, tc, i);
    }
    volts, time := v[..], t[..];
  }

  // ---------------------------------------------------------------------------
  // Alignment

  /**
   * The reference index as written, `(1024 - tc) % 1024` with C's truncating
   * remainder. It always names ring cell 0 modulo the ring size, but is
   * negative for a trigger cell past the end of the ring.
   */
  function RefIndexAsWritten(tc: nat): (r: int)
    ensures tc <= CELLS ==> 0 <= r < CELLS
    ensures tc > CELLS ==> -(CELLS as int) < r <= 0
    ensures (r + tc) % CELLS == 0
  {
    var r := CRem(CELLS - tc, CELLS);
    assert tc > CELLS ==> r + tc == ((tc - CELLS) / CELLS + 1) * CELLS;
    r
  }

  /** For a trigger cell past the end of the ring the index as written is negative. */
  lemma RefIndexAsWrittenNegative()
    ensures RefIndexAsWritten(1025) == -1
  {
  }

  /** The sample index that holds ring cell 0, for any trigger cell. */
  function RefIndex(tc: nat): (r: nat)
    ensures r < CELLS
    ensures (r + tc) % CELLS == 0
  {
    (CELLS - tc % CELLS) % CELLS
  }

  /** Wherever the index as written is in range, it is the corrected one. */
  lemma RefIndexAgrees(tc: nat)
    requires tc <= CELLS
    ensures RefIndexAsWritten(tc) == RefIndex(tc)
  {
  }

  /**
   * A board's time axes after alignment: channel 0 as it was, and every other
   * channel shifted by one constant so that it agrees with channel 0 at `r`.
   */
  function Aligned(time: seq<seq<real>>, r: nat): (a: seq<seq<real>>)
    requires WellFormedBoard(time) && r < CELLS
    ensures WellFormedBoard(a)
    ensures a[0] == time[0]
    ensures forall c :: 1 <= c < 4 ==> a[c][r] == time[0][r]
    ensures forall c, i :: 1 <= c < 4 && 0 <= i < CELLS ==> a[c][i] - time[c][i] == a[c][r] - time[c][r]
  {
    seq(4, c requires 0 <= c < 4 =>
      if c == 0 then time[0] else seq(CELLS, i requires 0 <= i < CELLS => time[c][i] + (time[0][r] - time[c][r])))
  }

  /** Alignment keeps the spacing of every channel's samples. */
  lemma AlignedKeepsSpacing(time: seq<seq<real>>, r: nat, c: nat, i: nat, j: nat)
    requires WellFormedBoard(time) && r < CELLS && c < 4 && i < CELLS && j < CELLS
    ensures Aligned(time, r)[c][j] - Aligned(time, r)[c][i] == time[c][j] - time[c][i]
  {
  }

  /**
   * The alignment loop of the reader: for channels 1 to 3, the offset to
   * channel 0 at cell 0's sample is added to every sample time.
   */
  method AlignBoard(time: seq<seq<real>>, tc: nat) returns (aligned: seq<seq<real>>)
    requires WellFormedBoard(time)
    ensures aligned == Aligned(time, RefIndex(tc))
  {
    var r := RefIndex(tc);
    var t1 := time[0][r];
    aligned := time;
    for chn := 1 to 4
      invariant |aligned| == 4 && aligned[0] == time[0]
      invariant forall c :: 1 <= c < chn ==> aligned[c] == Aligned(time, r)[c]
      invariant forall c :: chn <= c < 4 ==> aligned[c] == time[c]
    {
      var t2 := aligned[chn][r];
      var dt := t1 - t2;
      var row := new real[CELLS];
      for i := 0 to CELLS
        invariant forall k :: 0 <= k < i ==> row[k] == time[chn][k] + dt
      {
        row[i] := aligned[chn][i] + dt;
      }
      aligned := aligned[chn := row[..]];
    }
  }
}
