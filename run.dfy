/**
 * A whole run of the reader: the file and time headers, the calibration
 * section, then events until fewer bytes remain than an event header needs;
 * for every board of every event the channel blocks are converted, the time
 * axes aligned, and channel 0's pulse cut and histogrammed; finally the
 * average pulse.
 */
module Run {
  import opened Results
  import opened Bytes
  import opened Headers
  import opened Calibration
  import opened Timing
  import opened Pulse

  /** Channel blocks a board may carry in an event. */
  const EVENT_SLOTS: nat := 4

  /** Voltages or times of the four channels of one board. */
  type Traces = seq<seq<real>>

  /**
   * What the reader carries from one event to the next: per board the last
   * voltages and time axes of each channel (a channel missing from an event
   * keeps its old ones), the histogram and the number of accepted pulses.
   */
  datatype Scope = Scope(wave: seq<Traces>, time: seq<Traces>, sum: seq<real>, count: nat)

  ghost predicate ValidScope(s: Scope, boards: nat)
  {
    && |s.wave| == boards && |s.time| == boards && |s.sum| == BINS
    && (forall b :: 0 <= b < boards ==> WellFormedBoard(s.wave[b]))
    && (forall b :: 0 <= b < boards ==> WellFormedBoard(s.time[b]))
  }

  /** The state before the first event: nothing recorded, an empty histogram. */
  function InitialScope(boards: nat): (s: Scope)
    ensures ValidScope(s, boards) && s.count == 0
    ensures forall k :: 0 <= k < BINS ==> s.sum[k] == 0.0
  {
    Scope(seq(boards, _ => ZeroBoard()), seq(boards, _ => ZeroBoard()), seq(BINS, _ => 0.0), 0)
  }

  /** The calibration table holds four rows of 1024 widths per board. */
  ghost predicate ValidTable(table: seq<BoardWidths>)
  {
    forall b :: 0 <= b < |table| ==> WellFormedBoard(table[b])
  }

  // ---------------------------------------------------------------------------
  // One board of one event

  /** The voltages after the event's channel blocks were converted in order. */
  function WavesAfter(wave: Traces, blocks: seq<Block>, data: seq<byte>, range: nat): (r: Traces)
    requires |wave| == 4 && BlocksFit(data, SAMPLES_SIZE, blocks)
    ensures |r| == 4 && (WellFormedBoard(wave) ==> WellFormedBoard(r))
  {
    if blocks == [] then wave
    else
      var last := blocks[|blocks| - 1];
      WavesAfter(wave, blocks[..|blocks| - 1], data, range)[last.channel := Volts(data, last.payload + SCALER_SIZE, range)]
  }

  /** A channel converted by the event holds the voltages of its last block; any other keeps its old voltages. */
  lemma {:induction false} WavesAfterChannel(wave: Traces, blocks: seq<Block>, data: seq<byte>, range: nat, c: nat)
    requires |wave| == 4 && BlocksFit(data, SAMPLES_SIZE, blocks) && c < 4
    ensures LastBlockFor(blocks, c).Some? ==>
      LastBlockFor(blocks, c).value.payload + SAMPLES_SIZE <= |data|
      && WavesAfter(wave, blocks, data, range)[c] == Volts(data, LastBlockFor(blocks, c).value.payload + SCALER_SIZE, range)
    ensures LastBlockFor(blocks, c).None? ==> WavesAfter(wave, blocks, data, range)[c] == wave[c]
  {
    if blocks != [] {
      var init := blocks[..|blocks| - 1];
      assert BlocksFit(data, SAMPLES_SIZE, init) by {
        forall k | 0 <= k < |init| ensures init[k] == blocks[k] { }
      }
      WavesAfterChannel(wave, init, data, range, c);
    }
  }

  /** The time axes after the event's channel blocks were converted in order. */
  function TimesAfter(time: Traces, blocks: seq<Block>, widths: BoardWidths, tc: nat): (r: Traces)
    requires |time| == 4 && WellFormedBoard(widths)
    requires forall k :: 0 <= k < |blocks| ==> blocks[k].channel < 4
    ensures |r| == 4 && (WellFormedBoard(time) ==> WellFormedBoard(r))
  {
    if blocks == [] then time
    else
      var last := blocks[|blocks| - 1];
      TimesAfter(time, blocks[..|blocks| - 1], widths, tc)[last.channel := TimeAxis(widths[last.channel], tc)]
  }

  /** A channel converted by the event holds the axis of its own widths; any other keeps its old axis. */
  lemma {:induction false} TimesAfterChannel(time: Traces, blocks: seq<Block>, widths: BoardWidths, tc: nat, c: nat)
    requires |time| == 4 && WellFormedBoard(widths) && c < 4
    requires forall k :: 0 <= k < |blocks| ==> blocks[k].channel < 4
    ensures LastBlockFor(blocks, c).Some? ==> TimesAfter(time, blocks, widths, tc)[c] == TimeAxis(widths[c], tc)
    ensures LastBlockFor(blocks, c).None? ==> TimesAfter(time, blocks, widths, tc)[c] == time[c]
  {
    if blocks != [] {
      TimesAfterChannel(time, blocks[..|blocks| - 1], widths, tc, c);
    }
  }

  /** A board's traces after an event, and the cursor after its channel blocks. */
  datatype BoardData = BoardData(wave: Traces, time: Traces, end: nat)

  /**
   * One board of an event: "B#" and "T#" are mandatory, then up to four
   * channel blocks, each converted in place of the channel it names, then
   * the time axes aligned on ring cell 0.
   */
  function BoardEventFrom(data: seq<byte>, pos: nat, range: nat, widths: BoardWidths, wave: Traces, time: Traces)
    : (r: Result<BoardData>)
    requires pos <= |data| && WellFormedBoard(widths) && WellFormedBoard(wave) && WellFormedBoard(time)
    ensures r.Ok? ==> pos < r.value.end <= |data|
    ensures r.Ok? ==> WellFormedBoard(r.value.wave) && WellFormedBoard(r.value.time)
    ensures !IsBoardHeader(data, pos) ==> r == Err(ReadBoardHeader(data, pos).error)
    ensures IsBoardHeader(data, pos) && ReadTriggerCell(data, pos + HEADER_SIZE).Err? ==>
      r == Err(ReadTriggerCell(data, pos + HEADER_SIZE).error)
  {
    match ReadBoardHeader(data, pos)
    case Err(e) => Err(e)
    case Ok(p) =>
      match ReadTriggerCell(data, p)
      case Err(e) => Err(e)
      case Ok(tc) =>
        match ChannelBlocks(data, p + HEADER_SIZE, EVENT_SLOTS, SAMPLES_SIZE)
        case Err(e) => Err(e)
        case Ok(f) =>
          Ok(BoardData(WavesAfter(wave, f.blocks, data, range),
                       Aligned(TimesAfter(time, f.blocks, widths, tc), RefIndex(tc)),
                       f.end))
  }

  /** The histogram and the number of accepted pulses. */
  datatype Histogram = Histogram(sum: seq<real>, count: nat)

  /** The cut and, for an accepted pulse, the histogram update. */
  function PulseStep(h: Histogram, v: seq<real>, t: seq<real>): (r: Result<Histogram>)
    requires |h.sum| == BINS && |v| == |t| == CELLS
    ensures !Accepted(Area(v, t, CELLS - 1), MinOf(v)) ==> r == Ok(h)
    ensures Accepted(Area(v, t, CELLS - 1), MinOf(v)) ==>
      if BinsInRange(t, CELLS) then r == Ok(Histogram(AddPulse(h.sum, v, t, CELLS), h.count + 1))
      else r == Err(BinIndexOutOfRange)
  {
    if !Accepted(Area(v, t, CELLS - 1), MinOf(v)) then Ok(h)
    else if !BinsInRange(t, CELLS) then Err(BinIndexOutOfRange)
    else Ok(Histogram(AddPulse(h.sum, v, t, CELLS), h.count + 1))
  }

  /** A scope and the cursor reached. */
  datatype Progress = Progress(scope: Scope, end: nat)

  /** Board `b` of an event: its traces are replaced, and channel 0's pulse goes through the cut. */
  function BoardStep(data: seq<byte>, pos: nat, range: nat, table: seq<BoardWidths>, b: nat, s: Scope)
    : (r: Result<Progress>)
    requires pos <= |data| && ValidTable(table) && b < |table| && ValidScope(s, |table|)
    ensures r.Ok? ==> pos < r.value.end <= |data| && ValidScope(r.value.scope, |table|)
    ensures r.Ok? ==> r.value.scope.count == s.count || r.value.scope.count == s.count + 1
  {
    match BoardEventFrom(data, pos, range, table[b], s.wave[b], s.time[b])
    case Err(e) => Err(e)
    case Ok(bd) =>
      match PulseStep(Histogram(s.sum, s.count), bd.wave[0], bd.time[0])
      case Err(e) => Err(e)
      case Ok(h) => Ok(Progress(Scope(s.wave[b := bd.wave], s.time[b := bd.time], h.sum, h.count), bd.end))
  }

  /** Boards `b` onwards of an event. */
  function BoardsFrom(data: seq<byte>, pos: nat, range: nat, table: seq<BoardWidths>, b: nat, s: Scope)
    : (r: Result<Progress>)
    requires pos <= |data| && ValidTable(table) && b <= |table| && ValidScope(s, |table|)
    ensures r.Ok? ==> pos <= r.value.end <= |data| && ValidScope(r.value.scope, |table|)
    ensures r.Ok? ==> s.count <= r.value.scope.count <= s.count + (|table| - b)
    decreases |table| - b
  {
    if b == |table| then Ok(Progress(s, pos))
    else
      match BoardStep(data, pos, range, table, b, s)
      case Err(e) => Err(e)
      case Ok(p) => BoardsFrom(data, p.end, range, table, b + 1, p.scope)
  }

  /** Events from `pos` until fewer bytes remain than an event header needs. */
  function EventsFrom(data: seq<byte>, pos: nat, table: seq<BoardWidths>, s: Scope): (r: Result<Progress>)
    requires pos <= |data| && ValidTable(table) && ValidScope(s, |table|)
    ensures r.Ok? ==> pos <= r.value.end <= |data| && |data| - r.value.end < EVENT_HEADER_SIZE
    ensures r.Ok? ==> ValidScope(r.value.scope, |table|) && s.count <= r.value.scope.count
    decreases |data| - pos
  {
    if |data| - pos < EVENT_HEADER_SIZE then Ok(Progress(s, pos))
    else
      var range := DecodeEventHeader(data, pos).range;
      match BoardsFrom(data, pos + EVENT_HEADER_SIZE, range, table, 0, s)
      case Err(e) => Err(e)
      case Ok(p) => EventsFrom(data, p.end, table, p.scope)
  }

  /** The whole run: the average pulse of every accepted pulse in the file. */
  function Analysis(data: seq<byte>, f32: FloatDecoder): (r: Result<seq<real>>)
    ensures CheckFileHeader(data).Err? ==> r == Err(CheckFileHeader(data).error)
    ensures CheckFileHeader(data).Ok? && CheckTimeHeader(data, HEADER_SIZE).Err? ==>
      r == Err(CheckTimeHeader(data, HEADER_SIZE).error)
    ensures r.Ok? ==> |r.value| == BINS
  {
    match CheckFileHeader(data)
    case Err(e) => Err(e)
    case Ok(p) =>
      match CheckTimeHeader(data, p)
      case Err(e) => Err(e)
      case Ok(q) =>
        match CalibrationFrom(data, q, f32)
        case Err(e) => Err(e)
        case Ok(c) =>
          match EventsFrom(data, c.end, c.table, InitialScope(|c.table|))
          case Err(e) => Err(e)
          case Ok(p) =>
            if p.scope.count == 0 then Err(NoAcceptedEvents)
            else Ok(AverageOf(p.scope.sum, p.scope.count))
  }

  // ---------------------------------------------------------------------------
  // The reader's loops

  /**
   * One board of an event: the mandatory board and trigger-cell headers,
   * then the channel loop converting up to four blocks, then the alignment.
   */
  method ReadBoardEvent(data: seq<byte>, pos: nat, range: nat, widths: BoardWidths, wave: Traces, time: Traces)
    returns (r: Result<BoardData>)
    requires pos <= |data| && WellFormedBoard(widths) && WellFormedBoard(wave) && WellFormedBoard(time)
    ensures r == BoardEventFrom(data, pos, range, widths, wave, time)
  {
    var bh := ReadBoardHeader(data, pos);
    if bh.Err? {
      return Err(bh.error);
    }
    var tch := ReadTriggerCell(data, bh.value);
    if tch.Err? {
      return Err(tch.error);
    }
    var tc := tch.value;
    var start := bh.value + HEADER_SIZE;
    var w, t := wave, time;
    var q: nat := start;
    var chn: nat := 0;
    ghost var blocks: seq<Block> := [];
    ChannelLoopStart(data, start, EVENT_SLOTS, SAMPLES_SIZE);
    while chn < EVENT_SLOTS
      invariant ChannelLoopAt(data, start, EVENT_SLOTS, SAMPLES_SIZE, blocks, q, chn)
      invariant w == WavesAfter(wave, blocks, data, range)
      invariant t == TimesAfter(time, blocks, widths, tc)
      decreases EVENT_SLOTS - chn
    {
      // the channel header is read in full, then rewound unless its marker is 'C'
      if !IsChannelHeader(data, q) {
        break;
      }
      var i := ChannelIndex(data[q + 3]);
      if !(0 <= i < 4) {
        EventLoopFails(data, pos, range, widths, wave, time, tc, blocks, q, chn);
        return Err(BadChannelIndex);
      }
      if |data| - (q + HEADER_SIZE) < SAMPLES_SIZE {
        EventLoopFails(data, pos, range, widths, wave, time, tc, blocks, q, chn);
        return Err(Truncated);
      }
      // the scaler is skipped
      var volts, times := DecodeChannel(data, q + HEADER_SIZE + SCALER_SIZE, range, widths[i], tc);
      ChannelLoopNext(data, start, EVENT_SLOTS, SAMPLES_SIZE, blocks, q, chn);
      blocks := blocks + [Block(i, q + HEADER_SIZE)];
      w := w[i := volts];
      t := t[i := times];
      q := q + HEADER_SIZE + SAMPLES_SIZE;
      chn := chn + 1;
    }
    EventLoopDone(data, pos, range, widths, wave, time, tc, blocks, q, chn);
    var aligned := AlignBoard(t, tc);
    r := Ok(BoardData(w, aligned, q));
  }

  /** A board's channel loop that stops on its limit or on a lookahead that is not 'C' has read the board. */
  lemma EventLoopDone(data: seq<byte>, pos: nat, range: nat, widths: BoardWidths, wave: Traces, time: Traces,
                      tc: nat, blocks: seq<Block>, q: nat, chn: nat)
    requires pos <= |data| && WellFormedBoard(widths) && WellFormedBoard(wave) && WellFormedBoard(time)
    requires IsBoardHeader(data, pos) && ReadTriggerCell(data, pos + HEADER_SIZE) == Ok(tc)
    requires ChannelLoopAt(data, pos + 2 * HEADER_SIZE, EVENT_SLOTS, SAMPLES_SIZE, blocks, q, chn)
    requires chn == EVENT_SLOTS || !IsChannelHeader(data, q)
    ensures BlocksFit(data, SAMPLES_SIZE, blocks)
    ensures BoardEventFrom(data, pos, range, widths, wave, time)
         == Ok(BoardData(WavesAfter(wave, blocks, data, range), Aligned(TimesAfter(time, blocks, widths, tc), RefIndex(tc)), q))
  {
    ChannelLoopDone(data, pos + 2 * HEADER_SIZE, EVENT_SLOTS, SAMPLES_SIZE, blocks, q, chn);
  }

  /** A board's channel loop fails on a bad channel tag or a block cut short. */
  lemma EventLoopFails(data: seq<byte>, pos: nat, range: nat, widths: BoardWidths, wave: Traces, time: Traces,
                       tc: nat, blocks: seq<Block>, q: nat, chn: nat)
    requires pos <= |data| && WellFormedBoard(widths) && WellFormedBoard(wave) && WellFormedBoard(time)
    requires IsBoardHeader(data, pos) && ReadTriggerCell(data, pos + HEADER_SIZE) == Ok(tc)
    requires ChannelLoopAt(data, pos + 2 * HEADER_SIZE, EVENT_SLOTS, SAMPLES_SIZE, blocks, q, chn)
    requires chn < EVENT_SLOTS && IsChannelHeader(data, q)
    ensures !(0 <= ChannelIndex(data[q + 3]) < 4) ==> BoardEventFrom(data, pos, range, widths, wave, time) == Err(BadChannelIndex)
    ensures 0 <= ChannelIndex(data[q + 3]) < 4 && |data| - (q + HEADER_SIZE) < SAMPLES_SIZE ==>
      BoardEventFrom(data, pos, range, widths, wave, time) == Err(Truncated)
  {
    ChannelLoopFails(data, pos + 2 * HEADER_SIZE, EVENT_SLOTS, SAMPLES_SIZE, blocks, q, chn);
  }

  /**
   * The board loop of one event: each board read, and channel 0's pulse
   * analysed and, when it passes the cut, counted and added to `sum` in place.
   */
  method ReadBoards(data: seq<byte>, pos: nat, range: nat, table: seq<BoardWidths>,
                    wave: seq<Traces>, time: seq<Traces>, sum: array<real>, count: nat)
    returns (r: Result<Progress>)
    requires pos <= |data| && ValidTable(table) && ValidScope(Scope(wave, time, sum[..], count), |table|)
    modifies sum
    ensures r.Ok? ==> r.value.scope.sum == sum[..]
    ensures r == BoardsFrom(data, pos, range, table, 0, Scope(wave, time, old(sum[..]), count))
  {
    var p: nat, waves, times, n: nat := pos, wave, time, count;
    for b := 0 to |table|
      invariant p <= |data| && ValidScope(Scope(waves, times, sum[..], n), |table|)
      invariant BoardsFrom(data, pos, range, table, 0, Scope(wave, time, old(sum[..]), count))
             == BoardsFrom(data, p, range, table, b, Scope(waves, times, sum[..], n))
    {
      var s := Scope(waves, times, sum[..], n);
      var bd := ReadBoardEvent(data, p, range, table[b], waves[b], times[b]);
      if bd.Err? {
        return Err(bd.error);
      }
      var v, t := bd.value.wave[0], bd.value.time[0];
      var area, min := AnalyzePulse(v, t);
      if Accepted(area, min) {
        n := n + 1;
        var ok := Accumulate(sum, v, t);
        if !ok {
          return Err(BinIndexOutOfRange);
        }
      }
      assert BoardStep(data, p, range, table, b, s)
          == Ok(Progress(Scope(waves[b := bd.value.wave], times[b := bd.value.time], sum[..], n), bd.value.end));
      waves := waves[b := bd.value.wave];
      times := times[b := bd.value.time];
      p := bd.value.end;
    }
    r := Ok(Progress(Scope(waves, times, sum[..], n), p));
  }

  /** The event loop: it ends normally only when an event header can no longer be read in full. */
  method ReadEvents(data: seq<byte>, pos: nat, table: seq<BoardWidths>) returns (r: Result<Progress>)
    requires pos <= |data| && ValidTable(table)
    ensures r == EventsFrom(data, pos, table, InitialScope(|table|))
  {
    var init := InitialScope(|table|);
    var sum := new real[BINS](_ => 0.0);
    var p: nat, waves, times, n: nat := pos, init.wave, init.time, 0;
    assert sum[..] == init.sum;
    while true
      invariant p <= |data| && ValidScope(Scope(waves, times, sum[..], n), |table|)
      invariant EventsFrom(data, pos, table, init) == EventsFrom(data, p, table, Scope(waves, times, sum[..], n))
      decreases |data| - p
    {
      // fread of the event header returns fewer than one record
      if |data| - p < EVENT_HEADER_SIZE {
        break;
      }
      var eh := DecodeEventHeader(data, p);
      var boards := ReadBoards(data, p + EVENT_HEADER_SIZE, eh.range, table, waves, times, sum, n);
      if boards.Err? {
        return Err(boards.error);
      }
      waves, times, n, p := boards.value.scope.wave, boards.value.scope.time, boards.value.scope.count, boards.value.end;
    }
    r := Ok(Progress(Scope(waves, times, sum[..], n), p));
  }

  /** The reader from the first byte to the average pulse. */
  method Analyze(data: seq<byte>, f32: FloatDecoder) returns (r: Result<seq<real>>)
    ensures r == Analysis(data, f32)
  {
    var fh := CheckFileHeader(data);
    if fh.Err? {
      return Err(fh.error);
    }
    var th := CheckTimeHeader(data, fh.value);
    if th.Err? {
      return Err(th.error);
    }
    var calib := LoadCalibration(data, th.value, f32);
    if calib.Err? {
      return Err(calib.error);
    }
    var events := ReadEvents(data, calib.value.end, calib.value.table);
    if events.Err? {
      return Err(events.error);
    }
    r := Average(events.value.scope.sum, events.value.scope.count);
  }
}
