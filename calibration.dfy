/**
 * The timing calibration section: after the time header, one block per board
 * ("B#" and a serial number), each followed by up to five channel blocks of
 * 1024 `float` bin widths. The section ends at the first lookahead that is
 * not a board header.
 */
module Calibration {
  import opened Bytes
  import opened Results
  import opened Headers

  /** Cells of the sampling ring, and samples per channel and event. */
  const CELLS: nat := 1024
  const HALF: nat := 512
  /** Channel blocks a board may carry in the calibration section. */
  const CALIB_SLOTS: nat := 5
  /** Payload of a calibration channel block: 1024 four-byte floats. */
  const WIDTHS_SIZE: nat := 4 * CELLS

  /** The value of the four bytes of a `float`; its IEEE-754 meaning is a parameter of the model. */
  type FloatDecoder = seq<byte> -> real

  /** Bin widths of the four channels of one board. */
  type BoardWidths = seq<seq<real>>

  ghost predicate WellFormedBoard(board: BoardWidths)
  {
    |board| == 4 && forall c :: 0 <= c < 4 ==> |board[c]| == CELLS
  }

  /** A board whose channels were never calibrated. */
  function ZeroBoard(): (board: BoardWidths)
    ensures WellFormedBoard(board)
  {
    var row := seq(CELLS, _ => 0.0);
    [row, row, row, row]
  }

  /** Result of loading the section: per-board widths and the cursor after the last board. */
  datatype Calib = Calib(table: seq<BoardWidths>, end: nat)

  /** A last width outside [0.01, 10] marks a table recorded in 2048-bin mode. */
  predicate NeedsDoubling(last: real)
  {
    last > 10.0 || last < 0.01
  }

  /** The widths after the 2048-bin fix: the first half copied over the second. */
  function Doubled(w: seq<real>): (r: seq<real>)
    requires |w| == CELLS
    ensures |r| == CELLS && r[..HALF] == w[..HALF]
    ensures NeedsDoubling(w[CELLS - 1]) ==> forall j :: 0 <= j < HALF ==> r[HALF + j] == w[j]
    ensures !NeedsDoubling(w[CELLS - 1]) ==> r == w
  {
    if NeedsDoubling(w[CELLS - 1]) then w[..HALF] + w[..HALF] else w
  }

  /** Applying the fix twice is the same as applying it once. */
  lemma DoubledIdempotent(w: seq<real>)
    requires |w| == CELLS
    ensures Doubled(Doubled(w)) == Doubled(w)
  {
    var d := Doubled(w);
    if NeedsDoubling(w[CELLS - 1]) && NeedsDoubling(d[CELLS - 1]) {
      assert d[..HALF] == w[..HALF];
    }
  }

  /** The 2048-bin fix, in place. */
  method FixDoubledWidths(w: array<real>)
    requires w.Length == CELLS
    modifies w
    ensures w[..] == Doubled(old(w[..]))
  {
    if NeedsDoubling(w[CELLS - 1]) {
      for j := 0 to HALF
        invariant forall k :: 0 <= k < HALF ==> w[k] == old(w[k])
        invariant forall k :: HALF <= k < HALF + j ==> w[k] == old(w[k - HALF])
        invariant forall k :: HALF + j <= k < CELLS ==> w[k] == old(w[k])
      {
        w[j + HALF] := w[j];
      }
      assert w[..] == old(w[..HALF]) + old(w[..HALF]);
    }
  }

  /** The 1024 widths stored at `at`, each decoded from its four bytes. */
  function Widths(data: seq<byte>, at: nat, f32: FloatDecoder): (w: seq<real>)
    requires at + WIDTHS_SIZE <= |data|
    ensures |w| == CELLS
  {
    seq(CELLS, k requires 0 <= k < CELLS => f32(data[at + 4 * k..at + 4 * k + 4]))
  }

  /** Reads the 1024 widths of a channel block into a fresh table row. */
  method ReadWidths(data: seq<byte>, at: nat, f32: FloatDecoder) returns (w: array<real>)
    requires at + WIDTHS_SIZE <= |data|
    ensures fresh(w) && w[..] == Widths(data, at, f32)
  {
    w := new real[CELLS];
    for k := 0 to CELLS
      invariant forall j :: 0 <= j < k ==> w[j] == Widths(data, at, f32)[j]
    {
      w[k] := f32(data[at + 4 * k..at + 4 * k + 4]);
    }
  }

  /** Reads one calibration channel block's widths and applies the 2048-bin fix to them. */
  method ReadChannelWidths(data: seq<byte>, at: nat, f32: FloatDecoder) returns (row: seq<real>)
    requires at + WIDTHS_SIZE <= |data|
    ensures row == CalibratedWidths(data, at, f32)
  {
    var w := ReadWidths(data, at, f32);
    FixDoubledWidths(w);
    row := w[..];
  }

  /** The widths a calibration channel block contributes, after the 2048-bin fix. */
  function CalibratedWidths(data: seq<byte>, at: nat, f32: FloatDecoder): (w: seq<real>)
    requires at + WIDTHS_SIZE <= |data|
    ensures |w| == CELLS
  {
    Doubled(Widths(data, at, f32))
  }

  /** A board's widths after its channel blocks were stored in order, each overwriting its channel. */
  function ApplyBlocks(board: BoardWidths, blocks: seq<Block>, data: seq<byte>, f32: FloatDecoder): (r: BoardWidths)
    requires |board| == 4 && BlocksFit(data, WIDTHS_SIZE, blocks)
    ensures |r| == 4
    ensures WellFormedBoard(board) ==> WellFormedBoard(r)
  {
    if blocks == [] then board
    else
      ApplyBlocks(board, blocks[..|blocks| - 1], data, f32)
        [blocks[|blocks| - 1].channel := CalibratedWidths(data, blocks[|blocks| - 1].payload, f32)]
  }

  /** Each channel holds the widths of the last block naming it, or its old widths if none does. */
  lemma {:induction false} ApplyBlocksChannel(
    board: BoardWidths, blocks: seq<Block>, data: seq<byte>, f32: FloatDecoder, c: nat)
    requires |board| == 4 && BlocksFit(data, WIDTHS_SIZE, blocks) && c < 4
    ensures LastBlockFor(blocks, c).Some? ==>
      LastBlockFor(blocks, c).value.payload + WIDTHS_SIZE <= |data|
      && ApplyBlocks(board, blocks, data, f32)[c] == CalibratedWidths(data, LastBlockFor(blocks, c).value.payload, f32)
    ensures LastBlockFor(blocks, c).None? ==> ApplyBlocks(board, blocks, data, f32)[c] == board[c]
  {
    if blocks != [] {
      var init := blocks[..|blocks| - 1];
      assert BlocksFit(data, WIDTHS_SIZE, init) by {
        forall k | 0 <= k < |init| ensures init[k] == blocks[k] { }
      }
      ApplyBlocksChannel(board, init, data, f32, c);
    }
  }

  /** The boards `prefix` followed by whatever `r` loads. */
  function PrependBoards(prefix: seq<BoardWidths>, r: Result<Calib>): Result<Calib>
  {
    match r
    case Ok(c) => Ok(Calib(prefix + c.table, c.end))
    case Err(e) => Err(e)
  }

  lemma PrependNoBoards(r: Result<Calib>)
    ensures PrependBoards([], r) == r
  {
    if r.Ok? {
      assert [] + r.value.table == r.value.table;
    }
  }

  lemma PrependBoardsTwice(a: seq<BoardWidths>, b: seq<BoardWidths>, r: Result<Calib>)
    ensures PrependBoards(a, PrependBoards(b, r)) == PrependBoards(a + b, r)
  {
    if r.Ok? {
      assert a + (b + r.value.table) == (a + b) + r.value.table;
    }
  }

  /** Storing one more block overwrites its channel and nothing else. */
  lemma ApplyNextBlock(board: BoardWidths, blocks: seq<Block>, b: Block, data: seq<byte>, f32: FloatDecoder)
    requires |board| == 4 && BlocksFit(data, WIDTHS_SIZE, blocks + [b])
    ensures BlocksFit(data, WIDTHS_SIZE, blocks) && b.channel < 4 && b.payload + WIDTHS_SIZE <= |data|
    ensures ApplyBlocks(board, blocks + [b], data, f32)
         == ApplyBlocks(board, blocks, data, f32)[b.channel := CalibratedWidths(data, b.payload, f32)]
  {
    assert (blocks + [b])[..|blocks|] == blocks;
    assert BlocksFit(data, WIDTHS_SIZE, blocks) by {
      forall k | 0 <= k < |blocks| ensures blocks[k] == (blocks + [b])[k] { }
    }
    assert (blocks + [b])[|blocks|] == b;
  }

  /** One board's widths, and the cursor after its channel blocks. */
  datatype Loaded = Loaded(board: BoardWidths, end: nat)

  /**
   * The channel blocks after a board header at `start`: up to five, each
   * overwriting its channel of an uncalibrated board.
   */
  function BoardFrom(data: seq<byte>, start: nat, f32: FloatDecoder): (r: Result<Loaded>)
    requires start <= |data|
    ensures r.Ok? ==> start <= r.value.end <= |data| && WellFormedBoard(r.value.board)
    ensures r.Err? ==> r.error in {BadChannelIndex, Truncated}
  {
    match ChannelBlocks(data, start, CALIB_SLOTS, WIDTHS_SIZE)
    case Err(e) => Err(e)
    case Ok(f) => Ok(Loaded(ApplyBlocks(ZeroBoard(), f.blocks, data, f32), f.end))
  }

  /**
   * The calibration section from `pos`: boards until a lookahead that is not
   * "B#", which is left unread.
   */
  function CalibrationFrom(data: seq<byte>, pos: nat, f32: FloatDecoder): (r: Result<Calib>)
    requires pos <= |data|
    ensures r.Ok? ==> pos <= r.value.end <= |data|
    ensures !IsBoardHeader(data, pos) ==> r == Ok(Calib([], pos))
    ensures r.Ok? ==> !IsBoardHeader(data, r.value.end)
    ensures r.Ok? ==> forall b :: 0 <= b < |r.value.table| ==> WellFormedBoard(r.value.table[b])
    ensures r.Err? ==> r.error in {BadChannelIndex, Truncated}
    decreases |data| - pos
  {
    if !IsBoardHeader(data, pos) then Ok(Calib([], pos))
    else
      match BoardFrom(data, pos + HEADER_SIZE, f32)
      case Err(e) => Err(e)
      case Ok(l) => PrependBoards([l.board], CalibrationFrom(data, l.end, f32))
  }

  /** A calibration board as it is written: "B#", the serial number, and its channel records. */
  datatype CalibBoard = CalibBoard(serial: nat, recs: seq<ChannelRecord>)

  predicate ValidCalibBoard(cb: CalibBoard)
  {
    && cb.serial < 0x1_0000
    && |cb.recs| <= CALIB_SLOTS
    && forall k :: 0 <= k < |cb.recs| ==> ValidRecord(cb.recs[k], WIDTHS_SIZE)
  }

  function EncodeBoards(bs: seq<CalibBoard>): seq<byte>
    requires forall b :: 0 <= b < |bs| ==> ValidCalibBoard(bs[b])
  {
    if bs == [] then []
    else
      assert ValidCalibBoard(bs[0]);
      BOARD_MAGIC + U16Bytes(bs[0].serial) + EncodeRecords(bs[0].recs) + EncodeBoards(bs[1..])
  }

  /**
   * Where boards `bs` end when they lie back to back from `pos`: each a "B#"
   * header followed by its channel records with their payloads, and, when a board has fewer than
   * five, by something that is not a channel header. `None` when they do not.
   */
  ghost function BoardsEnd(data: seq<byte>, pos: nat, bs: seq<CalibBoard>): Option<nat>
    decreases bs
  {
    if bs == [] then Some(pos)
    else
      var next := RecordsEnd(pos + HEADER_SIZE, bs[0].recs, WIDTHS_SIZE);
      if && IsBoardHeader(data, pos)
         && next <= |data|
         && RecordsAt(data, pos + HEADER_SIZE, bs[0].recs, WIDTHS_SIZE, next)
         && PayloadsAt(data, pos + HEADER_SIZE, bs[0].recs, WIDTHS_SIZE)
         && (|bs[0].recs| < CALIB_SLOTS ==> !IsChannelHeader(data, next))
      then BoardsEnd(data, next, bs[1..])
      else None
  }

  /**
   * The channel loop of one calibration board: up to five channel blocks
   * until one does not match, each read, fixed in place and stored.
   */
  method LoadBoard(data: seq<byte>, start: nat, f32: FloatDecoder) returns (r: Result<Loaded>)
    requires start <= |data|
    ensures r == BoardFrom(data, start, f32)
  {
    var board := ZeroBoard();
    var q: nat := start;
    var chn: nat := 0;
    ghost var blocks: seq<Block> := [];
    ChannelLoopStart(data, start, CALIB_SLOTS, WIDTHS_SIZE);
    while chn < CALIB_SLOTS
      invariant ChannelLoopAt(data, start, CALIB_SLOTS, WIDTHS_SIZE, blocks, q, chn)
      invariant board == ApplyBlocks(ZeroBoard(), blocks, data, f32)
      decreases CALIB_SLOTS - chn
    {
      // the channel header is read in full, then rewound unless its marker is 'C'
      if !IsChannelHeader(data, q) {
        break;
      }
      var i := ChannelIndex(data[q + 3]);
      if !(0 <= i < 4) {
        BoardLoopFails(data, start, f32, blocks, q, chn);
        return Err(BadChannelIndex);
      }
      if |data| - (q + HEADER_SIZE) < WIDTHS_SIZE {
        BoardLoopFails(data, start, f32, blocks, q, chn);
        return Err(Truncated);
      }
      var row := ReadChannelWidths(data, q + HEADER_SIZE, f32);
      ChannelLoopNext(data, start, CALIB_SLOTS, WIDTHS_SIZE, blocks, q, chn);
      blocks := blocks + [Block(i, q + HEADER_SIZE)];
      board := board[i := row];
      q := q + HEADER_SIZE + WIDTHS_SIZE;
      chn := chn + 1;
    }
    BoardLoopDone(data, start, f32, blocks, q, chn);
    r := Ok(Loaded(board, q));
  }

  /** A board's channel loop that stops on its limit or on a lookahead that is not 'C' has loaded the board. */
  lemma BoardLoopDone(data: seq<byte>, start: nat, f32: FloatDecoder, blocks: seq<Block>, q: nat, chn: nat)
    requires ChannelLoopAt(data, start, CALIB_SLOTS, WIDTHS_SIZE, blocks, q, chn)
    requires chn == CALIB_SLOTS || !IsChannelHeader(data, q)
    ensures BlocksFit(data, WIDTHS_SIZE, blocks)
    ensures BoardFrom(data, start, f32) == Ok(Loaded(ApplyBlocks(ZeroBoard(), blocks, data, f32), q))
  {
    ChannelLoopDone(data, start, CALIB_SLOTS, WIDTHS_SIZE, blocks, q, chn);
  }

  /** A board's channel loop fails on a bad channel tag or a block cut short. */
  lemma BoardLoopFails(data: seq<byte>, start: nat, f32: FloatDecoder, blocks: seq<Block>, q: nat, chn: nat)
    requires ChannelLoopAt(data, start, CALIB_SLOTS, WIDTHS_SIZE, blocks, q, chn) && chn < CALIB_SLOTS
    requires IsChannelHeader(data, q)
    ensures !(0 <= ChannelIndex(data[q + 3]) < 4) ==> BoardFrom(data, start, f32) == Err(BadChannelIndex)
    ensures 0 <= ChannelIndex(data[q + 3]) < 4 && |data| - (q + HEADER_SIZE) < WIDTHS_SIZE ==>
      BoardFrom(data, start, f32) == Err(Truncated)
  {
    ChannelLoopFails(data, start, CALIB_SLOTS, WIDTHS_SIZE, blocks, q, chn);
  }

  /**
   * The calibration loop of the reader: board headers until one does not
   * match, the channel blocks of each board read by `LoadBoard`.
   */
  method LoadCalibration(data: seq<byte>, pos: nat, f32: FloatDecoder) returns (r: Result<Calib>)
    requires pos <= |data|
    ensures r == CalibrationFrom(data, pos, f32)
  {
    var table: seq<BoardWidths> := [];
    var p := pos;
    PrependNoBoards(CalibrationFrom(data, pos, f32));
    while true
      invariant pos <= p <= |data|
      invariant CalibrationFrom(data, pos, f32) == PrependBoards(table, CalibrationFrom(data, p, f32))
      decreases |data| - p
    {
      // the board header is read in full, then rewound unless it is "B#"
      if !IsBoardHeader(data, p) {
        break;
      }
      var loaded := LoadBoard(data, p + HEADER_SIZE, f32);
      if loaded.Err? {
        return Err(loaded.error);
      }
      PrependBoardsTwice(table, [loaded.value.board], CalibrationFrom(data, loaded.value.end, f32));
      table := table + [loaded.value.board];
      p := loaded.value.end;
    }
    assert table + [] == table;
    r := Ok(Calib(table, p));
  }
}
