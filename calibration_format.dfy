/**
 * A calibration section as it is written, board after board, and what
 * loading it finds: one board per "B#" header, the cursor left where the
 * section ends.
 */
module CalibrationFormat {
  import opened Bytes
  import opened Results
  import opened Headers
  import opened Calibration

  /** Where the parts of one written board sit. */
  lemma BoardLayout(data: seq<byte>, pos: nat, cb: CalibBoard, tail: seq<byte>)
    requires ValidCalibBoard(cb)
    requires pos <= |data| && data[pos..] == BOARD_MAGIC + U16Bytes(cb.serial) + EncodeRecords(cb.recs) + tail
    ensures IsBoardHeader(data, pos)
    ensures data[pos + HEADER_SIZE..] == EncodeRecords(cb.recs) + tail
  {
    var d := data[pos..];
    assert d[..2] == BOARD_MAGIC;
    assert data[pos..pos + 2] == d[..2];
    assert d[HEADER_SIZE..] == EncodeRecords(cb.recs) + tail;
    assert data[pos + HEADER_SIZE..] == d[HEADER_SIZE..];
  }

  /** Whatever ends the bytes from `at` also ends the whole sequence. */
  lemma SuffixAfter(data: seq<byte>, at: nat, prefix: seq<byte>, tail: seq<byte>)
    requires at <= |data| && data[at..] == prefix + tail
    ensures data[|data| - |tail|..] == tail
  {
    forall k | 0 <= k < |tail|
      ensures data[|data| - |tail|..][k] == tail[k]
    {
      assert data[|data| - |tail| + k] == data[at..][|prefix| + k];
    }
  }

  /** Boards written at `pos` lie there, and end where what follows them begins. */
  lemma {:induction false} EncodedBoardsAt(data: seq<byte>, pos: nat, bs: seq<CalibBoard>, rest: seq<byte>)
    requires forall b :: 0 <= b < |bs| ==> ValidCalibBoard(bs[b])
    requires pos <= |data| && data[pos..] == EncodeBoards(bs) + rest
    requires |rest| >= HEADER_SIZE ==> rest[0] != CHANNEL_MARK
    ensures BoardsEnd(data, pos, bs) == Some(|data| - |rest|)
    decreases bs
  {
    if bs == [] {
      assert |data[pos..]| == |rest|;
    } else {
      var tail := EncodeBoards(bs[1..]) + rest;
      FirstBoardLayout(data, pos, bs, rest);
      ValidBoardsTail(bs);
      BoardsThenRest(bs[1..], rest);
      assert ValidCalibBoard(bs[0]);
      RecordsThenTail(data, pos + HEADER_SIZE, bs[0].recs, tail);
      var next := RecordsEnd(pos + HEADER_SIZE, bs[0].recs, WIDTHS_SIZE);
      EncodedBoardsAt(data, next, bs[1..], rest);
      BoardsEndStep(data, pos, bs, next);
    }
  }

  /** The boards after the first are valid when all are. */
  lemma ValidBoardsTail(bs: seq<CalibBoard>)
    requires bs != [] && forall b :: 0 <= b < |bs| ==> ValidCalibBoard(bs[b])
    ensures ValidCalibBoard(bs[0]) && forall b :: 0 <= b < |bs| - 1 ==> ValidCalibBoard(bs[1..][b])
  {
    assert forall b :: 0 <= b < |bs| - 1 ==> bs[1..][b] == bs[b + 1];
  }

  /** Boards lie from `pos` where the first board does and the others lie after it. */
  lemma BoardsEndStep(data: seq<byte>, pos: nat, bs: seq<CalibBoard>, next: nat)
    requires bs != [] && IsBoardHeader(data, pos)
    requires next == RecordsEnd(pos + HEADER_SIZE, bs[0].recs, WIDTHS_SIZE) && next <= |data|
    requires RecordsAt(data, pos + HEADER_SIZE, bs[0].recs, WIDTHS_SIZE, next)
    requires PayloadsAt(data, pos + HEADER_SIZE, bs[0].recs, WIDTHS_SIZE)
    requires !IsChannelHeader(data, next)
    ensures BoardsEnd(data, pos, bs) == BoardsEnd(data, next, bs[1..])
  {
  }

  /** Where the first of several written boards sits, and what follows its header. */
  lemma FirstBoardLayout(data: seq<byte>, pos: nat, bs: seq<CalibBoard>, rest: seq<byte>)
    requires bs != [] && forall b :: 0 <= b < |bs| ==> ValidCalibBoard(bs[b])
    requires pos <= |data| && data[pos..] == EncodeBoards(bs) + rest
    ensures IsBoardHeader(data, pos)
    ensures data[pos + HEADER_SIZE..] == EncodeRecords(bs[0].recs) + (EncodeBoards(bs[1..]) + rest)
  {
    var more := EncodeBoards(bs[1..]);
    var head := EncodeBoardsFirst(bs);
    AppendAssoc(head, more, rest);
    BoardLayout(data, pos, bs[0], more + rest);
  }

  /** The bytes of the first of several boards, which the others follow. */
  lemma EncodeBoardsFirst(bs: seq<CalibBoard>) returns (head: seq<byte>)
    requires bs != [] && forall b :: 0 <= b < |bs| ==> ValidCalibBoard(bs[b])
    ensures ValidCalibBoard(bs[0])
    ensures head == BOARD_MAGIC + U16Bytes(bs[0].serial) + EncodeRecords(bs[0].recs)
    ensures EncodeBoards(bs) == head + EncodeBoards(bs[1..])
  {
    assert ValidCalibBoard(bs[0]);
    head := BOARD_MAGIC + U16Bytes(bs[0].serial) + EncodeRecords(bs[0].recs);
  }

  /** Written boards followed by `rest` do not start with a 'C' marker when `rest` does not. */
  lemma BoardsThenRest(bs: seq<CalibBoard>, rest: seq<byte>)
    requires forall b :: 0 <= b < |bs| ==> ValidCalibBoard(bs[b])
    requires |rest| >= HEADER_SIZE ==> rest[0] != CHANNEL_MARK
    ensures |EncodeBoards(bs) + rest| >= HEADER_SIZE ==> (EncodeBoards(bs) + rest)[0] != CHANNEL_MARK
  {
    if bs == [] {
      assert EncodeBoards(bs) + rest == rest;
    } else {
      assert ValidCalibBoard(bs[0]);
      assert (EncodeBoards(bs) + rest)[0] == BOARD_MAGIC[0];
    }
  }

  /** A board's written records lie after its header and are followed by `tail`, which is no channel header. */
  lemma RecordsThenTail(data: seq<byte>, at: nat, recs: seq<ChannelRecord>, tail: seq<byte>)
    requires forall k :: 0 <= k < |recs| ==> ValidRecord(recs[k], WIDTHS_SIZE)
    requires at <= |data| && data[at..] == EncodeRecords(recs) + tail
    requires |tail| >= HEADER_SIZE ==> tail[0] != CHANNEL_MARK
    ensures RecordsEnd(at, recs, WIDTHS_SIZE) == |data| - |tail|
    ensures RecordsAt(data, at, recs, WIDTHS_SIZE, |data| - |tail|)
    ensures PayloadsAt(data, at, recs, WIDTHS_SIZE)
    ensures !IsChannelHeader(data, |data| - |tail|)
    ensures data[|data| - |tail|..] == tail
  {
    SuffixAfter(data, at, EncodeRecords(recs), tail);
    EncodedRecordsAt(data, at, recs, tail, WIDTHS_SIZE);
    EncodedPayloadsAt(data, at, recs, tail, WIDTHS_SIZE);
    RecordsAtEnd(data, at, recs, WIDTHS_SIZE, |data| - |tail|);
    NotChannelHeader(data, |data| - |tail|, tail);
  }

  /** Bytes that do not start with a 'C' marker are not a channel header. */
  lemma NotChannelHeader(data: seq<byte>, at: nat, tail: seq<byte>)
    requires at <= |data| && data[at..] == tail
    requires |tail| >= HEADER_SIZE ==> tail[0] != CHANNEL_MARK
    ensures !IsChannelHeader(data, at)
  {
    if at + HEADER_SIZE <= |data| {
      assert data[at] == tail[0];
    }
  }

  /** The widths a written record carries, after the 2048-bin fix. */
  function RecordWidths(rec: ChannelRecord, f32: FloatDecoder): (w: seq<real>)
    requires |rec.payload| == WIDTHS_SIZE
    ensures |w| == CELLS
  {
    CalibratedWidths(rec.payload, 0, f32)
  }

  /** The last of a board's records that is tagged for channel `c`: later records overwrite earlier ones. */
  function LastRecordFor(recs: seq<ChannelRecord>, c: nat): (r: Option<ChannelRecord>)
    requires forall k :: 0 <= k < |recs| ==> |recs[k].tag| == 3
    ensures r.Some? ==> r.value in recs && ChannelIndex(r.value.tag[2]) == c
    ensures r.None? ==> forall k :: 0 <= k < |recs| ==> ChannelIndex(recs[k].tag[2]) != c
  {
    if recs == [] then None
    else
      var later := LastRecordFor(recs[1..], c);
      assert forall k :: 1 <= k < |recs| ==> recs[k] == recs[1..][k - 1];
      if later.Some? then later
      else if ChannelIndex(recs[0].tag[2]) == c then Some(recs[0])
      else None
  }

  /**
   * The table a written board should load to: each channel the fixed widths
   * of the last record tagged for it, or zeros when no record is.
   */
  function WrittenTable(cb: CalibBoard, f32: FloatDecoder): (t: BoardWidths)
    requires ValidCalibBoard(cb)
    ensures WellFormedBoard(t)
  {
    seq(4, c requires 0 <= c < 4 =>
      match LastRecordFor(cb.recs, c)
      case Some(rec) => RecordWidths(rec, f32)
      case None => ZeroBoard()[c])
  }

  /** Widths read where a payload was written are that payload's widths. */
  lemma WidthsOfPayload(data: seq<byte>, at: nat, payload: seq<byte>, f32: FloatDecoder)
    requires |payload| == WIDTHS_SIZE && at + WIDTHS_SIZE <= |data|
    requires data[at..at + WIDTHS_SIZE] == payload
    ensures CalibratedWidths(data, at, f32) == CalibratedWidths(payload, 0, f32)
  {
    forall k | 0 <= k < CELLS
      ensures data[at + 4 * k..at + 4 * k + 4] == payload[4 * k..4 * k + 4]
    {
      SliceWithin(data, at, WIDTHS_SIZE, 4 * k, 4 * k + 4);
    }
    assert Widths(data, at, f32) == Widths(payload, 0, f32);
  }

  /** A slice of a slice is a slice of the whole. */
  lemma SliceWithin(data: seq<byte>, at: nat, len: nat, i: nat, j: nat)
    requires at + len <= |data| && i <= j <= len
    ensures data[at..at + len][i..j] == data[at + i..at + j]
  {
    var inner, whole := data[at..at + len][i..j], data[at + i..at + j];
    forall t | 0 <= t < |inner|
      ensures inner[t] == whole[t]
    {
      assert inner[t] == data[at + i + t];
    }
  }

  /**
   * The block the channel loop keeps for channel `c` among a run of written
   * records is the block of the last record tagged for `c`, and it reads
   * that record's widths.
   */
  lemma {:induction false} RecordBlocksChannel(data: seq<byte>, at: nat, recs: seq<ChannelRecord>, c: nat, f32: FloatDecoder)
    requires forall k :: 0 <= k < |recs| ==> ValidRecord(recs[k], WIDTHS_SIZE)
    requires PayloadsAt(data, at, recs, WIDTHS_SIZE)
    ensures LastBlockFor(RecordBlocks(recs, at, WIDTHS_SIZE), c).Some? <==> LastRecordFor(recs, c).Some?
    ensures LastBlockFor(RecordBlocks(recs, at, WIDTHS_SIZE), c).Some? ==>
      && LastBlockFor(RecordBlocks(recs, at, WIDTHS_SIZE), c).value.payload + WIDTHS_SIZE <= |data|
      && CalibratedWidths(data, LastBlockFor(RecordBlocks(recs, at, WIDTHS_SIZE), c).value.payload, f32)
         == RecordWidths(LastRecordFor(recs, c).value, f32)
    decreases recs
  {
    if recs != [] {
      assert ValidRecord(recs[0], WIDTHS_SIZE);
      var b := Block(ChannelIndex(recs[0].tag[2]), at + HEADER_SIZE);
      var next := at + HEADER_SIZE + WIDTHS_SIZE;
      assert forall k :: 0 <= k < |recs| - 1 ==> recs[1..][k] == recs[k + 1];
      RecordBlocksChannel(data, next, recs[1..], c, f32);
      LastBlockForCons(b, RecordBlocks(recs[1..], next, WIDTHS_SIZE), c);
      WidthsOfPayload(data, at + HEADER_SIZE, recs[0].payload, f32);
    }
  }

  /** The table loaded from a written board's blocks is the table written for it. */
  lemma FirstTable(data: seq<byte>, at: nat, cb: CalibBoard, f32: FloatDecoder)
    requires ValidCalibBoard(cb) && PayloadsAt(data, at, cb.recs, WIDTHS_SIZE)
    requires BlocksFit(data, WIDTHS_SIZE, RecordBlocks(cb.recs, at, WIDTHS_SIZE))
    ensures ApplyBlocks(ZeroBoard(), RecordBlocks(cb.recs, at, WIDTHS_SIZE), data, f32) == WrittenTable(cb, f32)
  {
    var loaded := ApplyBlocks(ZeroBoard(), RecordBlocks(cb.recs, at, WIDTHS_SIZE), data, f32);
    forall c | 0 <= c < 4
      ensures loaded[c] == WrittenTable(cb, f32)[c]
    {
      ApplyBlocksChannel(ZeroBoard(), RecordBlocks(cb.recs, at, WIDTHS_SIZE), data, f32, c);
      RecordBlocksChannel(data, at, cb.recs, c, f32);
    }
  }

  /** A board whose channel blocks decode is one board of the section, followed by the rest of it. */
  lemma CalibrationFirstBoard(data: seq<byte>, pos: nat, f32: FloatDecoder, blocks: seq<Block>, end: nat)
    requires pos <= |data| && IsBoardHeader(data, pos)
    requires ChannelBlocks(data, pos + HEADER_SIZE, CALIB_SLOTS, WIDTHS_SIZE) == Ok(Frame(blocks, end))
    ensures end <= |data|
    ensures BlocksFit(data, WIDTHS_SIZE, blocks)
    ensures CalibrationFrom(data, pos, f32)
         == PrependBoards([ApplyBlocks(ZeroBoard(), blocks, data, f32)], CalibrationFrom(data, end, f32))
  {
  }

  /**
   * Loading boards that lie back to back finds one board per "B#" header,
   * with the widths written for it, and stops where they end.
   */
  lemma {:induction false} CalibrationOfBoardsAt(
    data: seq<byte>, pos: nat, bs: seq<CalibBoard>, end: nat, f32: FloatDecoder)
    requires forall b :: 0 <= b < |bs| ==> ValidCalibBoard(bs[b])
    requires pos <= |data| && BoardsEnd(data, pos, bs) == Some(end)
    requires !IsBoardHeader(data, end)
    ensures CalibrationFrom(data, pos, f32).Ok?
    ensures |CalibrationFrom(data, pos, f32).value.table| == |bs|
    ensures CalibrationFrom(data, pos, f32).value.end == end
    ensures forall k :: 0 <= k < |bs| ==> CalibrationFrom(data, pos, f32).value.table[k] == WrittenTable(bs[k], f32)
    decreases bs
  {
    if bs != [] {
      var next := RecordsEnd(pos + HEADER_SIZE, bs[0].recs, WIDTHS_SIZE);
      var blocks := RecordBlocks(bs[0].recs, pos + HEADER_SIZE, WIDTHS_SIZE);
      ValidBoardsTail(bs);
      ChannelBlocksOfRecords(data, pos + HEADER_SIZE, bs[0].recs, CALIB_SLOTS, WIDTHS_SIZE, next);
      CalibrationFirstBoard(data, pos, f32, blocks, next);
      FirstTable(data, pos + HEADER_SIZE, bs[0], f32);
      CalibrationOfBoardsAt(data, next, bs[1..], end, f32);
      TablesCons(ApplyBlocks(ZeroBoard(), blocks, data, f32), CalibrationFrom(data, next, f32).value.table, bs, f32);
    }
  }

  /** Tables that match boards one by one still do with one more board in front. */
  lemma TablesCons(first: BoardWidths, rest: seq<BoardWidths>, bs: seq<CalibBoard>, f32: FloatDecoder)
    requires bs != [] && forall b :: 0 <= b < |bs| ==> ValidCalibBoard(bs[b])
    requires |rest| == |bs| - 1 && first == WrittenTable(bs[0], f32)
    requires forall k :: 0 <= k < |rest| ==> rest[k] == WrittenTable(bs[1..][k], f32)
    ensures forall k :: 0 <= k < |bs| ==> ([first] + rest)[k] == WrittenTable(bs[k], f32)
  {
    forall k | 0 < k < |bs|
      ensures ([first] + rest)[k] == WrittenTable(bs[k], f32)
    {
      assert bs[1..][k - 1] == bs[k];
    }
  }

  /**
   * Loading a written calibration section finds exactly one board per "B#"
   * header, stores for each the widths written for it, and stops on what
   * follows, provided that starts with neither "B#" nor a 'C' marker.
   */
  lemma CalibrationOfBoards(data: seq<byte>, pos: nat, bs: seq<CalibBoard>, rest: seq<byte>, f32: FloatDecoder)
    requires forall b :: 0 <= b < |bs| ==> ValidCalibBoard(bs[b])
    requires pos <= |data| && data[pos..] == EncodeBoards(bs) + rest
    requires |rest| >= HEADER_SIZE ==> rest[0] != CHANNEL_MARK && rest[..2] != BOARD_MAGIC
    ensures CalibrationFrom(data, pos, f32).Ok?
    ensures |CalibrationFrom(data, pos, f32).value.table| == |bs|
    ensures CalibrationFrom(data, pos, f32).value.end == |data| - |rest|
    ensures forall k :: 0 <= k < |bs| ==> CalibrationFrom(data, pos, f32).value.table[k] == WrittenTable(bs[k], f32)
  {
    EncodedBoardsAt(data, pos, bs, rest);
    SuffixAfter(data, pos, EncodeBoards(bs), rest);
    var end := |data| - |rest|;
    if end + HEADER_SIZE <= |data| {
      assert data[end..end + 2] == rest[..2];
    }
    CalibrationOfBoardsAt(data, pos, bs, end, f32);
  }
}
