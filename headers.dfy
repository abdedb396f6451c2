/**
 * The fixed-size records of a DRS version-2 capture file, read from a byte
 * sequence at a cursor, and the framing of the channel blocks that follow a
 * board header. A lookahead read that does not match is "rewound": the
 * cursor it returns is the one it was given.
 */
module Headers {
  import opened Bytes
  import opened Results

  const FILE_TAG: seq<byte> := [0x44, 0x52, 0x53]          // "DRS"
  const VERSION: byte := 0x32                                // '2'
  const TIME_MAGIC: seq<byte> := [0x54, 0x49, 0x4D, 0x45]   // "TIME"
  const BOARD_MAGIC: seq<byte> := [0x42, 0x23]               // "B#"
  const TRIGGER_MAGIC: seq<byte> := [0x54, 0x23]             // "T#"
  const CHANNEL_MARK: byte := 0x43                           // 'C'
  const DIGIT_ZERO: int := 0x30                              // '0'

  /** Size of the file, time, board, trigger-cell and channel headers. */
  const HEADER_SIZE: nat := 4
  /** Size of an event header: magic, serial, seven date fields and the range. */
  const EVENT_HEADER_SIZE: nat := 24

  /** The file header: the tag "DRS" and the version '2'. */
  function CheckFileHeader(data: seq<byte>): (r: Result<nat>)
    ensures r.Ok? <==> |data| >= HEADER_SIZE && data[..HEADER_SIZE] == FILE_TAG + [VERSION]
    ensures r.Ok? ==> r.value == HEADER_SIZE
    ensures r.Err? ==> r.error in {Truncated, BadFileTag, BadVersion}
  {
    if |data| < HEADER_SIZE then Err(Truncated)
    else if data[..3] != FILE_TAG then Err(BadFileTag)
    else if data[3] != VERSION then Err(BadVersion)
    else Ok(HEADER_SIZE)
  }

  /** The time header "TIME" that follows the file header. */
  function CheckTimeHeader(data: seq<byte>, pos: nat): (r: Result<nat>)
    ensures r.Ok? <==> pos + HEADER_SIZE <= |data| && data[pos..pos + HEADER_SIZE] == TIME_MAGIC
    ensures r.Ok? ==> r.value == pos + HEADER_SIZE
    ensures r.Err? ==> r.error in {Truncated, BadTimeHeader}
  {
    if |data| < pos + HEADER_SIZE then Err(Truncated)
    else if data[pos..pos + HEADER_SIZE] != TIME_MAGIC then Err(BadTimeHeader)
    else Ok(pos + HEADER_SIZE)
  }

  /** A board header can be read at `pos` and starts with "B#". */
  predicate IsBoardHeader(data: seq<byte>, pos: nat)
  {
    pos + HEADER_SIZE <= |data| && data[pos..pos + 2] == BOARD_MAGIC
  }

  /** A board header inside an event, where anything but "B#" is fatal. */
  function ReadBoardHeader(data: seq<byte>, pos: nat): (r: Result<nat>)
    ensures r.Ok? <==> IsBoardHeader(data, pos)
    ensures r.Ok? ==> r.value == pos + HEADER_SIZE
    ensures r.Err? ==> r.error == (if pos + HEADER_SIZE <= |data| then BadBoardHeader else Truncated)
  {
    if |data| < pos + HEADER_SIZE then Err(Truncated)
    else if data[pos..pos + 2] != BOARD_MAGIC then Err(BadBoardHeader)
    else Ok(pos + HEADER_SIZE)
  }

  /** The trigger-cell header "T#" and its 16-bit cell number. */
  function ReadTriggerCell(data: seq<byte>, pos: nat): (r: Result<nat>)
    ensures r.Ok? <==> pos + HEADER_SIZE <= |data| && data[pos..pos + 2] == TRIGGER_MAGIC
    ensures r.Ok? ==> r.value == U16(data[pos + 2], data[pos + 3]) && r.value < 0x1_0000
    ensures r.Err? ==> r.error == (if pos + HEADER_SIZE <= |data| then BadTriggerHeader else Truncated)
  {
    if |data| < pos + HEADER_SIZE then Err(Truncated)
    else if data[pos..pos + 2] != TRIGGER_MAGIC then Err(BadTriggerHeader)
    else Ok(U16(data[pos + 2], data[pos + 3]))
  }

  // ---------------------------------------------------------------------------
  // Event header

  /** An event header: the magic (never compared), serial number, date and range. */
  datatype EventHeader = EventHeader(magic: seq<byte>, serial: nat, date: seq<nat>, range: nat)

  /** The date fields are year, month, day, hour, minute, second, millisecond. */
  const DATE_FIELDS: nat := 7

  predicate ValidEventHeader(h: EventHeader)
  {
    && |h.magic| == 4
    && h.serial < 0x1_0000_0000
    && |h.date| == DATE_FIELDS
    && (forall k :: 0 <= k < DATE_FIELDS ==> h.date[k] < 0x1_0000)
    && h.range < 0x1_0000
  }

  /** The 16-bit field at byte offset `at`. */
  function FieldU16(data: seq<byte>, at: nat): (n: nat)
    requires at + 2 <= |data|
    ensures n < 0x1_0000
  {
    U16(data[at], data[at + 1])
  }

  function DecodeEventHeader(data: seq<byte>, pos: nat): (h: EventHeader)
    requires pos + EVENT_HEADER_SIZE <= |data|
    ensures ValidEventHeader(h)
  {
    EventHeader(
      data[pos..pos + 4],
      U32(data[pos + 4], data[pos + 5], data[pos + 6], data[pos + 7]),
      seq(DATE_FIELDS, k requires 0 <= k < DATE_FIELDS => FieldU16(data, pos + 8 + 2 * k)),
      FieldU16(data, pos + 22))
  }

  /** The bytes of consecutive 16-bit fields. */
  function EncodeU16s(ns: seq<nat>): (s: seq<byte>)
    requires forall k :: 0 <= k < |ns| ==> ns[k] < 0x1_0000
    ensures |s| == 2 * |ns|
  {
    if ns == [] then [] else U16Bytes(ns[0]) + EncodeU16s(ns[1..])
  }

  /** Every field written by `EncodeU16s` reads back at its offset. */
  lemma {:induction false} EncodeU16sAt(ns: seq<nat>, k: nat)
    requires forall j :: 0 <= j < |ns| ==> ns[j] < 0x1_0000
    requires k < |ns|
    ensures FieldU16(EncodeU16s(ns), 2 * k) == ns[k]
  {
    if k > 0 {
      EncodeU16sAt(ns[1..], k - 1);
      assert EncodeU16s(ns) == U16Bytes(ns[0]) + EncodeU16s(ns[1..]);
    }
  }

  function EncodeEventHeader(h: EventHeader): (s: seq<byte>)
    requires ValidEventHeader(h)
    ensures |s| == EVENT_HEADER_SIZE
  {
    h.magic + U32Bytes(h.serial) + EncodeU16s(h.date) + U16Bytes(h.range)
  }

  /** Decoding an encoded event header gives back every field, whatever follows it. */
  lemma EventHeaderRoundTrip(h: EventHeader, rest: seq<byte>)
    requires ValidEventHeader(h)
    ensures DecodeEventHeader(EncodeEventHeader(h) + rest, 0) == h
  {
    var s := EncodeEventHeader(h) + rest;
    var d := DecodeEventHeader(s, 0);
    assert s[..4] == h.magic;
    assert s[4..8] == U32Bytes(h.serial);
    assert s[22..24] == U16Bytes(h.range);
    assert s[8..22] == EncodeU16s(h.date);
    forall k | 0 <= k < DATE_FIELDS
      ensures d.date[k] == h.date[k]
    {
      EncodeU16sAt(h.date, k);
      assert FieldU16(s, 8 + 2 * k) == FieldU16(s[8..22], 2 * k);
    }
  }

  // ---------------------------------------------------------------------------
  // Channel blocks

  /** A channel header can be read at `pos` and its marker byte is 'C'. */
  predicate IsChannelHeader(data: seq<byte>, pos: nat)
  {
    pos + HEADER_SIZE <= |data| && data[pos] == CHANNEL_MARK
  }

  /** The 0-based channel named by the last tag character: `tag - '0' - 1` with a signed `char`. */
  function ChannelIndex(tag: byte): (i: int)
    ensures 0 <= i < 4 <==> 0x31 <= tag <= 0x34
    ensures 0 <= i < 4 ==> i == tag - 0x31
  {
    SignedChar(tag) - DIGIT_ZERO - 1
  }

  /** A channel block: its channel index and where its payload starts. */
  datatype Block = Block(channel: nat, payload: nat)

  /** The blocks a channel loop reads, and the cursor it leaves. */
  datatype Frame = Frame(blocks: seq<Block>, end: nat)

  /** Block `b` is a 'C' header naming a valid channel, followed by a full `size`-byte payload. */
  ghost predicate BlockIn(data: seq<byte>, size: nat, b: Block)
  {
    && HEADER_SIZE <= b.payload
    && b.payload + size <= |data|
    && data[b.payload - HEADER_SIZE] == CHANNEL_MARK
    && b.channel < 4
    && b.channel == ChannelIndex(data[b.payload - 1])
  }

  /** The blocks sit back to back from `pos` to `end`, each a header and a `size`-byte payload. */
  ghost predicate BackToBack(pos: nat, size: nat, blocks: seq<Block>, end: nat)
  {
    && (blocks == [] ==> end == pos)
    && (blocks != [] ==>
          && blocks[0].payload == pos + HEADER_SIZE
          && end == blocks[|blocks| - 1].payload + size)
    && forall k :: 0 <= k < |blocks| - 1 ==>
         blocks[k + 1].payload == blocks[k].payload + size + HEADER_SIZE
  }

  /**
   * The channel loop: at most `limit` blocks, each a 'C' header followed by
   * `size` payload bytes; a lookahead that is not a 'C' header ends the loop
   * without consuming anything.
   */
  function ChannelBlocks(data: seq<byte>, pos: nat, limit: nat, size: nat): (r: Result<Frame>)
    requires pos <= |data|
    ensures r.Ok? ==> |r.value.blocks| <= limit && pos <= r.value.end <= |data|
    ensures r.Ok? ==> BlocksFit(data, size, r.value.blocks)
    ensures r.Err? ==> r.error in {BadChannelIndex, Truncated}
    decreases limit
  {
    if limit == 0 || !IsChannelHeader(data, pos) then Ok(Frame([], pos))
    else
      var idx := ChannelIndex(data[pos + 3]);
      if !(0 <= idx < 4) then Err(BadChannelIndex)
      else if |data| - (pos + HEADER_SIZE) < size then Err(Truncated)
      else
        match ChannelBlocks(data, pos + HEADER_SIZE + size, limit - 1, size)
        case Err(e) => Err(e)
        case Ok(rest) => Ok(Frame([Block(idx, pos + HEADER_SIZE)] + rest.blocks, rest.end))
  }

  /**
   * What the channel loop reads: blocks back to back from `pos`, each a 'C'
   * header with a valid channel and a full payload; when it stops before its
   * limit, the cursor is on a lookahead that is not a channel header.
   */
  lemma {:induction false} ChannelBlocksShape(data: seq<byte>, pos: nat, limit: nat, size: nat)
    requires pos <= |data|
    requires ChannelBlocks(data, pos, limit, size).Ok?
    ensures var f := ChannelBlocks(data, pos, limit, size).value;
      && BackToBack(pos, size, f.blocks, f.end)
      && (forall k :: 0 <= k < |f.blocks| ==> BlockIn(data, size, f.blocks[k]))
      && (|f.blocks| < limit ==> !IsChannelHeader(data, f.end))
    decreases limit
  {
    if limit > 0 && IsChannelHeader(data, pos) {
      var next := pos + HEADER_SIZE + size;
      var b := Block(ChannelIndex(data[pos + 3]), pos + HEADER_SIZE);
      ChannelBlocksStep(data, pos, limit, size);
      ChannelBlocksShape(data, next, limit - 1, size);
      ShapeCons(data, pos, limit, size, b, ChannelBlocks(data, next, limit - 1, size).value);
    }
  }

  /** The inductive step of `ChannelBlocksShape`: one more block in front of the rest. */
  lemma ShapeCons(data: seq<byte>, pos: nat, limit: nat, size: nat, b: Block, rest: Frame)
    requires limit > 0 && IsChannelHeader(data, pos) && 0 <= ChannelIndex(data[pos + 3]) < 4
    requires pos + HEADER_SIZE + size <= |data|
    requires b == Block(ChannelIndex(data[pos + 3]), pos + HEADER_SIZE)
    requires BackToBack(pos + HEADER_SIZE + size, size, rest.blocks, rest.end)
    requires forall k :: 0 <= k < |rest.blocks| ==> BlockIn(data, size, rest.blocks[k])
    requires |rest.blocks| < limit - 1 ==> !IsChannelHeader(data, rest.end)
    ensures BackToBack(pos, size, [b] + rest.blocks, rest.end)
    ensures forall k :: 0 <= k < |rest.blocks| + 1 ==> BlockIn(data, size, ([b] + rest.blocks)[k])
    ensures |rest.blocks| + 1 < limit ==> !IsChannelHeader(data, rest.end)
  {
    var bs := [b] + rest.blocks;
    forall k | 1 <= k < |bs|
      ensures bs[k] == rest.blocks[k - 1]
    {
    }
  }

  /** Every block has a valid channel and a payload of `size` bytes inside `data`. */
  predicate BlocksFit(data: seq<byte>, size: nat, blocks: seq<Block>)
  {
    forall k :: 0 <= k < |blocks| ==> blocks[k].channel < 4 && blocks[k].payload + size <= |data|
  }

  lemma BlocksFitAppend(data: seq<byte>, size: nat, blocks: seq<Block>, b: Block)
    requires BlocksFit(data, size, blocks) && b.channel < 4 && b.payload + size <= |data|
    ensures BlocksFit(data, size, blocks + [b])
  {
    forall k | 0 <= k < |blocks| + 1
      ensures (blocks + [b])[k].channel < 4 && (blocks + [b])[k].payload + size <= |data|
    {
      if k < |blocks| {
        assert (blocks + [b])[k] == blocks[k];
      }
    }
  }

  /** The last block that names channel `c`: later blocks for a channel overwrite earlier ones. */
  function LastBlockFor(blocks: seq<Block>, c: nat): (r: Option<Block>)
    ensures r.Some? ==> r.value in blocks && r.value.channel == c
    ensures r.None? ==> forall b :: b in blocks ==> b.channel != c
  {
    if blocks == [] then None
    else if blocks[|blocks| - 1].channel == c then Some(blocks[|blocks| - 1])
    else LastBlockFor(blocks[..|blocks| - 1], c)
  }

  /** The blocks `prefix` followed by whatever `r` reads. */
  function PrependFrame(prefix: seq<Block>, r: Result<Frame>): Result<Frame>
  {
    match r
    case Ok(f) => Ok(Frame(prefix + f.blocks, f.end))
    case Err(e) => Err(e)
  }

  lemma PrependNoBlocks(r: Result<Frame>)
    ensures PrependFrame([], r) == r
  {
    if r.Ok? {
      assert [] + r.value.blocks == r.value.blocks;
    }
  }

  lemma PrependFrameTwice(a: seq<Block>, b: seq<Block>, r: Result<Frame>)
    ensures PrependFrame(a, PrependFrame(b, r)) == PrependFrame(a + b, r)
  {
    if r.Ok? {
      assert a + (b + r.value.blocks) == (a + b) + r.value.blocks;
    }
  }

  /** One turn of the channel loop: a 'C' header with a valid index and a full payload is one block. */
  lemma ChannelBlocksStep(data: seq<byte>, pos: nat, limit: nat, size: nat)
    requires limit > 0 && IsChannelHeader(data, pos)
    requires 0 <= ChannelIndex(data[pos + 3]) < 4
    requires pos + HEADER_SIZE + size <= |data|
    ensures ChannelBlocks(data, pos, limit, size)
         == PrependFrame([Block(ChannelIndex(data[pos + 3]), pos + HEADER_SIZE)],
                         ChannelBlocks(data, pos + HEADER_SIZE + size, limit - 1, size))
  {
  }

  /**
   * What a channel loop that has read `blocks` and stands at `q` after `chn`
   * turns knows: the rest of the loop decides the outcome.
   */
  ghost predicate ChannelLoopAt(data: seq<byte>, start: nat, limit: nat, size: nat,
                                blocks: seq<Block>, q: nat, chn: nat)
  {
    && start <= q <= |data| && chn <= limit
    && ChannelBlocks(data, start, limit, size) == PrependFrame(blocks, ChannelBlocks(data, q, limit - chn, size))
    && BlocksFit(data, size, blocks)
  }

  /** The channel loop before its first turn. */
  lemma ChannelLoopStart(data: seq<byte>, start: nat, limit: nat, size: nat)
    requires start <= |data|
    ensures ChannelLoopAt(data, start, limit, size, [], start, 0)
  {
    PrependNoBlocks(ChannelBlocks(data, start, limit, size));
  }

  /** One turn of the channel loop that reads a block. */
  lemma ChannelLoopNext(data: seq<byte>, start: nat, limit: nat, size: nat, blocks: seq<Block>, q: nat, chn: nat)
    requires ChannelLoopAt(data, start, limit, size, blocks, q, chn) && chn < limit
    requires IsChannelHeader(data, q) && 0 <= ChannelIndex(data[q + 3]) < 4
    requires q + HEADER_SIZE + size <= |data|
    ensures ChannelLoopAt(data, start, limit, size, blocks + [Block(ChannelIndex(data[q + 3]), q + HEADER_SIZE)],
                          q + HEADER_SIZE + size, chn + 1)
    ensures (blocks + [Block(ChannelIndex(data[q + 3]), q + HEADER_SIZE)])[..|blocks|] == blocks
  {
    var b := Block(ChannelIndex(data[q + 3]), q + HEADER_SIZE);
    var rest := ChannelBlocks(data, q + HEADER_SIZE + size, limit - (chn + 1), size);
    ChannelBlocksStep(data, q, limit - chn, size);
    PrependFrameTwice(blocks, [b], rest);
    BlocksFitAppend(data, size, blocks, b);
    assert (blocks + [b])[..|blocks|] == blocks;
  }

  /** The channel loop stops without error: after `limit` turns or on a lookahead that is not 'C'. */
  lemma ChannelLoopDone(data: seq<byte>, start: nat, limit: nat, size: nat, blocks: seq<Block>, q: nat, chn: nat)
    requires ChannelLoopAt(data, start, limit, size, blocks, q, chn)
    requires chn == limit || !IsChannelHeader(data, q)
    ensures ChannelBlocks(data, start, limit, size) == Ok(Frame(blocks, q))
  {
    assert ChannelBlocks(data, q, limit - chn, size) == Ok(Frame([], q));
    assert blocks + [] == blocks;
  }

  /** The channel loop fails on a bad channel tag or a block cut short. */
  lemma ChannelLoopFails(data: seq<byte>, start: nat, limit: nat, size: nat, blocks: seq<Block>, q: nat, chn: nat)
    requires ChannelLoopAt(data, start, limit, size, blocks, q, chn) && chn < limit && IsChannelHeader(data, q)
    ensures !(0 <= ChannelIndex(data[q + 3]) < 4) ==> ChannelBlocks(data, start, limit, size) == Err(BadChannelIndex)
    ensures 0 <= ChannelIndex(data[q + 3]) < 4 && |data| - (q + HEADER_SIZE) < size ==>
      ChannelBlocks(data, start, limit, size) == Err(Truncated)
  {
  }

  /** A channel block as it is written: marker, three tag bytes, payload. */
  datatype ChannelRecord = ChannelRecord(tag: seq<byte>, payload: seq<byte>)

  predicate ValidRecord(rec: ChannelRecord, size: nat)
  {
    |rec.tag| == 3 && 0 <= ChannelIndex(rec.tag[2]) < 4 && |rec.payload| == size
  }

  function EncodeRecords(recs: seq<ChannelRecord>): seq<byte>
  {
    if recs == [] then [] else [CHANNEL_MARK] + recs[0].tag + recs[0].payload + EncodeRecords(recs[1..])
  }

  /** The first record's bytes come first. */
  lemma EncodeRecordsFirst(data: seq<byte>, pos: nat, recs: seq<ChannelRecord>, rest: seq<byte>, size: nat)
    requires recs != [] && ValidRecord(recs[0], size)
    requires pos <= |data| && data[pos..] == EncodeRecords(recs) + rest
    ensures pos + HEADER_SIZE + size <= |data|
    ensures data[pos] == CHANNEL_MARK && data[pos + 3] == recs[0].tag[2]
    ensures data[pos + HEADER_SIZE..pos + HEADER_SIZE + size] == recs[0].payload
    ensures data[pos + HEADER_SIZE + size..] == EncodeRecords(recs[1..]) + rest
  {
    var head := [CHANNEL_MARK] + recs[0].tag + recs[0].payload;
    assert EncodeRecords(recs) == head + EncodeRecords(recs[1..]);
    AppendAssoc(head, EncodeRecords(recs[1..]), rest);
    RecordLayout(data, pos, recs[0], EncodeRecords(recs[1..]) + rest);
  }

  lemma AppendAssoc(a: seq<byte>, b: seq<byte>, c: seq<byte>)
    ensures a + b + c == a + (b + c)
  {
  }

  /** Where the parts of one written record sit. */
  lemma RecordLayout(data: seq<byte>, pos: nat, rec: ChannelRecord, tail: seq<byte>)
    requires |rec.tag| == 3 && pos <= |data|
    requires data[pos..] == [CHANNEL_MARK] + rec.tag + rec.payload + tail
    ensures pos + HEADER_SIZE + |rec.payload| <= |data|
    ensures data[pos] == CHANNEL_MARK && data[pos + 3] == rec.tag[2]
    ensures data[pos + HEADER_SIZE..pos + HEADER_SIZE + |rec.payload|] == rec.payload
    ensures data[pos + HEADER_SIZE + |rec.payload|..] == tail
  {
    var d := data[pos..];
    assert d[0] == CHANNEL_MARK && d[3] == rec.tag[2];
    assert d[HEADER_SIZE..HEADER_SIZE + |rec.payload|] == rec.payload;
    assert data[pos + HEADER_SIZE..pos + HEADER_SIZE + |rec.payload|] == d[HEADER_SIZE..HEADER_SIZE + |rec.payload|];
    assert d[HEADER_SIZE + |rec.payload|..] == tail;
    assert data[pos + HEADER_SIZE + |rec.payload|..] == d[HEADER_SIZE + |rec.payload|..];
  }

  /** The blocks a run of records written at `pos` occupies. */
  function RecordBlocks(recs: seq<ChannelRecord>, pos: nat, size: nat): (bs: seq<Block>)
    requires forall k :: 0 <= k < |recs| ==> ValidRecord(recs[k], size)
    ensures |bs| == |recs|
  {
    if recs == [] then []
    else
      assert ValidRecord(recs[0], size);
      [Block(ChannelIndex(recs[0].tag[2]), pos + HEADER_SIZE)]
         + RecordBlocks(recs[1..], pos + HEADER_SIZE + size, size)
  }

  /**
   * Records `recs` lie back to back from `pos` to `end`: each starts with a 'C'
   * marker, carries its channel tag in its fourth byte and fills `size` bytes
   * after its header.
   */
  ghost predicate RecordsAt(data: seq<byte>, pos: nat, recs: seq<ChannelRecord>, size: nat, end: nat)
    decreases recs
  {
    if recs == [] then pos == end
    else
      && |recs[0].tag| == 3
      && pos + HEADER_SIZE + size <= |data|
      && data[pos] == CHANNEL_MARK && data[pos + 3] == recs[0].tag[2]
      && RecordsAt(data, pos + HEADER_SIZE + size, recs[1..], size, end)
  }

  /** The `size` bytes after each header of a run of records lying from `pos` are that record's payload. */
  ghost predicate PayloadsAt(data: seq<byte>, pos: nat, recs: seq<ChannelRecord>, size: nat)
    decreases recs
  {
    if recs == [] then true
    else
      && pos + HEADER_SIZE + size <= |data|
      && data[pos + HEADER_SIZE..pos + HEADER_SIZE + size] == recs[0].payload
      && PayloadsAt(data, pos + HEADER_SIZE + size, recs[1..], size)
  }

  /** Records written at `pos` carry their payloads right after their headers. */
  lemma {:induction false} EncodedPayloadsAt(data: seq<byte>, pos: nat, recs: seq<ChannelRecord>, rest: seq<byte>, size: nat)
    requires forall k :: 0 <= k < |recs| ==> ValidRecord(recs[k], size)
    requires pos <= |data| && data[pos..] == EncodeRecords(recs) + rest
    ensures PayloadsAt(data, pos, recs, size)
    decreases recs
  {
    if recs != [] {
      assert ValidRecord(recs[0], size);
      EncodeRecordsFirst(data, pos, recs, rest, size);
      assert forall k :: 0 <= k < |recs| - 1 ==> recs[1..][k] == recs[k + 1];
      EncodedPayloadsAt(data, pos + HEADER_SIZE + size, recs[1..], rest, size);
    }
  }

  /** The last block naming channel `c` after one more block in front is the last of the others, if any, or else that block. */
  lemma {:induction false} LastBlockForCons(b: Block, blocks: seq<Block>, c: nat)
    ensures LastBlockFor([b] + blocks, c)
         == if LastBlockFor(blocks, c).Some? then LastBlockFor(blocks, c)
            else if b.channel == c then Some(b) else None
    decreases |blocks|
  {
    if blocks != [] {
      var init := blocks[..|blocks| - 1];
      assert ([b] + blocks)[..|blocks|] == [b] + init;
      LastBlockForCons(b, init, c);
    }
  }

  /** Where a run of records that starts at `pos` ends. */
  function RecordsEnd(pos: nat, recs: seq<ChannelRecord>, size: nat): nat
    decreases recs
  {
    if recs == [] then pos else RecordsEnd(pos + HEADER_SIZE + size, recs[1..], size)
  }

  /** A run of records lies within the data and ends where `RecordsEnd` says. */
  lemma {:induction false} RecordsAtEnd(data: seq<byte>, pos: nat, recs: seq<ChannelRecord>, size: nat, end: nat)
    requires pos <= |data| && RecordsAt(data, pos, recs, size, end)
    ensures end == RecordsEnd(pos, recs, size) && end <= |data|
    decreases recs
  {
    if recs != [] {
      RecordsAtEnd(data, pos + HEADER_SIZE + size, recs[1..], size, end);
    }
  }

  /** Records written at `pos` lie there, and end where what follows them begins. */
  lemma {:induction false} EncodedRecordsAt(data: seq<byte>, pos: nat, recs: seq<ChannelRecord>, rest: seq<byte>, size: nat)
    requires forall k :: 0 <= k < |recs| ==> ValidRecord(recs[k], size)
    requires pos <= |data| && data[pos..] == EncodeRecords(recs) + rest
    ensures RecordsAt(data, pos, recs, size, |data| - |rest|)
    decreases recs
  {
    if recs == [] {
      assert |data[pos..]| == |rest|;
    } else {
      assert ValidRecord(recs[0], size);
      EncodeRecordsFirst(data, pos, recs, rest, size);
      assert forall k :: 0 <= k < |recs| - 1 ==> recs[1..][k] == recs[k + 1];
      EncodedRecordsAt(data, pos + HEADER_SIZE + size, recs[1..], rest, size);
    }
  }

  /**
   * Reading a run of channel records gives back one block per record, in
   * order, with the record's channel, and leaves the cursor where the run
   * ends, provided what follows is not itself a channel header when the loop
   * has room for more.
   */
  lemma {:induction false} ChannelBlocksOfRecords(
    data: seq<byte>, pos: nat, recs: seq<ChannelRecord>, limit: nat, size: nat, end: nat)
    requires pos <= |data|
    requires forall k :: 0 <= k < |recs| ==> ValidRecord(recs[k], size)
    requires RecordsAt(data, pos, recs, size, end)
    requires |recs| <= limit
    requires |recs| < limit ==> !IsChannelHeader(data, end)
    ensures ReadsRecords(data, pos, recs, limit, size, end)
    decreases recs
  {
    if recs != [] {
      assert forall k :: 0 <= k < |recs| - 1 ==> recs[1..][k] == recs[k + 1];
      ChannelBlocksOfRecords(data, pos + HEADER_SIZE + size, recs[1..], limit - 1, size, end);
      RecordBlocksStep(data, pos, recs, limit, size, end);
    }
  }

  /** The channel loop at `pos` reads exactly the blocks of `recs` and stops at `end`. */
  ghost predicate ReadsRecords(data: seq<byte>, pos: nat, recs: seq<ChannelRecord>, limit: nat, size: nat, end: nat)
    requires pos <= |data|
    requires forall k :: 0 <= k < |recs| ==> ValidRecord(recs[k], size)
  {
    ChannelBlocks(data, pos, limit, size) == Ok(Frame(RecordBlocks(recs, pos, size), end))
  }

  /** The inductive step of `ChannelBlocksOfRecords`, away from the byte-level facts. */
  lemma RecordBlocksStep(data: seq<byte>, pos: nat, recs: seq<ChannelRecord>, limit: nat, size: nat, end: nat)
    requires recs != [] && limit > 0
    requires forall k :: 0 <= k < |recs| ==> ValidRecord(recs[k], size)
    requires |recs[0].tag| == 3 && pos + HEADER_SIZE + size <= |data|
    requires data[pos] == CHANNEL_MARK && data[pos + 3] == recs[0].tag[2]
    requires ReadsRecords(data, pos + HEADER_SIZE + size, recs[1..], limit - 1, size, end)
    ensures ReadsRecords(data, pos, recs, limit, size, end)
  {
    assert ValidRecord(recs[0], size);
    ChannelBlocksStep(data, pos, limit, size);
  }
}
