# DRSOsc binary reader and pulse averager, modelled in Dafny

`read_binary_average.cpp` reads a binary waveform file written by the DRSOsc
oscilloscope software for DRS4 boards (tag `DRS`, version `2`). It reads:

- the file and `TIME` headers;
- the timing calibration, which is one `B#` block per board holding up to five
  `C` channel blocks of 1024 `float` bin widths, with a fix for tables
  recorded in 2048-bin mode;
- then every event. An event is a 24-byte header and, per board, `B#`, `T#`
  with the trigger cell, and up to four `C` channel blocks. Each channel block
  holds a scaler and 1024 16-bit samples.

For each board it converts the samples to volts. It rebuilds each channel's
time axis by summing calibration widths around the sampling ring, starting
at the trigger cell, and shifts channels 1 to 3 so that all channels agree at
the sample of ring cell 0. It then integrates channel 0's pulse with the
trapezoid rule. A pulse whose area lies strictly inside (-5.4, -5.2) and
whose samples all stay above -0.4999 V is counted and added to a histogram
of 2001 bins of 0.1 ns. The result is that histogram divided by the number
of accepted pulses.

The model works on the file as a sequence of bytes (`Bytes.byte`) with a
cursor. A lookahead read that does not match ("rewound" in the reader)
leaves the cursor where it was. Voltages, widths and times are `real`.

Each loop of the reader is a method proved equal to a specification
function, and the properties are lemmas about those functions:

- `LoadBoard` and `LoadCalibration` against `BoardFrom` and `CalibrationFrom`;
- `DecodeChannel` against `Volts` and `TimeAxis`;
- `AlignBoard` against `Aligned`;
- `AnalyzePulse` against `Area` and `MinOf`;
- `Accumulate` against `AddPulse`;
- `Average` against `AverageOf`;
- `ReadBoardEvent`, `ReadBoards`, `ReadEvents` and `Analyze` against
  `BoardEventFrom`, `BoardsFrom`, `EventsFrom` and `Analysis`.

The modules are:

- `Results`: the errors and `Result`/`Option`.
- `Bytes`: little-endian integers, C `char` signedness, C `%`, and C's
  `int(double)`.
- `Headers`: the fixed records and the channel-block framing shared by the
  calibration and event loops.
- `Calibration`: the calibration section.
- `CalibrationFormat`: a calibration section as written, and what loading
  it finds.
- `Timing`: volts, the time axis and alignment.
- `Pulse`: area, minimum, cut, histogram and average.
- `Run`: the event loop and the whole run.

## Model

| member | source | states |
|---|---|---|
| Bytes.SignedChar | read_binary_average.cpp:130 | A tag byte read as a signed `char` is the byte itself below 128 and the byte minus 256 from 128 on |
| Bytes.CRem | read_binary_average.cpp:197 | C's `%` by a positive modulus: the Euclidean remainder for non-negative operands, a value in (-m, 0] for negative ones, and always the dividend minus the quotient truncated toward zero times m |
| Bytes.TruncToInt | read_binary_average.cpp:227 | `int(x)` truncates toward zero: the floor for non-negative x, the ceiling for negative x |
| Headers.CheckFileHeader | read_binary_average.cpp:92-101 | Accepted exactly when the first four bytes are `D`,`R`,`S`,`2`; the cursor then stands at 4; otherwise Truncated, BadFileTag or BadVersion |
| Headers.CheckTimeHeader | read_binary_average.cpp:104-108 | Accepted exactly when the four bytes at the cursor are `TIME`; the cursor then moves past them |
| Headers.ReadBoardHeader | read_binary_average.cpp:160-164 | Inside an event a board header is accepted exactly when it starts with `B#`; otherwise BadBoardHeader, or Truncated if the 4 bytes are missing |
| Headers.ReadTriggerCell | read_binary_average.cpp:167-171 | Accepted exactly when the header starts with `T#`; the result is the little-endian 16-bit trigger cell |
| Headers.EventHeaderRoundTrip | read_binary_average.cpp:31-41 | Decoding the 24 bytes of an encoded event header gives back its magic, serial, seven date fields and range, whatever follows it |
| Headers.ChannelIndex | read_binary_average.cpp:130 | `cn[2] - '0' - 1` lies in 0..3 exactly when the tag character is `1`..`4`, and is then that digit minus one |
| Headers.ChannelBlocks | read_binary_average.cpp:123-132 | The channel loop reads at most `limit` blocks and ends between `pos` and the end of the data; every block names a channel below 4 and its payload fits; failures are only BadChannelIndex or Truncated |
| Headers.ChannelBlocksShape | read_binary_average.cpp:123-129 | Each block found is a `C` header with the decoded channel; the blocks sit back to back, each advancing the cursor by 4 + size bytes; if fewer than `limit` were read, the lookahead at the end is not a channel header |
| Headers.EncodedPayloadsAt | read_binary_average.cpp:124-132 | In channel records written at a position, the `size` bytes after each 4-byte header are that record's payload |
| Headers.LastBlockForCons | read_binary_average.cpp:123-137 | With one more block in front, the last block naming a channel is the last among the others if any names it, else that block if it does |
| Headers.EncodedRecordsAt | read_binary_average.cpp:124-132 | Channel records written at a position lie there back to back: each starts with `C`, carries its channel digit in its fourth byte, and the run ends where what follows it begins |
| Headers.RecordsAtEnd | read_binary_average.cpp:124-132 | A run of records lying in the data ends inside it, at the position fixed by the number of records and the payload size |
| Headers.ChannelBlocksOfRecords | read_binary_average.cpp:177-188 | The channel loop over records lying back to back gives back one block per record, in order, with the record's channel and payload, and leaves the cursor where the run ends, provided what follows is no channel header while the loop has room |
| Calibration.Doubled | read_binary_average.cpp:134-137 | When the last width is above 10 or below 0.01, entries 512..1023 equal entries 0..511; entries 0..511 never change; otherwise the widths are untouched |
| Calibration.DoubledIdempotent | read_binary_average.cpp:134-137 | Applying the 2048-bin fix twice equals applying it once |
| Calibration.FixDoubledWidths | read_binary_average.cpp:134-137 | The in-place loop leaves the array equal to the fixed widths of its old contents |
| Calibration.ReadWidths | read_binary_average.cpp:132 | Reads the 1024 widths of a block, each decoded from its own four bytes |
| Calibration.ReadChannelWidths | read_binary_average.cpp:132-137 | Reading a block's widths and applying the 2048-bin fix in place yields the fixed widths of those bytes |
| Calibration.ApplyBlocksChannel | read_binary_average.cpp:123-137 | After a board's calibration loop each channel holds the fixed widths of the last block naming it, or its old widths if no block names it |
| Calibration.ApplyNextBlock | read_binary_average.cpp:130-137 | Storing one more calibration block replaces the row of its channel with that block's fixed widths and leaves every other row as it was |
| Calibration.BoardFrom | read_binary_average.cpp:121-138 | One board's calibration yields a 4×1024 table and a cursor not before the start; failures are only BadChannelIndex or Truncated |
| Calibration.LoadBoard | read_binary_average.cpp:121-138 | The channel loop of one board, with its rewinds, reads and in-place fix, computes exactly `BoardFrom` |
| Calibration.CalibrationFrom | read_binary_average.cpp:110-117 | A lookahead that is not `B#` ends the section with no board and the cursor unmoved; the section ends on a non-`B#` lookahead; every board table is 4×1024 |
| Calibration.LoadCalibration | read_binary_average.cpp:110-140 | The board loop computes exactly `CalibrationFrom` |
| CalibrationFormat.EncodedBoardsAt | read_binary_average.cpp:110-138 | Boards written at a position lie there one after another, each a `B#` header followed by its records and by no further channel header, and end where what follows them begins |
| CalibrationFormat.LastRecordFor | read_binary_average.cpp:123-137 | The last record of a board tagged for a channel is one of its records with that channel; when there is none, no record is tagged for it |
| CalibrationFormat.WidthsOfPayload | read_binary_average.cpp:132 | Widths read at a position holding a written payload are the widths decoded from that payload |
| CalibrationFormat.RecordBlocksChannel | read_binary_average.cpp:123-137 | Among written records, the channel loop keeps a block for a channel exactly when some record is tagged for it, and that block reads the fixed widths of the last such record |
| CalibrationFormat.FirstTable | read_binary_average.cpp:121-137 | The table loaded from a written board's blocks holds, per channel, the fixed widths of the last record tagged for it, or zeros |
| CalibrationFormat.CalibrationOfBoardsAt | read_binary_average.cpp:110-140 | Loading boards that lie back to back, with no `B#` after the last, succeeds with one table per board, each holding per channel the fixed widths of the last record written for it or zeros, and stops where the boards end |
| CalibrationFormat.CalibrationOfBoards | read_binary_average.cpp:110-140 | For a written section, the number of boards loaded (`n_boards`) equals the number of `B#` headers, board k's table holds per channel the fixed widths of the last record written for it in board k (zeros if none), and the cursor stops where the section ends |
| Timing.Volt | read_binary_average.cpp:194 | A 16-bit sample in volts lies in [range/1000 - 0.5, range/1000 + 0.5) |
| Timing.VoltStrictlyIncreasing | read_binary_average.cpp:194 | Larger raw samples give larger voltages, by (b - a)/65536 volts |
| Timing.WidthIndex | read_binary_average.cpp:197 | The width index `(j + tc) % 1024` always lies in [0, 1024) |
| Timing.SampleTime | read_binary_average.cpp:196-197 | The inner loop sums, from zero, the widths of the `i` ring cells sampled before sample `i`, starting at the trigger cell |
| Timing.TimeAxisRecurrence | read_binary_average.cpp:196-197 | time[0] = 0 and time[i+1] = time[i] + w[(i + tc) % 1024] |
| Timing.UniformTimeAt | read_binary_average.cpp:196-197 | With every width equal to x, sample i is at time i·x |
| Timing.TimeAtPeriodic | read_binary_average.cpp:197 | The time axis depends on the trigger cell only modulo 1024 |
| Timing.TimeAtMonotone | read_binary_average.cpp:196-197 | With non-negative widths the time axis never decreases |
| Timing.DecodeChannel | read_binary_average.cpp:192-198 | The nested loop yields every sample in volts and every sample time as the sum of the widths before it |
| Timing.RefIndexAsWritten | read_binary_average.cpp:202 | `(1024 - tc) % 1024` with C's `%` is in [0, 1024) for tc ≤ 1024 and in (-1024, 0] above; either way it names ring cell 0 modulo 1024, (r + tc) % 1024 = 0, so above 1024 it is wrong only in sign |
| Timing.RefIndexAsWrittenNegative | read_binary_average.cpp:202 | For trigger cell 1025 the index as written is -1 |
| Timing.RefIndex | read_binary_average.cpp:202-204 | The corrected index lies in [0, 1024) and is the sample that holds ring cell 0: (r + tc) % 1024 = 0 |
| Timing.RefIndexAgrees | read_binary_average.cpp:202 | For tc ≤ 1024 the index as written equals the corrected one |
| Timing.Aligned | read_binary_average.cpp:201-208 | Channel 0 is unchanged; each channel 1..3 agrees with channel 0 at the reference index; every sample of a channel moves by the same amount |
| Timing.AlignedKeepsSpacing | read_binary_average.cpp:203-208 | Alignment keeps the time between any two samples of a channel |
| Timing.AlignBoard | read_binary_average.cpp:201-208 | The alignment loop computes exactly `Aligned` at the reference index |
| Pulse.ConstantPulseArea | read_binary_average.cpp:216-222 | A pulse constant at V has trapezoid area V·(time[n] - time[0]) |
| Pulse.AreaShiftInvariant | read_binary_average.cpp:216-222 | Shifting all sample times by one constant leaves the area unchanged |
| Pulse.MinOf | read_binary_average.cpp:213-217 | The running minimum is one of the samples and is at most every sample |
| Pulse.AnalyzePulse | read_binary_average.cpp:212-222 | The loop yields the sum of the 1023 trapezoids and the minimum of all 1024 samples |
| Pulse.MinOfStep | read_binary_average.cpp:213-217 | One more sample lowers the running minimum to that sample exactly when it is below it |
| Pulse.AcceptedPulse | read_binary_average.cpp:224 | A pulse passes the cut exactly when -5.4 < area < -5.2 and every sample is above -0.4999 |
| Pulse.ConstantPulseAccepted | read_binary_average.cpp:224 | A constant pulse V passes exactly when 5.2 < -V·span < 5.4 and V > -0.4999 |
| Pulse.Bin | read_binary_average.cpp:227 | The bin of a time is `time·10` truncated toward zero |
| Pulse.AddPulseBin | read_binary_average.cpp:226-229 | Every histogram bin grows by exactly the samples whose time falls into it |
| Pulse.AddPulseTotal | read_binary_average.cpp:226-229 | Adding a pulse raises the histogram's total by the sum of its samples, so no sample is lost or counted twice |
| Pulse.Accumulate | read_binary_average.cpp:225-229 | Succeeds exactly when every bin index is in [0, 2001), and then the array holds the old histogram plus the pulse |
| Pulse.AverageOf | read_binary_average.cpp:237-238 | Every average bin times the number of accepted pulses gives back the bin's sum |
| Pulse.Average | read_binary_average.cpp:237-238 | Succeeds exactly when at least one pulse was accepted, and then yields `AverageOf`; otherwise NoAcceptedEvents |
| Run.InitialScope | read_binary_average.cpp:68 | The histogram starts with 2001 zero bins and no accepted pulse |
| Run.WavesAfterChannel | read_binary_average.cpp:185-194 | After an event, a channel named by a block holds the volts of the samples of the last block naming it, and any other channel keeps its old voltages |
| Run.TimesAfterChannel | read_binary_average.cpp:196-197 | After an event, a converted channel holds the time axis of its own widths, and any other channel keeps its old axis |
| Run.BoardEventFrom | read_binary_average.cpp:158-208 | A missing `B#` or `T#` inside an event aborts with that header's error; on success the cursor advances and the traces are 4×1024 |
| Run.PulseStep | read_binary_average.cpp:224-229 | A rejected pulse leaves the histogram and count unchanged; an accepted one adds one to the count and adds its samples to their bins, or fails if a bin is out of range |
| Run.BoardStep | read_binary_average.cpp:158-229 | One board of an event advances the cursor and adds at most one accepted pulse |
| Run.BoardsFrom | read_binary_average.cpp:158 | The boards of one event add at most one accepted pulse per board |
| Run.EventsFrom | read_binary_average.cpp:149-153 | The event loop ends normally only when fewer than 24 bytes remain, and never lowers the count |
| Run.Analysis | read_binary_average.cpp:92-108 | A bad file or time header stops the run with that error before any calibration or event is read; a result has 2001 bins |
| Run.ReadBoardEvent | read_binary_average.cpp:160-208 | The board and trigger headers, the channel loop and the alignment compute exactly `BoardEventFrom` |
| Run.ReadBoards | read_binary_average.cpp:158-231 | The board loop of one event, which updates the histogram in place, computes exactly `BoardsFrom` |
| Run.ReadEvents | read_binary_average.cpp:149-232 | The event loop computes exactly `EventsFrom` from the initial state |
| Run.Analyze | read_binary_average.cpp:92-240 | The whole reader computes exactly `Analysis` |

## Left out

- Command-line handling, `fopen` and all `printf` output. The printed table
  (bin number, bin centre `0.1·i + 0.05`, negated average) is not modelled;
  the result is the average itself.
- The decoding of IEEE-754 `float` widths. It is the parameter `f32` of
  `LoadCalibration` and `Analyze`. IEEE rounding and the `float`/`double`
  conversions are not modelled either: all arithmetic is on `real`.
- A short `fread` of a mandatory record is `Truncated`; the reader would carry
  on with stale structure contents. A lookahead header (board in the
  calibration section, channel anywhere) that cannot be read in full counts
  as a non-match. An event header that cannot be read in full ends the event
  loop normally, as `fread` returning 0 does.
- The event header's magic, which the reader never compares.
- The scaler value of each event channel block: only its four bytes are
  skipped. The unused statistics variables (`ndt`, `sumdt`, `sumdt2`) are
  not modelled.
- The fixed 16-board arrays. The model has no board limit.
- Pulse.Accumulate: a bin index outside [0, 2001) is the error
  BinIndexOutOfRange, where the reader writes out of bounds. The
  histogram's state after that error is not specified.
- Headers.ChannelBlocks: a channel tag outside `1`..`4` is the error
  BadChannelIndex, where the reader writes out of bounds.
- Pulse.Average: without an accepted pulse the result is NoAcceptedEvents.
  The reader would divide by an uninitialised `Ncount`. The model starts the
  count at 0.
- Uninitialised memory is modelled as 0.0. This covers calibration widths of
  channels without a calibration block (the `memset` at line 122 has its
  size and value swapped and clears nothing) and the waveform and time
  arrays before a channel's first block.
- Run.EventsFrom: a run with no calibration board is not an error. The code
  sets `n_boards` to 0 (line 140) and goes on, so its event loop reads only
  event headers.
- Writes into the three-dimensional `waveform`/`time` arrays are modelled as
  reassignment of per-board sequences of rows. The calibration table is
  modelled the same way. Only the 1024-entry rows that the 2048-bin fix,
  the time loop and the alignment loop work on, and the 2001-bin histogram
  that the pulse update writes, are arrays. Aliasing between rows does not arise in the source, so it is not
  modelled.

## Findings

| source | as written | input that shows it | evidently intended | confidence | as-written member | corrected member |
|---|---|---|---|---|---|---|
| read_binary_average.cpp:202-204 | `(1024 - tch.trigger_cell) % 1024` with C's truncating `%` | trigger cell 1025 (any value above 1024 fits the 16-bit field): the index is -1 and `time[b][chn][-1]` is read | the sample index of ring cell 0, `(1024 - tc % 1024) % 1024`, always in [0, 1024) | not executed; DRS4 hardware reports cells below 1024, so only a corrupt file reaches it | Timing.RefIndexAsWrittenNegative | Timing.RefIndex |
