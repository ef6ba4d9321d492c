# FamiTone2 music exporter, modelled in Dafny

This project models `FamitoneMusicFile`, the FamiStudio exporter that turns a project (songs,
instruments, DPCM sample mappings) into the assembly source of a FamiTone2 music data file.
The exporter:

- writes a header with one record per song (the five channel stream addresses and the PAL and
  NTSC tempos);
- run-length encodes every instrument envelope into a table of unique envelopes keyed by CRC32,
  and writes the instrument, sample and envelope records;
- encodes each song's patterns into an opcode stream per channel. Buffers longer than four bytes
  that repeat a buffer already in the packed-pattern table, which all songs share, are emitted
  as references to it;
- picks, per song, the speed channel and pattern split factor whose dry run gives the smallest
  stream, and writes the song with that layout.

The model follows the source's own structure:

- **`FamitoneExport.FamitoneMusicFile`** is a class. It has the exporter's fields: the project,
  the output lines, the four dialect tokens and the shared packed-pattern table.
- **Methods with loops.** The class's methods append to the output lines with loops like those
  of the source. Each method is proved equal to a specification function of the old state.
- **Pure functions and lemmas** sit in their own modules. They describe the results and prove
  what the format promises:
  - `EnvelopeRle`: envelope run-length code, loop pointer and a reader that expands the code;
  - `SongQueries`: effect, skip and loop-point search;
  - `PatternCode` and `PatternDecode`: pattern opcodes and a reader that reads them back;
  - `SongCode`: per-channel streams and the pattern table;
  - `SplitSearch`: the layout search;
  - `InstrumentCode`: the envelope table and the instrument, sample and envelope records;
  - `HeaderCode`: the header.
- **Output form.** Output lines are structured values (labels, `db`/`dw` lines with numeric or
  address operands) rather than formatted text. Every size the source returns is proved equal
  to the assembled byte size of the lines written: one byte per `db` item, two per `dw` item.

Constants agree with the source: MinPatternLength 6, MaxRepeatCount 60, MaxSongs (256 - 5) / 14,
MaxPatterns 128 * MaxSongs, MaxPackedPatterns 5 * MaxPatterns * MaxSongs, and the search's
starting minimum 65536. The tempo divisions truncate toward zero, as C# integer division does.

Three behaviours of the code are worth noting:

- The loop point of a song is the *parameter* of the first jump effect, scanning patterns, then
  rows, then channels (`FindLoopPoint`). It is not the position of that effect.
- A dry run that overflows the pattern table returns -1. That is below any real size, so it wins
  the layout search, exactly as the code's `size < minSize` test lets it.
- Every channel ends with a jump to its loop label, but the label is only written before the
  pattern at the loop point. When the loop point is at or past the song's end, or at a position
  a skip leaves out, the output names a label it never defines (`SongCode.LoopLabel`).

## Model

| member | source | states |
|---|---|---|
| SongQueries.FindEffectFrom | FamiStudio/Source/IO/FamitoneMusicFile.cs:273-285 | the effect parameter found from channel c on is -1 or a byte |
| SongQueries.FindEffect | FamiStudio/Source/IO/FamitoneMusicFile.cs:273-285 | FindEffect returns -1 or a byte value |
| SongQueries.FindEffectFromFirst | FamiStudio/Source/IO/FamitoneMusicFile.cs:273-285 | -1 exactly when no channel from c on has the effect at that row; otherwise the parameter of the first channel that has it |
| SongQueries.FindEffectFirst | FamiStudio/Source/IO/FamitoneMusicFile.cs:273-285 | -1 exactly when no channel has the effect at that row; otherwise the parameter of the first channel, in channel order, that has it |
| SongQueries.FindSkipFrom | FamiStudio/Source/IO/FamitoneMusicFile.cs:287-299 | the skip row found from row i on is -1 or a row index of the pattern at or after i |
| SongQueries.FindSkip | FamiStudio/Source/IO/FamitoneMusicFile.cs:287-299 | FindSkip returns -1 or a row index below the pattern length |
| SongQueries.FindSkipFromFirst | FamiStudio/Source/IO/FamitoneMusicFile.cs:287-299 | -1 exactly when no row from i on has a skip; otherwise that row has a skip and no earlier row from i does |
| SongQueries.FindSkipFirst | FamiStudio/Source/IO/FamitoneMusicFile.cs:287-299 | -1 exactly when no row of the pattern has a skip; otherwise the first row that has one |
| SongQueries.FirstJumpHere | FamiStudio/Source/IO/FamitoneMusicFile.cs:301-316 | a jump found at a row is the first jump from that row on |
| SongQueries.FirstJumpLater | FamiStudio/Source/IO/FamitoneMusicFile.cs:301-316 | with no jump at row i, the first jump from row i + 1 is the first jump from row i |
| SongQueries.FirstJumpNextPosition | FamiStudio/Source/IO/FamitoneMusicFile.cs:301-316 | the first jump from the next pattern position is the first jump after the last row of this one |
| SongQueries.FindJumpFrom | FamiStudio/Source/IO/FamitoneMusicFile.cs:301-316 | -1 exactly when no jump occurs from (p, i) to the end of the song; otherwise the parameter of the first jump in pattern-then-row order |
| SongQueries.FindLoopPoint | FamiStudio/Source/IO/FamitoneMusicFile.cs:301-316 | 0 when the song has no jump effect; otherwise the parameter of its first jump effect; always a byte |
| EnvelopeRle.Clamp | FamiStudio/Source/IO/FamitoneMusicFile.cs:113-118 | an envelope value is clamped into -64..63 |
| EnvelopeRle.Biased | FamiStudio/Source/IO/FamitoneMusicFile.cs:113-120 | a clamped value plus 192, wrapped to a byte, is a value byte (at least 128) |
| EnvelopeRle.BiasedSeq | FamiStudio/Source/IO/FamitoneMusicFile.cs:113-120 | the value bytes of an envelope, one per frame |
| EnvelopeRle.InitialPrevNeverMatches | FamiStudio/Source/IO/FamitoneMusicFile.cs:103 | the initial previous value (first value plus one) never equals the first frame's value byte, so the first frame is always written |
| EnvelopeRle.CountBytes | FamiStudio/Source/IO/FamitoneMusicFile.cs:130-136 | a run of c repeats is written as between 1 and c count bytes |
| EnvelopeRle.Flush | FamiStudio/Source/IO/FamitoneMusicFile.cs:124-141 | flushing a pending run writes no more bytes than the run has repeats |
| EnvelopeRle.ExpandAppendCounts | FamiStudio/Source/IO/FamitoneMusicFile.cs:130-136 | count bytes appended to a code expand to that many repeats of its last value byte |
| EnvelopeRle.ClassesAppendCounts | FamiStudio/Source/IO/FamitoneMusicFile.cs:130-136 | count bytes of 126 and the remainder keep every byte of the code a value byte or a count byte in 1..126 |
| EnvelopeRle.FlushInv | FamiStudio/Source/IO/FamitoneMusicFile.cs:124-141 | a flush expands to the pending repeats of the previous value and keeps the byte classes |
| EnvelopeRle.RleFirstStepInv | FamiStudio/Source/IO/FamitoneMusicFile.cs:105-149 | after the first frame the code expands to that frame's value byte |
| EnvelopeRle.RleStepInv | FamiStudio/Source/IO/FamitoneMusicFile.cs:105-149 | each frame step keeps the run-length invariant: code plus pending repeats expands to the frames so far |
| EnvelopeRle.RleUpToInv | FamiStudio/Source/IO/FamitoneMusicFile.cs:105-149 | after any number of frames the code plus the pending repeats expands to exactly the value bytes of those frames |
| EnvelopeRle.RleUpToPrefix | FamiStudio/Source/IO/FamitoneMusicFile.cs:105-149 | the code only grows at its end while frames are processed |
| EnvelopeRle.EndFlushed | FamiStudio/Source/IO/FamitoneMusicFile.cs:122 | the last frame always flushes its run and writes its value, so nothing is pending at the end |
| EnvelopeRle.EncodeEnvelope | FamiStudio/Source/IO/FamitoneMusicFile.cs:93-163 | ProcessEnvelope as written gives None exactly for an empty envelope; otherwise the body, a 0 terminator and a loop pointer that indexes a body byte |
| EnvelopeRle.EnvelopeTrailer | FamiStudio/Source/IO/FamitoneMusicFile.cs:151-160 | the body is 1 to n bytes long, starts and ends with a value byte (the last one the last frame's), and the loop pointer indexes a body byte; with no loop it is the last body byte |
| EnvelopeRle.EnvelopeRoundTrip | FamiStudio/Source/IO/FamitoneMusicFile.cs:105-149 | expanding the body of the code gives back the value byte of every frame |
| EnvelopeRle.ConstantEnvelope | FamiStudio/Source/IO/FamitoneMusicFile.cs:105-149 | n equal frames encode as n value bytes when n is at most 3, else as value, count bytes for n - 2 repeats, value |
| EnvelopeRle.ExpandConcat | FamiStudio/Source/IO/FamitoneMusicFile.cs:105-149 | a code that starts with a value byte expands independently of the bytes before it |
| EnvelopeRle.LoopPointerCorrected | FamiStudio/Source/IO/FamitoneMusicFile.cs:151-155 | the corrected loop pointer always indexes a body byte |
| EnvelopeRle.EncodeEnvelopeCorrected | FamiStudio/Source/IO/FamitoneMusicFile.cs:93-163 | None exactly for an empty envelope; otherwise body, 0 terminator and a pointer that indexes a body byte |
| EnvelopeRle.PrefixBeforeLoop | FamiStudio/Source/IO/FamitoneMusicFile.cs:105-149 | the bytes before the corrected pointer play exactly the frames before the loop frame |
| EnvelopeRle.SuffixFromLoop | FamiStudio/Source/IO/FamitoneMusicFile.cs:105-149 | the bytes from the corrected pointer play exactly the frames from the loop frame on |
| EnvelopeRle.LoopReplay | FamiStudio/Source/IO/FamitoneMusicFile.cs:151-162 | replaying the corrected code from its loop pointer to the terminator plays exactly the frames from the loop frame to the end |
| EnvelopeRle.FirstValueAt | FamiStudio/Source/IO/FamitoneMusicFile.cs:151-155 | the corrected pointer of a loop frame that writes lands on a value byte, never on a count byte |
| EnvelopeRle.LoopPointerAgrees | FamiStudio/Source/IO/FamitoneMusicFile.cs:151-155 | the pointer as written equals the corrected one unless the loop frame ends a run of exactly one or of more than 126 repeats |
| EnvelopeRle.LoopPointerEarly | FamiStudio/Source/IO/FamitoneMusicFile.cs:105-155 | frames 0, 0, 5 looping at frame 2 encode as c0 c0 c5 00 01; replaying from byte 1 plays c0 c5 rather than the loop frame's c5; the corrected code ends 00 02 |
| EnvelopeRle.FullCode | FamiStudio/Source/IO/FamitoneMusicFile.cs:93-162 | the code a non-wrapping cursor leaves: body, 0 terminator and a pointer into the body, whose body expands back to every frame's value byte; it is EncodeEnvelope's for at most 253 frames |
| EnvelopeRle.WrappedCode | FamiStudio/Source/IO/FamitoneMusicFile.cs:98-162 | the byte cursor wraps at 256, so the returned array holds the code modulo 256 bytes long, and the whole code exactly when it is shorter than 256 bytes |
| EnvelopeRle.ChangingFramesBody | FamiStudio/Source/IO/FamitoneMusicFile.cs:105-149 | when no frame repeats its predecessor, the body is exactly the frames' value bytes |
| EnvelopeRle.WrapEmptiesCode | FamiStudio/Source/IO/FamitoneMusicFile.cs:98-162 | 254 frames alternating 0 and 1 give a 256-byte code, and the source returns an empty array for it |
| EnvelopeRle.BiasedByte | FamiStudio/Source/IO/FamitoneMusicFile.cs:113-120 | the byte arithmetic `(byte)v + 192` on a clamped value is exactly the value plus 192 |
| EnvelopeRle.ValueByte | FamiStudio/Source/IO/FamitoneMusicFile.cs:113-120 | the clamp and byte bias of one frame give its value byte |
| EnvelopeRle.FlushRun | FamiStudio/Source/IO/FamitoneMusicFile.cs:124-141 | writes the pending run's bytes into the buffer at the cursor and advances the cursor by their number |
| EnvelopeRle.FillBody | FamiStudio/Source/IO/FamitoneMusicFile.cs:105-149 | the frame loop leaves exactly the body in the buffer, and the loop cursor recorded at the loop frame (0xff when there is none) |
| EnvelopeRle.CursorAdjusts | FamiStudio/Source/IO/FamitoneMusicFile.cs:151-155 | the end-of-loop adjustment of the recorded cursor gives the loop pointer, as written or corrected |
| EnvelopeRle.ProcessEnvelope | FamiStudio/Source/IO/FamitoneMusicFile.cs:93-163 | the buffer-filling procedure returns EncodeEnvelope's result, or the corrected one when asked |
| PatternCode.InstrumentOpcode | FamiStudio/Source/IO/FamitoneMusicFile.cs:396-398 | an instrument change opcode has its top bit set |
| PatternCode.NoteOpcode | FamiStudio/Source/IO/FamitoneMusicFile.cs:422 | a note opcode of a note below 64 is below 128 |
| PatternCode.EmptyRunOpcode | FamiStudio/Source/IO/FamitoneMusicFile.cs:437 | an empty-run opcode of at most 60 rows lies in 0x81..0xf9 |
| PatternCode.InstrumentOpcodeEven | FamiStudio/Source/IO/FamitoneMusicFile.cs:396-398 | instrument opcodes are even and, for indices below 64, give back the index |
| PatternCode.NoteOpcodeFields | FamiStudio/Source/IO/FamitoneMusicFile.cs:422 | a note opcode holds the note value in its high bits and the skip-empty flag in its low bit |
| PatternCode.EmptyRunOpcodeFields | FamiStudio/Source/IO/FamitoneMusicFile.cs:437 | an empty-run opcode is odd and holds the number of extra empty rows |
| PatternCode.PatternNotes | FamiStudio/Source/IO/FamitoneMusicFile.cs:344 | a missing pattern instance reads as the empty pattern; every pattern has at least the song's pattern length of rows |
| PatternCode.SpeedAt | FamiStudio/Source/IO/FamitoneMusicFile.cs:377-385 | the speed effect of a row of the speed channel is -1 or a byte |
| PatternCode.EmptyRunFrom | FamiStudio/Source/IO/FamitoneMusicFile.cs:424-435 | the empty rows counted from row i: at most the cap, all unoccupied, and stopping only at the cap, the pattern's end or an occupied row |
| PatternCode.RowChunk | FamiStudio/Source/IO/FamitoneMusicFile.cs:373-438 | one opcode group consumes its row plus its extra rows and never passes the pattern's end |
| PatternCode.NoteRowLayout | FamiStudio/Source/IO/FamitoneMusicFile.cs:390-420 | after the speed pair, a note row's bytes start with an instrument opcode exactly when the note is not a stop and its instrument is not the tracked one, which then becomes tracked; the last byte is the note opcode, whose low bit is set exactly when the next row is in range and empty and the one after it in range and occupied, and the row then covers one extra row |
| PatternCode.EmptyRowLayout | FamiStudio/Source/IO/FamitoneMusicFile.cs:421-437 | after the speed pair, an empty row has no instrument opcode, keeps the tracked instrument and ends in one empty-run opcode for the unoccupied rows after it |
| PatternCode.EncodeRows | FamiStudio/Source/IO/FamitoneMusicFile.cs:371-439 | the number of opcodes (numValidNotes) is at most the rows encoded; no rows encode to nothing |
| PatternCode.RowsEncoder | FamiStudio/Source/IO/FamitoneMusicFile.cs:371-439 | on a well-formed pattern the encoder is EncodeRows from the first row |
| PatternCode.CountEmptyRows | FamiStudio/Source/IO/FamitoneMusicFile.cs:424-435 | the empty-run loop counts EmptyRunFrom's rows, capped at MaxRepeatCount |
| PatternCode.EncodeRow | FamiStudio/Source/IO/FamitoneMusicFile.cs:373-438 | one pass of the row loop emits RowChunk's bytes, row cursor and instrument |
| PatternCode.EncodeRowsUnfold | FamiStudio/Source/IO/FamitoneMusicFile.cs:371-439 | the encoding of rows from i is the chunk at i followed by the encoding from the chunk's end |
| PatternCode.EncodePattern | FamiStudio/Source/IO/FamitoneMusicFile.cs:359-439 | the row loop's buffer, final instrument and numValidNotes are those of EncodeRows |
| PatternDecode.ParseOpcode | FamiStudio/Source/IO/FamitoneMusicFile.cs:422-437 | reading a note or empty-run opcode always consumes bytes |
| PatternDecode.ParseGroup | FamiStudio/Source/IO/FamitoneMusicFile.cs:377-437 | reading an opcode group always consumes bytes |
| PatternDecode.ExpectedRows | FamiStudio/Source/IO/FamitoneMusicFile.cs:371-439 | the rows a reader should see: one per row, each with its speed effect, note and instrument in force |
| PatternDecode.ActiveStable | FamiStudio/Source/IO/FamitoneMusicFile.cs:392-399 | the instrument in force does not change across empty rows |
| PatternDecode.ChunkTracks | FamiStudio/Source/IO/FamitoneMusicFile.cs:392-399 | the instrument after a group is the instrument in force at the group's end |
| PatternDecode.NoteChunkParses | FamiStudio/Source/IO/FamitoneMusicFile.cs:373-422 | a note row's group (speed pair, instrument change, note opcode) reads back as its rows |
| PatternDecode.EmptyChunkParses | FamiStudio/Source/IO/FamitoneMusicFile.cs:424-437 | an empty run's group reads back as its rows |
| PatternDecode.ChunkParses | FamiStudio/Source/IO/FamitoneMusicFile.cs:373-438 | every group reads back as exactly the expected rows it encodes |
| PatternDecode.DecodeEncodeFrom | FamiStudio/Source/IO/FamitoneMusicFile.cs:371-439 | reading back the encoding from any row gives the expected rows from there, one group per opcode |
| PatternDecode.DecodeEncode | FamiStudio/Source/IO/FamitoneMusicFile.cs:371-439 | round trip: reading back an encoded pattern gives every row's speed, note and instrument, and numValidNotes groups |
| SongCode.FirstMatchFrom | FamiStudio/Source/IO/FamitoneMusicFile.cs:441-453 | the match found from j is -1 or an index of the table at or after j |
| SongCode.FirstMatch | FamiStudio/Source/IO/FamitoneMusicFile.cs:441-453 | the match found is -1 or an index of the table |
| SongCode.FirstMatchFromIsFirst | FamiStudio/Source/IO/FamitoneMusicFile.cs:441-453 | -1 exactly when no entry from j on equals the buffer; otherwise the first such entry |
| SongCode.FirstMatchIsFirst | FamiStudio/Source/IO/FamitoneMusicFile.cs:441-453 | -1 exactly when the buffer is not in the table; otherwise the first index holding it |
| SongCode.PatternLen | FamiStudio/Source/IO/FamitoneMusicFile.cs:360-370 | a pattern is encoded up to its skip row, or in full, never past the pattern length |
| SongCode.PatternContext | FamiStudio/Source/IO/FamitoneMusicFile.cs:344-370 | the pattern, length and speed-channel flag handed to the row encoder are well formed |
| SongCode.PatternStepDedup | FamiStudio/Source/IO/FamitoneMusicFile.cs:441-480 | a long buffer already in the table is emitted as a reference to its first copy, four bytes; otherwise a full table fails the song, else the buffer is added under the next reference label |
| SongCode.AppendDistinct | FamiStudio/Source/IO/FamitoneMusicFile.cs:455-462 | adding a buffer that dedup did not find keeps the table free of duplicate long buffers |
| SongCode.LoopLabelSize | FamiStudio/Source/IO/FamitoneMusicFile.cs:355-358 | the loop label adds no bytes |
| SongCode.RefInv | FamiStudio/Source/IO/FamitoneMusicFile.cs:471-480 | a reference keeps the output invariant: the size counts four more bytes, the table is unchanged |
| SongCode.NewInv | FamiStudio/Source/IO/FamitoneMusicFile.cs:455-469 | a new buffer keeps the output invariant: size counts its bytes, the table grows at the end by a distinct buffer, never past MaxPackedPatterns + 1 |
| SongCode.PatternStepInv | FamiStudio/Source/IO/FamitoneMusicFile.cs:342-480 | one pattern keeps the output invariant |
| SongCode.PatternsUpToInv | FamiStudio/Source/IO/FamitoneMusicFile.cs:342-481 | any number of patterns keep the output invariant (counted size equals assembled size, table only grows at the end and stays free of duplicates and bounded) |
| SongCode.ChannelOutputInv | FamiStudio/Source/IO/FamitoneMusicFile.cs:324-490 | a whole channel (label, speed pair, patterns, closing jump) keeps the output invariant |
| SongCode.ChannelsUpToInv | FamiStudio/Source/IO/FamitoneMusicFile.cs:324-491 | any number of channels keep the output invariant |
| SongCode.SongOutputInv | FamiStudio/Source/IO/FamitoneMusicFile.cs:318-498 | a song's output keeps the output invariant: its size is the assembled size of its lines, and the table only grows by new distinct buffers, to at most MaxPackedPatterns + 1 |
| SongCode.PatternsFailedStay | FamiStudio/Source/IO/FamitoneMusicFile.cs:457-458 | once the table overflows nothing more happens to the channel |
| SongCode.ChannelsFailedStay | FamiStudio/Source/IO/FamitoneMusicFile.cs:457-458 | once the table overflows no later channel adds anything |
| SplitSearch.SongCtxOf | FamiStudio/Source/IO/FamitoneMusicFile.cs:318-322 | the song context of a dry run or of the committed layout is well formed |
| SplitSearch.TrialSizes | FamiStudio/Source/IO/FamitoneMusicFile.cs:511-523 | the trial sizes of a song, one per speed channel and factor |
| SplitSearch.TrialSizesWithin | FamiStudio/Source/IO/FamitoneMusicFile.cs:509-513 | no trial is made for factor 0 or a factor above the pattern length |
| SplitSearch.Consider | FamiStudio/Source/IO/FamitoneMusicFile.cs:517-525 | a trial replaces the best choice only when it is strictly smaller; the result is at most both |
| SplitSearch.FactorsUpTo | FamiStudio/Source/IO/FamitoneMusicFile.cs:509-527 | the factor loop keeps a factor of at least 1 |
| SplitSearch.SpeedChannelsUpTo | FamiStudio/Source/IO/FamitoneMusicFile.cs:507-528 | the channel loop keeps a factor of at least 1 |
| SplitSearch.ChooseLayout | FamiStudio/Source/IO/FamitoneMusicFile.cs:500-529 | the chosen factor is at least 1 |
| SplitSearch.Committed | FamiStudio/Source/IO/FamitoneMusicFile.cs:531-532 | the committed song (split, or unsplit when Split fails) is well formed |
| SplitSearch.ConsiderInv | FamiStudio/Source/IO/FamitoneMusicFile.cs:517-525 | one trial keeps the search invariant: the best so far is the first minimum among trials before it |
| SplitSearch.FactorsUpToInv | FamiStudio/Source/IO/FamitoneMusicFile.cs:509-527 | the factor loop keeps the search invariant |
| SplitSearch.ChannelStepInv | FamiStudio/Source/IO/FamitoneMusicFile.cs:507-528 | one speed channel's factors keep the search invariant |
| SplitSearch.SpeedChannelsUpToInv | FamiStudio/Source/IO/FamitoneMusicFile.cs:507-528 | the channel loop keeps the search invariant |
| SplitSearch.ChooseLayoutIsFirstMinimum | FamiStudio/Source/IO/FamitoneMusicFile.cs:500-529 | the chosen layout is the initial choice when no trial is below 65536, else a trial of a candidate factor; no trial is smaller, and every trial before it in search order is strictly larger |
| InstrumentCode.Put | FamiStudio/Source/IO/FamitoneMusicFile.cs:186 | storing into the sorted list adds at most one entry |
| InstrumentCode.PutSpec | FamiStudio/Source/IO/FamitoneMusicFile.cs:186 | the sorted-list store keeps the list sorted, adds its key, holds the new entry, keeps all entries of other keys and adds nothing else |
| InstrumentCode.IndexOfKey | FamiStudio/Source/IO/FamitoneMusicFile.cs:199-201 | IndexOfKey returns -1 or an index of the list |
| InstrumentCode.IndexOfKeySpec | FamiStudio/Source/IO/FamitoneMusicFile.cs:199-201 | -1 exactly when the key is absent; otherwise the first index holding the key |
| InstrumentCode.EncodeAll | FamiStudio/Source/IO/FamitoneMusicFile.cs:174-190 | one encoded slot list per instrument, each with at least the three envelopes |
| InstrumentCode.EnvelopeStepInv | FamiStudio/Source/IO/FamitoneMusicFile.cs:178-189 | storing one envelope keeps the table sorted and keyed by checksum, and its key is then listed |
| InstrumentCode.SlotsUpToInv | FamiStudio/Source/IO/FamitoneMusicFile.cs:176-190 | after an instrument's envelopes the table is still sorted and keyed by checksum and lists every key the instrument uses |
| InstrumentCode.InitialTableInv | FamiStudio/Source/IO/FamitoneMusicFile.cs:170-172 | the table starts with the default envelope under its checksum |
| InstrumentCode.TableUpToInv | FamiStudio/Source/IO/FamitoneMusicFile.cs:168-190 | after any number of instruments the table lists the key of every envelope of every instrument |
| InstrumentCode.EnvelopeTableSpec | FamiStudio/Source/IO/FamitoneMusicFile.cs:168-201 | every envelope's key is found in the final table; with a collision-free checksum the entry holds that envelope's bytes |
| InstrumentCode.InstrumentEnvelopeListed | FamiStudio/Source/IO/FamitoneMusicFile.cs:168-201 | with a collision-free checksum an instrument's envelope index points at its encoding as ProcessEnvelope writes it, or at the default envelope when it is empty |
| InstrumentCode.DutyByte | FamiStudio/Source/IO/FamitoneMusicFile.cs:203 | the duty byte holds the duty cycle above bit 6 and 0x30 below |
| InstrumentCode.PitchAndLoop | FamiStudio/Source/IO/FamitoneMusicFile.cs:226 | the sample byte keeps the pitch bits and sets bit 6 when the sample loops |
| InstrumentCode.InstrumentLinesSize | FamiStudio/Source/IO/FamitoneMusicFile.cs:203-207 | an instrument record assembles to 8 bytes |
| InstrumentCode.InstrumentRecordsSize | FamiStudio/Source/IO/FamitoneMusicFile.cs:194-210 | i instrument records assemble to 8 * i bytes |
| InstrumentCode.SampleRecordsSize | FamiStudio/Source/IO/FamitoneMusicFile.cs:217-231 | the sample records from mapping 1 on assemble to 3 bytes each |
| InstrumentCode.EnvelopeRecordsSize | FamiStudio/Source/IO/FamitoneMusicFile.cs:237-243 | envelope records assemble to the total length of the envelopes |
| InstrumentCode.SampleSectionSize | FamiStudio/Source/IO/FamitoneMusicFile.cs:213-235 | the sample section is 3 bytes per mapping after the first when the project uses samples, else 0 |
| InstrumentCode.SectionAssembles | FamiStudio/Source/IO/FamitoneMusicFile.cs:165-254 | the instrument section assembles to the size OutputInstruments returns |
| HeaderCode.TruncDiv | FamiStudio/Source/IO/FamitoneMusicFile.cs:80-81 | division truncating toward zero, as C# divides |
| HeaderCode.TempoBounds | FamiStudio/Source/IO/FamitoneMusicFile.cs:80-81 | the PAL and NTSC tempos are the truncated quotients of 256 * tempo by 125 and 150; NTSC is at most PAL |
| HeaderCode.SongRecordsSize | FamiStudio/Source/IO/FamitoneMusicFile.cs:67-88 | n song records assemble to 14 * n bytes |
| HeaderCode.SongRecordAt | FamiStudio/Source/IO/FamitoneMusicFile.cs:67-86 | record i names song i's five channel addresses and its tempos |
| HeaderCode.HeaderAssembles | FamiStudio/Source/IO/FamitoneMusicFile.cs:56-91 | the header assembles to 5 + 14 * songs bytes, the size OutputHeader returns |
| FamitoneExport.DialectsDistinct | FamiStudio/Source/IO/FamitoneMusicFile.cs:537-560 | each output format has its own tokens, and a new exporter starts with CA65's |
| FamitoneExport.CleanInstrument | FamiStudio/Source/IO/FamitoneMusicFile.cs:36-54 | a missing or empty volume envelope becomes one frame at 15 with no loop; a non-empty one and every other envelope and field stay |
| FamitoneExport.CleanInstruments | FamiStudio/Source/IO/FamitoneMusicFile.cs:36-54 | cleaning keeps the number of instruments |
| FamitoneExport.CleanIdempotent | FamiStudio/Source/IO/FamitoneMusicFile.cs:36-54 | cleaning twice is cleaning once |
| FamitoneExport.DefaultVolumeEncoding | FamiStudio/Source/IO/FamitoneMusicFile.cs:47-52 | the default volume envelope encodes as cf 00 00 |
| FamitoneExport.CleanInstrumentOk | FamiStudio/Source/IO/FamitoneMusicFile.cs:36-54 | after cleaning every envelope of an instrument is present, as every later step needs |
| FamitoneExport.SlotKeys | FamiStudio/Source/IO/FamitoneMusicFile.cs:176-189 | one envelope key per slot of an instrument |
| FamitoneExport.AllKeys | FamiStudio/Source/IO/FamitoneMusicFile.cs:174-190 | one key list per instrument |
| FamitoneExport.SongLayouts | FamiStudio/Source/IO/FamitoneMusicFile.cs:500-535 | for a well-formed song the layout is that of ProcessAndOutputSong |
| FamitoneExport.TableStep | FamiStudio/Source/IO/FamitoneMusicFile.cs:494-497 | a song keeps the shared table's invariant, whether it commits its table or overflows |
| FamitoneExport.SongLayoutsKeepTable | FamiStudio/Source/IO/FamitoneMusicFile.cs:500-535 | every song's output, from any table, keeps the output invariant |
| FamitoneExport.SongsOutputInv | FamiStudio/Source/IO/FamitoneMusicFile.cs:590-593 | across songs the shared table keeps its earlier entries in place, stays free of duplicate long buffers and bounded by MaxPackedPatterns + 1 |
| FamitoneExport.ProjectTableOk | FamiStudio/Source/IO/FamitoneMusicFile.cs:590-593 | the same for all songs of a project, each written by ProcessAndOutputSong |
| FamitoneExport.CleanProject | FamiStudio/Source/IO/FamitoneMusicFile.cs:582-585 | cleaning changes only the instruments, not their number |
| FamitoneExport.CleanProjectOk | FamiStudio/Source/IO/FamitoneMusicFile.cs:582-585 | a cleaned project has every instrument envelope present |
| FamitoneExport.FamitoneMusicFile.constructor | FamiStudio/Source/IO/FamitoneMusicFile.cs:12-21 | a new exporter has no lines, an empty pattern table and the CA65 tokens |
| FamitoneExport.FamitoneMusicFile.SetupFormat | FamiStudio/Source/IO/FamitoneMusicFile.cs:537-560 | the tokens become those of the chosen format |
| FamitoneExport.FamitoneMusicFile.CleanupEnvelopes | FamiStudio/Source/IO/FamitoneMusicFile.cs:36-54 | the project's instruments become their cleaned forms and nothing else changes |
| FamitoneExport.FamitoneMusicFile.SongLine | FamiStudio/Source/IO/FamitoneMusicFile.cs:67-83 | the channel loop builds song i's header record |
| FamitoneExport.FamitoneMusicFile.OutputHeader | FamiStudio/Source/IO/FamitoneMusicFile.cs:56-91 | appends the header lines, and returns their assembled size, 5 + 14 * songs |
| FamitoneExport.FamitoneMusicFile.StoreEnvelope | FamiStudio/Source/IO/FamitoneMusicFile.cs:178-189 | one envelope is stored into the table and its key recorded |
| FamitoneExport.FamitoneMusicFile.CollectSlots | FamiStudio/Source/IO/FamitoneMusicFile.cs:176-190 | an instrument's envelopes are stored and their keys recorded, in order |
| FamitoneExport.FamitoneMusicFile.CollectEnvelopes | FamiStudio/Source/IO/FamitoneMusicFile.cs:168-190 | the unique-envelope table and the key of every instrument envelope |
| FamitoneExport.FamitoneMusicFile.InstrumentRecord | FamiStudio/Source/IO/FamitoneMusicFile.cs:197-207 | one instrument's duty line, envelope-address line and terminator |
| FamitoneExport.FamitoneMusicFile.InstrumentRecordLines | FamiStudio/Source/IO/FamitoneMusicFile.cs:194-210 | the instrument loop writes every record and counts 8 bytes per instrument |
| FamitoneExport.FamitoneMusicFile.SampleRecordLines | FamiStudio/Source/IO/FamitoneMusicFile.cs:213-235 | the sample loop writes the sample section and counts 3 bytes per record |
| FamitoneExport.FamitoneMusicFile.EnvelopeRecordLines | FamiStudio/Source/IO/FamitoneMusicFile.cs:237-243 | the envelope loop writes one labelled line per unique envelope and counts their bytes |
| FamitoneExport.FamitoneMusicFile.OutputInstruments | FamiStudio/Source/IO/FamitoneMusicFile.cs:165-254 | appends the instrument section, and returns its assembled size |
| FamitoneExport.FamitoneMusicFile.MatchingPattern | FamiStudio/Source/IO/FamitoneMusicFile.cs:441-453 | the dedup search finds the first table entry equal to the buffer |
| FamitoneExport.FamitoneMusicFile.StorePattern | FamiStudio/Source/IO/FamitoneMusicFile.cs:441-480 | a pattern buffer is emitted as a reference, added to the table, or fails the song, as StoreBuffer says |
| FamitoneExport.FamitoneMusicFile.OutputPattern | FamiStudio/Source/IO/FamitoneMusicFile.cs:355-480 | one pattern position (loop label, encoding, dedup) gives PatternStep's result |
| FamitoneExport.FamitoneMusicFile.OutputPatterns | FamiStudio/Source/IO/FamitoneMusicFile.cs:342-481 | the pattern loop, skipping split-off positions after a skip, gives PatternsUpTo's result |
| FamitoneExport.FamitoneMusicFile.OutputChannel | FamiStudio/Source/IO/FamitoneMusicFile.cs:326-490 | one channel's label, speed pair, patterns and closing jump give ChannelOutput's result |
| FamitoneExport.FamitoneMusicFile.OutputChannels | FamiStudio/Source/IO/FamitoneMusicFile.cs:324-491 | the channel loop gives SongOutput's result, stopping at the first overflow |
| FamitoneExport.FamitoneMusicFile.OutputSong | FamiStudio/Source/IO/FamitoneMusicFile.cs:318-498 | returns the song's size or -1 on overflow; a dry run changes nothing; otherwise the lines grow by the song's lines and the table becomes the song's table unless it overflowed |
| FamitoneExport.FamitoneMusicFile.RunTrial | FamiStudio/Source/IO/FamitoneMusicFile.cs:511-523 | a trial is made only for a candidate factor whose split succeeds, and changes nothing |
| FamitoneExport.FamitoneMusicFile.ConsiderTrial | FamiStudio/Source/IO/FamitoneMusicFile.cs:511-525 | one trial updates the best choice as Consider says, changing nothing else |
| FamitoneExport.FamitoneMusicFile.SearchFactors | FamiStudio/Source/IO/FamitoneMusicFile.cs:509-527 | the factor loop gives FactorsUpTo's choice, changing nothing else |
| FamitoneExport.FamitoneMusicFile.ProcessAndOutputSong | FamiStudio/Source/IO/FamitoneMusicFile.cs:500-535 | writes the song with the first minimum layout of the search and returns its size or -1 |
| FamitoneExport.FamitoneMusicFile.OutputSongs | FamiStudio/Source/IO/FamitoneMusicFile.cs:590-593 | every song written in turn, each from the table the ones before it left |
| FamitoneExport.FamitoneMusicFile.Prepare | FamiStudio/Source/IO/FamitoneMusicFile.cs:582-584 | the project becomes the cleaned selected project and the tokens those of the format |
| FamitoneExport.FamitoneMusicFile.OutputProject | FamiStudio/Source/IO/FamitoneMusicFile.cs:585-593 | the lines grow by header, instrument section and songs, in that order |
| FamitoneExport.FamitoneMusicFile.Save | FamiStudio/Source/IO/FamitoneMusicFile.cs:580-597 | the whole file: the cleaned project's header, instrument section and songs in that order, with the format's tokens; returns true |

## Left out

- OutputSamples and File.WriteAllLines: writing the .dmc sample file and the text file is I/O. Save leaves the lines in the `lines` field.
- SetupProject: Clone, DeleteSong and DeleteUnusedInstruments belong to the project classes, which are not part of this model. Save takes the selected, trimmed project as a parameter.
- CRC32.Compute, Song.Split, Utils.MakeNiceAsmName and Project.GetAddressForSample are calls into code that is not part of this model. They are parameters (`crc`, `split`, `niceName`) or a field of the sample record (its address).
- Text formatting (hex digits, separators, tabs, the instrument-name comment): lines are structured values, so byte-exact text is not modelled.
- EnvelopeRle.ProcessEnvelope: requires at most 253 frames, the most for which the byte cursor of the 256-byte buffer cannot wrap. From 254 frames on, a code of 256 bytes or more wraps the cursor and the returned array loses bytes (see Findings). EnvelopeRle.WrappedCode models that for up to 255 frames; the exporter model takes only envelopes of at most 253 frames.
- FamitoneExport.FamitoneMusicFile.CleanupEnvelopes: a volume envelope slot that is null gets a fresh `new Envelope()`, which is taken to be empty. It therefore ends as the one-frame default, like an empty envelope.
- FamitoneExport.FamitoneMusicFile.ProcessAndOutputSong: the committed song is the split song when Split succeeds and the unsplit song otherwise. The code ignores Split's result there, and what a failed Split leaves behind is not visible.
- FamitoneExport.FamitoneMusicFile.OutputSong: during a dry run the song's lines are built in a local sequence and then discarded. The code instead skips each line. The state after the call is the same.
- PatternDecode.DecodeEncode: an instrument missing from the project has index -1, and its opcode `(byte)(0x80 | (-1 << 1))` is 0xfe. The model computes the opcode the same way, and the reader reports it as the opcode in force rather than as an index. The round trip assumes note values below 64, the largest whose note opcode stays below 128. Note values are defined outside this file, so their range is not modelled.
- Concurrency, exceptions and the `// TODO: Error.` path beyond returning -1 are not modelled.

## Findings

| source | as written | input that shows it | evidently intended | confidence | as-written member | corrected member |
|---|---|---|---|---|---|---|
| FamiStudio/Source/IO/FamitoneMusicFile.cs:107-155 | The loop cursor is recorded before the pending run is flushed. After the loop it is moved one byte forward only if it lands on a count byte. A run of exactly one repeat is flushed as the previous value byte, and a run of more than 126 is flushed as several count bytes. In both cases the pointer lands before the loop frame's own value byte. | an envelope of frames 0, 0, 5 with loop 2 encodes as c0 c0 c5 00 01; replaying from byte 1 plays c0 c5, one frame early | the pointer indexes the loop frame's own value byte whenever that frame writes one, so replaying from it plays exactly the frames from the loop frame on | not executed | EnvelopeRle.LoopPointerEarly | EnvelopeRle.LoopReplay |
| FamiStudio/Source/IO/FamitoneMusicFile.cs:98-162 | The cursor `ptr` is a byte over a 256-byte buffer. A code of 256 bytes or more wraps it, so the last writes go round to the start of the buffer, and `Array.Resize(ref data, ptr)` keeps only the bytes written after the wrap. | 254 frames alternating 0 and 1 with no loop: the body is 254 bytes, the two trailer bytes end at cursor 0, and an empty array is returned | the whole code is returned: body, terminator and loop pointer, whose body expands back to the frames | not executed | EnvelopeRle.WrapEmptiesCode | EnvelopeRle.FullCode |
