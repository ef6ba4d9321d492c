/** What OutputSong emits for one song, as specification functions: per channel a label, an
    optional speed line, per pattern either the pattern's bytes under a fresh `ref` label or a
    reference to an earlier identical buffer, then the jump back to the channel's loop label.
    The table of packed buffers is shared by all songs of a project. */
module SongCode {
  import opened FamitoneData
  import opened SongQueries
  import opened PatternCode

  const MaxSongs := (256 - 5) / 14
  const MaxPatterns := 128 * MaxSongs
  /** Once the table holds more than this many buffers, a further new buffer is an error. */
  const MaxPackedPatterns := 5 * MaxPatterns * MaxSongs

  /** Buffers longer than this are looked up in the table before being added. */
  const MinDedupLength := 4

  /** The parameters of one OutputSong call; `loopPoint` is FindLoopPoint of the song and
      `encode` the pattern encoder (RowsEncoder in the exporter; the layout below holds for
      any encoder). */
  datatype SongCtx = SongCtx(song: Song, songIdx: nat, speedChannel: int, factor: nat, loopPoint: nat,
                             encode: Encoder)
  {
    ghost predicate Valid() {
      song.Valid() && factor >= 1
    }
  }

  /** The running output: lines emitted, the packed-buffer table, the size counted, and
      whether the table overflowed. */
  datatype Emit = Emit(lines: seq<Line>, table: seq<seq<byte>>, size: int, failed: bool)

  /** The per-channel loop state: the skip flag, the instrument tracked, and the output. */
  datatype ChannelState = ChannelState(skipping: bool, instr: Option<nat>, em: Emit)

  // ----- the table lookup -----

  /** The first index from `j` on whose buffer equals `buffer`, or -1. */
  function FirstMatchFrom(table: seq<seq<byte>>, buffer: seq<byte>, j: nat): (r: int)
    requires j <= |table|
    ensures r == -1 || j <= r < |table|
    decreases |table| - j
  {
    if j == |table| then -1
    else if table[j] == buffer then j
    else FirstMatchFrom(table, buffer, j + 1)
  }

  /** The first index whose buffer equals `buffer`, or -1 when there is none. */
  function FirstMatch(table: seq<seq<byte>>, buffer: seq<byte>): (r: int)
    ensures -1 <= r < |table|
  {
    FirstMatchFrom(table, buffer, 0)
  }

  lemma {:induction false} FirstMatchFromIsFirst(table: seq<seq<byte>>, buffer: seq<byte>, j: nat)
    requires j <= |table|
    ensures var r := FirstMatchFrom(table, buffer, j);
      && (r == -1 <==> forall k :: j <= k < |table| ==> table[k] != buffer)
      && (r >= 0 ==> table[r] == buffer && forall k :: j <= k < r ==> table[k] != buffer)
    decreases |table| - j
  {
    if j < |table| && table[j] != buffer {
      FirstMatchFromIsFirst(table, buffer, j + 1);
    }
  }

  /** FirstMatch is -1 exactly when the buffer is not in the table, and otherwise the first
      index holding it. */
  lemma FirstMatchIsFirst(table: seq<seq<byte>>, buffer: seq<byte>)
    ensures var r := FirstMatch(table, buffer);
      && (r == -1 <==> buffer !in table)
      && (r >= 0 ==> table[r] == buffer && forall k :: 0 <= k < r ==> table[k] != buffer)
  {
    FirstMatchFromIsFirst(table, buffer, 0);
  }

  // ----- one pattern -----

  /** The rows encoded at position `p`: up to the first skip, else the whole pattern. */
  function PatternLen(song: Song, p: nat): (r: nat)
    requires song.Valid() && p < song.length
    ensures r <= song.patternLength
  {
    var s := FindSkip(song, p);
    if s >= 0 then s else song.patternLength
  }

  function PatternContext(sc: SongCtx, c: nat, p: nat): (r: PatternCtx)
    requires sc.Valid() && c < |sc.song.channels| && p < sc.song.length
    ensures r.Valid()
  {
    PatternCtx(sc.song, p, PatternNotes(sc.song, c, p), c == sc.speedChannel, PatternLen(sc.song, p))
  }

  /** Whether position `p` is passed over: a split sub-pattern after a skip. */
  predicate Skipped(sc: SongCtx, p: nat, skipping: bool)
    requires sc.Valid()
  {
    skipping && p % sc.factor != 0
  }

  /** The channel's loop label, written before the pattern at the loop point. The closing jump
      always names this label, so the output references an undefined label when the loop point
      is at or past the song's end, or at a position a skip leaves out. */
  function LoopLabel(sc: SongCtx, c: nat, p: nat): seq<Line> {
    if p == sc.loopPoint then [LabelDef(SongChannelLoop(sc.songIdx, c))] else []
  }

  /** The lines that reference the table entry `m` in place of a buffer of `numValidNotes`
      opcodes. */
  function RefLines(m: nat, numValidNotes: nat): seq<Line> {
    [Db([Num(0xff), Num(numValidNotes)]), Dw([Addr(Ref(m))])]
  }

  /** The lines that define a new table entry `k` holding `buffer`. */
  function NewLines(k: nat, buffer: seq<byte>): seq<Line> {
    [LabelDef(Ref(k)), Db(Nums(buffer))]
  }

  /** An encoded buffer written after `lines`: a reference to the first identical entry of the
      table when it is long enough to be looked up, else a new entry, unless the table is
      already past MaxPackedPatterns, which fails the song. */
  function StoreBuffer(lines: seq<Line>, table: seq<seq<byte>>, size: int, enc: Encoded): Emit {
    var m := if |enc.bytes| > MinDedupLength then FirstMatch(table, enc.bytes) else -1;
    if m < 0 then
      if |table| > MaxPackedPatterns then Emit(lines, table, size, true)
      else Emit(lines + NewLines(|table|, enc.bytes), table + [enc.bytes], size + |enc.bytes|, false)
    else Emit(lines + RefLines(m, enc.opcodes), table, size + 4, false)
  }

  /** One turn of OutputSong's pattern loop. */
  function PatternStep(sc: SongCtx, c: nat, p: nat, cs: ChannelState): ChannelState
    requires sc.Valid() && c < |sc.song.channels| && p < sc.song.length
  {
    if Skipped(sc, p, cs.skipping) then cs
    else
      var enc := sc.encode(PatternContext(sc, c, p), cs.instr);
      ChannelState(FindSkip(sc.song, p) >= 0, enc.instr,
                   StoreBuffer(cs.em.lines + LoopLabel(sc, c, p), cs.em.table, cs.em.size, enc))
  }

  /** The channel state after positions 0 to `p - 1`; an overflow stops the channel. */
  function PatternsUpTo(sc: SongCtx, c: nat, p: nat, cs0: ChannelState): ChannelState
    requires sc.Valid() && c < |sc.song.channels| && p <= sc.song.length
  {
    if p == 0 then cs0
    else
      var cs := PatternsUpTo(sc, c, p - 1, cs0);
      if cs.em.failed then cs else PatternStep(sc, c, p - 1, cs)
  }

  // ----- one channel, one song -----

  function ChannelOpen(sc: SongCtx, c: nat, em: Emit): Emit {
    var speed := if c == sc.speedChannel then [Db([Num(SpeedOpcode), Num(sc.song.speed)])] else [];
    Emit(em.lines + [Blank, LabelDef(SongChannel(sc.songIdx, c))] + speed, em.table,
         em.size + (if c == sc.speedChannel then 2 else 0), em.failed)
  }

  function ChannelClose(sc: SongCtx, c: nat, em: Emit): Emit {
    Emit(em.lines + [Db([Num(0xfd)]), Dw([Addr(SongChannelLoop(sc.songIdx, c))])], em.table, em.size + 3, em.failed)
  }

  /** The channel's patterns, from a fresh channel state over the opened output. */
  function ChannelPatterns(sc: SongCtx, c: nat, em: Emit): ChannelState
    requires sc.Valid() && c < |sc.song.channels|
  {
    PatternsUpTo(sc, c, sc.song.length, ChannelState(false, None, ChannelOpen(sc, c, em)))
  }

  function ChannelOutput(sc: SongCtx, c: nat, em: Emit): Emit
    requires sc.Valid() && c < |sc.song.channels|
  {
    var cs := ChannelPatterns(sc, c, em);
    if cs.em.failed then cs.em else ChannelClose(sc, c, cs.em)
  }

  /** The output after channels 0 to `c - 1`, starting from the table `table0`. */
  function ChannelsUpTo(sc: SongCtx, c: nat, table0: seq<seq<byte>>): Emit
    requires sc.Valid() && c <= |sc.song.channels|
  {
    if c == 0 then Emit([], table0, 0, false)
    else
      var em := ChannelsUpTo(sc, c - 1, table0);
      if em.failed then em else ChannelOutput(sc, c - 1, em)
  }

  function SongOutput(sc: SongCtx, table0: seq<seq<byte>>): Emit
    requires sc.Valid()
  {
    ChannelsUpTo(sc, |sc.song.channels|, table0)
  }

  /** OutputSong's result: -1 on overflow, else the size. */
  function SongResult(em: Emit): int {
    if em.failed then -1 else em.size
  }

  // ----- invariants of the output -----

  /** No long buffer in the table equals an earlier entry. */
  ghost predicate DistinctLong(table: seq<seq<byte>>) {
    forall i, j :: 0 <= i < j < |table| && |table[j]| > MinDedupLength ==> table[i] != table[j]
  }

  /** What every output reachable from the table `table0` satisfies: the counted size is the
      assembled size of the lines, the table only grows at the end, by new distinct long
      buffers, and never past one more than MaxPackedPatterns. */
  ghost predicate EmitInv(table0: seq<seq<byte>>, em: Emit) {
    && em.size == AssembledSize(em.lines)
    && table0 <= em.table
    && (DistinctLong(table0) ==> DistinctLong(em.table))
    && (|table0| <= MaxPackedPatterns + 1 ==> |em.table| <= MaxPackedPatterns + 1)
  }

  lemma AppendSize(lines: seq<Line>, extra: seq<Line>, size: int)
    requires size == AssembledSize(lines)
    ensures size + AssembledSize(extra) == AssembledSize(lines + extra)
  {
    AssembledSizeAppend(lines, extra);
  }

  /** A new long buffer that matches no entry keeps the long entries distinct. */
  lemma AppendDistinct(table: seq<seq<byte>>, buffer: seq<byte>)
    requires DistinctLong(table)
    requires |buffer| > MinDedupLength ==> buffer !in table
    ensures DistinctLong(table + [buffer])
  {
    var t := table + [buffer];
    forall i, j | 0 <= i < j < |t| && |t[j]| > MinDedupLength ensures t[i] != t[j] {
      if j == |table| {
        assert t[i] == table[i];
      } else {
        assert t[i] == table[i] && t[j] == table[j];
      }
    }
  }

  /** The lines before a pattern's output: a loop label assembles to nothing. */
  lemma LoopLabelSize(sc: SongCtx, c: nat, p: nat, em: Emit)
    requires em.size == AssembledSize(em.lines)
    ensures AssembledSize(em.lines + LoopLabel(sc, c, p)) == em.size
  {
    var loop := LoopLabel(sc, c, p);
    AssembledSizeAppend(em.lines, loop);
    if loop != [] { SizeOfOne(loop[0]); }
  }

  lemma RefInv(table0: seq<seq<byte>>, em: Emit, base: seq<Line>, m: nat, nv: nat)
    requires EmitInv(table0, em) && AssembledSize(base) == em.size
    ensures EmitInv(table0, Emit(base + RefLines(m, nv), em.table, em.size + 4, false))
  {
    var rl := RefLines(m, nv);
    AssembledSizeAppend(base, rl);
    SizeOfTwo(rl[0], rl[1]);
  }

  lemma NewInv(table0: seq<seq<byte>>, em: Emit, base: seq<Line>, buffer: seq<byte>)
    requires EmitInv(table0, em) && AssembledSize(base) == em.size
    requires |em.table| <= MaxPackedPatterns
    requires |buffer| > MinDedupLength ==> buffer !in em.table
    ensures EmitInv(table0, Emit(base + NewLines(|em.table|, buffer), em.table + [buffer], em.size + |buffer|, false))
  {
    var nl := NewLines(|em.table|, buffer);
    AssembledSizeAppend(base, nl);
    SizeOfTwo(nl[0], nl[1]);
    if DistinctLong(table0) {
      AppendDistinct(em.table, buffer);
    }
    assert table0 <= em.table + [buffer];
  }

  lemma PatternStepInv(sc: SongCtx, c: nat, p: nat, table0: seq<seq<byte>>, cs: ChannelState)
    requires sc.Valid() && c < |sc.song.channels| && p < sc.song.length
    requires EmitInv(table0, cs.em)
    ensures EmitInv(table0, PatternStep(sc, c, p, cs).em)
  {
    if !Skipped(sc, p, cs.skipping) {
      var enc := sc.encode(PatternContext(sc, c, p), cs.instr);
      var base := cs.em.lines + LoopLabel(sc, c, p);
      LoopLabelSize(sc, c, p, cs.em);
      PatternStepDedup(sc, c, p, cs);
      if |enc.bytes| > MinDedupLength && enc.bytes in cs.em.table {
        var m :| 0 <= m < |cs.em.table| && PatternStep(sc, c, p, cs).em ==
          Emit(base + RefLines(m, enc.opcodes), cs.em.table, cs.em.size + 4, false);
        RefInv(table0, cs.em, base, m, enc.opcodes);
      } else if |cs.em.table| <= MaxPackedPatterns {
        NewInv(table0, cs.em, base, enc.bytes);
      }
    }
  }

  /** The invariant carries over one more position of the fold. */
  lemma PatternsStepInv(sc: SongCtx, c: nat, p: nat, table0: seq<seq<byte>>, cs0: ChannelState)
    requires sc.Valid() && c < |sc.song.channels| && p < sc.song.length
    requires EmitInv(table0, PatternsUpTo(sc, c, p, cs0).em)
    ensures EmitInv(table0, PatternsUpTo(sc, c, p + 1, cs0).em)
  {
    var cs := PatternsUpTo(sc, c, p, cs0);
    if !cs.em.failed {
      PatternStepInv(sc, c, p, table0, cs);
    }
  }

  lemma {:induction false} PatternsUpToInv(sc: SongCtx, c: nat, p: nat, table0: seq<seq<byte>>, cs0: ChannelState)
    requires sc.Valid() && c < |sc.song.channels| && p <= sc.song.length
    requires EmitInv(table0, cs0.em)
    ensures EmitInv(table0, PatternsUpTo(sc, c, p, cs0).em)
    decreases p
  {
    if p > 0 {
      PatternsUpToInv(sc, c, p - 1, table0, cs0);
      PatternsStepInv(sc, c, p - 1, table0, cs0);
    }
  }

  lemma ChannelOutputInv(sc: SongCtx, c: nat, table0: seq<seq<byte>>, em: Emit)
    requires sc.Valid() && c < |sc.song.channels| && EmitInv(table0, em)
    ensures EmitInv(table0, ChannelOutput(sc, c, em))
  {
    var open := ChannelOpen(sc, c, em);
    var speed := if c == sc.speedChannel then [Db([Num(SpeedOpcode), Num(sc.song.speed)])] else [];
    var head := [Blank, LabelDef(SongChannel(sc.songIdx, c))] + speed;
    assert open.lines == em.lines + head;
    AssembledSizeAppend(em.lines, head);
    if c == sc.speedChannel {
      SizeOfThree(Blank, LabelDef(SongChannel(sc.songIdx, c)), Db([Num(SpeedOpcode), Num(sc.song.speed)]));
      assert head == [Blank, LabelDef(SongChannel(sc.songIdx, c)), Db([Num(SpeedOpcode), Num(sc.song.speed)])];
    } else {
      SizeOfTwo(Blank, LabelDef(SongChannel(sc.songIdx, c)));
      assert head == [Blank, LabelDef(SongChannel(sc.songIdx, c))];
    }
    PatternsUpToInv(sc, c, sc.song.length, table0, ChannelState(false, None, open));
    var cs := ChannelPatterns(sc, c, em);
    if !cs.em.failed {
      var tail := [Db([Num(0xfd)]), Dw([Addr(SongChannelLoop(sc.songIdx, c))])];
      AssembledSizeAppend(cs.em.lines, tail);
      SizeOfTwo(tail[0], tail[1]);
    }
  }

  lemma {:induction false} ChannelsUpToInv(sc: SongCtx, c: nat, table0: seq<seq<byte>>)
    requires sc.Valid() && c <= |sc.song.channels|
    ensures EmitInv(table0, ChannelsUpTo(sc, c, table0))
    decreases c
  {
    if c > 0 {
      ChannelsUpToInv(sc, c - 1, table0);
      var em := ChannelsUpTo(sc, c - 1, table0);
      if !em.failed {
        ChannelOutputInv(sc, c - 1, table0, em);
      }
    }
  }

  /** The size OutputSong returns is what its lines assemble to; the shared table keeps every
      earlier entry in place, stays free of duplicate long buffers, and does not grow past
      MaxPackedPatterns + 1 entries. */
  lemma SongOutputInv(sc: SongCtx, table0: seq<seq<byte>>)
    requires sc.Valid()
    ensures EmitInv(table0, SongOutput(sc, table0))
  {
    ChannelsUpToInv(sc, |sc.song.channels|, table0);
  }

  /** Dedup in one pattern turn: a buffer of more than 4 bytes already in the table becomes a
      4-byte reference to its first occurrence and the table does not grow; any other buffer
      is appended under the label of its new index, unless the table is already past
      MaxPackedPatterns, which fails the song. */
  lemma PatternStepDedup(sc: SongCtx, c: nat, p: nat, cs: ChannelState)
    requires sc.Valid() && c < |sc.song.channels| && p < sc.song.length
    requires !Skipped(sc, p, cs.skipping)
    ensures var enc := sc.encode(PatternContext(sc, c, p), cs.instr);
      var r := PatternStep(sc, c, p, cs).em;
      var lines := cs.em.lines + LoopLabel(sc, c, p);
      if |enc.bytes| > MinDedupLength && enc.bytes in cs.em.table then
        exists m :: 0 <= m < |cs.em.table| && cs.em.table[m] == enc.bytes &&
          (forall k :: 0 <= k < m ==> cs.em.table[k] != enc.bytes) &&
          r == Emit(lines + RefLines(m, enc.opcodes), cs.em.table, cs.em.size + 4, false)
      else if |cs.em.table| > MaxPackedPatterns then
        r == Emit(lines, cs.em.table, cs.em.size, true)
      else
        r == Emit(lines + NewLines(|cs.em.table|, enc.bytes), cs.em.table + [enc.bytes],
                  cs.em.size + |enc.bytes|, false)
  {
    var enc := sc.encode(PatternContext(sc, c, p), cs.instr);
    FirstMatchIsFirst(cs.em.table, enc.bytes);
  }

  // ----- an overflow ends the song -----

  /** Once a channel has overflowed, no later position changes its state. */
  lemma {:induction false} PatternsFailedStay(sc: SongCtx, c: nat, p: nat, q: nat, cs0: ChannelState)
    requires sc.Valid() && c < |sc.song.channels| && p <= q <= sc.song.length
    requires PatternsUpTo(sc, c, p, cs0).em.failed
    ensures PatternsUpTo(sc, c, q, cs0) == PatternsUpTo(sc, c, p, cs0)
    decreases q
  {
    if q > p {
      PatternsFailedStay(sc, c, p, q - 1, cs0);
    }
  }

  /** Once a channel has overflowed, no later channel is written. */
  lemma {:induction false} ChannelsFailedStay(sc: SongCtx, c: nat, d: nat, table0: seq<seq<byte>>)
    requires sc.Valid() && c <= d <= |sc.song.channels|
    requires ChannelsUpTo(sc, c, table0).failed
    ensures ChannelsUpTo(sc, d, table0) == ChannelsUpTo(sc, c, table0)
    decreases d
  {
    if d > c {
      ChannelsFailedStay(sc, c, d - 1, table0);
    }
  }
}
