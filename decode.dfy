/** A reader for the pattern byte code, the way the playback driver walks it: an optional
    speed pair, an optional instrument change, then one note opcode (a value below 128 whose
    low bit says that an empty row follows) or one empty-run opcode (odd, 0x81..0xf9). The
    round-trip lemma states that reading back an encoded pattern gives every row's speed
    effect, note and current instrument opcode. */
module PatternDecode {
  import opened FamitoneData
  import opened PatternCode

  /** One row as the reader sees it: the speed effect written before it (-1 for none), its
      note value (None for an empty row) and the instrument opcode in force. */
  datatype RowView = RowView(speed: int, note: Option<byte>, instrOp: byte)

  /** The rows one opcode group stands for, the bytes after it, and the instrument opcode in
      force afterwards. */
  datatype Group = Group(rows: seq<RowView>, rest: seq<byte>, op: byte)

  datatype Decoded = Decoded(rows: seq<RowView>, groups: nat)

  /** An optional leading speed pair: its parameter (or -1) and the bytes after it. */
  function ParseSpeed(bs: seq<byte>): (int, seq<byte>) {
    if |bs| >= 2 && bs[0] == SpeedOpcode then (bs[1], bs[2..]) else (-1, bs)
  }

  /** An optional instrument opcode (even, 0x80 or more): the opcode in force and the rest. */
  function ParseInstrument(bs: seq<byte>, op: byte): (byte, seq<byte>) {
    if |bs| >= 1 && bs[0] >= 0x80 && bs[0] % 2 == 0 then (bs[0], bs[1..]) else (op, bs)
  }

  /** The note or empty-run opcode that closes a group. */
  function ParseOpcode(bs: seq<byte>, speed: int, op: byte): (r: Option<Group>)
    ensures r.Some? ==> |r.value.rest| < |bs|
  {
    if |bs| == 0 then None
    else
      var b := bs[0];
      if b < 128 then
        Some(Group([RowView(speed, Some(b / 2), op)] + (if b % 2 == 1 then [RowView(-1, None, op)] else []),
                   bs[1..], op))
      else if b % 2 == 1 && b <= 0xf9 then
        Some(Group([RowView(speed, None, op)] + Repeat(RowView(-1, None, op), (b - 0x81) / 2), bs[1..], op))
      else None
  }

  function ParseGroup(bs: seq<byte>, op: byte): (r: Option<Group>)
    ensures r.Some? ==> |r.value.rest| < |bs|
  {
    var (speed, bs1) := ParseSpeed(bs);
    var (op1, bs2) := ParseInstrument(bs1, op);
    ParseOpcode(bs2, speed, op1)
  }

  /** Reads a whole pattern stream, starting with instrument opcode `op` in force. */
  function Decode(bs: seq<byte>, op: byte): Option<Decoded>
    decreases |bs|
  {
    if bs == [] then Some(Decoded([], 0))
    else
      match ParseGroup(bs, op)
      case None => None
      case Some(g) =>
        match Decode(g.rest, g.op)
        case None => None
        case Some(d) => Some(Decoded(g.rows + d.rows, 1 + d.groups))
  }

  // ----- what the reader should see -----

  /** The instrument the encoder tracks once the first `k` rows are encoded: that of the last
      valid, non-stop note among them, or the one tracked when the pattern began. */
  function ActiveBefore(ctx: PatternCtx, k: nat, instr0: Option<nat>): Option<nat>
    requires ctx.Valid() && k <= ctx.len
  {
    if k == 0 then instr0
    else
      var n := ctx.notes[k - 1];
      if n.isValid && !n.isStop then n.instrument else ActiveBefore(ctx, k - 1, instr0)
  }

  function OpOf(instr: Option<nat>): byte {
    InstrumentOpcode(IndexOf(instr))
  }

  function ExpectedRow(ctx: PatternCtx, r: nat, instr0: Option<nat>): RowView
    requires ctx.Valid() && r < ctx.len
  {
    RowView(SpeedAt(ctx, r), if ctx.notes[r].isValid then Some(ctx.notes[r].value) else None,
            OpOf(ActiveBefore(ctx, r + 1, instr0)))
  }

  /** The expected views of rows `i` to `j - 1`. */
  function ExpectedRows(ctx: PatternCtx, i: nat, j: nat, instr0: Option<nat>): (r: seq<RowView>)
    requires ctx.Valid() && i <= j <= ctx.len
    ensures |r| == j - i
    ensures forall k :: i <= k < j ==> r[k - i] == ExpectedRow(ctx, k, instr0)
  {
    seq(j - i, k requires 0 <= k < j - i => ExpectedRow(ctx, i + k, instr0))
  }

  /** Every note the pattern holds in its encoded rows has a value below 64, so that its opcode
      stays below 128. */
  ghost predicate NotesFit(ctx: PatternCtx)
    requires ctx.Valid()
  {
    forall k :: 0 <= k < ctx.len && ctx.notes[k].isValid ==> ctx.notes[k].value < 64
  }

  // ----- lemmas -----

  lemma ExpectedRowsSplit(ctx: PatternCtx, i: nat, j: nat, k: nat, instr0: Option<nat>)
    requires ctx.Valid() && i <= j <= k <= ctx.len
    ensures ExpectedRows(ctx, i, j, instr0) + ExpectedRows(ctx, j, k, instr0) == ExpectedRows(ctx, i, k, instr0)
  {
    var a, b, c := ExpectedRows(ctx, i, j, instr0), ExpectedRows(ctx, j, k, instr0), ExpectedRows(ctx, i, k, instr0);
    assert forall m :: 0 <= m < |c| ==> (a + b)[m] == c[m] by {
      forall m | 0 <= m < |c| ensures (a + b)[m] == c[m] {
        if m < |a| { assert (a + b)[m] == a[m]; } else { assert (a + b)[m] == b[m - |a|]; }
      }
    }
  }

  /** Empty rows leave the tracked instrument alone. */
  lemma {:induction false} ActiveStable(ctx: PatternCtx, a: nat, b: nat, instr0: Option<nat>)
    requires ctx.Valid() && a <= b <= ctx.len
    requires forall k :: a <= k < b ==> !ctx.notes[k].isValid
    ensures ActiveBefore(ctx, b, instr0) == ActiveBefore(ctx, a, instr0)
    decreases b
  {
    if a < b {
      ActiveStable(ctx, a, b - 1, instr0);
    }
  }

  /** The rows an empty-run opcode covers after its first are empty and carry no speed. */
  lemma EmptyRunRows(ctx: PatternCtx, i: nat)
    requires ctx.Valid() && i < ctx.len && !ctx.notes[i].isValid
    ensures var n := EmptyRunFrom(ctx, i + 1, MaxRepeatCount);
      forall k :: i <= k < i + 1 + n ==> !ctx.notes[k].isValid && (k > i ==> SpeedAt(ctx, k) == -1)
  {
    var n := EmptyRunFrom(ctx, i + 1, MaxRepeatCount);
    forall k | i < k < i + 1 + n ensures !ctx.notes[k].isValid && SpeedAt(ctx, k) == -1 {
      assert !Occupied(ctx, k);
    }
  }

  /** The encoder's tracked instrument is ActiveBefore. */
  lemma ChunkTracks(ctx: PatternCtx, i: nat, instr0: Option<nat>)
    requires ctx.Valid() && i < ctx.len
    ensures var ch := RowChunk(ctx, i, ActiveBefore(ctx, i, instr0));
      ch.instr == ActiveBefore(ctx, ch.next, instr0)
  {
    var ch := RowChunk(ctx, i, ActiveBefore(ctx, i, instr0));
    if ctx.notes[i].isValid {
      if SkipsEmptyRow(ctx, i) {
        ActiveStable(ctx, i + 1, i + 2, instr0);
      }
    } else {
      EmptyRunRows(ctx, i);
      ActiveStable(ctx, i, ch.next, instr0);
    }
  }

  /** The speed pair of row `i`, if any, is read back as that row's speed effect. */
  lemma SpeedParses(ctx: PatternCtx, i: nat, tail: seq<byte>)
    requires ctx.Valid() && i < ctx.len
    requires |tail| >= 1 && tail[0] != SpeedOpcode
    ensures ParseSpeed(SpeedBytes(ctx, i) + tail) == (SpeedAt(ctx, i), tail)
  {
    if SpeedAt(ctx, i) >= 0 {
      var bs := SpeedBytes(ctx, i) + tail;
      assert bs[2..] == tail;
    } else {
      assert SpeedBytes(ctx, i) + tail == tail;
    }
  }

  lemma NoteOpParses(v: byte, flag: bool, speed: int, op: byte, rest: seq<byte>)
    requires v < 64
    ensures ParseOpcode([NoteOpcode(v, flag)] + rest, speed, op) ==
      Some(Group([RowView(speed, Some(v), op)] + (if flag then [RowView(-1, None, op)] else []), rest, op))
  {
    var bs := [NoteOpcode(v, flag)] + rest;
    assert bs[0] == NoteOpcode(v, flag) && bs[1..] == rest;
    NoteOpcodeFields(v, flag);
  }

  /** An empty-run opcode for `n` rows reads as one row with the pending speed and `n` empty
      rows after it. */
  lemma RunOpcodeParses(bs: seq<byte>, n: nat, speed: int, op: byte)
    requires |bs| >= 1 && bs[0] == 0x81 + 2 * n <= 0xf9
    ensures ParseOpcode(bs, speed, op) ==
      Some(Group([RowView(speed, None, op)] + Repeat(RowView(-1, None, op), n), bs[1..], op))
  {
    assert (bs[0] - 0x81) / 2 == n;
  }

  lemma EmptyOpParses(n: nat, speed: int, op: byte, rest: seq<byte>)
    requires n <= MaxRepeatCount
    ensures ParseOpcode([EmptyRunOpcode(n)] + rest, speed, op) ==
      Some(Group([RowView(speed, None, op)] + Repeat(RowView(-1, None, op), n), rest, op))
  {
    var bs := [EmptyRunOpcode(n)] + rest;
    assert bs[0] == 0x81 + 2 * n && bs[1..] == rest;
    RunOpcodeParses(bs, n, speed, op);
  }

  /** A note row's bytes read as its speed, its instrument change and its note opcode. */
  lemma NoteBytesParse(ctx: PatternCtx, i: nat, instr0: Option<nat>, rest: seq<byte>)
    requires ctx.Valid() && i < ctx.len && ctx.notes[i].isValid && ctx.notes[i].value < 64
    ensures var instr := ActiveBefore(ctx, i, instr0);
      var ch := RowChunk(ctx, i, instr);
      var op := NoteOpcode(ctx.notes[i].value, SkipsEmptyRow(ctx, i));
      ParseGroup(ch.bytes + rest, OpOf(instr)) == ParseOpcode([op] + rest, SpeedAt(ctx, i), OpOf(ch.instr))
  {
    var instr := ActiveBefore(ctx, i, instr0);
    var ch := RowChunk(ctx, i, instr);
    var note := ctx.notes[i];
    var change := ChangesInstrument(note, instr);
    var instrBytes := if change then [InstrumentOpcode(IndexOf(note.instrument))] else [];
    var op := NoteOpcode(note.value, SkipsEmptyRow(ctx, i));
    var tail := instrBytes + [op] + rest;
    assert ch.bytes + rest == SpeedBytes(ctx, i) + tail;
    SpeedParses(ctx, i, tail);
    assert ParseInstrument(tail, OpOf(instr)) == (OpOf(ch.instr), [op] + rest) by {
      if change {
        assert tail[1..] == [op] + rest;
      } else {
        assert tail == [op] + rest;
      }
    }
  }

  /** The expected views of a note row and, in the note-empty-note form, of the empty row
      after it. */
  lemma NoteRowsExpected(ctx: PatternCtx, i: nat, instr0: Option<nat>)
    requires ctx.Valid() && i < ctx.len && ctx.notes[i].isValid
    ensures var ch := RowChunk(ctx, i, ActiveBefore(ctx, i, instr0));
      var op := OpOf(ch.instr);
      ExpectedRows(ctx, i, ch.next, instr0) ==
        [RowView(SpeedAt(ctx, i), Some(ctx.notes[i].value), op)] +
        (if SkipsEmptyRow(ctx, i) then [RowView(-1, None, op)] else [])
  {
    var ch := RowChunk(ctx, i, ActiveBefore(ctx, i, instr0));
    ChunkTracks(ctx, i, instr0);
    var rows := ExpectedRows(ctx, i, ch.next, instr0);
    var r0 := RowView(SpeedAt(ctx, i), Some(ctx.notes[i].value), OpOf(ch.instr));
    if SkipsEmptyRow(ctx, i) {
      ActiveStable(ctx, i + 1, i + 2, instr0);
      assert !Occupied(ctx, i + 1);
      assert rows == [r0] + [RowView(-1, None, OpOf(ch.instr))];
    } else {
      assert rows == [r0] + [];
    }
  }

  lemma NoteChunkParses(ctx: PatternCtx, i: nat, instr0: Option<nat>, rest: seq<byte>)
    requires ctx.Valid() && i < ctx.len && NotesFit(ctx) && ctx.notes[i].isValid
    ensures var instr := ActiveBefore(ctx, i, instr0);
      var ch := RowChunk(ctx, i, instr);
      ParseGroup(ch.bytes + rest, OpOf(instr)) ==
        Some(Group(ExpectedRows(ctx, i, ch.next, instr0), rest, OpOf(ch.instr)))
  {
    var ch := RowChunk(ctx, i, ActiveBefore(ctx, i, instr0));
    NoteBytesParse(ctx, i, instr0, rest);
    NoteRowsExpected(ctx, i, instr0);
    NoteOpParses(ctx.notes[i].value, SkipsEmptyRow(ctx, i), SpeedAt(ctx, i), OpOf(ch.instr), rest);
  }

  lemma EmptyChunkParses(ctx: PatternCtx, i: nat, instr0: Option<nat>, rest: seq<byte>)
    requires ctx.Valid() && i < ctx.len && !ctx.notes[i].isValid
    ensures var instr := ActiveBefore(ctx, i, instr0);
      var ch := RowChunk(ctx, i, instr);
      ParseGroup(ch.bytes + rest, OpOf(instr)) ==
        Some(Group(ExpectedRows(ctx, i, ch.next, instr0), rest, OpOf(ch.instr)))
  {
    var instr := ActiveBefore(ctx, i, instr0);
    var ch := RowChunk(ctx, i, instr);
    var n := EmptyRunFrom(ctx, i + 1, MaxRepeatCount);
    var tail := [EmptyRunOpcode(n)] + rest;
    assert ch.bytes + rest == SpeedBytes(ctx, i) + tail;
    SpeedParses(ctx, i, tail);
    assert ParseInstrument(tail, OpOf(instr)) == (OpOf(instr), tail);
    EmptyOpParses(n, SpeedAt(ctx, i), OpOf(instr), rest);
    EmptyRunRows(ctx, i);
    RunRowsExpected(ctx, i, n, instr0);
  }

  /** The expected views of an empty row and the `n` empty, speedless rows after it. */
  lemma RunRowsExpected(ctx: PatternCtx, i: nat, n: nat, instr0: Option<nat>)
    requires ctx.Valid() && i + 1 + n <= ctx.len
    requires forall k :: i <= k < i + 1 + n ==> !ctx.notes[k].isValid && (k > i ==> SpeedAt(ctx, k) == -1)
    ensures var op := OpOf(ActiveBefore(ctx, i, instr0));
      ExpectedRows(ctx, i, i + 1 + n, instr0) ==
        [RowView(SpeedAt(ctx, i), None, op)] + Repeat(RowView(-1, None, op), n)
  {
    var op := OpOf(ActiveBefore(ctx, i, instr0));
    var rows := ExpectedRows(ctx, i, i + 1 + n, instr0);
    var want := [RowView(SpeedAt(ctx, i), None, op)] + Repeat(RowView(-1, None, op), n);
    forall k | 0 <= k <= n ensures rows[k] == want[k] {
      ActiveStable(ctx, i, i + k + 1, instr0);
    }
  }

  lemma DecodeCons(bs: seq<byte>, op: byte, g: Group, d: Decoded)
    requires bs != [] && ParseGroup(bs, op) == Some(g) && Decode(g.rest, g.op) == Some(d)
    ensures Decode(bs, op) == Some(Decoded(g.rows + d.rows, 1 + d.groups))
  {
  }

  /** The bytes of the chunk at row `i`, followed by anything, read as one group holding the
      expected views of the chunk's rows, with the instrument tracked after it in force. */
  lemma ChunkParses(ctx: PatternCtx, i: nat, instr0: Option<nat>, rest: seq<byte>)
    requires ctx.Valid() && i < ctx.len && NotesFit(ctx)
    ensures var instr := ActiveBefore(ctx, i, instr0);
      var ch := RowChunk(ctx, i, instr);
      && ch.instr == ActiveBefore(ctx, ch.next, instr0)
      && ch.bytes + rest != []
      && ParseGroup(ch.bytes + rest, OpOf(instr)) ==
           Some(Group(ExpectedRows(ctx, i, ch.next, instr0), rest, OpOf(ch.instr)))
  {
    if ctx.notes[i].isValid {
      NoteChunkParses(ctx, i, instr0, rest);
    } else {
      EmptyChunkParses(ctx, i, instr0, rest);
    }
    ChunkTracks(ctx, i, instr0);
    var ch := RowChunk(ctx, i, ActiveBefore(ctx, i, instr0));
    assert |ch.bytes + rest| >= 1;
  }

  /** What the round trip states for the rows from `i` on. */
  ghost predicate RoundTripFrom(ctx: PatternCtx, i: nat, instr0: Option<nat>)
    requires ctx.Valid() && i <= ctx.len
  {
    var instr := ActiveBefore(ctx, i, instr0);
    var e := EncodeRows(ctx, i, instr);
    Decode(e.bytes, OpOf(instr)) == Some(Decoded(ExpectedRows(ctx, i, ctx.len, instr0), e.opcodes))
  }

  /** The round trip from the row after the chunk at `i` extends to `i`. */
  lemma RoundTripStep(ctx: PatternCtx, i: nat, instr0: Option<nat>)
    requires ctx.Valid() && i < ctx.len && NotesFit(ctx)
    requires RoundTripFrom(ctx, RowChunk(ctx, i, ActiveBefore(ctx, i, instr0)).next, instr0)
    ensures RoundTripFrom(ctx, i, instr0)
  {
    var instr := ActiveBefore(ctx, i, instr0);
    var ch := RowChunk(ctx, i, instr);
    var rest := EncodeRows(ctx, ch.next, ch.instr);
    var g := Group(ExpectedRows(ctx, i, ch.next, instr0), rest.bytes, OpOf(ch.instr));
    var d := Decoded(ExpectedRows(ctx, ch.next, ctx.len, instr0), rest.opcodes);
    ChunkParses(ctx, i, instr0, rest.bytes);
    assert EncodeRows(ctx, i, instr) == Encoded(ch.bytes + rest.bytes, 1 + rest.opcodes, rest.instr);
    DecodeCons(ch.bytes + rest.bytes, OpOf(instr), g, d);
    ExpectedRowsSplit(ctx, i, ch.next, ctx.len, instr0);
  }

  /** Round trip: reading back the encoding of rows `i` on, with the instrument tracked at row
      `i` in force, gives the expected view of every row and one group per opcode. */
  lemma {:induction false} DecodeEncodeFrom(ctx: PatternCtx, i: nat, instr0: Option<nat>)
    requires ctx.Valid() && i <= ctx.len && NotesFit(ctx)
    ensures RoundTripFrom(ctx, i, instr0)
    decreases ctx.len - i
  {
    if i < ctx.len {
      DecodeEncodeFrom(ctx, RowChunk(ctx, i, ActiveBefore(ctx, i, instr0)).next, instr0);
      RoundTripStep(ctx, i, instr0);
    } else {
      assert ExpectedRows(ctx, i, ctx.len, instr0) == [];
    }
  }

  /** The encoding of a whole pattern reads back as its rows; the group count is the
      `numValidNotes` the encoder returns. */
  lemma DecodeEncode(ctx: PatternCtx, instr0: Option<nat>)
    requires ctx.Valid() && NotesFit(ctx)
    ensures var e := EncodeRows(ctx, 0, instr0);
      Decode(e.bytes, OpOf(instr0)) == Some(Decoded(ExpectedRows(ctx, 0, ctx.len, instr0), e.opcodes))
  {
    DecodeEncodeFrom(ctx, 0, instr0);
  }
}
