/** The byte code of one pattern of one channel: per row an optional speed pair, an optional
    instrument change and one note or empty-run opcode. A decoder that reads the stream back
    into rows is the partner of the encoder. */
module PatternCode {
  import opened FamitoneData
  import opened SongQueries

  /** A run of empty rows is cut after this many extra rows. */
  const MaxRepeatCount := 60

  const SpeedOpcode: byte := 0xfb

  /** `(byte)(0x80 | (idx << 1))`; an instrument missing from the list has index -1. */
  function InstrumentOpcode(idx: int): (r: byte)
    ensures 0x80 <= r
  {
    0x80 + 2 * (idx % 64)
  }

  /** The position of an instrument in the project's list, -1 for none. */
  function IndexOf(instr: Option<nat>): int {
    if instr.Some? then instr.value else -1
  }

  /** `(byte)((value << 1) | flag)`. */
  function NoteOpcode(value: byte, flag: bool): (r: byte)
    ensures value < 64 ==> r < 128
  {
    (2 * value) % 256 + (if flag then 1 else 0)
  }

  /** `(byte)(0x81 | (n << 1))` for a run of n extra empty rows. */
  function EmptyRunOpcode(n: nat): (r: byte)
    requires n <= MaxRepeatCount
    ensures 0x81 <= r <= 0xf9
  {
    0x81 + 2 * n
  }

  /** The three opcode kinds are told apart by the high and the low bit: an instrument opcode
      is even and at least 0x80, an empty-run opcode odd and at least 0x81, a note opcode (for
      a value below 64) below 128; each gives back what it encodes. */
  lemma InstrumentOpcodeEven(idx: int)
    ensures InstrumentOpcode(idx) % 2 == 0
    ensures 0 <= idx < 64 ==> (InstrumentOpcode(idx) - 0x80) / 2 == idx
  {
  }

  lemma NoteOpcodeFields(value: byte, flag: bool)
    requires value < 64
    ensures NoteOpcode(value, flag) / 2 == value
    ensures NoteOpcode(value, flag) % 2 == 1 <==> flag
  {
  }

  lemma EmptyRunOpcodeFields(n: nat)
    requires n <= MaxRepeatCount
    ensures EmptyRunOpcode(n) % 2 == 1
    ensures (EmptyRunOpcode(n) - 0x81) / 2 == n
  {
  }

  /** The notes of the pattern at position `p` of channel `c`; an empty slot reads as the
      placeholder pattern, whose rows are all empty. */
  function PatternNotes(song: Song, c: nat, p: nat): (r: seq<Note>)
    requires song.Valid() && c < |song.channels| && p < song.length
    ensures |r| >= song.patternLength
  {
    if song.channels[c][p].Some? then song.channels[c][p].value.notes
    else Repeat(EmptyNote, song.patternLength)
  }

  /** What encoding one pattern depends on: the song (every channel's effects are consulted),
      the song position, the pattern's notes, whether this is the speed channel, and the number
      of rows encoded (the song's pattern length, or the row of the first skip). */
  datatype PatternCtx = PatternCtx(song: Song, p: nat, notes: seq<Note>, isSpeed: bool, len: nat)
  {
    predicate Valid() {
      song.Valid() && p < song.length && len <= song.patternLength && |notes| >= len
    }
  }

  /** The speed effect written before row `i`: on the speed channel the parameter of the first
      channel's speed effect there, else none (-1). */
  function SpeedAt(ctx: PatternCtx, i: nat): (r: int)
    requires ctx.Valid() && i < ctx.len
    ensures -1 <= r < 256
  {
    if ctx.isSpeed then FindEffect(ctx.song, ctx.p, i, Speed) else -1
  }

  /** A row counts as occupied when it holds a note or, on the speed channel, a speed effect. */
  predicate Occupied(ctx: PatternCtx, i: nat)
    requires ctx.Valid() && i < ctx.len
  {
    ctx.notes[i].isValid || SpeedAt(ctx, i) >= 0
  }

  function SpeedBytes(ctx: PatternCtx, i: nat): (r: seq<byte>)
    requires ctx.Valid() && i < ctx.len
  {
    if SpeedAt(ctx, i) >= 0 then [SpeedOpcode, SpeedAt(ctx, i) as byte] else []
  }

  /** The number of unoccupied rows from `i` on, at most `cap`. */
  function EmptyRunFrom(ctx: PatternCtx, i: nat, cap: nat): (r: nat)
    requires ctx.Valid() && i <= ctx.len
    ensures r <= cap && i + r <= ctx.len
    ensures forall k :: i <= k < i + r ==> !Occupied(ctx, k)
    ensures r == cap || i + r == ctx.len || Occupied(ctx, i + r)
    decreases cap
  {
    if cap == 0 || i == ctx.len || Occupied(ctx, i) then 0
    else 1 + EmptyRunFrom(ctx, i + 1, cap - 1)
  }

  /** What one turn of the row loop produces from row `i`: its bytes, the next row, the
      instrument tracked afterwards and the rows it covers beyond the first. */
  datatype Chunk = Chunk(bytes: seq<byte>, next: nat, instr: Option<nat>, extra: nat)

  /** The note-empty-note form: the row after a note is in range and empty, the one after that
      in range and occupied. */
  predicate SkipsEmptyRow(ctx: PatternCtx, i: nat)
    requires ctx.Valid() && i < ctx.len
  {
    i + 2 < ctx.len && !Occupied(ctx, i + 1) && Occupied(ctx, i + 2)
  }

  /** Whether the note of row `i` needs an instrument change before it. */
  predicate ChangesInstrument(note: Note, instr: Option<nat>) {
    note.isValid && !note.isStop && note.instrument != instr
  }

  function RowChunk(ctx: PatternCtx, i: nat, instr: Option<nat>): (r: Chunk)
    requires ctx.Valid() && i < ctx.len
    ensures i < r.next <= ctx.len && r.next == i + 1 + r.extra
  {
    var note := ctx.notes[i];
    if note.isValid then
      var change := ChangesInstrument(note, instr);
      var instrBytes := if change then [InstrumentOpcode(IndexOf(note.instrument))] else [];
      var flag := SkipsEmptyRow(ctx, i);
      Chunk(SpeedBytes(ctx, i) + instrBytes + [NoteOpcode(note.value, flag)],
            if flag then i + 2 else i + 1,
            if change then note.instrument else instr,
            if flag then 1 else 0)
    else
      var n := EmptyRunFrom(ctx, i + 1, MaxRepeatCount);
      Chunk(SpeedBytes(ctx, i) + [EmptyRunOpcode(n)], i + 1 + n, instr, n)
  }

  /** The layout of a note row's bytes after its speed pair. An instrument opcode comes first
      exactly when the note is not a stop and its instrument is not the tracked one, which it
      then becomes. The last byte is the note's opcode, with the low bit set exactly when the
      row takes the note-empty-note form and so also covers the next row. */
  lemma NoteRowLayout(ctx: PatternCtx, i: nat, instr: Option<nat>)
    requires ctx.Valid() && i < ctx.len && ctx.notes[i].isValid
    ensures var ch := RowChunk(ctx, i, instr);
      var s := SpeedBytes(ctx, i);
      var note := ctx.notes[i];
      var last := ch.bytes[|ch.bytes| - 1];
      && |s| < |ch.bytes| && ch.bytes[..|s|] == s
      && (|ch.bytes| == |s| + 2 <==> ChangesInstrument(note, instr))
      && (!ChangesInstrument(note, instr) <==> |ch.bytes| == |s| + 1)
      && (ChangesInstrument(note, instr) ==>
            ch.bytes[|s|] == InstrumentOpcode(IndexOf(note.instrument)) && ch.instr == note.instrument)
      && (!ChangesInstrument(note, instr) ==> ch.instr == instr)
      && (last % 2 == 1 <==> SkipsEmptyRow(ctx, i))
      && (ch.extra == 1 <==> SkipsEmptyRow(ctx, i)) && ch.extra <= 1
      && (note.value < 64 ==> last < 0x80 && last / 2 == note.value)
  {
    var ch := RowChunk(ctx, i, instr);
    var s := SpeedBytes(ctx, i);
    var note := ctx.notes[i];
    var flag := SkipsEmptyRow(ctx, i);
    var op := NoteOpcode(note.value, flag);
    if ChangesInstrument(note, instr) {
      assert ch.bytes == s + [InstrumentOpcode(IndexOf(note.instrument))] + [op];
    } else {
      assert ch.bytes == s + [op];
    }
    assert op % 2 == 1 <==> flag;
  }

  /** An empty row carries no instrument opcode and keeps the tracked instrument: after its
      speed pair comes one empty-run opcode, covering the unoccupied rows that follow it. */
  lemma EmptyRowLayout(ctx: PatternCtx, i: nat, instr: Option<nat>)
    requires ctx.Valid() && i < ctx.len && !ctx.notes[i].isValid
    ensures var ch := RowChunk(ctx, i, instr);
      var s := SpeedBytes(ctx, i);
      && |ch.bytes| == |s| + 1 && ch.bytes[..|s|] == s && ch.instr == instr
      && 0x81 <= ch.bytes[|s|] && ch.bytes[|s|] % 2 == 1
      && (ch.bytes[|s|] - 0x81) / 2 == ch.extra == EmptyRunFrom(ctx, i + 1, MaxRepeatCount)
  {
    var ch := RowChunk(ctx, i, instr);
    EmptyRunOpcodeFields(ch.extra);
    assert ch.bytes == SpeedBytes(ctx, i) + [EmptyRunOpcode(ch.extra)];
  }

  /** The encoding of rows `i` on: the bytes, the number of note and empty-run opcodes, and the
      instrument tracked at the end. */
  datatype Encoded = Encoded(bytes: seq<byte>, opcodes: nat, instr: Option<nat>)

  function EncodeRows(ctx: PatternCtx, i: nat, instr: Option<nat>): (r: Encoded)
    requires ctx.Valid() && i <= ctx.len
    ensures r.opcodes <= ctx.len - i
    ensures i == ctx.len ==> r == Encoded([], 0, instr)
    decreases ctx.len - i
  {
    if i == ctx.len then Encoded([], 0, instr)
    else
      var ch := RowChunk(ctx, i, instr);
      var rest := EncodeRows(ctx, ch.next, ch.instr);
      Encoded(ch.bytes + rest.bytes, 1 + rest.opcodes, rest.instr)
  }

  /** A pattern encoder: the encoding of a pattern from the instrument tracked before it. */
  type Encoder = (PatternCtx, Option<nat>) -> Encoded

  /** The row encoder as an Encoder: all rows of a well-formed pattern context. */
  function RowsEncoder(): (r: Encoder)
    ensures forall ctx: PatternCtx, instr: Option<nat> :: ctx.Valid() ==> r(ctx, instr) == EncodeRows(ctx, 0, instr)
  {
    (ctx: PatternCtx, instr: Option<nat>) => if ctx.Valid() then EncodeRows(ctx, 0, instr) else Encoded([], 0, instr)
  }

  // ----- the imperative encoder -----

  /** The inner loop over empty rows: counts the unoccupied rows from `i` on, at most 60. */
  method CountEmptyRows(ctx: PatternCtx, i: nat) returns (numEmptyNotes: nat)
    requires ctx.Valid() && i <= ctx.len
    ensures numEmptyNotes == EmptyRunFrom(ctx, i, MaxRepeatCount)
  {
    numEmptyNotes := 0;
    var j := i;
    while j < ctx.len
      invariant i <= j <= ctx.len && numEmptyNotes == j - i <= MaxRepeatCount
      invariant numEmptyNotes + EmptyRunFrom(ctx, j, MaxRepeatCount - numEmptyNotes)
        == EmptyRunFrom(ctx, i, MaxRepeatCount)
      decreases ctx.len - j
    {
      var emptyNote := ctx.notes[j];
      if numEmptyNotes >= MaxRepeatCount || emptyNote.isValid ||
         (ctx.isSpeed && FindEffect(ctx.song, ctx.p, j, Speed) >= 0) {
        break;
      }
      j := j + 1;
      numEmptyNotes := numEmptyNotes + 1;
    }
  }

  /** One turn of the row loop from row `i` with tracked instrument `instr`. */
  method EncodeRow(ctx: PatternCtx, i: nat, instr: Option<nat>)
    returns (bytes: seq<byte>, next: nat, instr': Option<nat>, extra: nat)
    requires ctx.Valid() && i < ctx.len
    ensures Chunk(bytes, next, instr', extra) == RowChunk(ctx, i, instr)
  {
    var note := ctx.notes[i];
    bytes := [];
    if ctx.isSpeed {
      var speed := FindEffect(ctx.song, ctx.p, i, Speed);
      if speed >= 0 {
        bytes := bytes + [SpeedOpcode, speed as byte];
      }
    }
    assert bytes == SpeedBytes(ctx, i);
    next := i + 1;
    instr' := instr;
    extra := 0;
    if note.isValid {
      if !note.isStop && note.instrument != instr {
        var idx := IndexOf(note.instrument);
        bytes := bytes + [InstrumentOpcode(idx)];
        instr' := note.instrument;
      }
      var flag := false;
      if next + 1 < ctx.len {
        var valid1 := ctx.notes[next].isValid || (ctx.isSpeed && FindEffect(ctx.song, ctx.p, next, Speed) >= 0);
        var valid2 := ctx.notes[next + 1].isValid || (ctx.isSpeed && FindEffect(ctx.song, ctx.p, next + 1, Speed) >= 0);
        if !valid1 && valid2 {
          next := next + 1;
          extra := 1;
          flag := true;
        }
      }
      assert flag == SkipsEmptyRow(ctx, i);
      bytes := bytes + [NoteOpcode(note.value, flag)];
    } else {
      var numEmptyNotes := CountEmptyRows(ctx, next);
      next := next + numEmptyNotes;
      extra := numEmptyNotes;
      bytes := bytes + [EmptyRunOpcode(numEmptyNotes)];
    }
  }

  /** The encoding from row `i` is the chunk at `i` followed by the encoding after it. */
  lemma EncodeRowsUnfold(ctx: PatternCtx, i: nat, instr: Option<nat>)
    requires ctx.Valid() && i < ctx.len
    ensures var ch := RowChunk(ctx, i, instr);
      var rest := EncodeRows(ctx, ch.next, ch.instr);
      EncodeRows(ctx, i, instr) == Encoded(ch.bytes + rest.bytes, 1 + rest.opcodes, rest.instr)
  {
  }

  /** The row loop of OutputSong for one pattern: returns the pattern buffer and
      `numValidNotes`, the pattern length less every row folded into a preceding opcode, which
      is the number of note and empty-run opcodes in the buffer. */
  method EncodePattern(ctx: PatternCtx, instr0: Option<nat>)
    returns (buffer: seq<byte>, numValidNotes: int, instr: Option<nat>)
    requires ctx.Valid()
    ensures buffer == EncodeRows(ctx, 0, instr0).bytes
    ensures instr == EncodeRows(ctx, 0, instr0).instr
    ensures numValidNotes == EncodeRows(ctx, 0, instr0).opcodes
  {
    ghost var total := EncodeRows(ctx, 0, instr0);
    buffer := [];
    numValidNotes := ctx.len;
    instr := instr0;
    var i := 0;
    while i < ctx.len
      invariant i <= ctx.len
      invariant buffer + EncodeRows(ctx, i, instr).bytes == total.bytes
      invariant EncodeRows(ctx, i, instr).instr == total.instr
      invariant numValidNotes + EncodeRows(ctx, i, instr).opcodes == total.opcodes + (ctx.len - i)
      decreases ctx.len - i
    {
      var bytes, next, instr', extra := EncodeRow(ctx, i, instr);
      EncodeRowsUnfold(ctx, i, instr);
      AppendAssoc(buffer, bytes, EncodeRows(ctx, next, instr').bytes);
      buffer := buffer + bytes;
      numValidNotes := numValidNotes - extra;
      i, instr := next, instr';
    }
  }
}
