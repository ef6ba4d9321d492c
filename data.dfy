/** The song model the FamiTone2 exporter reads, and the structured output lines it writes.
    Projects, songs, patterns and notes are read-only values here; the exporter's own mutable
    state lives in the class of module FamitoneExport. */
module FamitoneData {

  /** An unsigned 8-bit value (C# `byte`). */
  type byte = x: int | 0 <= x < 256

  /** A signed 8-bit value (C# `sbyte`), the type of envelope values. */
  type int8 = x: int | -128 <= x < 128

  datatype Option<+T> = None | Some(value: T)

  /** The effects the exporter looks at. */
  datatype Effect = NoEffect | Jump | Skip | Speed

  /** One row of a pattern. `instrument` is the instrument's position in the project's
      instrument list (what `Project.Instruments.IndexOf` returns), None for no instrument. */
  datatype Note = Note(isValid: bool, isStop: bool, value: byte, instrument: Option<nat>,
                       effect: Effect, effectParam: byte)

  /** The notes of the placeholder pattern the exporter uses for an empty pattern slot. */
  const EmptyNote := Note(false, false, 0, None, NoEffect, 0)

  datatype Pattern = Pattern(notes: seq<Note>)

  /** A song: `channels[c][p]` is the pattern instance of channel c at song position p. */
  datatype Song = Song(name: string, tempo: int, speed: int, patternLength: nat, length: nat,
                       channels: seq<seq<Option<Pattern>>>)
  {
    /** Every position the exporter visits exists: each channel has `length` pattern slots and
        every pattern holds at least `patternLength` notes. */
    predicate Valid() {
      && (forall c :: 0 <= c < |channels| ==> |channels[c]| >= length)
      && (forall c, p :: 0 <= c < |channels| && 0 <= p < |channels[c]| && channels[c][p].Some? ==>
            |channels[c][p].value.notes| >= patternLength)
    }
  }

  /** An envelope: its `values` are the first `Length` entries of the source's value array. */
  datatype Envelope = Envelope(values: seq<int8>, loop: int)

  const VolumeEnvelope := 0
  const ArpeggioEnvelope := 1
  const PitchEnvelope := 2

  datatype Instrument = Instrument(name: string, dutyCycle: nat, envelopes: seq<Option<Envelope>>)

  /** A DPCM sample; `address` is what `Project.GetAddressForSample` gives for it. */
  datatype DpcmSample = DpcmSample(name: string, address: nat, dataLength: nat)

  datatype SampleMapping = SampleMapping(sample: Option<DpcmSample>, pitch: byte, loop: bool)

  datatype Project = Project(name: string, songs: seq<Song>, instruments: seq<Instrument>,
                             usesSamples: bool, samplesMapping: seq<Option<SampleMapping>>)

  /** The labels the exporter defines and references. */
  datatype Symbol =
    | MusicData(name: string)
    | Instruments
    | Samples
    | Env(envIndex: int)             // an index of -1 would name no label
    | SongChannel(song: nat, channel: nat)
    | SongChannelLoop(song: nat, channel: nat)
    | Ref(index: nat)

  datatype Operand =
    | Num(n: int)                          // a number
    | Addr(sym: Symbol)                    // the address of a label
    | AddrMinus(sym: Symbol, offset: nat)  // a label's address minus a constant
    | DpcmLow(sampleOffset: int)           // offset + low byte of FT_DPCM_PTR

  /** One output line: a byte directive (db) or a word directive (dw) over its operands,
      a label definition, a comment or an empty line. */
  datatype Line = Comment(text: string) | Blank | LabelDef(sym: Symbol) | Db(items: seq<Operand>) | Dw(items: seq<Operand>)

  /** Bytes one line assembles to. */
  function LineSize(l: Line): nat {
    match l
    case Db(items) => |items|
    case Dw(items) => 2 * |items|
    case _ => 0
  }

  /** Bytes a sequence of lines assembles to. */
  function AssembledSize(ls: seq<Line>): nat {
    if ls == [] then 0 else AssembledSize(ls[..|ls| - 1]) + LineSize(ls[|ls| - 1])
  }

  lemma {:induction false} AssembledSizeAppend(a: seq<Line>, b: seq<Line>)
    ensures AssembledSize(a + b) == AssembledSize(a) + AssembledSize(b)
    decreases |b|
  {
    if b == [] {
      assert a + b == a;
    } else {
      var b' := b[..|b| - 1];
      assert (a + b)[..|a + b| - 1] == a + b';
      AssembledSizeAppend(a, b');
    }
  }

  lemma SizeOfOne(a: Line)
    ensures AssembledSize([a]) == LineSize(a)
  {
    assert [a][..0] == [];
  }

  lemma SizeOfTwo(a: Line, b: Line)
    ensures AssembledSize([a, b]) == LineSize(a) + LineSize(b)
  {
    assert [a, b][..1] == [a];
    SizeOfOne(a);
  }

  lemma SizeOfThree(a: Line, b: Line, c: Line)
    ensures AssembledSize([a, b, c]) == LineSize(a) + LineSize(b) + LineSize(c)
  {
    assert [a, b, c][..2] == [a, b];
    SizeOfTwo(a, b);
  }

  /** Concatenation regroups freely. */
  lemma AppendAssoc<T>(a: seq<T>, b: seq<T>, c: seq<T>)
    ensures (a + b) + c == a + (b + c)
  {
  }

  /** Numeric operands of a byte list. */
  function Nums(bs: seq<int>): (r: seq<Operand>)
    ensures |r| == |bs|
    ensures forall k :: 0 <= k < |bs| ==> r[k] == Num(bs[k])
  {
    seq(|bs|, k requires 0 <= k < |bs| => Num(bs[k]))
  }

  /** `n` copies of `x`. */
  function Repeat<T>(x: T, n: nat): (r: seq<T>)
    ensures |r| == n
    ensures forall k :: 0 <= k < n ==> r[k] == x
  {
    if n == 0 then [] else Repeat(x, n - 1) + [x]
  }
}
