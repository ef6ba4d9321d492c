/** The exporter object: it holds the project being exported, the output lines, the tokens of
    the assembler dialect and the table of packed pattern buffers shared by all songs, and its
    methods append the header, the instrument section and the songs to the lines. */
module FamitoneExport {
  import opened FamitoneData
  import opened EnvelopeRle
  import opened SongQueries
  import opened PatternCode
  import opened SongCode
  import opened SplitSearch
  import opened InstrumentCode
  import opened HeaderCode

  // ----- the assembler dialect -----

  datatype OutputFormat = NESASM | CA65 | ASM6

  /** The byte-directive, word-directive, local-label-prefix and low-byte tokens. */
  datatype Dialect = Dialect(db: string, dw: string, ll: string, lo: string)

  /** The tokens a new exporter starts with, which are those of CA65. */
  const DefaultDialect := Dialect(".byte", ".word", "@", ".lobyte")

  function DialectOf(format: OutputFormat): Dialect {
    match format
    case NESASM => Dialect(".db", ".dw", ".", "LOW")
    case CA65 => Dialect(".byte", ".word", "@", ".lobyte")
    case ASM6 => Dialect("db", "dw", "@", "<")
  }

  /** Each format has its own byte-directive token, so no two formats share a dialect; a new
      exporter writes CA65 until a format is set. */
  lemma DialectsDistinct(f: OutputFormat, g: OutputFormat)
    ensures DialectOf(f) == DialectOf(g) <==> f == g
    ensures DialectOf(CA65) == DefaultDialect
  {
    if f != g {
      assert DialectOf(f).db != DialectOf(g).db;
    }
  }

  // ----- the volume-envelope cleanup -----

  /** The envelope a missing or empty volume envelope is replaced with: one frame at 15. */
  const DefaultVolume := Envelope([15], -1)

  /** An instrument as CleanupEnvelopes leaves it: with a non-empty volume envelope, which is
      the one it had when that was non-empty and otherwise the single frame 15 with no loop;
      no other envelope or field changes. */
  function CleanInstrument(ins: Instrument): (r: Instrument)
    requires |ins.envelopes| > VolumeEnvelope
    ensures r.name == ins.name && r.dutyCycle == ins.dutyCycle && |r.envelopes| == |ins.envelopes|
    ensures forall k :: 0 <= k < |ins.envelopes| && k != VolumeEnvelope ==> r.envelopes[k] == ins.envelopes[k]
    ensures r.envelopes[VolumeEnvelope].Some? && |r.envelopes[VolumeEnvelope].value.values| >= 1
    ensures var v := ins.envelopes[VolumeEnvelope];
      && (v.Some? && |v.value.values| > 0 ==> r == ins)
      && (v.None? || |v.value.values| == 0 ==> r.envelopes[VolumeEnvelope] == Some(DefaultVolume))
  {
    var env := ins.envelopes[VolumeEnvelope];
    if env.None? || |env.value.values| == 0 then
      ins.(envelopes := ins.envelopes[VolumeEnvelope := Some(DefaultVolume)])
    else ins
  }

  function CleanInstruments(instrs: seq<Instrument>): (r: seq<Instrument>)
    requires forall i :: 0 <= i < |instrs| ==> |instrs[i].envelopes| > VolumeEnvelope
    ensures |r| == |instrs|
  {
    seq(|instrs|, i requires 0 <= i < |instrs| => CleanInstrument(instrs[i]))
  }

  /** Cleaning twice is cleaning once. */
  lemma CleanIdempotent(ins: Instrument)
    requires |ins.envelopes| > VolumeEnvelope
    ensures CleanInstrument(CleanInstrument(ins)) == CleanInstrument(ins)
  {
  }

  /** The default volume envelope encodes to its value byte 15 + 192, the terminator and a loop
      pointer at that byte. */
  lemma DefaultVolumeEncoding()
    ensures EncodeEnvelope(DefaultVolume) == Some([0xcf, 0, 0])
  {
    var vals := DefaultVolume.values;
    assert RleUpTo(vals, 0) == RleState([], InitialPrev(15), 0);
    assert Body(vals) == [0xcf];
    assert Body(vals) + [0, 0] == [0xcf, 0, 0];
  }

  /** What the exporter needs of an instrument before the cleanup: volume, arpeggio and pitch
      slots, every envelope but the volume one present, and each present envelope short
      enough for the envelope encoder. */
  ghost predicate ExportableInstrument(ins: Instrument) {
    && |ins.envelopes| >= 3
    && forall k :: 0 <= k < |ins.envelopes| ==>
         (k != VolumeEnvelope ==> ins.envelopes[k].Some?) &&
         (ins.envelopes[k].Some? ==> |ins.envelopes[k].value.values| <= MaxEnvelopeLength)
  }

  /** The cleanup makes an exportable instrument one OutputInstruments can process. */
  lemma CleanInstrumentOk(ins: Instrument)
    requires ExportableInstrument(ins)
    ensures InstrumentOk(CleanInstrument(ins))
  {
    var r := CleanInstrument(ins);
    forall k | 0 <= k < |r.envelopes|
      ensures r.envelopes[k].Some? && |r.envelopes[k].value.values| <= MaxEnvelopeLength
    {
      if k != VolumeEnvelope {
        assert r.envelopes[k] == ins.envelopes[k];
      }
    }
  }

  // ----- the envelope keys of the instruments -----

  /** The keys slots 0 to `k - 1` of one instrument are recorded under. */
  function SlotKeys(crc: Checksum, slots: Slots, k: nat): (r: seq<int>)
    requires k <= |slots|
    ensures |r| == k
  {
    if k == 0 then [] else SlotKeys(crc, slots, k - 1) + [SlotKey(crc, slots[k - 1])]
  }

  /** `instrumentEnvelopes` after instruments 0 to `i - 1`: the keys of each one's slots. */
  function AllKeys(crc: Checksum, encs: seq<Slots>, i: nat): (r: seq<seq<int>>)
    requires i <= |encs|
    ensures |r| == i
  {
    if i == 0 then [] else AllKeys(crc, encs, i - 1) + [SlotKeys(crc, encs[i - 1], |encs[i - 1]|)]
  }

  /** Slot `j` is recorded under the checksum of the bytes it is listed under. */
  lemma {:induction false} SlotKeysAt(crc: Checksum, slots: Slots, k: nat, j: nat)
    requires j < k <= |slots|
    ensures |SlotKeys(crc, slots, k)| == k && SlotKeys(crc, slots, k)[j] == SlotKey(crc, slots[j])
    decreases k
  {
    if j < k - 1 {
      SlotKeysAt(crc, slots, k - 1, j);
    } else if k > 1 {
      SlotKeysAt(crc, slots, k - 1, 0);
    }
  }

  lemma {:induction false} AllKeysAt(crc: Checksum, encs: seq<Slots>, i: nat, n: nat)
    requires n < i <= |encs|
    ensures |AllKeys(crc, encs, i)| == i && AllKeys(crc, encs, i)[n] == SlotKeys(crc, encs[n], |encs[n]|)
    decreases i
  {
    if n < i - 1 {
      AllKeysAt(crc, encs, i - 1, n);
    } else if i > 1 {
      AllKeysAt(crc, encs, i - 1, 0);
    }
  }

  // ----- the songs of a project -----

  /** Every song is well formed and every split the splitter accepts for it is as well. */
  ghost predicate SongsOk(songs: seq<Song>, split: Splitter) {
    forall i :: 0 <= i < |songs| ==> songs[i].Valid() && SplitsValid(split, songs[i])
  }

  /** The lines written by the songs so far, and the shared table after them. */
  datatype Written = Written(lines: seq<Line>, table: seq<seq<byte>>)

  /** What writing song `i` emits from a given table. */
  type Layout = (Song, nat, seq<seq<byte>>) -> Emit

  /** ProcessAndOutputSong as a Layout, for the songs `split` is valid on. */
  ghost function SongLayouts(split: Splitter): (r: Layout)
    ensures forall song: Song, i: nat, table: seq<seq<byte>> :: song.Valid() && SplitsValid(split, song) ==>
      r(song, i, table) == SongLayoutOutput(song, i, split, table)
  {
    (song: Song, i: nat, table: seq<seq<byte>>) =>
      if song.Valid() && SplitsValid(split, song) then SongLayoutOutput(song, i, split, table)
      else Emit([], table, 0, false)
  }

  /** Songs 0 to `n - 1` written in turn, each from the table the songs before it left; a song
      that overflows leaves the table as it was. */
  function SongsOutput(songs: seq<Song>, layout: Layout, table0: seq<seq<byte>>, n: nat): Written
    requires n <= |songs|
  {
    if n == 0 then Written([], table0)
    else
      var w := SongsOutput(songs, layout, table0, n - 1);
      var em := layout(songs[n - 1], n - 1, w.table);
      Written(w.lines + em.lines, if em.failed then w.table else em.table)
  }

  lemma PrefixTrans<T>(a: seq<T>, b: seq<T>, c: seq<T>)
    requires a <= b && b <= c
    ensures a <= c
  {
    assert a == b[..|a|] && b == c[..|b|];
    assert c[..|b|][..|a|] == c[..|a|];
  }

  /** The shared table after some songs: every entry of the first table still in place, no
      two equal long buffers, at most MaxPackedPatterns + 1 entries. */
  ghost predicate TableOk(table0: seq<seq<byte>>, t: seq<seq<byte>>) {
    table0 <= t && DistinctLong(t) && |t| <= MaxPackedPatterns + 1
  }

  /** One song's output keeps what the table keeps across songs. */
  lemma TableStep(table0: seq<seq<byte>>, t: seq<seq<byte>>, em: Emit, t': seq<seq<byte>>)
    requires TableOk(table0, t)
    requires EmitInv(t, em) && t' == if em.failed then t else em.table
    ensures TableOk(table0, t')
  {
    if !em.failed {
      PrefixTrans(table0, t, em.table);
    }
  }

  /** Every song's layout, from any table, keeps the output invariant. */
  ghost predicate LayoutsKeepTable(songs: seq<Song>, layout: Layout) {
    forall i: nat, table: seq<seq<byte>> :: i < |songs| ==> EmitInv(table, layout(songs[i], i, table))
  }

  /** ProcessAndOutputSong keeps the output invariant for every song of a project. */
  lemma SongLayoutsKeepTable(songs: seq<Song>, split: Splitter)
    requires SongsOk(songs, split)
    ensures LayoutsKeepTable(songs, SongLayouts(split))
  {
    forall i: nat, table: seq<seq<byte>> | i < |songs|
      ensures EmitInv(table, SongLayouts(split)(songs[i], i, table))
    {
      var song := songs[i];
      assert song.Valid() && SplitsValid(split, song);
      var best := ChooseLayout(song, i, split, table);
      var sc := SongCtxOf(Committed(song, split, best.factor), i, best.channel, best.factor);
      SongOutputInv(sc, table);
    }
  }

  /** Across the songs the shared table keeps every earlier entry in place, stays free of
      duplicate long buffers and never grows past MaxPackedPatterns + 1 entries. */
  lemma {:induction false} SongsOutputInv(songs: seq<Song>, layout: Layout, table0: seq<seq<byte>>, n: nat)
    requires n <= |songs| && LayoutsKeepTable(songs, layout)
    requires DistinctLong(table0) && |table0| <= MaxPackedPatterns + 1
    ensures TableOk(table0, SongsOutput(songs, layout, table0, n).table)
    decreases n
  {
    if n > 0 {
      var w := SongsOutput(songs, layout, table0, n - 1);
      SongsOutputInv(songs, layout, table0, n - 1);
      var em := layout(songs[n - 1], n - 1, w.table);
      TableStep(table0, w.table, em, SongsOutput(songs, layout, table0, n).table);
    }
  }

  /** The project-level form: with ProcessAndOutputSong as the layout. */
  lemma ProjectTableOk(songs: seq<Song>, split: Splitter, table0: seq<seq<byte>>)
    requires SongsOk(songs, split) && DistinctLong(table0) && |table0| <= MaxPackedPatterns + 1
    ensures TableOk(table0, SongsOutput(songs, SongLayouts(split), table0, |songs|).table)
  {
    SongLayoutsKeepTable(songs, split);
    SongsOutputInv(songs, SongLayouts(split), table0, |songs|);
  }

  ghost predicate ExportableProject(p: Project) {
    forall i :: 0 <= i < |p.instruments| ==> ExportableInstrument(p.instruments[i])
  }

  /** The project as Save leaves it: every instrument cleaned. */
  function CleanProject(p: Project): (r: Project)
    requires ExportableProject(p)
    ensures r.songs == p.songs && r.name == p.name && |r.instruments| == |p.instruments|
  {
    p.(instruments := CleanInstruments(p.instruments))
  }

  /** Cleaning exportable instruments makes them all ones OutputInstruments can process. */
  lemma CleanProjectOk(p: Project)
    requires ExportableProject(p)
    ensures InstrumentsOk(CleanProject(p).instruments)
  {
    forall i | 0 <= i < |p.instruments| ensures InstrumentOk(CleanProject(p).instruments[i]) {
      CleanInstrumentOk(p.instruments[i]);
    }
  }

  // ----- the exporter -----

  /** The music-data label's name: that of the first song when songs are exported separately,
      the project's otherwise, made assembler-safe by `niceName`. */
  function HeaderName(p: Project, separateSongs: bool, niceName: string -> string): string
    requires separateSongs ==> |p.songs| > 0
  {
    niceName(if separateSongs then p.songs[0].name else p.name)
  }

  const EmptyProject := Project("", [], [], false, [])

  class FamitoneMusicFile {
    var project: Project
    var lines: seq<Line>
    var db: string
    var dw: string
    var ll: string
    var lo: string
    /** `globalPacketPatternBuffers`: the packed pattern buffers of the songs written so far. */
    var globalPatterns: seq<seq<byte>>

    function Tokens(): Dialect
      reads this`db, this`dw, this`ll, this`lo
    {
      Dialect(db, dw, ll, lo)
    }

    constructor ()
      ensures project == EmptyProject && lines == [] && globalPatterns == []
      ensures Tokens() == DefaultDialect
    {
      project := EmptyProject;
      lines := [];
      db, dw, ll, lo := ".byte", ".word", "@", ".lobyte";
      globalPatterns := [];
    }

    method SetupFormat(format: OutputFormat)
      modifies this`db, this`dw, this`ll, this`lo
      ensures Tokens() == DialectOf(format)
    {
      match format {
        case NESASM =>
          db, dw, ll, lo := ".db", ".dw", ".", "LOW";
        case CA65 =>
          db, dw, ll, lo := ".byte", ".word", "@", ".lobyte";
        case ASM6 =>
          db, dw, ll, lo := "db", "dw", "@", "<";
      }
    }

    /** Gives every instrument a non-empty volume envelope, in place. */
    method CleanupEnvelopes()
      requires forall i :: 0 <= i < |project.instruments| ==> |project.instruments[i].envelopes| > VolumeEnvelope
      modifies this`project
      ensures project == old(project).(instruments := CleanInstruments(old(project.instruments)))
    {
      ghost var instrs := project.instruments;
      var instruments := project.instruments;
      var i := 0;
      while i < |instruments|
        invariant i <= |instruments| == |instrs|
        invariant forall j :: 0 <= j < i ==> instruments[j] == CleanInstrument(instrs[j])
        invariant forall j :: i <= j < |instrs| ==> instruments[j] == instrs[j]
      {
        var instrument := instruments[i];
        var env := instrument.envelopes[VolumeEnvelope];
        if env.None? {
          env := Some(Envelope([], -1));
        }
        if |env.value.values| == 0 {
          env := Some(Envelope([15], -1));
        }
        instruments := instruments[i := instrument.(envelopes := instrument.envelopes[VolumeEnvelope := env])];
        i := i + 1;
      }
      assert instruments == CleanInstruments(instrs);
      project := project.(instruments := instruments);
    }

    /** The header record of song `i`: its five channel labels and its two tempo words. */
    method SongLine(i: nat, song: Song) returns (line: Line)
      ensures line == SongRecord(i, song)
    {
      var items: seq<Operand> := [];
      var chn := 0;
      while chn < 5
        invariant chn <= 5 && |items| == chn
        invariant forall k :: 0 <= k < chn ==> items[k] == Addr(SongChannel(i, k))
      {
        items := items + [Addr(SongChannel(i, chn))];
        chn := chn + 1;
      }
      var tempoPal := TruncDiv(256 * song.tempo, 50 * 60 / 24);
      var tempoNtsc := TruncDiv(256 * song.tempo, 60 * 60 / 24);
      line := Dw(items + [Num(tempoPal), Num(tempoNtsc)]);
    }

    /** Writes the header and returns its size; `niceName` is `Utils.MakeNiceAsmName`. */
    method OutputHeader(separateSongs: bool, niceName: string -> string) returns (size: int)
      requires separateSongs ==> |project.songs| > 0
      modifies this`lines
      ensures var name := HeaderName(project, separateSongs, niceName);
        lines == old(lines) + HeaderLines(name, project.songs)
        && size == HeaderSize(|project.songs|)
        && size == AssembledSize(HeaderLines(name, project.songs))
    {
      var songs := project.songs;
      var name := HeaderName(project, separateSongs, niceName);
      var records := [];
      size := 5;
      var i := 0;
      while i < |songs|
        invariant i <= |songs|
        invariant records == SongRecords(songs, i) && lines == old(lines)
        invariant size == 5 + 14 * i
      {
        var line := SongLine(i, songs[i]);
        records := records + [line];
        size := size + 14;
        i := i + 1;
      }
      var header := HeaderLines(name, songs);
      assert HeaderStart(name, |songs|) + records + [Blank] == header;
      lines := lines + header;
      HeaderAssembles(name, songs);
    }

    /** Envelope `k` of an instrument encoded and stored under the checksum of its encoding
        (`crc` is `CRC32.Compute`); an empty one is recorded under the default envelope's key. */
    method StoreEnvelope(crc: Checksum, instrument: Instrument, k: nat, t: seq<Entry>) returns (unique: seq<Entry>, key: int)
      requires InstrumentOk(instrument) && k < |instrument.envelopes|
      ensures unique == EnvelopeStep(crc, t, EncodeSlots(instrument)[k])
      ensures key == SlotKey(crc, EncodeSlots(instrument)[k])
    {
      var processed := ProcessEnvelope(instrument.envelopes[k].value, false);
      unique := t;
      if processed.None? {
        key := crc(DefaultEnvelope);
      } else {
        key := crc(processed.value);
        unique := Put(unique, key, processed.value);
      }
    }

    /** The envelopes of one instrument stored in the unique-envelope list `t0`, and the key
        each is recorded under. */
    method CollectSlots(crc: Checksum, instrument: Instrument, t0: seq<Entry>) returns (unique: seq<Entry>, keys: seq<int>)
      requires InstrumentOk(instrument)
      ensures unique == SlotsUpTo(crc, t0, EncodeSlots(instrument), |instrument.envelopes|)
      ensures keys == SlotKeys(crc, EncodeSlots(instrument), |instrument.envelopes|)
    {
      ghost var slots := EncodeSlots(instrument);
      unique := t0;
      keys := [];
      var k := 0;
      while k < |instrument.envelopes|
        invariant k <= |instrument.envelopes| == |slots|
        invariant unique == SlotsUpTo(crc, t0, slots, k)
        invariant keys == SlotKeys(crc, slots, k)
      {
        var key;
        unique, key := StoreEnvelope(crc, instrument, k, unique);
        keys := keys + [key];
        k := k + 1;
      }
    }

    /** The envelope pass of OutputInstruments: every envelope of every instrument encoded and
        stored in the unique-envelope list under its checksum, and the key each envelope is
        recorded under (`instrumentEnvelopes`), the default envelope's for an empty one. */
    method CollectEnvelopes(crc: Checksum) returns (unique: seq<Entry>, envKeys: seq<seq<int>>)
      requires InstrumentsOk(project.instruments)
      ensures unique == EnvelopeTable(crc, EncodeAll(project.instruments))
      ensures envKeys == AllKeys(crc, EncodeAll(project.instruments), |project.instruments|)
    {
      var instrs := project.instruments;
      ghost var encs := EncodeAll(instrs);
      var defaultEnv := DefaultEnvelope;
      unique := [Entry(crc(defaultEnv), defaultEnv)];
      envKeys := [];
      var i := 0;
      while i < |instrs|
        invariant i <= |instrs|
        invariant unique == TableUpTo(crc, encs, i)
        invariant envKeys == AllKeys(crc, encs, i)
      {
        assert encs[i] == EncodeSlots(instrs[i]);
        var keys;
        unique, keys := CollectSlots(crc, instrs[i], unique);
        envKeys := envKeys + [keys];
        i := i + 1;
      }
    }

    /** One instrument record: the duty byte, the labels of the volume, arpeggio and pitch
        envelopes looked up by their recorded keys, a zero byte. */
    method InstrumentRecord(crc: Checksum, unique: seq<Entry>, ghost slots: Slots, keys: seq<int>, dutyCycle: nat)
      returns (record: seq<Line>)
      requires |slots| >= 3 && keys == SlotKeys(crc, slots, |slots|)
      ensures record == InstrumentLines(unique, crc, dutyCycle, slots)
    {
      SlotKeysAt(crc, slots, |slots|, VolumeEnvelope);
      SlotKeysAt(crc, slots, |slots|, ArpeggioEnvelope);
      SlotKeysAt(crc, slots, |slots|, PitchEnvelope);
      var volumeEnvIdx := IndexOfKey(unique, keys[VolumeEnvelope]);
      var arpeggioEnvIdx := IndexOfKey(unique, keys[ArpeggioEnvelope]);
      var pitchEnvIdx := IndexOfKey(unique, keys[PitchEnvelope]);
      record := [Db([Num(DutyByte(dutyCycle))]),
                 Dw([Addr(Env(volumeEnvIdx)), Addr(Env(arpeggioEnvIdx)), Addr(Env(pitchEnvIdx))]),
                 Db([Num(0)])];
    }

    /** The instrument records: duty byte, the labels of the volume, arpeggio and pitch
        envelopes, a zero byte; and their size, 8 bytes each. */
    method InstrumentRecordLines(crc: Checksum, unique: seq<Entry>, instrs: seq<Instrument>, ghost encs: seq<Slots>,
                                 envKeys: seq<seq<int>>)
      returns (out: seq<Line>, size: int)
      requires |encs| == |instrs| && SlotsOk(encs) && envKeys == AllKeys(crc, encs, |encs|)
      ensures out == InstrumentRecords(unique, crc, instrs, encs, |instrs|)
      ensures size == 8 * |instrs|
    {
      out := [];
      size := 0;
      var i := 0;
      while i < |instrs|
        invariant i <= |instrs|
        invariant out == InstrumentRecords(unique, crc, instrs, encs, i)
        invariant size == 8 * i
      {
        var record := InstrumentRecord(crc, unique, encs[i], envKeys[i], instrs[i].dutyCycle) by {
          AllKeysAt(crc, encs, |instrs|, i);
        }
        out := out + record;
        size := size + 2 * 3 + 2;
        i := i + 1;
      }
    }

    /** The sample part: its label, then, when the project uses samples, the records of slots
        1 on and a blank line; and the size of the records, 3 bytes each. */
    method SampleRecordLines(p: Project) returns (out: seq<Line>, size: int)
      ensures out == SampleSection(p)
      ensures size == if p.usesSamples && |p.samplesMapping| > 1 then 3 * (|p.samplesMapping| - 1) else 0
    {
      size := 0;
      out := [LabelDef(Samples)];
      if p.usesSamples {
        var maps := p.samplesMapping;
        var records := [];
        var i := 1;
        while i < |maps|
          invariant 1 <= i && (i <= |maps| || i == 1)
          invariant records == if i <= |maps| then SampleRecords(maps, i) else []
          invariant size == 3 * (i - 1)
        {
          var mapping := maps[i];
          var sampleOffset := 0;
          var sampleSize := 0;
          var samplePitchAndLoop := 0;
          if mapping.Some? && mapping.value.sample.Some? {
            sampleOffset := mapping.value.sample.value.address / 64;
            sampleSize := mapping.value.sample.value.dataLength / 16;
            samplePitchAndLoop := PitchAndLoop(mapping.value.pitch, mapping.value.loop);
          }
          records := records + [Db([DpcmLow(sampleOffset), Num(sampleSize), Num(samplePitchAndLoop)])];
          size := size + 3;
          i := i + 1;
        }
        out := out + records + [Blank];
      }
    }

    /** The unique envelopes, each under its `env` label, and their total length. */
    method EnvelopeRecordLines(unique: seq<Entry>) returns (out: seq<Line>, size: int)
      ensures out == EnvelopeRecords(unique, |unique|)
      ensures size == TableBytes(unique, |unique|)
    {
      out := [];
      size := 0;
      var idx := 0;
      while idx < |unique|
        invariant idx <= |unique|
        invariant out == EnvelopeRecords(unique, idx)
        invariant size == TableBytes(unique, idx)
      {
        var env := unique[idx].bytes;
        out := out + [LabelDef(Env(idx)), Db(Nums(env))];
        size := size + |env|;
        idx := idx + 1;
      }
    }

    /** Writes the instrument section and returns its size: 8 bytes per instrument, 3 per
        sample slot after the first, and the bytes of every unique envelope. */
    method OutputInstruments(crc: Checksum) returns (size: int)
      requires InstrumentsOk(project.instruments)
      modifies this`lines
      ensures lines == old(lines) + InstrumentSection(crc, project)
      ensures size == SectionSize(crc, project, EncodeAll(project.instruments))
      ensures size == AssembledSize(InstrumentSection(crc, project))
    {
      ghost var encs := EncodeAll(project.instruments);
      var unique, envKeys := CollectEnvelopes(crc);
      var records, instrumentsSize := InstrumentRecordLines(crc, unique, project.instruments, encs, envKeys);
      var samples, samplesSize := SampleRecordLines(project);
      var envelopes, envelopesSize := EnvelopeRecordLines(unique);
      lines := lines + ([LabelDef(Instruments)] + records + [Blank] + samples + envelopes);
      size := instrumentsSize + samplesSize + envelopesSize;
      SectionAssembles(crc, project, encs);
    }

    /** The first table entry equal to `buffer`, or -1 (`matchingPatternIdx`). */
    method MatchingPattern(table: seq<seq<byte>>, buffer: seq<byte>) returns (m: int)
      ensures m == FirstMatch(table, buffer)
    {
      m := -1;
      var j := 0;
      while j < |table|
        invariant j <= |table|
        invariant FirstMatchFrom(table, buffer, j) == FirstMatch(table, buffer)
      {
        if table[j] == buffer {
          m := j;
          return;
        }
        j := j + 1;
      }
    }

    /** The dedup of one pattern buffer: a buffer of more than four bytes equal to a table
        entry is written as a reference to the first such entry; any other is added to the table
        under a new label, unless the table is full, which sets `failed`. */
    method StorePattern(out: seq<Line>, table: seq<seq<byte>>, size: int,
                        patternBuffer: seq<byte>, numValidNotes: nat, ghost instr: Option<nat>)
      returns (out': seq<Line>, table': seq<seq<byte>>, size': int, failed: bool)
      ensures Emit(out', table', size', failed) == StoreBuffer(out, table, size, Encoded(patternBuffer, numValidNotes, instr))
    {
      out', table', size', failed := out, table, size, false;
      var matchingPatternIdx := -1;
      if |patternBuffer| > MinDedupLength {
        matchingPatternIdx := MatchingPattern(table, patternBuffer);
      }
      if matchingPatternIdx < 0 {
        if |table| > MaxPackedPatterns {
          failed := true;
          return;
        }
        table' := table + [patternBuffer];
        size' := size + |patternBuffer|;
        out' := out + [LabelDef(Ref(|table'| - 1)), Db(Nums(patternBuffer))];
      } else {
        out' := out + [Db([Num(0xff), Num(numValidNotes)]), Dw([Addr(Ref(matchingPatternIdx))])];
        size' := size + 4;
      }
    }

    /** One turn of OutputSong's pattern loop for a position that is not passed over: the loop
        label, the pattern encoded up to its skip, then the buffer stored. */
    method OutputPattern(sc: SongCtx, c: nat, p: nat, skipping: bool, instr: Option<nat>,
                         out: seq<Line>, table: seq<seq<byte>>, size: int)
      returns (skipping': bool, instr': Option<nat>, out': seq<Line>, table': seq<seq<byte>>, size': int, failed: bool)
      requires sc.Valid() && sc.encode == RowsEncoder() && c < |sc.song.channels| && p < sc.song.length
      requires !Skipped(sc, p, skipping)
      ensures ChannelState(skipping', instr', Emit(out', table', size', failed))
        == PatternStep(sc, c, p, ChannelState(skipping, instr, Emit(out, table, size, false)))
    {
      var song := sc.song;
      var lines := out;
      if p == sc.loopPoint {
        lines := lines + [LabelDef(SongChannelLoop(sc.songIdx, c))];
      }
      var patternLength := FindSkip(song, p);
      if patternLength >= 0 {
        skipping' := true;
      } else {
        skipping' := false;
        patternLength := song.patternLength;
      }
      var ctx := PatternCtx(song, p, PatternNotes(song, c, p), c == sc.speedChannel, patternLength);
      assert ctx == PatternContext(sc, c, p);
      var patternBuffer, numValidNotes;
      patternBuffer, numValidNotes, instr' := EncodePattern(ctx, instr);
      assert sc.encode(ctx, instr) == Encoded(patternBuffer, numValidNotes, instr');
      assert lines == out + LoopLabel(sc, c, p);
      out', table', size', failed := StorePattern(lines, table, size, patternBuffer, numValidNotes, instr');
    }

    /** The pattern loop of one channel: from a fresh channel state, every position of the song
        in turn, passing over split sub-patterns after a skip; `failed` when the table
        overflows, which ends the loop. */
    method OutputPatterns(sc: SongCtx, c: nat, out0: seq<Line>, table0: seq<seq<byte>>, size0: int)
      returns (out: seq<Line>, table: seq<seq<byte>>, size: int, failed: bool)
      requires sc.Valid() && sc.encode == RowsEncoder() && c < |sc.song.channels|
      ensures var cs := PatternsUpTo(sc, c, sc.song.length, ChannelState(false, None, Emit(out0, table0, size0, false)));
        Emit(out, table, size, failed) == cs.em
    {
      ghost var cs0 := ChannelState(false, None, Emit(out0, table0, size0, false));
      out, table, size, failed := out0, table0, size0, false;
      var instrument: Option<nat> := None;
      var isSkipping := false;
      var p := 0;
      while p < sc.song.length
        invariant p <= sc.song.length
        invariant ChannelState(isSkipping, instrument, Emit(out, table, size, false)) == PatternsUpTo(sc, c, p, cs0)
      {
        if isSkipping && p % sc.factor != 0 {
          p := p + 1;
          continue;
        }
        isSkipping, instrument, out, table, size, failed :=
          OutputPattern(sc, c, p, isSkipping, instrument, out, table, size);
        if failed {
          PatternsFailedStay(sc, c, p + 1, sc.song.length, cs0);
          return;
        }
        p := p + 1;
      }
    }

    /** One channel of OutputSong: its label, the speed line on the speed channel, its patterns
        and the jump back to its loop label; `failed` when the table overflows. */
    method OutputChannel(sc: SongCtx, c: nat, out0: seq<Line>, table0: seq<seq<byte>>, size0: int)
      returns (out: seq<Line>, table: seq<seq<byte>>, size: int, failed: bool)
      requires sc.Valid() && sc.encode == RowsEncoder() && c < |sc.song.channels|
      ensures Emit(out, table, size, failed) == ChannelOutput(sc, c, Emit(out0, table0, size0, false))
    {
      out, size := out0, size0;
      out := out + [Blank, LabelDef(SongChannel(sc.songIdx, c))];
      var isSpeedChannel := c == sc.speedChannel;
      if isSpeedChannel {
        out := out + [Db([Num(SpeedOpcode), Num(sc.song.speed)])];
        size := size + 2;
      }
      assert Emit(out, table0, size, false) == ChannelOpen(sc, c, Emit(out0, table0, size0, false));
      out, table, size, failed := OutputPatterns(sc, c, out, table0, size);
      if !failed {
        out := out + [Db([Num(0xfd)]), Dw([Addr(SongChannelLoop(sc.songIdx, c))])];
        size := size + 3;
      }
    }

    /** The channel loop of OutputSong, from the table `table0`; `failed` when the table
        overflows, which ends the song. */
    method OutputChannels(sc: SongCtx, table0: seq<seq<byte>>)
      returns (out: seq<Line>, table: seq<seq<byte>>, size: int, failed: bool)
      requires sc.Valid() && sc.encode == RowsEncoder()
      ensures Emit(out, table, size, failed) == SongOutput(sc, table0)
    {
      out, table, size, failed := [], table0, 0, false;
      var c := 0;
      while c < |sc.song.channels|
        invariant c <= |sc.song.channels|
        invariant Emit(out, table, size, false) == ChannelsUpTo(sc, c, table0)
      {
        out, table, size, failed := OutputChannel(sc, c, out, table, size);
        if failed {
          ChannelsFailedStay(sc, c + 1, |sc.song.channels|, table0);
          return;
        }
        c := c + 1;
      }
    }

    /** Writes a song and returns its size, or -1 when the table of packed buffers overflows;
        the lines written before an overflow stay written. `test` makes it a dry run: the size
        is the same, and neither the lines nor the table change. */
    method OutputSong(song: Song, songIdx: nat, speedChannel: int, factor: nat, test: bool) returns (size: int)
      requires song.Valid() && factor >= 1
      modifies this`lines, this`globalPatterns
      ensures var em := SongOutput(SongCtxOf(song, songIdx, speedChannel, factor), old(globalPatterns));
        && size == SongResult(em)
        && (test ==> lines == old(lines) && globalPatterns == old(globalPatterns))
        && (!test ==> lines == old(lines) + em.lines && globalPatterns == if em.failed then old(globalPatterns) else em.table)
    {
      var loopPoint := FindLoopPoint(song);
      var sc := SongCtx(song, songIdx, speedChannel, factor, loopPoint, RowsEncoder());
      assert sc == SongCtxOf(song, songIdx, speedChannel, factor);
      var out, packedPatternBuffers, failed;
      out, packedPatternBuffers, size, failed := OutputChannels(sc, globalPatterns);
      if !test {
        lines := lines + out;
      }
      if failed {
        return -1;
      }
      if !test {
        globalPatterns := packedPatternBuffers;
      }
    }

    /** One trial of the layout search: a dry run of the song split by `factor` with
        `speedChannel` as the speed channel, made only when the factor is a candidate and the
        split is accepted. */
    method RunTrial(song: Song, songIdx: nat, split: Splitter, speedChannel: nat, factor: nat) returns (trial: Option<int>)
      requires SplitsValid(split, song)
      modifies this`lines, this`globalPatterns
      ensures lines == old(lines) && globalPatterns == old(globalPatterns)
      ensures trial == Trial(song, songIdx, split, old(globalPatterns), speedChannel, factor)
    {
      trial := None;
      if 1 <= factor <= song.patternLength && song.patternLength % factor == 0 && song.patternLength / factor >= MinPatternLength {
        var splitSong := split(song, factor);
        if splitSong.Some? {
          var size := OutputSong(splitSong.value, songIdx, speedChannel, factor, true);
          trial := Some(size);
        }
      }
    }

    /** One turn of the factor loop: the trial replaces the best so far when it is smaller. */
    method ConsiderTrial(song: Song, songIdx: nat, split: Splitter, speedChannel: nat, factor: nat, acc: Choice,
                         ghost sizes: Sizes)
      returns (best: Choice)
      requires SplitsValid(split, song) && sizes == TrialSizes(song, songIdx, split, globalPatterns)
      modifies this`lines, this`globalPatterns
      ensures lines == old(lines) && globalPatterns == old(globalPatterns)
      ensures best == Consider(sizes, acc, speedChannel, factor)
    {
      var minSize, bestChannel, bestFactor := acc.minSize, acc.channel, acc.factor;
      var trial := RunTrial(song, songIdx, split, speedChannel, factor);
      if trial.Some? && trial.value < minSize {
        minSize := trial.value;
        bestChannel := speedChannel;
        bestFactor := factor;
      }
      best := Choice(minSize, bestChannel, bestFactor);
    }

    /** The factor loop of the layout search for one speed channel. */
    method SearchFactors(song: Song, songIdx: nat, split: Splitter, speedChannel: nat, acc: Choice, ghost sizes: Sizes)
      returns (best: Choice)
      requires SplitsValid(split, song) && sizes == TrialSizes(song, songIdx, split, globalPatterns)
      modifies this`lines, this`globalPatterns
      ensures lines == old(lines) && globalPatterns == old(globalPatterns)
      ensures best == FactorsUpTo(sizes, speedChannel, song.patternLength + 1, acc)
    {
      best := acc;
      var factor: nat := 1;
      while factor <= song.patternLength
        invariant 1 <= factor <= song.patternLength + 1
        invariant lines == old(lines) && globalPatterns == old(globalPatterns)
        invariant best == FactorsUpTo(sizes, speedChannel, factor, acc)
      {
        best := ConsiderTrial(song, songIdx, split, speedChannel, factor, best, sizes);
        factor := factor + 1;
      }
    }

    /** Picks the speed channel and split factor of a song with dry runs, then writes the song
        split by the chosen factor; `split` is `Song.Split` on a clone of the song. */
    method ProcessAndOutputSong(songIdx: nat, split: Splitter) returns (size: int)
      requires songIdx < |project.songs|
      requires project.songs[songIdx].Valid() && SplitsValid(split, project.songs[songIdx])
      modifies this`lines, this`globalPatterns
      ensures var em := SongLayoutOutput(project.songs[songIdx], songIdx, split, old(globalPatterns));
        && size == SongResult(em)
        && lines == old(lines) + em.lines
        && globalPatterns == if em.failed then old(globalPatterns) else em.table
    {
      var song := project.songs[songIdx];
      ghost var sizes := TrialSizes(song, songIdx, split, globalPatterns);
      var best := InitialChoice;
      var speedChannel := 0;
      while speedChannel < ChannelCount
        invariant speedChannel <= ChannelCount
        invariant lines == old(lines) && globalPatterns == old(globalPatterns)
        invariant best == SpeedChannelsUpTo(sizes, song.patternLength, speedChannel)
      {
        best := SearchFactors(song, songIdx, split, speedChannel, best, sizes);
        speedChannel := speedChannel + 1;
      }
      var committed := split(song, best.factor);
      var bestSplitSong := if committed.Some? then committed.value else song;
      size := OutputSong(bestSplitSong, songIdx, best.channel, best.factor, false);
    }

    /** Every song of the project in turn; a song that overflows the table does not stop the
        ones after it. */
    method OutputSongs(split: Splitter)
      requires SongsOk(project.songs, split)
      modifies this`lines, this`globalPatterns
      ensures var written := SongsOutput(project.songs, SongLayouts(split), old(globalPatterns), |project.songs|);
        lines == old(lines) + written.lines && globalPatterns == written.table
    {
      var i := 0;
      while i < |project.songs|
        invariant i <= |project.songs|
        invariant lines == old(lines) + SongsOutput(project.songs, SongLayouts(split), old(globalPatterns), i).lines
        invariant globalPatterns == SongsOutput(project.songs, SongLayouts(split), old(globalPatterns), i).table
      {
        ghost var before := SongsOutput(project.songs, SongLayouts(split), old(globalPatterns), i);
        var songSize := ProcessAndOutputSong(i, split);
        assert SongLayouts(split)(project.songs[i], i, before.table)
          == SongLayoutOutput(project.songs[i], i, split, before.table);
        AppendAssoc(old(lines), before.lines, SongLayoutOutput(project.songs[i], i, split, before.table).lines);
        i := i + 1;
      }
    }

    /** The preparation of Save: the project taken over, the format's tokens set and the
        envelopes cleaned. */
    method Prepare(selected: Project, format: OutputFormat)
      requires ExportableProject(selected)
      modifies this`project, this`db, this`dw, this`ll, this`lo
      ensures project == CleanProject(selected) && Tokens() == DialectOf(format)
      ensures InstrumentsOk(project.instruments)
    {
      project := selected;
      SetupFormat(format);
      assert forall i :: 0 <= i < |project.instruments| ==> |project.instruments[i].envelopes| > VolumeEnvelope by {
        assert ExportableProject(selected);
      }
      CleanupEnvelopes();
      assert project == CleanProject(selected);
      CleanProjectOk(selected);
    }

    /** The output part of Save: the header, the instrument section and every song. */
    method OutputProject(separateSongs: bool, niceName: string -> string, crc: Checksum, split: Splitter)
      requires InstrumentsOk(project.instruments) && SongsOk(project.songs, split)
      requires separateSongs ==> |project.songs| > 0
      modifies this`lines, this`globalPatterns
      ensures var written := SongsOutput(project.songs, SongLayouts(split), old(globalPatterns), |project.songs|);
        && lines == old(lines) + (HeaderLines(HeaderName(project, separateSongs, niceName), project.songs)
                    + InstrumentSection(crc, project) + written.lines)
        && globalPatterns == written.table
    {
      ghost var header := HeaderLines(HeaderName(project, separateSongs, niceName), project.songs);
      ghost var section := InstrumentSection(crc, project);
      ghost var written := SongsOutput(project.songs, SongLayouts(split), globalPatterns, |project.songs|);
      var headerSize := OutputHeader(separateSongs, niceName);
      var instrumentsSize := OutputInstruments(crc);
      OutputSongs(split);
      assert lines == old(lines) + header + section + written.lines;
      AppendAssoc(old(lines), header, section);
      AppendAssoc(old(lines), header + section, written.lines);
    }

    /** Exports a project whose songs and instruments have already been selected: the format's
        tokens, the envelope cleanup, the header, the instrument section and every song in turn.
        A song that overflows the table is skipped over and the export still succeeds. */
    method Save(selected: Project, separateSongs: bool, format: OutputFormat, niceName: string -> string,
                crc: Checksum, split: Splitter)
      returns (ok: bool)
      requires ExportableProject(selected)
      requires SongsOk(selected.songs, split)
      requires separateSongs ==> |selected.songs| > 0
      modifies this
      ensures ok
      ensures project == CleanProject(selected) && Tokens() == DialectOf(format)
      ensures InstrumentsOk(CleanProject(selected).instruments)
      ensures var written := SongsOutput(selected.songs, SongLayouts(split), old(globalPatterns), |selected.songs|);
        && lines == old(lines) + (HeaderLines(HeaderName(selected, separateSongs, niceName), selected.songs)
                    + InstrumentSection(crc, CleanProject(selected)) + written.lines)
        && globalPatterns == written.table
    {
      Prepare(selected, format);
      assert HeaderName(project, separateSongs, niceName) == HeaderName(selected, separateSongs, niceName);
      OutputProject(separateSongs, niceName, crc, split);
      ok := true;
    }
  }
}
