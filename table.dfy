/** The instrument section of the export: every envelope is encoded, the encodings are kept
    once each in a list sorted by checksum, and each instrument record points at its volume,
    arpeggio and pitch envelopes by their position in that list. The DPCM sample records sit
    between the instruments and the envelopes. */
module InstrumentCode {
  import opened FamitoneData
  import opened EnvelopeRle

  /** The encoding every empty envelope shares: one value byte for 0, terminator, pointer 0. */
  const DefaultEnvelope: seq<byte> := [0xc0, 0x00, 0x00]

  /** `CRC32.Compute`, which is not part of this model. */
  type Checksum = seq<int> -> int

  // ----- the sorted list of unique envelopes -----

  /** One entry of the `SortedList<uint, byte[]>` of unique envelopes. */
  datatype Entry = Entry(key: int, bytes: seq<byte>)

  ghost predicate Sorted(t: seq<Entry>) {
    forall i, j :: 0 <= i < j < |t| ==> t[i].key < t[j].key
  }

  ghost function Keys(t: seq<Entry>): set<int> {
    set e | e in t :: e.key
  }

  /** The list with `bytes` stored under `key`: inserted in key order, or replacing the bytes
      already stored under it (`list[key] = bytes`). */
  function Put(t: seq<Entry>, key: int, bytes: seq<byte>): (r: seq<Entry>)
    ensures |r| == |t| || |r| == |t| + 1
  {
    if t == [] then [Entry(key, bytes)]
    else if key < t[0].key then [Entry(key, bytes)] + t
    else if key == t[0].key then [Entry(key, bytes)] + t[1..]
    else [t[0]] + Put(t[1..], key, bytes)
  }

  /** Put stores `bytes` under `key` and adds nothing else. */
  lemma {:induction false} PutEntries(t: seq<Entry>, key: int, bytes: seq<byte>)
    ensures var r := Put(t, key, bytes);
      && Entry(key, bytes) in r
      && forall e :: e in r ==> e == Entry(key, bytes) || e in t
  {
    if t != [] && key > t[0].key {
      PutEntries(t[1..], key, bytes);
      assert forall e :: e in t[1..] ==> e in t;
    }
  }

  /** Put keeps every entry under another key. */
  lemma {:induction false} PutKeeps(t: seq<Entry>, key: int, bytes: seq<byte>)
    ensures forall e :: e in t && e.key != key ==> e in Put(t, key, bytes)
  {
    if t != [] && key > t[0].key {
      PutKeeps(t[1..], key, bytes);
      assert forall e :: e in t ==> e == t[0] || e in t[1..];
    } else if t != [] && key == t[0].key {
      assert forall e :: e in t ==> e == t[0] || e in t[1..];
    }
  }

  lemma {:induction false} PutSorted(t: seq<Entry>, key: int, bytes: seq<byte>)
    requires Sorted(t)
    ensures Sorted(Put(t, key, bytes))
  {
    if t != [] && key > t[0].key {
      PutSorted(t[1..], key, bytes);
      PutEntries(t[1..], key, bytes);
      var r := Put(t, key, bytes);
      var r' := Put(t[1..], key, bytes);
      assert r == [t[0]] + r';
      forall i | 1 <= i < |r| ensures t[0].key < r[i].key {
        assert r[i] == r'[i - 1] && r'[i - 1] in r';
        if r[i] != Entry(key, bytes) {
          var j :| 0 <= j < |t[1..]| && t[1..][j] == r[i];
          assert t[j + 1] == r[i];
        }
      }
    }
  }

  /** Put keeps the list sorted, adds exactly `key` to its keys, stores `bytes` under it and
      leaves every other entry as it was. */
  lemma PutSpec(t: seq<Entry>, key: int, bytes: seq<byte>)
    requires Sorted(t)
    ensures var r := Put(t, key, bytes);
      && Sorted(r)
      && Keys(r) == Keys(t) + {key}
      && Entry(key, bytes) in r
      && (forall e :: e in t && e.key != key ==> e in r)
      && (forall e :: e in r ==> e == Entry(key, bytes) || e in t)
  {
    PutSorted(t, key, bytes);
    PutEntries(t, key, bytes);
    PutKeeps(t, key, bytes);
    var r := Put(t, key, bytes);
    forall k | k in Keys(t) + {key} ensures k in Keys(r) {
      if k != key {
        var e :| e in t && e.key == k;
        assert e in r;
      } else {
        assert Entry(key, bytes) in r;
      }
    }
  }

  /** `IndexOfKey`: the position of `key` in the list, -1 when it is absent. */
  function IndexOfKey(t: seq<Entry>, key: int): (r: int)
    ensures -1 <= r < |t|
  {
    if t == [] then -1
    else if t[0].key == key then 0
    else
      var r := IndexOfKey(t[1..], key);
      if r == -1 then -1 else r + 1
  }

  /** IndexOfKey is -1 exactly when the key is absent, and otherwise the first position
      holding it. */
  lemma {:induction false} IndexOfKeySpec(t: seq<Entry>, key: int)
    ensures var r := IndexOfKey(t, key);
      && (r == -1 <==> key !in Keys(t))
      && (r >= 0 ==> t[r].key == key && forall i :: 0 <= i < r ==> t[i].key != key)
  {
    if t != [] && t[0].key != key {
      IndexOfKeySpec(t[1..], key);
      assert forall e :: e in t ==> e == t[0] || e in t[1..];
      assert forall e :: e in t[1..] ==> e in t;
    }
  }

  // ----- the envelopes of the instruments -----

  /** What OutputInstruments can process: volume, arpeggio and pitch slots exist, no envelope
      is missing (ProcessEnvelope dereferences each one) and each fits the encoder's buffer. */
  ghost predicate InstrumentOk(ins: Instrument) {
    && |ins.envelopes| >= 3
    && forall k :: 0 <= k < |ins.envelopes| ==>
         ins.envelopes[k].Some? && |ins.envelopes[k].value.values| <= MaxEnvelopeLength
  }

  ghost predicate InstrumentsOk(instrs: seq<Instrument>) {
    forall i :: 0 <= i < |instrs| ==> InstrumentOk(instrs[i])
  }

  /** The encodings of one instrument's envelopes, slot by slot (None for an empty envelope). */
  type Slots = seq<Option<seq<byte>>>

  function EncodeSlots(ins: Instrument): (r: Slots)
    requires InstrumentOk(ins)
  {
    seq(|ins.envelopes|, k requires 0 <= k < |ins.envelopes| => EncodeEnvelope(ins.envelopes[k].value))
  }

  function EncodeAll(instrs: seq<Instrument>): (r: seq<Slots>)
    requires InstrumentsOk(instrs)
    ensures |r| == |instrs| && SlotsOk(r)
  {
    seq(|instrs|, i requires 0 <= i < |instrs| => EncodeSlots(instrs[i]))
  }

  /** Every instrument has volume, arpeggio and pitch slots. */
  ghost predicate SlotsOk(encs: seq<Slots>) {
    forall i :: 0 <= i < |encs| ==> |encs[i]| >= 3
  }

  /** The bytes an envelope is listed under: its encoding, or the default one when it is empty. */
  function ListedBytes(o: Option<seq<byte>>): (r: seq<byte>) {
    match o
    case None => DefaultEnvelope
    case Some(b) => b
  }

  /** The key `instrumentEnvelopes` maps an envelope to. */
  function SlotKey(crc: Checksum, o: Option<seq<byte>>): int {
    crc(ListedBytes(o))
  }

  /** One envelope visited: a non-empty one is stored under the checksum of its encoding. */
  function EnvelopeStep(crc: Checksum, t: seq<Entry>, o: Option<seq<byte>>): seq<Entry> {
    match o
    case None => t
    case Some(b) => Put(t, crc(b), b)
  }

  /** The list after slots 0 to `k - 1` of one instrument. */
  function SlotsUpTo(crc: Checksum, t: seq<Entry>, slots: Slots, k: nat): seq<Entry>
    requires k <= |slots|
  {
    if k == 0 then t else EnvelopeStep(crc, SlotsUpTo(crc, t, slots, k - 1), slots[k - 1])
  }

  function InitialTable(crc: Checksum): seq<Entry> {
    [Entry(crc(DefaultEnvelope), DefaultEnvelope)]
  }

  /** The list after instruments 0 to `i - 1`. */
  function TableUpTo(crc: Checksum, encs: seq<Slots>, i: nat): seq<Entry>
    requires i <= |encs|
  {
    if i == 0 then InitialTable(crc)
    else SlotsUpTo(crc, TableUpTo(crc, encs, i - 1), encs[i - 1], |encs[i - 1]|)
  }

  function EnvelopeTable(crc: Checksum, encs: seq<Slots>): seq<Entry> {
    TableUpTo(crc, encs, |encs|)
  }

  /** What the list keeps: sorted keys and each entry stored under its own checksum. */
  ghost predicate TableInv(crc: Checksum, t: seq<Entry>) {
    Sorted(t) && forall i :: 0 <= i < |t| ==> t[i].key == crc(t[i].bytes)
  }

  ghost predicate Covers(crc: Checksum, t: seq<Entry>, slots: Slots, k: nat)
    requires k <= |slots|
  {
    forall j :: 0 <= j < k ==> SlotKey(crc, slots[j]) in Keys(t)
  }

  lemma EnvelopeStepInv(crc: Checksum, t: seq<Entry>, o: Option<seq<byte>>)
    requires TableInv(crc, t) && crc(DefaultEnvelope) in Keys(t)
    ensures var r := EnvelopeStep(crc, t, o);
      TableInv(crc, r) && Keys(t) <= Keys(r) && SlotKey(crc, o) in Keys(r)
  {
    var r := EnvelopeStep(crc, t, o);
    if o.Some? {
      var b := o.value;
      PutSpec(t, crc(b), b);
      forall i | 0 <= i < |r| ensures r[i].key == crc(r[i].bytes) {
        assert r[i] in r;
        if r[i] != Entry(crc(b), b) {
          var j :| 0 <= j < |t| && t[j] == r[i];
        }
      }
    }
  }

  /** One slot keeps the invariant and extends the coverage to that slot. */
  lemma SlotStepInv(crc: Checksum, t: seq<Entry>, t0: seq<Entry>, slots: Slots, k: nat)
    requires 0 < k <= |slots|
    requires TableInv(crc, t0) && crc(DefaultEnvelope) in Keys(t0)
    requires Keys(t) <= Keys(t0) && Covers(crc, t0, slots, k - 1)
    ensures var r := EnvelopeStep(crc, t0, slots[k - 1]);
      TableInv(crc, r) && Keys(t) <= Keys(r) && Covers(crc, r, slots, k)
  {
    EnvelopeStepInv(crc, t0, slots[k - 1]);
    var r := EnvelopeStep(crc, t0, slots[k - 1]);
    forall j | 0 <= j < k ensures SlotKey(crc, slots[j]) in Keys(r) {
      if j < k - 1 {
        assert SlotKey(crc, slots[j]) in Keys(t0);
      }
    }
  }

  lemma {:induction false} SlotsUpToInv(crc: Checksum, t: seq<Entry>, slots: Slots, k: nat)
    requires k <= |slots|
    requires TableInv(crc, t) && crc(DefaultEnvelope) in Keys(t)
    ensures var r := SlotsUpTo(crc, t, slots, k);
      TableInv(crc, r) && Keys(t) <= Keys(r) && Covers(crc, r, slots, k)
    decreases k
  {
    if k > 0 {
      SlotsUpToInv(crc, t, slots, k - 1);
      var t0 := SlotsUpTo(crc, t, slots, k - 1);
      assert crc(DefaultEnvelope) in Keys(t0);
      SlotStepInv(crc, t, t0, slots, k);
    }
  }

  ghost predicate CoversAll(crc: Checksum, t: seq<Entry>, encs: seq<Slots>, i: nat)
    requires i <= |encs|
  {
    forall n, j :: 0 <= n < i && 0 <= j < |encs[n]| ==> SlotKey(crc, encs[n][j]) in Keys(t)
  }

  lemma InitialTableInv(crc: Checksum)
    ensures TableInv(crc, InitialTable(crc)) && crc(DefaultEnvelope) in Keys(InitialTable(crc))
  {
    assert InitialTable(crc)[0] in InitialTable(crc);
  }

  /** One instrument's slots keep the list's invariant and extend its coverage. */
  lemma TableStepInv(crc: Checksum, encs: seq<Slots>, i: nat, t0: seq<Entry>)
    requires 0 < i <= |encs|
    requires TableInv(crc, t0) && crc(DefaultEnvelope) in Keys(t0) && CoversAll(crc, t0, encs, i - 1)
    ensures var t := SlotsUpTo(crc, t0, encs[i - 1], |encs[i - 1]|);
      TableInv(crc, t) && crc(DefaultEnvelope) in Keys(t) && CoversAll(crc, t, encs, i)
  {
    SlotsUpToInv(crc, t0, encs[i - 1], |encs[i - 1]|);
    var t := SlotsUpTo(crc, t0, encs[i - 1], |encs[i - 1]|);
    forall n, j | 0 <= n < i && 0 <= j < |encs[n]| ensures SlotKey(crc, encs[n][j]) in Keys(t) {
      if n < i - 1 {
        assert SlotKey(crc, encs[n][j]) in Keys(t0);
      }
    }
  }

  lemma {:induction false} TableUpToInv(crc: Checksum, encs: seq<Slots>, i: nat)
    requires i <= |encs|
    ensures var t := TableUpTo(crc, encs, i);
      TableInv(crc, t) && crc(DefaultEnvelope) in Keys(t) && CoversAll(crc, t, encs, i)
    decreases i
  {
    if i == 0 {
      InitialTableInv(crc);
    } else {
      TableUpToInv(crc, encs, i - 1);
      TableStepInv(crc, encs, i, TableUpTo(crc, encs, i - 1));
    }
  }

  /** The unique-envelope list is sorted by checksum, stores each encoding under its own
      checksum, and holds the key of every envelope slot of every instrument, so the lookups
      of the instrument records always succeed. When the checksum tells encodings apart, the
      entry found for a slot holds exactly that slot's listed bytes. */
  lemma EnvelopeTableSpec(crc: Checksum, encs: seq<Slots>, n: nat, j: nat)
    requires n < |encs| && j < |encs[n]|
    ensures var t := EnvelopeTable(crc, encs);
      var x := IndexOfKey(t, SlotKey(crc, encs[n][j]));
      && TableInv(crc, t)
      && 0 <= x < |t|
      && ((forall a, b :: crc(a) == crc(b) ==> a == b) ==> t[x].bytes == ListedBytes(encs[n][j]))
  {
    TableUpToInv(crc, encs, |encs|);
    IndexOfKeySpec(EnvelopeTable(crc, encs), SlotKey(crc, encs[n][j]));
  }

  /** For the project's own instruments: the entry found for an envelope holds its encoding,
      or the default encoding when the envelope is empty (checksums telling encodings apart). */
  lemma InstrumentEnvelopeListed(crc: Checksum, instrs: seq<Instrument>, n: nat, j: nat)
    requires InstrumentsOk(instrs) && n < |instrs| && j < |instrs[n].envelopes|
    requires forall a, b :: crc(a) == crc(b) ==> a == b
    ensures var encs := EncodeAll(instrs);
      var t := EnvelopeTable(crc, encs);
      var e := instrs[n].envelopes[j].value;
      var x := IndexOfKey(t, SlotKey(crc, encs[n][j]));
      && 0 <= x < |t|
      && (|e.values| == 0 ==> t[x].bytes == DefaultEnvelope)
      && (|e.values| > 0 ==> Some(t[x].bytes) == EncodeEnvelope(e))
  {
    var encs := EncodeAll(instrs);
    assert encs[n][j] == EncodeEnvelope(instrs[n].envelopes[j].value);
    EnvelopeTableSpec(crc, encs, n, j);
  }

  // ----- the records -----

  /** `(dutyCycle << 6) | 0x30`. */
  function DutyByte(dutyCycle: nat): (r: nat)
    ensures r % 64 == 0x30 && r / 64 == dutyCycle
  {
    64 * dutyCycle + 0x30
  }

  /** The label index of an instrument's envelope in slot `k`. */
  function EnvIndex(t: seq<Entry>, crc: Checksum, slots: Slots, k: nat): int
    requires k < |slots|
  {
    IndexOfKey(t, SlotKey(crc, slots[k]))
  }

  /** An instrument record: duty byte, the three envelope addresses, a zero byte. */
  function InstrumentLines(t: seq<Entry>, crc: Checksum, dutyCycle: nat, slots: Slots): seq<Line>
    requires |slots| >= 3
  {
    [Db([Num(DutyByte(dutyCycle))]),
     Dw([Addr(Env(EnvIndex(t, crc, slots, VolumeEnvelope))), Addr(Env(EnvIndex(t, crc, slots, ArpeggioEnvelope))),
         Addr(Env(EnvIndex(t, crc, slots, PitchEnvelope)))]),
     Db([Num(0)])]
  }

  /** The records of instruments 0 to `i - 1`. */
  function InstrumentRecords(t: seq<Entry>, crc: Checksum, instrs: seq<Instrument>, encs: seq<Slots>, i: nat): seq<Line>
    requires |encs| == |instrs| && SlotsOk(encs) && i <= |instrs|
  {
    if i == 0 then []
    else InstrumentRecords(t, crc, instrs, encs, i - 1) + InstrumentLines(t, crc, instrs[i - 1].dutyCycle, encs[i - 1])
  }

  /** `pitch | (loop ? 1 : 0) << 6`. */
  function PitchAndLoop(pitch: byte, loop: bool): (r: byte)
    ensures r % 64 == pitch % 64 && r / 128 == pitch / 128
    ensures (r / 64) % 2 == (if loop then 1 else (pitch / 64) % 2)
  {
    if loop && (pitch / 64) % 2 == 0 then pitch + 64 else pitch
  }

  /** A sample record: the sample's address in 64-byte units above FT_DPCM_PTR, its length in
      16-byte units and its pitch and loop flag; zeros for a slot with no sample. */
  function SampleLine(m: Option<SampleMapping>): Line {
    if m.Some? && m.value.sample.Some? then
      var s := m.value.sample.value;
      Db([DpcmLow(s.address / 64), Num(s.dataLength / 16), Num(PitchAndLoop(m.value.pitch, m.value.loop))])
    else Db([DpcmLow(0), Num(0), Num(0)])
  }

  /** The records of sample slots 1 to `i - 1` (slot 0 is never written). */
  function SampleRecords(maps: seq<Option<SampleMapping>>, i: nat): seq<Line>
    requires i <= |maps|
  {
    if i <= 1 then [] else SampleRecords(maps, i - 1) + [SampleLine(maps[i - 1])]
  }

  /** The labelled byte lines of entries 0 to `n - 1` of the envelope list. */
  function EnvelopeRecords(t: seq<Entry>, n: nat): seq<Line>
    requires n <= |t|
  {
    if n == 0 then [] else EnvelopeRecords(t, n - 1) + [LabelDef(Env(n - 1)), Db(Nums(t[n - 1].bytes))]
  }

  /** The sample part of the section. */
  function SampleSection(p: Project): seq<Line> {
    [LabelDef(Samples)] + (if p.usesSamples then SampleRecords(p.samplesMapping, |p.samplesMapping|) + [Blank] else [])
  }

  /** The section for given envelope encodings. */
  function SectionLines(crc: Checksum, p: Project, encs: seq<Slots>): seq<Line>
    requires |encs| == |p.instruments| && SlotsOk(encs)
  {
    var t := EnvelopeTable(crc, encs);
    [LabelDef(Instruments)] + InstrumentRecords(t, crc, p.instruments, encs, |p.instruments|) + [Blank]
      + SampleSection(p) + EnvelopeRecords(t, |t|)
  }

  /** Everything OutputInstruments writes. */
  function InstrumentSection(crc: Checksum, p: Project): seq<Line>
    requires InstrumentsOk(p.instruments)
  {
    SectionLines(crc, p, EncodeAll(p.instruments))
  }

  /** The total length of the encodings in entries 0 to `n - 1`. */
  function TableBytes(t: seq<Entry>, n: nat): nat
    requires n <= |t|
  {
    if n == 0 then 0 else TableBytes(t, n - 1) + |t[n - 1].bytes|
  }

  // ----- sizes -----

  lemma AppendSize(a: seq<Line>, b: seq<Line>, n: nat)
    requires AssembledSize(b) == n
    ensures AssembledSize(a + b) == AssembledSize(a) + n
  {
    AssembledSizeAppend(a, b);
  }

  lemma InstrumentLinesSize(t: seq<Entry>, crc: Checksum, dutyCycle: nat, slots: Slots)
    requires |slots| >= 3
    ensures AssembledSize(InstrumentLines(t, crc, dutyCycle, slots)) == 8
  {
    var v := EnvIndex(t, crc, slots, VolumeEnvelope);
    var a := EnvIndex(t, crc, slots, ArpeggioEnvelope);
    var p := EnvIndex(t, crc, slots, PitchEnvelope);
    SizeOfThree(Db([Num(DutyByte(dutyCycle))]), Dw([Addr(Env(v)), Addr(Env(a)), Addr(Env(p))]), Db([Num(0)]));
  }

  lemma {:induction false} InstrumentRecordsSize(t: seq<Entry>, crc: Checksum, instrs: seq<Instrument>,
                                                 encs: seq<Slots>, i: nat)
    requires |encs| == |instrs| && SlotsOk(encs) && i <= |instrs|
    ensures AssembledSize(InstrumentRecords(t, crc, instrs, encs, i)) == 8 * i
    decreases i
  {
    if i > 0 {
      InstrumentRecordsSize(t, crc, instrs, encs, i - 1);
      var a := InstrumentRecords(t, crc, instrs, encs, i - 1);
      var b := InstrumentLines(t, crc, instrs[i - 1].dutyCycle, encs[i - 1]);
      InstrumentLinesSize(t, crc, instrs[i - 1].dutyCycle, encs[i - 1]);
      AppendSize(a, b, 8);
    }
  }

  lemma {:induction false} SampleRecordsSize(maps: seq<Option<SampleMapping>>, i: nat)
    requires i <= |maps|
    ensures AssembledSize(SampleRecords(maps, i)) == if i <= 1 then 0 else 3 * (i - 1)
    decreases i
  {
    if i > 1 {
      SampleRecordsSize(maps, i - 1);
      AssembledSizeAppend(SampleRecords(maps, i - 1), [SampleLine(maps[i - 1])]);
      SizeOfOne(SampleLine(maps[i - 1]));
    }
  }

  lemma {:induction false} EnvelopeRecordsSize(t: seq<Entry>, n: nat)
    requires n <= |t|
    ensures AssembledSize(EnvelopeRecords(t, n)) == TableBytes(t, n)
    decreases n
  {
    if n > 0 {
      EnvelopeRecordsSize(t, n - 1);
      AssembledSizeAppend(EnvelopeRecords(t, n - 1), [LabelDef(Env(n - 1)), Db(Nums(t[n - 1].bytes))]);
      SizeOfTwo(LabelDef(Env(n - 1)), Db(Nums(t[n - 1].bytes)));
    }
  }

  /** The size OutputInstruments returns: 8 bytes per instrument, 3 per sample slot after the
      first when the project uses samples, and the bytes of every unique envelope. */
  function SectionSize(crc: Checksum, p: Project, encs: seq<Slots>): nat {
    var t := EnvelopeTable(crc, encs);
    8 * |p.instruments|
      + (if p.usesSamples && |p.samplesMapping| > 1 then 3 * (|p.samplesMapping| - 1) else 0)
      + TableBytes(t, |t|)
  }

  lemma SampleSectionSize(p: Project)
    ensures AssembledSize(SampleSection(p)) ==
      if p.usesSamples && |p.samplesMapping| > 1 then 3 * (|p.samplesMapping| - 1) else 0
  {
    SizeOfOne(LabelDef(Samples));
    if p.usesSamples {
      var s := SampleRecords(p.samplesMapping, |p.samplesMapping|);
      AssembledSizeAppend([LabelDef(Samples)], s);
      AssembledSizeAppend([LabelDef(Samples)] + s, [Blank]);
      SizeOfOne(Blank);
      SampleRecordsSize(p.samplesMapping, |p.samplesMapping|);
      assert SampleSection(p) == [LabelDef(Samples)] + s + [Blank];
    } else {
      assert SampleSection(p) == [LabelDef(Samples)];
    }
  }

  lemma SizeOfParts(a: seq<Line>, b: seq<Line>, c: seq<Line>, d: seq<Line>, e: seq<Line>)
    ensures AssembledSize(a + b + c + d + e)
      == AssembledSize(a) + AssembledSize(b) + AssembledSize(c) + AssembledSize(d) + AssembledSize(e)
  {
    AssembledSizeAppend(a + b + c + d, e);
    AssembledSizeAppend(a + b + c, d);
    AssembledSizeAppend(a + b, c);
    AssembledSizeAppend(a, b);
  }

  lemma SectionAssembles(crc: Checksum, p: Project, encs: seq<Slots>)
    requires |encs| == |p.instruments| && SlotsOk(encs)
    ensures AssembledSize(SectionLines(crc, p, encs)) == SectionSize(crc, p, encs)
  {
    var t := EnvelopeTable(crc, encs);
    var b := InstrumentRecords(t, crc, p.instruments, encs, |p.instruments|);
    var e := EnvelopeRecords(t, |t|);
    SizeOfParts([LabelDef(Instruments)], b, [Blank], SampleSection(p), e);
    SizeOfOne(LabelDef(Instruments));
    SizeOfOne(Blank);
    InstrumentRecordsSize(t, crc, p.instruments, encs, |p.instruments|);
    EnvelopeRecordsSize(t, |t|);
    SampleSectionSize(p);
  }
}
