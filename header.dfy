/** The header of the export: the music-data label, the song count, the addresses of the
    instrument and sample tables, and per song the five channel addresses and two tempo words. */
module HeaderCode {
  import opened FamitoneData

  /** Frames per minute over 24 on PAL (50 * 60 / 24) and NTSC (60 * 60 / 24). */
  const PalDivisor := 50 * 60 / 24
  const NtscDivisor := 60 * 60 / 24

  /** C# integer division, which truncates toward zero. */
  function TruncDiv(a: int, b: int): (r: int)
    requires b > 0
    ensures a >= 0 ==> r >= 0 && r * b <= a < r * b + b
    ensures a < 0 ==> r <= 0 && r * b - b < a <= r * b
  {
    if a >= 0 then a / b else -((-a) / b)
  }

  /** The tempo words of a song: `256 * tempo` over 125 (PAL) and over 150 (NTSC). */
  function TempoPal(tempo: int): int {
    TruncDiv(256 * tempo, PalDivisor)
  }

  function TempoNtsc(tempo: int): int {
    TruncDiv(256 * tempo, NtscDivisor)
  }

  /** The record of song `i`: its five channel addresses and its two tempo words. */
  function SongRecord(i: nat, song: Song): Line {
    Dw([Addr(SongChannel(i, 0)), Addr(SongChannel(i, 1)), Addr(SongChannel(i, 2)),
        Addr(SongChannel(i, 3)), Addr(SongChannel(i, 4)),
        Num(TempoPal(song.tempo)), Num(TempoNtsc(song.tempo))])
  }

  /** The records of songs 0 to `n - 1`. */
  function SongRecords(songs: seq<Song>, n: nat): seq<Line>
    requires n <= |songs|
  {
    if n == 0 then [] else SongRecords(songs, n - 1) + [SongRecord(n - 1, songs[n - 1])]
  }

  const Banner := ";this file for FamiTone2 library generated by Famitone Studio"

  /** The opening lines of the header; `name` is the music-data label's name. */
  function HeaderStart(name: string, songCount: nat): seq<Line> {
    [Comment(Banner), Blank, LabelDef(MusicData(name)), Db([Num(songCount)]),
     Dw([Addr(Instruments)]), Dw([AddrMinus(Samples, 3)])]
  }

  /** Everything OutputHeader writes. */
  function HeaderLines(name: string, songs: seq<Song>): seq<Line> {
    HeaderStart(name, |songs|) + SongRecords(songs, |songs|) + [Blank]
  }

  /** The size OutputHeader returns. */
  function HeaderSize(songCount: nat): nat {
    5 + 14 * songCount
  }

  /** The tempo words are the PAL and NTSC frame rates scaled by 256, rounded down, for every
      tempo that is not negative. */
  lemma TempoBounds(tempo: int)
    requires tempo >= 0
    ensures TempoPal(tempo) * 125 <= 256 * tempo < TempoPal(tempo) * 125 + 125
    ensures TempoNtsc(tempo) * 150 <= 256 * tempo < TempoNtsc(tempo) * 150 + 150
    ensures TempoNtsc(tempo) <= TempoPal(tempo)
  {
    var pal := TempoPal(tempo);
    var ntsc := TempoNtsc(tempo);
    assert ntsc * 125 <= ntsc * 150 <= 256 * tempo;
  }

  lemma {:induction false} SongRecordsSize(songs: seq<Song>, n: nat)
    requires n <= |songs|
    ensures AssembledSize(SongRecords(songs, n)) == 14 * n
    decreases n
  {
    if n > 0 {
      SongRecordsSize(songs, n - 1);
      AssembledSizeAppend(SongRecords(songs, n - 1), [SongRecord(n - 1, songs[n - 1])]);
      assert [SongRecord(n - 1, songs[n - 1])][..0] == [];
    }
  }

  /** Record `i` of the header points at the five channel labels of song `i`. */
  lemma {:induction false} SongRecordAt(songs: seq<Song>, n: nat, i: nat)
    requires i < n <= |songs|
    ensures |SongRecords(songs, n)| == n && SongRecords(songs, n)[i] == SongRecord(i, songs[i])
    decreases n
  {
    if i < n - 1 {
      SongRecordAt(songs, n - 1, i);
    } else if n > 1 {
      SongRecordAt(songs, n - 1, 0);
    }
  }

  /** The header assembles to the 5 bytes of count and table addresses plus 14 per song. */
  lemma HeaderAssembles(name: string, songs: seq<Song>)
    ensures AssembledSize(HeaderLines(name, songs)) == HeaderSize(|songs|)
  {
    var a := HeaderStart(name, |songs|);
    var b := SongRecords(songs, |songs|);
    AssembledSizeAppend(a + b, [Blank]);
    AssembledSizeAppend(a, b);
    SongRecordsSize(songs, |songs|);
    SizeOfOne(Blank);
    var a1 := [Comment(Banner), Blank, LabelDef(MusicData(name))];
    var a2 := [Db([Num(|songs|)]), Dw([Addr(Instruments)]), Dw([AddrMinus(Samples, 3)])];
    assert a == a1 + a2;
    AssembledSizeAppend(a1, a2);
    SizeOfThree(a1[0], a1[1], a1[2]);
    SizeOfThree(a2[0], a2[1], a2[2]);
  }
}
