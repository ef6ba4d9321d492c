/** How ProcessAndOutputSong picks the layout of a song: it tries every speed channel and every
    split factor that leaves patterns of at least MinPatternLength rows, sizes each trial with a
    dry run of OutputSong, and keeps the first strictly smallest. */
module SplitSearch {
  import opened FamitoneData
  import opened SongQueries
  import opened PatternCode
  import opened SongCode

  const MinPatternLength := 6

  /** The number of channels a FamiTone2 song has. */
  const ChannelCount := 5

  /** The size the search starts from; a trial is kept only when it is smaller. */
  const InitialMinSize := 65536

  /** `Song.Split(factor)` on a clone of the song, which is not part of this model: the split
      song, or None when the split is refused. */
  type Splitter = (Song, nat) -> Option<Song>

  /** Every split the splitter accepts for this song is a well-formed song. */
  ghost predicate SplitsValid(split: Splitter, song: Song) {
    forall f: nat :: split(song, f).Some? ==> split(song, f).value.Valid()
  }

  /** A factor divides the pattern length and leaves patterns of at least MinPatternLength rows. */
  predicate Candidate(song: Song, f: nat) {
    1 <= f <= song.patternLength && song.patternLength % f == 0 && song.patternLength / f >= MinPatternLength
  }

  /** The parameters OutputSong is called with for a (split) song. */
  function SongCtxOf(song: Song, songIdx: nat, speedChannel: int, factor: nat): (r: SongCtx)
    requires song.Valid() && factor >= 1
    ensures r.Valid()
  {
    SongCtx(song, songIdx, speedChannel, factor, FindLoopPoint(song), RowsEncoder())
  }

  /** The dry-run size of a trial, None when the factor is no candidate or the split is refused. */
  function Trial(song: Song, songIdx: nat, split: Splitter, table: seq<seq<byte>>, ch: nat, f: nat): Option<int>
    requires SplitsValid(split, song)
  {
    if Candidate(song, f) && split(song, f).Some? then
      Some(SongResult(SongOutput(SongCtxOf(split(song, f).value, songIdx, ch, f), table)))
    else None
  }

  /** The size of each trial (speed channel, factor), None for a trial that is not made. */
  type Sizes = (nat, nat) -> Option<int>

  /** The sizes of the trials of a song. */
  function TrialSizes(song: Song, songIdx: nat, split: Splitter, table: seq<seq<byte>>): (r: Sizes)
    requires SplitsValid(split, song)
    ensures forall ch: nat, f: nat :: r(ch, f) == Trial(song, songIdx, split, table, ch, f)
  {
    (ch: nat, f: nat) => Trial(song, songIdx, split, table, ch, f)
  }

  /** Trials are made only for factors 1 to `len`. */
  ghost predicate FactorsWithin(sizes: Sizes, len: nat) {
    forall ch: nat, f: nat :: (f == 0 || f > len) ==> sizes(ch, f).None?
  }

  lemma TrialSizesWithin(song: Song, songIdx: nat, split: Splitter, table: seq<seq<byte>>)
    requires SplitsValid(split, song)
    ensures FactorsWithin(TrialSizes(song, songIdx, split, table), song.patternLength)
  {
  }

  /** The best trial so far: its size and where it was found. */
  datatype Choice = Choice(minSize: int, channel: nat, factor: nat)

  const InitialChoice := Choice(InitialMinSize, 0, 1)

  /** A trial replaces the best so far only when it is strictly smaller. */
  function Consider(sizes: Sizes, acc: Choice, ch: nat, f: nat): (r: Choice)
    ensures r == acc || (sizes(ch, f).Some? && r == Choice(sizes(ch, f).value, ch, f) && r.minSize < acc.minSize)
    ensures sizes(ch, f).Some? ==> r.minSize <= sizes(ch, f).value && r.minSize <= acc.minSize
  {
    var t := sizes(ch, f);
    if t.Some? && t.value < acc.minSize then Choice(t.value, ch, f) else acc
  }

  /** The choice after factors 1 to `f - 1` of speed channel `ch`, starting from `acc`. */
  function FactorsUpTo(sizes: Sizes, ch: nat, f: nat, acc: Choice): (r: Choice)
    requires f >= 1
    ensures acc.factor >= 1 ==> r.factor >= 1
    decreases f
  {
    if f == 1 then acc
    else Consider(sizes, FactorsUpTo(sizes, ch, f - 1, acc), ch, f - 1)
  }

  /** The choice after speed channels 0 to `ch - 1`, each trying factors 1 to `len`. */
  function SpeedChannelsUpTo(sizes: Sizes, len: nat, ch: nat): (r: Choice)
    ensures r.factor >= 1
  {
    if ch == 0 then InitialChoice
    else FactorsUpTo(sizes, ch - 1, len + 1, SpeedChannelsUpTo(sizes, len, ch - 1))
  }

  function ChooseLayout(song: Song, songIdx: nat, split: Splitter, table: seq<seq<byte>>): (r: Choice)
    requires SplitsValid(split, song)
    ensures r.factor >= 1
  {
    SpeedChannelsUpTo(TrialSizes(song, songIdx, split, table), song.patternLength, ChannelCount)
  }

  /** The song committed: split by the chosen factor, or unchanged when that split is refused. */
  function Committed(song: Song, split: Splitter, f: nat): (r: Song)
    requires song.Valid() && SplitsValid(split, song)
    ensures r.Valid()
  {
    if split(song, f).Some? then split(song, f).value else song
  }

  /** What ProcessAndOutputSong emits for a song, given the shared table before it. */
  function SongLayoutOutput(song: Song, songIdx: nat, split: Splitter, table: seq<seq<byte>>): Emit
    requires song.Valid() && SplitsValid(split, song)
  {
    var best := ChooseLayout(song, songIdx, split, table);
    SongOutput(SongCtxOf(Committed(song, split, best.factor), songIdx, best.channel, best.factor), table)
  }

  // ----- what the search finds -----

  /** After the trials before (ch0, f0): `acc` is the initial choice and no trial so far went
      below InitialMinSize, or it is a trial made so far; no trial so far is smaller, and no
      earlier trial is as small. */
  ghost predicate SearchInv(sizes: Sizes, ch0: nat, f0: nat, acc: Choice) {
    && ((acc == InitialChoice
         && forall ch: nat, f: nat :: RowBefore(ch, f, ch0, f0) && sizes(ch, f).Some? ==>
              sizes(ch, f).value >= InitialMinSize)
        || (acc.minSize < InitialMinSize && RowBefore(acc.channel, acc.factor, ch0, f0)
            && sizes(acc.channel, acc.factor) == Some(acc.minSize)))
    && (forall ch: nat, f: nat :: RowBefore(ch, f, ch0, f0) && sizes(ch, f).Some? ==>
          sizes(ch, f).value >= acc.minSize)
    && (forall ch: nat, f: nat ::
          (RowBefore(ch, f, ch0, f0) && RowBefore(ch, f, acc.channel, acc.factor) && sizes(ch, f).Some?) ==>
          sizes(ch, f).value > acc.minSize)
  }

  lemma ConsiderInv(sizes: Sizes, ch: nat, f: nat, acc: Choice)
    requires f >= 1
    requires SearchInv(sizes, ch, f, acc)
    ensures SearchInv(sizes, ch, f + 1, Consider(sizes, acc, ch, f))
  {
    var t := sizes(ch, f);
    var r := Consider(sizes, acc, ch, f);
    if t.Some? && t.value < acc.minSize {
      assert r == Choice(t.value, ch, f);
      forall c: nat, g: nat | RowBefore(c, g, ch, f + 1) && sizes(c, g).Some?
        ensures sizes(c, g).value >= r.minSize
      {
        if RowBefore(c, g, ch, f) {
          assert sizes(c, g).value >= acc.minSize;
        }
      }
      forall c: nat, g: nat | RowBefore(c, g, ch, f + 1) && RowBefore(c, g, r.channel, r.factor)
        && sizes(c, g).Some?
        ensures sizes(c, g).value > r.minSize
      {
        assert sizes(c, g).value >= acc.minSize;
      }
    } else {
      assert r == acc;
      forall c: nat, g: nat | RowBefore(c, g, ch, f + 1) && !RowBefore(c, g, ch, f)
        ensures c == ch && g == f
      {
      }
      forall c: nat, g: nat | RowBefore(c, g, ch, f + 1) && sizes(c, g).Some?
        ensures sizes(c, g).value >= acc.minSize
      {
        if !RowBefore(c, g, ch, f) {
          assert c == ch && g == f;
        }
      }
      if acc != InitialChoice {
        assert RowBefore(acc.channel, acc.factor, ch, f);
        assert !RowBefore(ch, f, acc.channel, acc.factor);
      }
    }
  }

  /** Past the last factor of a channel the same trials are seen as at the channel's start. */
  lemma NextChannelInv(sizes: Sizes, len: nat, ch: nat, acc: Choice)
    requires FactorsWithin(sizes, len)
    requires SearchInv(sizes, ch, len + 1, acc)
    ensures SearchInv(sizes, ch + 1, 0, acc)
  {
    forall c: nat, f: nat | RowBefore(c, f, ch + 1, 0) && !RowBefore(c, f, ch, len + 1)
      ensures sizes(c, f).None?
    {
    }
  }

  lemma StartInv(sizes: Sizes, len: nat, ch: nat, acc: Choice)
    requires FactorsWithin(sizes, len)
    requires SearchInv(sizes, ch, 0, acc)
    ensures SearchInv(sizes, ch, 1, acc)
  {
    forall c: nat, f: nat | RowBefore(c, f, ch, 1) && !RowBefore(c, f, ch, 0)
      ensures sizes(c, f).None?
    {
    }
  }

  lemma {:induction false} FactorsUpToInv(sizes: Sizes, ch: nat, f: nat, acc: Choice)
    requires f >= 1
    requires SearchInv(sizes, ch, 1, acc)
    ensures SearchInv(sizes, ch, f, FactorsUpTo(sizes, ch, f, acc))
    decreases f
  {
    if f > 1 {
      FactorsUpToInv(sizes, ch, f - 1, acc);
      ConsiderInv(sizes, ch, f - 1, FactorsUpTo(sizes, ch, f - 1, acc));
    }
  }

  /** One speed channel's trials keep the invariant. */
  lemma ChannelStepInv(sizes: Sizes, len: nat, ch: nat, acc: Choice)
    requires FactorsWithin(sizes, len)
    requires SearchInv(sizes, ch, 0, acc)
    ensures SearchInv(sizes, ch + 1, 0, FactorsUpTo(sizes, ch, len + 1, acc))
  {
    StartInv(sizes, len, ch, acc);
    FactorsUpToInv(sizes, ch, len + 1, acc);
    NextChannelInv(sizes, len, ch, FactorsUpTo(sizes, ch, len + 1, acc));
  }

  lemma {:induction false} SpeedChannelsUpToInv(sizes: Sizes, len: nat, ch: nat)
    requires FactorsWithin(sizes, len)
    ensures SearchInv(sizes, ch, 0, SpeedChannelsUpTo(sizes, len, ch))
    decreases ch
  {
    if ch > 0 {
      SpeedChannelsUpToInv(sizes, len, ch - 1);
      ChannelStepInv(sizes, len, ch - 1, SpeedChannelsUpTo(sizes, len, ch - 1));
    }
  }

  /** The layout chosen is the first trial, in the order speed channel then factor, whose size
      is the smallest of all trials and below InitialMinSize; when no trial is below it, the
      layout is speed channel 0 with factor 1. A trial that overflows the table sizes as -1,
      so it is kept over every successful one. */
  lemma ChooseLayoutIsFirstMinimum(song: Song, songIdx: nat, split: Splitter, table: seq<seq<byte>>)
    requires SplitsValid(split, song)
    ensures var best := ChooseLayout(song, songIdx, split, table);
      && ((best == InitialChoice
           && forall ch: nat, f: nat :: ch < ChannelCount && Trial(song, songIdx, split, table, ch, f).Some? ==>
                Trial(song, songIdx, split, table, ch, f).value >= InitialMinSize)
          || (best.minSize < InitialMinSize && best.channel < ChannelCount
              && Candidate(song, best.factor)
              && Trial(song, songIdx, split, table, best.channel, best.factor) == Some(best.minSize)))
      && (forall ch: nat, f: nat :: ch < ChannelCount && Trial(song, songIdx, split, table, ch, f).Some? ==>
            Trial(song, songIdx, split, table, ch, f).value >= best.minSize)
      && (forall ch: nat, f: nat ::
            (RowBefore(ch, f, best.channel, best.factor) && Trial(song, songIdx, split, table, ch, f).Some?) ==>
            Trial(song, songIdx, split, table, ch, f).value > best.minSize)
  {
    var sizes := TrialSizes(song, songIdx, split, table);
    TrialSizesWithin(song, songIdx, split, table);
    SpeedChannelsUpToInv(sizes, song.patternLength, ChannelCount);
    var best := ChooseLayout(song, songIdx, split, table);
    forall ch: nat, f: nat | ch < ChannelCount && Trial(song, songIdx, split, table, ch, f).Some?
      ensures Trial(song, songIdx, split, table, ch, f).value >= best.minSize
    {
      assert RowBefore(ch, f, ChannelCount, 0) && sizes(ch, f).Some?;
    }
    forall ch: nat, f: nat | RowBefore(ch, f, best.channel, best.factor)
      && Trial(song, songIdx, split, table, ch, f).Some?
      ensures Trial(song, songIdx, split, table, ch, f).value > best.minSize
    {
      if best != InitialChoice {
        assert RowBefore(ch, f, ChannelCount, 0) && sizes(ch, f).Some?;
      } else {
        assert false;
      }
    }
  }
}
