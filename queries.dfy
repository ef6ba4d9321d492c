/** The read-only searches the song encoder makes over all channels of a song: the effect of
    a row, the row a pattern is cut at, and the loop target. */
module SongQueries {
  import opened FamitoneData

  /** The pattern of channel `c` at song position `p` exists and row `i` of it carries effect `e`. */
  predicate HasEffect(song: Song, c: nat, p: nat, i: nat, e: Effect)
    requires song.Valid() && c < |song.channels| && p < song.length && i < song.patternLength
  {
    song.channels[c][p].Some? && song.channels[c][p].value.notes[i].effect == e
  }

  function EffectParamAt(song: Song, c: nat, p: nat, i: nat): byte
    requires song.Valid() && c < |song.channels| && p < song.length && i < song.patternLength
    requires song.channels[c][p].Some?
  {
    song.channels[c][p].value.notes[i].effectParam
  }

  /** FindEffect's walk over the channels from `c` on. */
  function FindEffectFrom(song: Song, p: nat, i: nat, e: Effect, c: nat): (r: int)
    requires song.Valid() && p < song.length && i < song.patternLength && c <= |song.channels|
    ensures -1 <= r < 256
    decreases |song.channels| - c
  {
    if c == |song.channels| then -1
    else if HasEffect(song, c, p, i, e) then EffectParamAt(song, c, p, i)
    else FindEffectFrom(song, p, i, e, c + 1)
  }

  /** The parameter of effect `e` at row `i` of position `p` in the first channel whose
      pattern there carries it, or -1 when none does. */
  function FindEffect(song: Song, p: nat, i: nat, e: Effect): (r: int)
    requires song.Valid() && p < song.length && i < song.patternLength
    ensures -1 <= r < 256
  {
    FindEffectFrom(song, p, i, e, 0)
  }

  /** The walk from channel `c` finds nothing exactly when no channel from `c` on carries the
      effect, and otherwise returns the parameter of the first one that does. */
  lemma {:induction false} FindEffectFromFirst(song: Song, p: nat, i: nat, e: Effect, c: nat)
    requires song.Valid() && p < song.length && i < song.patternLength && c <= |song.channels|
    ensures var r := FindEffectFrom(song, p, i, e, c);
      && (r == -1 <==> forall k :: c <= k < |song.channels| ==> !HasEffect(song, k, p, i, e))
      && (r != -1 ==> exists k ::
            && c <= k < |song.channels| && HasEffect(song, k, p, i, e) && r == EffectParamAt(song, k, p, i)
            && forall j :: c <= j < k ==> !HasEffect(song, j, p, i, e))
    decreases |song.channels| - c
  {
    if c < |song.channels| && !HasEffect(song, c, p, i, e) {
      FindEffectFromFirst(song, p, i, e, c + 1);
    }
  }

  /** FindEffect is -1 exactly when no channel's pattern carries the effect at that row, and
      otherwise the parameter in the first channel that does. */
  lemma FindEffectFirst(song: Song, p: nat, i: nat, e: Effect)
    requires song.Valid() && p < song.length && i < song.patternLength
    ensures var r := FindEffect(song, p, i, e);
      && (r == -1 <==> forall k :: 0 <= k < |song.channels| ==> !HasEffect(song, k, p, i, e))
      && (r != -1 ==> exists k ::
            && 0 <= k < |song.channels| && HasEffect(song, k, p, i, e) && r == EffectParamAt(song, k, p, i)
            && forall j :: 0 <= j < k ==> !HasEffect(song, j, p, i, e))
  {
    FindEffectFromFirst(song, p, i, e, 0);
  }

  /** FindSkip's walk over the rows from `i` on. */
  function FindSkipFrom(song: Song, p: nat, i: nat): (r: int)
    requires song.Valid() && p < song.length && i <= song.patternLength
    ensures r == -1 || i <= r < song.patternLength
    decreases song.patternLength - i
  {
    if i == song.patternLength then -1
    else if FindEffect(song, p, i, Skip) >= 0 then i
    else FindSkipFrom(song, p, i + 1)
  }

  /** The first row of position `p` where some channel skips to the next pattern, or -1. */
  function FindSkip(song: Song, p: nat): (r: int)
    requires song.Valid() && p < song.length
    ensures r == -1 || 0 <= r < song.patternLength
  {
    FindSkipFrom(song, p, 0)
  }

  lemma {:induction false} FindSkipFromFirst(song: Song, p: nat, i: nat)
    requires song.Valid() && p < song.length && i <= song.patternLength
    ensures var r := FindSkipFrom(song, p, i);
      && (r == -1 <==> forall k :: i <= k < song.patternLength ==> FindEffect(song, p, k, Skip) == -1)
      && (r != -1 ==>
            && FindEffect(song, p, r, Skip) >= 0
            && forall k :: i <= k < r ==> FindEffect(song, p, k, Skip) == -1)
    decreases song.patternLength - i
  {
    if i < song.patternLength && FindEffect(song, p, i, Skip) < 0 {
      FindSkipFromFirst(song, p, i + 1);
    }
  }

  /** FindSkip is -1 exactly when no row of the position has a skip effect in any channel, and
      otherwise the first row that has one. */
  lemma FindSkipFirst(song: Song, p: nat)
    requires song.Valid() && p < song.length
    ensures var r := FindSkip(song, p);
      && (r == -1 <==> forall k :: 0 <= k < song.patternLength ==> FindEffect(song, p, k, Skip) == -1)
      && (r != -1 ==>
            && FindEffect(song, p, r, Skip) >= 0
            && forall k :: 0 <= k < r ==> FindEffect(song, p, k, Skip) == -1)
  {
    FindSkipFromFirst(song, p, 0);
  }

  /** Row (p1, i1) comes before row (p2, i2) in song order. */
  predicate RowBefore(p1: nat, i1: nat, p2: nat, i2: nat) {
    p1 < p2 || (p1 == p2 && i1 < i2)
  }

  /** No row from (p1, i1) up to, not including, (p2, i2) has a jump. */
  ghost predicate NoJumpBetween(song: Song, p1: nat, i1: nat, p2: nat, i2: nat)
    requires song.Valid()
  {
    forall p: nat, i: nat ::
      (p < song.length && i < song.patternLength && !RowBefore(p, i, p1, i1) && RowBefore(p, i, p2, i2))
      ==> FindEffect(song, p, i, Jump) == -1
  }

  /** Some row at or after (p, i) has jump parameter `r`, and no row between has a jump. */
  ghost predicate FirstJumpFrom(song: Song, p: nat, i: nat, r: int)
    requires song.Valid()
  {
    exists p': nat, i': nat ::
      && p' < song.length && i' < song.patternLength && !RowBefore(p', i', p, i)
      && FindEffect(song, p', i', Jump) == r && NoJumpBetween(song, p, i, p', i')
  }

  lemma FirstJumpHere(song: Song, p: nat, i: nat)
    requires song.Valid() && p < song.length && i < song.patternLength
    ensures FirstJumpFrom(song, p, i, FindEffect(song, p, i, Jump))
  {
    assert NoJumpBetween(song, p, i, p, i);
  }

  lemma FirstJumpLater(song: Song, p: nat, i: nat, r: int)
    requires song.Valid() && p < song.length && i < song.patternLength
    requires FindEffect(song, p, i, Jump) == -1 && FirstJumpFrom(song, p, i + 1, r)
    ensures FirstJumpFrom(song, p, i, r)
  {
    var p': nat, i': nat :| && p' < song.length && i' < song.patternLength && !RowBefore(p', i', p, i + 1)
      && FindEffect(song, p', i', Jump) == r && NoJumpBetween(song, p, i + 1, p', i');
    assert NoJumpBetween(song, p, i, p', i');
  }

  lemma FirstJumpNextPosition(song: Song, p: nat, r: int)
    requires song.Valid() && p < song.length
    requires FirstJumpFrom(song, p + 1, 0, r)
    ensures FirstJumpFrom(song, p, song.patternLength, r)
  {
    var p': nat, i': nat :| && p' < song.length && i' < song.patternLength && !RowBefore(p', i', p + 1, 0)
      && FindEffect(song, p', i', Jump) == r && NoJumpBetween(song, p + 1, 0, p', i');
    assert NoJumpBetween(song, p, song.patternLength, p', i');
  }

  /** The jump parameter of the first row at or after (p, i) in song order that has a jump, or -1. */
  function FindJumpFrom(song: Song, p: nat, i: nat): (r: int)
    requires song.Valid() && p <= song.length && i <= song.patternLength
    ensures -1 <= r < 256
    ensures r == -1 <==> NoJumpBetween(song, p, i, song.length, 0)
    ensures r != -1 ==> FirstJumpFrom(song, p, i, r)
    decreases song.length - p, song.patternLength - i
  {
    if p == song.length then -1
    else if i == song.patternLength then
      var r := FindJumpFrom(song, p + 1, 0);
      if r == -1 then r
      else
        FirstJumpNextPosition(song, p, r);
        r
    else
      var fx := FindEffect(song, p, i, Jump);
      if fx >= 0 then
        FirstJumpHere(song, p, i);
        fx
      else
        var r := FindJumpFrom(song, p, i + 1);
        if r == -1 then r
        else
          FirstJumpLater(song, p, i, r);
          r
  }

  /** The loop target of a song: the parameter of its first jump effect in song order, or 0 when
      it has none. */
  function FindLoopPoint(song: Song): (r: nat)
    requires song.Valid()
    ensures r < 256
    ensures NoJumpBetween(song, 0, 0, song.length, 0) ==> r == 0
    ensures !NoJumpBetween(song, 0, 0, song.length, 0) ==> FirstJumpFrom(song, 0, 0, r)
  {
    var r := FindJumpFrom(song, 0, 0);
    if r >= 0 then r else 0
  }
}
