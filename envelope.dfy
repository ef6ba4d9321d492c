/** The FamiTone2 envelope encoder: each envelope value is clamped to [-64, 63] and biased by
    192 into a "value byte" (128..255); repeats of a value collapse into "count bytes" (1..126);
    the stream ends with a 0 terminator and the loop pointer. */
module EnvelopeRle {
  import opened FamitoneData

  /** The encoder works in a 256-byte buffer with a byte cursor; for an envelope of at most
      this many frames the body and the two trailer bytes fit without the cursor wrapping. */
  const MaxEnvelopeLength := 253

  const MaxRunByte := 126

  function Clamp(v: int8): (r: int)
    ensures -64 <= r <= 63
  {
    if v < -64 then -64 else if v > 63 then 63 else v
  }

  /** The value byte of an envelope value. */
  function Biased(v: int8): (r: byte)
    ensures 128 <= r
  {
    Clamp(v) + 192
  }

  function BiasedSeq(vals: seq<int8>): (r: seq<byte>)
    ensures |r| == |vals|
    ensures forall k :: 0 <= k < |vals| ==> r[k] == Biased(vals[k])
  {
    seq(|vals|, k requires 0 <= k < |vals| => Biased(vals[k]))
  }

  /** `prev_val` before the first frame, `(byte)(Values[0] + 1)`. */
  function InitialPrev(v0: int8): byte {
    ((v0 as int) + 1) % 256
  }

  lemma InitialPrevNeverMatches(v0: int8)
    ensures InitialPrev(v0) != Biased(v0)
  {
  }

  /** The count bytes of a run of `c` repeats: 126 while more than 126 remain, then the rest. */
  function CountBytes(c: nat): (r: seq<byte>)
    requires c >= 1
    ensures 1 <= |r| <= c
    decreases c
  {
    if c > MaxRunByte then [MaxRunByte as byte] + CountBytes(c - MaxRunByte) else [c as byte]
  }

  /** What the encoder writes for the `cnt` pending repeats of `prev` when a run ends. */
  function Flush(prev: byte, cnt: nat): (r: seq<byte>)
    ensures |r| <= cnt
  {
    if cnt == 0 then [] else if cnt == 1 then [prev] else CountBytes(cnt)
  }

  /** The encoder's running state: bytes written, `prev_val` and `rle_cnt`. */
  datatype RleState = RleState(bytes: seq<byte>, prev: byte, cnt: nat)

  /** A frame writes bytes when its value differs from the previous one or it is the last frame. */
  predicate Writes(vals: seq<int8>, j: nat, st: RleState)
    requires j < |vals|
  {
    st.prev != Biased(vals[j]) || j == |vals| - 1
  }

  /** One frame of the encoder's loop. */
  function RleStep(vals: seq<int8>, j: nat, st: RleState): RleState
    requires j < |vals|
  {
    var v := Biased(vals[j]);
    if Writes(vals, j, st) then RleState(st.bytes + Flush(st.prev, st.cnt) + [v], v, 0)
    else RleState(st.bytes, st.prev, st.cnt + 1)
  }

  /** The state after the first `k` frames. */
  function RleUpTo(vals: seq<int8>, k: nat): RleState
    requires 0 < |vals| && k <= |vals|
  {
    if k == 0 then RleState([], InitialPrev(vals[0]), 0) else RleStep(vals, k - 1, RleUpTo(vals, k - 1))
  }

  /** The bytes before the trailer. */
  function Body(vals: seq<int8>): seq<byte>
    requires 0 < |vals|
  {
    RleUpTo(vals, |vals|).bytes
  }

  // ----- the driver's reading of the bytes -----

  /** The most recent value byte (0 before any). */
  function LastValue(bs: seq<byte>): byte {
    if bs == [] then 0
    else if bs[|bs| - 1] >= 128 then bs[|bs| - 1]
    else LastValue(bs[..|bs| - 1])
  }

  /** The frames a byte stream plays: a value byte plays itself, a count byte n plays n more
      copies of the preceding value byte. */
  function Expand(bs: seq<byte>): seq<byte> {
    if bs == [] then []
    else
      var init, b := bs[..|bs| - 1], bs[|bs| - 1];
      if b >= 128 then Expand(init) + [b] else Expand(init) + Repeat(LastValue(init), b)
  }

  /** Every byte is a value byte or a count byte 1..126; a count byte follows a value byte or a
      126; a count of 1 only follows a 126 (a single repeat is written as a value byte). */
  ghost predicate ByteClasses(bs: seq<byte>) {
    forall i :: 0 <= i < |bs| ==> ByteFits(bs, i)
  }

  /** The byte at `i` is a value byte, or a count byte in a place where one may stand. */
  ghost predicate ByteFits(bs: seq<byte>, i: nat)
    requires i < |bs|
  {
    bs[i] >= 128 ||
    (1 <= bs[i] <= MaxRunByte && i > 0 && (bs[i - 1] >= 128 || bs[i - 1] == MaxRunByte) &&
     (bs[i] == 1 ==> bs[i - 1] == MaxRunByte))
  }

  /** What holds of the state after `k` frames. */
  ghost predicate RleInv(vals: seq<int8>, k: nat, st: RleState)
    requires k <= |vals|
  {
    && |st.bytes| + st.cnt <= k
    && ByteClasses(st.bytes)
    && (k == 0 ==> st.bytes == [] && st.cnt == 0)
    && (k > 0 ==>
          && |st.bytes| >= 1
          && st.bytes[|st.bytes| - 1] >= 128
          && st.prev == Biased(vals[k - 1])
          && LastValue(st.bytes) == st.prev
          && Expand(st.bytes) + Repeat(st.prev, st.cnt) == BiasedSeq(vals[..k]))
  }

  // ----- lemmas about the reading -----

  lemma RepeatAdd<T>(x: T, a: nat, b: nat)
    ensures Repeat(x, a) + Repeat(x, b) == Repeat(x, a + b)
  {
    assert Repeat(x, a) + Repeat(x, b) == Repeat(x, a + b);
  }

  lemma ExpandAppendValue(bs: seq<byte>, v: byte)
    requires v >= 128
    ensures Expand(bs + [v]) == Expand(bs) + [v]
    ensures LastValue(bs + [v]) == v
  {
    assert (bs + [v])[..|bs + [v]| - 1] == bs;
  }

  /** One count byte plays that many copies of the preceding value byte. */
  lemma ExpandAppendCount(bs: seq<byte>, r: byte)
    requires 1 <= r < 128
    ensures Expand(bs + [r]) == Expand(bs) + Repeat(LastValue(bs), r)
    ensures LastValue(bs + [r]) == LastValue(bs)
  {
    var t := bs + [r];
    assert t[..|t| - 1] == bs;
  }

  lemma {:induction false} LastValueAppendCounts(bs: seq<byte>, c: nat)
    requires c >= 1
    ensures LastValue(bs + CountBytes(c)) == LastValue(bs)
    decreases c
  {
    if c > MaxRunByte {
      var bs1 := bs + [MaxRunByte as byte];
      assert LastValue(bs1) == LastValue(bs) by { ExpandAppendCount(bs, MaxRunByte as byte); }
      assert LastValue(bs1 + CountBytes(c - MaxRunByte)) == LastValue(bs1) by {
        LastValueAppendCounts(bs1, c - MaxRunByte);
      }
      assert bs + CountBytes(c) == bs1 + CountBytes(c - MaxRunByte) by {
        assert CountBytes(c) == [MaxRunByte as byte] + CountBytes(c - MaxRunByte);
        AppendAssoc(bs, [MaxRunByte as byte], CountBytes(c - MaxRunByte));
      }
    } else {
      assert bs + CountBytes(c) == bs + [c as byte];
      ExpandAppendCount(bs, c as byte);
    }
  }

  lemma {:induction false} ExpandAppendCounts(bs: seq<byte>, c: nat)
    requires c >= 1
    ensures Expand(bs + CountBytes(c)) == Expand(bs) + Repeat(LastValue(bs), c)
    ensures LastValue(bs + CountBytes(c)) == LastValue(bs)
    decreases c
  {
    LastValueAppendCounts(bs, c);
    var x := LastValue(bs);
    if c > MaxRunByte {
      var bs1, rest := bs + [MaxRunByte as byte], CountBytes(c - MaxRunByte);
      var e, r1, r2 := Expand(bs), Repeat(x, MaxRunByte), Repeat(x, c - MaxRunByte);
      assert bs + CountBytes(c) == bs1 + rest by {
        assert CountBytes(c) == [MaxRunByte as byte] + rest;
        AppendAssoc(bs, [MaxRunByte as byte], rest);
      }
      assert Expand(bs1 + rest) == e + r1 + r2 by {
        ExpandAppendCount(bs, MaxRunByte as byte);
        ExpandAppendCounts(bs1, c - MaxRunByte);
      }
      assert e + r1 + r2 == e + Repeat(x, c) by {
        RepeatAdd(x, MaxRunByte, c - MaxRunByte);
        AppendAssoc(e, r1, r2);
      }
    } else {
      assert bs + CountBytes(c) == bs + [c as byte];
      ExpandAppendCount(bs, c as byte);
    }
  }

  /** Count bytes appended after a value byte or a 126 keep the byte classes. */
  lemma {:induction false} ClassesAppendCounts(bs: seq<byte>, c: nat)
    requires c >= 1 && ByteClasses(bs) && |bs| >= 1
    requires bs[|bs| - 1] >= 128 || bs[|bs| - 1] == MaxRunByte
    requires c == 1 ==> bs[|bs| - 1] == MaxRunByte
    ensures ByteClasses(bs + CountBytes(c))
    ensures var t := bs + CountBytes(c); t[|t| - 1] < 128
    decreases c
  {
    var r := if c > MaxRunByte then MaxRunByte else c;
    var bs1 := bs + [r as byte];
    assert ByteClasses(bs1) by {
      forall i | 0 <= i < |bs1|
        ensures ByteFits(bs1, i)
      {
        if i < |bs| { assert ByteFits(bs, i); if i > 0 { assert bs1[i - 1] == bs[i - 1]; } }
      }
    }
    if c > MaxRunByte {
      ClassesAppendCounts(bs1, c - MaxRunByte);
      assert bs + CountBytes(c) == bs1 + CountBytes(c - MaxRunByte);
    } else {
      assert bs + CountBytes(c) == bs1;
    }
  }

  lemma ClassesAppendValue(bs: seq<byte>, v: byte)
    requires ByteClasses(bs) && v >= 128
    ensures ByteClasses(bs + [v])
  {
    var t := bs + [v];
    forall i | 0 <= i < |t|
      ensures ByteFits(t, i)
    {
      if i < |bs| { assert ByteFits(bs, i); if i > 0 { assert t[i - 1] == bs[i - 1]; } }
    }
  }

  /** A classified stream starts with a value byte. */
  lemma FirstByteIsValue(bs: seq<byte>)
    requires ByteClasses(bs) && |bs| >= 1
    ensures bs[0] >= 128
  {
    assert ByteFits(bs, 0);
  }

  lemma BiasedSeqSnoc(vals: seq<int8>, k: nat)
    requires k < |vals|
    ensures BiasedSeq(vals[..k + 1]) == BiasedSeq(vals[..k]) + [Biased(vals[k])]
  {
    assert BiasedSeq(vals[..k + 1]) == BiasedSeq(vals[..k]) + [Biased(vals[k])];
  }

  lemma RleFirstStepInv(vals: seq<int8>)
    requires 0 < |vals|
    ensures RleInv(vals, 1, RleStep(vals, 0, RleState([], InitialPrev(vals[0]), 0)))
  {
    var v := Biased(vals[0]);
    var st0 := RleState([], InitialPrev(vals[0]), 0);
    var one: seq<byte> := [v];
    InitialPrevNeverMatches(vals[0]);
    assert RleStep(vals, 0, st0) == RleState(one, v, 0) by {
      assert Writes(vals, 0, st0);
      assert st0.bytes + Flush(st0.prev, 0) + [v] == one;
    }
    assert [] + one == one;
    ClassesAppendValue([], v);
    ExpandAppendValue([], v);
    assert Expand(one) + Repeat(v, 0) == one;
    assert BiasedSeq(vals[..1]) == one;
  }

  /** Flushing the pending repeats of the last value byte plays them and keeps the classes. */
  lemma FlushInv(bs: seq<byte>, prev: byte, cnt: nat)
    requires ByteClasses(bs) && |bs| >= 1 && bs[|bs| - 1] >= 128 && LastValue(bs) == prev
    ensures var mid := bs + Flush(prev, cnt);
      && Expand(mid) == Expand(bs) + Repeat(prev, cnt)
      && LastValue(mid) == prev
      && ByteClasses(mid)
      && |mid| <= |bs| + cnt
  {
    if cnt == 0 {
      assert bs + Flush(prev, cnt) == bs;
    } else if cnt == 1 {
      assert prev >= 128 by { assert LastValue(bs) == bs[|bs| - 1]; }
      assert Repeat(prev, 1) == [prev];
      ExpandAppendValue(bs, prev);
      ClassesAppendValue(bs, prev);
    } else {
      ExpandAppendCounts(bs, cnt);
      ClassesAppendCounts(bs, cnt);
    }
  }

  lemma RleWriteStepInv(vals: seq<int8>, k: nat, st: RleState)
    requires 0 < k < |vals| && RleInv(vals, k, st) && Writes(vals, k, st)
    ensures RleInv(vals, k + 1, RleStep(vals, k, st))
  {
    var v := Biased(vals[k]);
    var mid := st.bytes + Flush(st.prev, st.cnt);
    FlushInv(st.bytes, st.prev, st.cnt);
    ExpandAppendValue(mid, v);
    ClassesAppendValue(mid, v);
    assert RleStep(vals, k, st) == RleState(mid + [v], v, 0);
    BiasedSeqSnoc(vals, k);
    assert Expand(mid + [v]) + Repeat(v, 0) == BiasedSeq(vals[..k + 1]);
  }

  lemma RleHoldStepInv(vals: seq<int8>, k: nat, st: RleState)
    requires 0 < k < |vals| && RleInv(vals, k, st) && !Writes(vals, k, st)
    ensures RleInv(vals, k + 1, RleStep(vals, k, st))
  {
    BiasedSeqSnoc(vals, k);
    RepeatAdd(st.prev, st.cnt, 1);
  }

  /** One frame keeps RleInv. */
  lemma RleStepInv(vals: seq<int8>, k: nat, st: RleState)
    requires k < |vals| && RleInv(vals, k, st)
    requires k == 0 ==> st.prev == InitialPrev(vals[0])
    ensures RleInv(vals, k + 1, RleStep(vals, k, st))
  {
    if k == 0 {
      assert st == RleState([], InitialPrev(vals[0]), 0);
      RleFirstStepInv(vals);
    } else if Writes(vals, k, st) {
      RleWriteStepInv(vals, k, st);
    } else {
      RleHoldStepInv(vals, k, st);
    }
  }

  lemma {:induction false} RleUpToInv(vals: seq<int8>, k: nat)
    requires 0 < |vals| && k <= |vals|
    ensures RleInv(vals, k, RleUpTo(vals, k))
    ensures k == 0 ==> RleUpTo(vals, k).prev == InitialPrev(vals[0])
    decreases k
  {
    if k > 0 {
      RleUpToInv(vals, k - 1);
      RleStepInv(vals, k - 1, RleUpTo(vals, k - 1));
    }
  }

  /** The bytes of the first `j` frames are a prefix of those of the first `k`. */
  lemma {:induction false} RleUpToPrefix(vals: seq<int8>, j: nat, k: nat)
    requires 0 < |vals| && j <= k <= |vals|
    ensures RleUpTo(vals, j).bytes <= RleUpTo(vals, k).bytes
    decreases k
  {
    if j < k {
      RleUpToPrefix(vals, j, k - 1);
    }
  }

  /** The last frame always writes, so nothing is pending at the end. */
  lemma EndFlushed(vals: seq<int8>)
    requires 0 < |vals|
    ensures RleUpTo(vals, |vals|).cnt == 0
    ensures |RleUpTo(vals, |vals| - 1).bytes| < |Body(vals)|
  {
  }

  // ----- the result -----

  /** The loop pointer as the source computes it: the number of bytes written before frame
      `loop`, plus one if that byte is a count byte; the last body byte when `loop` is not a
      frame index. */
  function LoopPointer(vals: seq<int8>, loop: int): (r: nat)
    requires 0 < |vals|
  {
    var body := Body(vals);
    EndFlushed(vals);
    if 0 <= loop < |vals| then
      var q := |RleUpTo(vals, loop).bytes|;
      RleUpToPrefix(vals, loop, |vals| - 1);
      RleUpToPrefix(vals, |vals| - 1, |vals|);
      if body[q] < 128 then q + 1 else q
    else |body| - 1
  }

  /** ProcessEnvelope's result: None for an empty envelope, else body, terminator, pointer. */
  function EncodeEnvelope(env: Envelope): (r: Option<seq<byte>>)
    requires |env.values| <= MaxEnvelopeLength
    ensures r.None? <==> |env.values| == 0
    ensures r.Some? ==> var e := r.value;
      && |e| >= 3 && e[..|e| - 2] == Body(env.values) && e[|e| - 2] == 0
      && e[|e| - 1] < |e| - 2
  {
    if |env.values| == 0 then None
    else
      var p := LoopPointer(env.values, env.loop);
      EnvelopeTrailer(env);
      var e := Body(env.values) + [0, p as byte];
      assert e[..|e| - 2] == Body(env.values);
      Some(e)
  }

  /** The body of a non-empty envelope is no longer than the envelope, its bytes fall in the
      value and count classes, it starts and ends with a value byte (the last frame's), and the
      loop pointer always indexes a body byte. */
  lemma EnvelopeTrailer(env: Envelope)
    requires 0 < |env.values|
    ensures var body := Body(env.values);
      && 1 <= |body| <= |env.values|
      && ByteClasses(body)
      && body[0] >= 128
      && body[|body| - 1] == Biased(env.values[|env.values| - 1])
      && LoopPointer(env.values, env.loop) < |body|
      && (!(0 <= env.loop < |env.values|) ==> LoopPointer(env.values, env.loop) == |body| - 1)
  {
    var vals := env.values;
    RleUpToInv(vals, |vals|);
    RleUpToInv(vals, |vals| - 1);
    var body := Body(vals);
    EndFlushed(vals);
    FirstByteIsValue(body);
    if 0 <= env.loop < |vals| {
      var q := |RleUpTo(vals, env.loop).bytes|;
      RleUpToPrefix(vals, env.loop, |vals| - 1);
      if body[q] < 128 {
        assert q != |body| - 1;
      }
    }
  }

  /** Round trip: the frames the body plays are exactly the clamped, biased values in order. */
  lemma EnvelopeRoundTrip(env: Envelope)
    requires 0 < |env.values|
    ensures Expand(Body(env.values)) == BiasedSeq(env.values)
  {
    var vals := env.values;
    RleUpToInv(vals, |vals|);
    assert vals[..|vals|] == vals;
  }

  /** A constant envelope of n frames: one value byte, then (for n >= 4) the count bytes of the
      n - 2 repeats, then the last frame's value byte again; up to 3 frames are plain value bytes. */
  lemma {:induction false} ConstantEnvelope(v: int8, n: nat)
    requires 1 <= n <= MaxEnvelopeLength
    ensures var b := Biased(v);
      Body(Repeat(v, n)) == if n <= 3 then Repeat(b, n) else [b] + CountBytes(n - 2) + [b]
  {
    var vals := Repeat(v, n);
    var b := Biased(v);
    InitialPrevNeverMatches(v);
    if n == 1 {
      assert RleUpTo(vals, 0) == RleState([], InitialPrev(v), 0);
      return;
    }
    ConstantPrefix(v, n, n - 1);
    var st := RleUpTo(vals, n - 1);
    assert Writes(vals, n - 1, st);
    if n == 2 {
      assert st == RleState([b], b, 0);
    } else if n == 3 {
      assert st == RleState([b], b, 1);
    } else {
      assert st == RleState([b], b, n - 2);
    }
  }

  lemma {:induction false} ConstantPrefix(v: int8, n: nat, k: nat)
    requires 1 <= k < n
    ensures RleUpTo(Repeat(v, n), k) == RleState([Biased(v)], Biased(v), k - 1)
    decreases k
  {
    var vals := Repeat(v, n);
    if k == 1 {
      InitialPrevNeverMatches(v);
    } else {
      ConstantPrefix(v, n, k - 1);
    }
  }

  // ----- where the loop pointer lands -----

  /** A value byte at the front of `b` makes `b` independent of what precedes it. */
  lemma {:induction false} LastValueConcat(a: seq<byte>, b: seq<byte>)
    requires |b| >= 1 && b[0] >= 128
    ensures LastValue(a + b) == LastValue(b)
    decreases |b|
  {
    var ab := a + b;
    var b' := b[..|b| - 1];
    assert ab[..|ab| - 1] == a + b';
    if b[|b| - 1] < 128 {
      assert |b'| >= 1 && b'[0] == b[0];
      LastValueConcat(a, b');
    }
  }

  /** Playing a stream that continues with a value byte plays the two parts one after the
      other. */
  lemma {:induction false} ExpandConcat(a: seq<byte>, b: seq<byte>)
    requires |b| >= 1 && b[0] >= 128
    ensures Expand(a + b) == Expand(a) + Expand(b)
    decreases |b|
  {
    var ab := a + b;
    var b' := b[..|b| - 1];
    assert ab[..|ab| - 1] == a + b';
    if |b| == 1 {
      assert b' == [] && a + b' == a;
      assert Expand(b) == [b[0]] by { assert b[..0] == []; }
    } else {
      assert b'[0] == b[0];
      ExpandConcat(a, b');
      if b[|b| - 1] < 128 {
        LastValueConcat(a, b');
      }
    }
  }

  /** A frame that writes ends the bytes written so far with its own value byte, and those
      bytes are a prefix of the body. */
  lemma LoopFrameBytes(vals: seq<int8>, loop: nat)
    requires loop < |vals| && Writes(vals, loop, RleUpTo(vals, loop))
    ensures var st := RleUpTo(vals, loop);
      && RleUpTo(vals, loop + 1).bytes == st.bytes + Flush(st.prev, st.cnt) + [Biased(vals[loop])]
      && RleUpTo(vals, loop + 1).bytes <= Body(vals)
  {
    RleUpToPrefix(vals, loop + 1, |vals|);
  }

  /** The loop pointer with the evident intent: when the loop frame writes its own value byte,
      the index of that byte; otherwise as the source computes it. */
  function LoopPointerCorrected(vals: seq<int8>, loop: int): (r: nat)
    requires 0 < |vals|
    ensures r < |Body(vals)|
  {
    EnvelopeTrailer(Envelope(vals, loop));
    if 0 <= loop < |vals| && Writes(vals, loop, RleUpTo(vals, loop)) then
      LoopFrameBytes(vals, loop);
      |RleUpTo(vals, loop + 1).bytes| - 1
    else LoopPointer(vals, loop)
  }

  /** EncodeEnvelope with the corrected loop pointer. */
  function EncodeEnvelopeCorrected(env: Envelope): (r: Option<seq<byte>>)
    requires |env.values| <= MaxEnvelopeLength
    ensures r.None? <==> |env.values| == 0
    ensures r.Some? ==> var e := r.value;
      && |e| >= 3 && e[..|e| - 2] == Body(env.values) && e[|e| - 2] == 0
      && e[|e| - 1] < |e| - 2
  {
    if |env.values| == 0 then None
    else
      var p := LoopPointerCorrected(env.values, env.loop);
      EnvelopeTrailer(env);
      var e := Body(env.values) + [0, p as byte];
      assert e[..|e| - 2] == Body(env.values);
      Some(e)
  }

  /** The bytes before the corrected pointer play the frames before the loop frame. */
  lemma PrefixBeforeLoop(vals: seq<int8>, loop: nat)
    requires loop < |vals| && Writes(vals, loop, RleUpTo(vals, loop))
    ensures var p := LoopPointerCorrected(vals, loop);
      Expand(Body(vals)[..p]) == BiasedSeq(vals[..loop])
  {
    var st := RleUpTo(vals, loop);
    var mid := st.bytes + Flush(st.prev, st.cnt);
    assert Body(vals)[..LoopPointerCorrected(vals, loop)] == mid by {
      LoopFrameBytes(vals, loop);
    }
    assert Expand(mid) == BiasedSeq(vals[..loop]) by {
      RleUpToInv(vals, loop);
      if loop == 0 {
        assert mid == [];
      } else {
        FlushInv(st.bytes, st.prev, st.cnt);
      }
    }
  }

  /** The body bytes from the corrected pointer on play the frames from the loop frame on. */
  lemma SuffixFromLoop(vals: seq<int8>, loop: nat)
    requires loop < |vals| && Writes(vals, loop, RleUpTo(vals, loop))
    ensures var p := LoopPointerCorrected(vals, loop);
      Expand(Body(vals)[p..]) == BiasedSeq(vals[loop..])
  {
    var p := LoopPointerCorrected(vals, loop);
    PrefixBeforeLoop(vals, loop);
    FirstValueAt(vals, loop);
    EnvelopeRoundTrip(Envelope(vals, loop));
    BiasedSeqSplit(vals, loop);
    ReplayFrom(Body(vals), p, BiasedSeq(vals[..loop]), BiasedSeq(vals[loop..]));
  }

  /** If the bytes before a value byte at `p` play `x` and the whole stream plays `x + z`,
      the bytes from `p` on play `z`. */
  lemma ReplayFrom(bs: seq<byte>, p: nat, x: seq<byte>, z: seq<byte>)
    requires p < |bs| && bs[p] >= 128
    requires Expand(bs[..p]) == x && Expand(bs) == x + z
    ensures Expand(bs[p..]) == z
  {
    assert bs == bs[..p] + bs[p..];
    assert bs[p..][0] == bs[p];
    ExpandConcat(bs[..p], bs[p..]);
    assert Expand(bs[p..]) == (x + Expand(bs[p..]))[|x|..];
    assert z == (x + z)[|x|..];
  }

  lemma BiasedSeqSplit(vals: seq<int8>, k: nat)
    requires k <= |vals|
    ensures BiasedSeq(vals) == BiasedSeq(vals[..k]) + BiasedSeq(vals[k..])
  {
    assert BiasedSeq(vals) == BiasedSeq(vals[..k]) + BiasedSeq(vals[k..]);
  }

  /** With the corrected pointer, a loop to a frame that starts a new value byte replays
      exactly the frames from the loop frame to the end. */
  lemma LoopReplay(env: Envelope)
    requires 0 < |env.values| <= MaxEnvelopeLength
    requires 0 <= env.loop < |env.values|
    requires Writes(env.values, env.loop, RleUpTo(env.values, env.loop))
    ensures var e := EncodeEnvelopeCorrected(env).value;
      Expand(e[e[|e| - 1]..|e| - 2]) == BiasedSeq(env.values[env.loop..])
  {
    var e := EncodeEnvelopeCorrected(env).value;
    var p := LoopPointerCorrected(env.values, env.loop);
    assert e[|e| - 1] == p;
    assert e[p..|e| - 2] == Body(env.values)[p..];
    SuffixFromLoop(env.values, env.loop);
  }

  /** The byte after the flush of the loop frame is that frame's value byte. */
  lemma FirstValueAt(vals: seq<int8>, loop: nat)
    requires 0 <= loop < |vals|
    ensures var p := LoopPointerCorrected(vals, loop);
      Writes(vals, loop, RleUpTo(vals, loop)) ==> Body(vals)[p] >= 128
  {
    if Writes(vals, loop, RleUpTo(vals, loop)) {
      RleUpToPrefix(vals, loop + 1, |vals|);
      RleUpToInv(vals, loop + 1);
    }
  }

  /** The source's pointer is the corrected one whenever the loop frame ends no run or a run
      of 2..126 repeats (one count byte); it differs after a single repeat or after more than
      126. */
  lemma LoopPointerAgrees(vals: seq<int8>, loop: int)
    requires 0 < |vals|
    requires 0 <= loop < |vals| ==>
      var st := RleUpTo(vals, loop);
      Writes(vals, loop, st) ==> st.cnt == 0 || 2 <= st.cnt <= MaxRunByte
    ensures LoopPointer(vals, loop) == LoopPointerCorrected(vals, loop)
  {
    if 0 <= loop < |vals| && Writes(vals, loop, RleUpTo(vals, loop)) {
      var st := RleUpTo(vals, loop);
      RleUpToPrefix(vals, loop + 1, |vals|);
      assert RleUpTo(vals, loop + 1).bytes == st.bytes + Flush(st.prev, st.cnt) + [Biased(vals[loop])];
      RleUpToInv(vals, loop);
      if st.cnt == 0 {
        assert Body(vals)[|st.bytes|] == Biased(vals[loop]);
      } else {
        assert Flush(st.prev, st.cnt) == [st.cnt as byte];
        assert Body(vals)[|st.bytes|] == st.cnt;
      }
    }
  }

  /** The source's loop pointer one frame early: frames 0, 0, 5 looping at frame 2 encode to
      c0 c0 c5 00 01, and the bytes from index 1 play c0 c5 instead of c5; the corrected
      pointer is 2. */
  lemma LoopPointerEarly()
    ensures EncodeEnvelope(Envelope([0, 0, 5], 2)) == Some([0xc0, 0xc0, 0xc5, 0, 1])
    ensures Expand([0xc0, 0xc0, 0xc5][1..]) == [0xc0, 0xc5] != BiasedSeq([5])
    ensures EncodeEnvelopeCorrected(Envelope([0, 0, 5], 2)) == Some([0xc0, 0xc0, 0xc5, 0, 2])
  {
    var vals: seq<int8> := [0, 0, 5];
    assert RleUpTo(vals, 0) == RleState([], 1, 0);
    assert RleUpTo(vals, 1) == RleState([0xc0], 0xc0, 0);
    assert RleUpTo(vals, 2) == RleState([0xc0], 0xc0, 1);
    assert RleUpTo(vals, 3) == RleState([0xc0, 0xc0, 0xc5], 0xc5, 0);
    assert Body(vals) == [0xc0, 0xc0, 0xc5];
    assert LoopPointer(vals, 2) == 1;
    assert Writes(vals, 2, RleUpTo(vals, 2));
    assert LoopPointerCorrected(vals, 2) == 2;
    assert Envelope([0, 0, 5], 2).values == vals;
    assert EncodeEnvelope(Envelope(vals, 2)) == Some([0xc0, 0xc0, 0xc5] + [0, 1]);
    assert EncodeEnvelopeCorrected(Envelope(vals, 2)) == Some([0xc0, 0xc0, 0xc5] + [0, 2]);
    assert [0xc0, 0xc0, 0xc5] + [0, 1] == [0xc0, 0xc0, 0xc5, 0, 1];
    assert [0xc0, 0xc0, 0xc5] + [0, 2] == [0xc0, 0xc0, 0xc5, 0, 2];
    var tail: seq<byte> := [0xc0, 0xc5];
    assert tail[..1] == [0xc0] && [0xc0][..0] == [];
    assert Expand(tail) == [0xc0, 0xc5];
    assert BiasedSeq([5]) == [0xc5];
  }

  // ----- the wrapping byte cursor -----

  /** Up to this many frames the loop frame's cursor stays below the 0xff "no loop" marker and
      no body byte is overwritten before the pointer check reads it. */
  const MaxWrappedLength := 255

  /** The whole code, as a cursor that does not wrap would leave it: the body, the terminator
      and the loop pointer. For the envelopes the exporter takes it is EncodeEnvelope's. */
  function FullCode(env: Envelope): (r: seq<byte>)
    requires 0 < |env.values| <= MaxWrappedLength
    ensures |r| == |Body(env.values)| + 2 >= 3
    ensures r[..|r| - 2] == Body(env.values) && r[|r| - 2] == 0 && r[|r| - 1] < |r| - 2
    ensures Expand(r[..|r| - 2]) == BiasedSeq(env.values)
    ensures |env.values| <= MaxEnvelopeLength ==> EncodeEnvelope(env) == Some(r)
  {
    EnvelopeTrailer(env);
    EnvelopeRoundTrip(env);
    var r := Body(env.values) + [0, LoopPointer(env.values, env.loop) as byte];
    assert r[..|r| - 2] == Body(env.values);
    r
  }

  /** What the source returns: its cursor is a byte, so a code of 256 bytes or more sends the
      writes round the buffer again, and `Array.Resize` to the cursor keeps only the bytes
      written after the wrap. The code comes back whole exactly when it is shorter than 256. */
  function WrappedCode(env: Envelope): (r: seq<byte>)
    requires 0 < |env.values| <= MaxWrappedLength
    ensures |r| == (|Body(env.values)| + 2) % 256
    ensures r == FullCode(env) <==> |Body(env.values)| + 2 < 256
  {
    EnvelopeTrailer(env);
    var e := FullCode(env);
    var r := e[|e| - |e| % 256..];
    assert |e| < 256 ==> r == e;
    assert 256 <= |e| ==> |r| < |e|;
    r
  }

  /** Frames that alternate between 0 and 1. */
  function Alternating(n: nat): (r: seq<int8>)
    ensures |r| == n
  {
    seq(n, k => (k % 2) as int8)
  }

  /** When no frame repeats its predecessor, every frame writes its own value byte. */
  lemma {:induction false} ChangingFramesBody(vals: seq<int8>, k: nat)
    requires 0 < |vals| && k <= |vals|
    requires forall j :: 0 < j < |vals| ==> Biased(vals[j - 1]) != Biased(vals[j])
    ensures RleUpTo(vals, k).bytes == BiasedSeq(vals[..k]) && RleUpTo(vals, k).cnt == 0
    ensures 0 < k ==> RleUpTo(vals, k).prev == Biased(vals[k - 1])
    decreases k
  {
    if k > 0 {
      ChangingFramesBody(vals, k - 1);
      InitialPrevNeverMatches(vals[0]);
      assert BiasedSeq(vals[..k]) == BiasedSeq(vals[..k - 1]) + [Biased(vals[k - 1])];
    }
  }

  /** 254 alternating frames give a 254-byte body and a 256-byte code; the byte cursor ends
      at 0 and the source returns an empty array. */
  lemma WrapEmptiesCode()
    ensures var env := Envelope(Alternating(254), -1);
      |Body(env.values)| == 254 && |FullCode(env)| == 256 && WrappedCode(env) == []
  {
    var vals := Alternating(254);
    forall j | 0 < j < |vals|
      ensures Biased(vals[j - 1]) != Biased(vals[j])
    {
    }
    ChangingFramesBody(vals, 254);
    assert vals[..254] == vals;
  }

  // ----- the imperative encoder -----

  lemma BiasedByte(c: int)
    requires -64 <= c <= 63
    ensures (c % 256 + 192) % 256 == c + 192
  {
  }

  /** The clamped, biased value byte of a frame, computed the way the encoder does it: clamp,
      cast to a byte, add 192 with byte wrap-around. */
  method ValueByte(v: int8) returns (val: byte)
    ensures val == Biased(v)
  {
    if v < -64 {
      val := (-64) % 256;
    } else if v > 63 {
      val := 63;
    } else {
      val := (v as int) % 256;
    }
    BiasedByte(Clamp(v));
    val := (val + 192) % 256;
  }

  /** Writes the pending repeats of a run at `ptr`: one value byte for a single repeat, else
      count bytes of at most 126 each. */
  method FlushRun(data: array<byte>, ptr: nat, prevVal: byte, rleCnt: nat) returns (ptr': nat)
    requires ptr + rleCnt <= data.Length
    modifies data
    ensures ptr' == ptr + |Flush(prevVal, rleCnt)| && ptr' <= data.Length
    ensures data[..ptr'] == old(data[..ptr]) + Flush(prevVal, rleCnt)
  {
    ptr' := ptr;
    if rleCnt == 0 {
      return;
    }
    if rleCnt == 1 {
      data[ptr'] := prevVal;
      ptr' := ptr' + 1;
      return;
    }
    ghost var target := data[..ptr] + CountBytes(rleCnt);
    var cnt := rleCnt;
    while cnt > MaxRunByte
      invariant 1 <= cnt && ptr' + |CountBytes(cnt)| <= ptr + rleCnt
      invariant data[..ptr'] + CountBytes(cnt) == target
    {
      data[ptr'] := MaxRunByte;
      ptr' := ptr' + 1;
      cnt := cnt - MaxRunByte;
    }
    data[ptr'] := cnt;
    ptr' := ptr' + 1;
  }

  /** The loop cursor the frame loop leaves for a loop frame: the bytes written before it, as
      the source records it; with the correction, the index of the loop frame's own value byte
      when that frame writes one. */
  function LoopCursor(vals: seq<int8>, loop: nat, corrected: bool): (r: nat)
    requires loop < |vals|
  {
    if corrected && Writes(vals, loop, RleUpTo(vals, loop)) then
      LoopFrameBytes(vals, loop);
      |RleUpTo(vals, loop + 1).bytes| - 1
    else |RleUpTo(vals, loop).bytes|
  }

  /** The frame loop of ProcessEnvelope: writes the body into `data` and returns the cursor and
      the loop cursor (0xff when no frame is `loop`). With `corrected` the loop cursor is also
      recorded after the flush of a loop frame that writes, which is the evident intent. */
  method FillBody(data: array<byte>, vals: seq<int8>, loop: int, corrected: bool) returns (ptr: nat, ptrLoop: nat)
    requires 0 < |vals| <= MaxEnvelopeLength && data.Length == 256
    modifies data
    ensures ptr <= |vals| && data[..ptr] == Body(vals)
    ensures ptrLoop == if 0 <= loop < |vals| then LoopCursor(vals, loop, corrected) else 0xff
  {
    var n := |vals|;
    ptr := 0;
    ptrLoop := 0xff;
    var rleCnt: nat := 0;
    var prevVal: byte := ((vals[0] as int) + 1) % 256;
    var j := 0;
    while j < n
      invariant 0 <= j <= n
      invariant ptr + rleCnt <= j
      invariant RleUpTo(vals, j) == RleState(data[..ptr], prevVal, rleCnt)
      invariant ptrLoop == if 0 <= loop < j then LoopCursor(vals, loop, corrected) else 0xff
    {
      if j == loop {
        ptrLoop := ptr;
      }
      var val := ValueByte(vals[j]);
      if prevVal != val || j == n - 1 {
        ptr := FlushRun(data, ptr, prevVal, rleCnt);
        rleCnt := 0;
        data[ptr] := val;
        ptr := ptr + 1;
        prevVal := val;
        if corrected && j == loop {
          ptrLoop := ptr - 1;
        }
      } else {
        rleCnt := rleCnt + 1;
      }
      j := j + 1;
    }
  }

  /** The adjustment after the frame loop turns the loop cursor into the loop pointer. */
  lemma CursorAdjusts(vals: seq<int8>, loop: int, corrected: bool)
    requires 0 < |vals| <= MaxEnvelopeLength
    ensures var body := Body(vals);
      var c := if 0 <= loop < |vals| then LoopCursor(vals, loop, corrected) else 0xff;
      && 1 <= |body| <= |vals|
      && (c == 0xff || c < |body|)
      && (if corrected then LoopPointerCorrected(vals, loop) else LoopPointer(vals, loop))
         == (if c == 0xff then |body| - 1 else if body[c] < 128 then c + 1 else c)
  {
    EnvelopeTrailer(Envelope(vals, loop));
    if 0 <= loop < |vals| {
      FirstValueAt(vals, loop);
      RleUpToPrefix(vals, loop, |vals| - 1);
      RleUpToPrefix(vals, |vals| - 1, |vals|);
      EndFlushed(vals);
    }
  }

  /** ProcessEnvelope: fills a 256-byte buffer frame by frame, moves the loop cursor past a
      count byte (or to the last body byte when no frame is the loop frame), then appends the
      terminator and the loop pointer. Without `corrected` this is the encoder as written;
      with it, the encoder with the loop pointer on the loop frame's own value byte. */
  method ProcessEnvelope(env: Envelope, corrected: bool) returns (r: Option<seq<byte>>)
    requires |env.values| <= MaxEnvelopeLength
    ensures r == if corrected then EncodeEnvelopeCorrected(env) else EncodeEnvelope(env)
  {
    var vals := env.values;
    if |vals| == 0 {
      return None;
    }
    var data := new byte[256];
    var ptr, ptrLoop := FillBody(data, vals, env.loop, corrected);
    CursorAdjusts(vals, env.loop, corrected);
    if ptrLoop == 0xff {
      ptrLoop := ptr - 1;
    } else if data[ptrLoop] < 128 {
      ptrLoop := ptrLoop + 1;
    }
    ghost var body := data[..ptr];
    data[ptr] := 0;
    data[ptr + 1] := ptrLoop;
    assert data[..ptr + 2] == body + [0, ptrLoop];
    r := Some(data[..ptr + 2]);
  }
}
