/** What every edit shares (src/edit/util.rs and the `seqs` walks of the
    other edits): each channel is passed through when its mask bit is off
    and replaced when it is on. Also insert_multichannel and
    replace_multichannel. */
module EditUtil {
  import opened Util
  import opened Blocks
  import opened Sequences
  import opened SequenceOps
  import opened ChannelMasks
  import opened Snds
  import opened Ctxs

  /** The first |out| channels are done: an active channel holds the
      samples `want` names for it, an inactive one is the old channel. */
  predicate Applied(out: seq<BlockSequence>, chs: seq<BlockSequence>, m: Mask, want: seq<seq<real>>)
  {
    |out| <= |chs| == |want| && |chs| <= Channels && SoundChannels(out) && SoundChannels(chs) &&
    forall i :: 0 <= i < |out| ==>
      (m.IsOn(i) ==> out[i].Samples() == want[i]) && (!m.IsOn(i) ==> out[i] == chs[i])
  }

  /** Every channel is done. */
  predicate Edited(out: seq<BlockSequence>, chs: seq<BlockSequence>, m: Mask, want: seq<seq<real>>)
  {
    Applied(out, chs, m, want) && |out| == |chs|
  }

  /** Handling the next channel extends the channels done by one. */
  lemma AppliedSnoc(out: seq<BlockSequence>, chs: seq<BlockSequence>, m: Mask, want: seq<seq<real>>, p: BlockSequence)
    requires Applied(out, chs, m, want) && |out| < |chs| && p.Sound()
    requires m.IsOn(|out|) ==> p.Samples() == want[|out|]
    requires !m.IsOn(|out|) ==> p == chs[|out|]
    ensures Applied(out + [p], chs, m, want)
  {
    var o := out + [p];
    forall i | 0 <= i < |o|
      ensures o[i].Sound()
      ensures m.IsOn(i) ==> o[i].Samples() == want[i]
      ensures !m.IsOn(i) ==> o[i] == chs[i]
    {
      if i < |out| {
        assert o[i] == out[i];
      }
    }
  }

  /** The channel of a sound with c >= 1 channels that channel n takes its
      material from: n itself, or the last one. */
  function SourceChannel(n: nat, c: nat): (k: nat)
    requires c >= 1
    ensures k < c && (n < c ==> k == n) && (n >= c ==> k == c - 1)
  {
    MinNat(n, c - 1)
  }

  /** insert_multichannel's point (util.rs:6-7): the floor, 0 when negative,
      and no further than the end of the sound. */
  function InsertPoint(point: real, len: nat): (at: nat)
    ensures at <= len
    ensures 0.0 <= point <= len as real ==> at as real == Floor(point)
    ensures point < 0.0 ==> at == 0
  {
    MinNat(ToUsize(Floor(point)), len)
  }

  /** insert (sequence.rs:106-122) on samples: d spliced in at `at`, or
      appended after silence up to `at` when the channel is shorter. */
  function InsertedSamples(sq: BlockSequence, at: nat, d: seq<real>): (r: seq<real>)
    requires sq.Sound()
    ensures |r| == MaxNat(at, sq.Len()) + |d|
  {
    sq.LenIsSamples();
    if at <= sq.Len() then sq.Samples()[..at] + d + sq.Samples()[at..]
    else sq.Samples() + Zeros(at - sq.Len()) + d
  }

  /** Inserting keeps the channel's samples before the point, then d, then
      the rest; past the end the gap is filled with silence. */
  lemma InsertedParts(sq: BlockSequence, at: nat, d: seq<real>)
    requires sq.Sound()
    ensures |sq.Samples()| == sq.Len()
    ensures at <= sq.Len() ==>
      var r, x := InsertedSamples(sq, at, d), sq.Samples();
      r[..at] == x[..at] && r[at..at + |d|] == d && r[at + |d|..] == x[at..]
    ensures at > sq.Len() ==>
      var r := InsertedSamples(sq, at, d);
      r[..sq.Len()] == sq.Samples() && r[at..] == d && forall i :: sq.Len() <= i < at ==> r[i] == 0.0
  {
    sq.LenIsSamples();
    var r, x := InsertedSamples(sq, at, d), sq.Samples();
    if at <= sq.Len() {
      assert r == x[..at] + d + x[at..];
      assert r[..at] == x[..at];
      assert r[at..at + |d|] == d;
      assert r[at + |d|..] == x[at..];
    } else {
      var z := Zeros(at - sq.Len());
      assert r == x + z + d;
      assert r[..sq.Len()] == x;
      assert r[at..] == d;
      forall i | sq.Len() <= i < at
        ensures r[i] == 0.0
      {
        assert r[i] == z[i - sq.Len()];
      }
    }
  }

  /** What insert_multichannel gives every active channel. */
  function Inserted(chs: seq<BlockSequence>, at: nat, ins: seq<BlockSequence>): (w: seq<seq<real>>)
    requires SoundChannels(chs) && SoundChannels(ins) && |ins| >= 1
    ensures |w| == |chs|
  {
    seq(|chs|, n requires 0 <= n < |chs| => InsertedSamples(chs[n], at, ins[SourceChannel(n, |ins|)].Samples()))
  }

  /** replace_multichannel's bounds (util.rs:33-36): ordered, truncated
      toward zero, and no further than the end of the sound. */
  function ReplaceBounds(a: real, b: real, len: nat): (r: (nat, nat))
    ensures a >= 0.0 && b >= 0.0 && a <= len as real && b <= len as real ==>
      r.0 as real == Floor(Min(a, b)) && r.1 as real == Floor(Max(a, b))
  {
    var (start, end) := (Min(a, b), Max(b, a));
    (MinNat(ToUsize(start), len), MinNat(ToUsize(end), len))
  }

  /** The bounds are in order and inside the sound, whichever way round
      the region was given. */
  lemma ReplaceBoundsOrdered(a: real, b: real, len: nat)
    ensures ReplaceBounds(a, b, len).0 <= ReplaceBounds(a, b, len).1 <= len
    ensures ReplaceBounds(a, b, len) == ReplaceBounds(b, a, len)
  {
    ToUsizeMono(Min(a, b), Max(b, a));
  }

  /** Truncating to usize keeps the order. */
  lemma ToUsizeMono(x: real, y: real)
    requires x <= y
    ensures ToUsize(x) <= ToUsize(y)
  {
  }

  /** replace (sequence.rs:124-130) on samples. */
  function ReplacedSamples(sq: BlockSequence, s: nat, e: nat, d: seq<real>): seq<real>
    requires sq.Sound()
  {
    sq.Window(0, s) + d + sq.Window(e, sq.Len())
  }

  /** What replace_multichannel gives every active channel. */
  function Replaced(chs: seq<BlockSequence>, s: nat, e: nat, ins: seq<BlockSequence>): (w: seq<seq<real>>)
    requires SoundChannels(chs) && SoundChannels(ins) && |ins| >= 1
    ensures |w| == |chs|
  {
    seq(|chs|, n requires 0 <= n < |chs| => ReplacedSamples(chs[n], s, e, ins[SourceChannel(n, |ins|)].Samples()))
  }

  /** Replacing inside a channel splices d over [s, e): the length changes
      by |d| - (e - s). */
  lemma ReplacedWithin(sq: BlockSequence, s: nat, e: nat, d: seq<real>)
    requires sq.Sound() && s <= e <= sq.Len()
    ensures |sq.Samples()| == sq.Len()
    ensures ReplacedSamples(sq, s, e, d) == sq.Samples()[..s] + d + sq.Samples()[e..]
    ensures |ReplacedSamples(sq, s, e, d)| == sq.Len() - (e - s) + |d|
  {
    WindowEnds(sq, s, e);
  }

  /** insert_multichannel (util.rs:4-28) */
  method InsertMultichannel(ctx: Ctx, toInsert: Snd, point: real) returns (snd: Snd)
    requires ctx.Valid() && toInsert.Sound() && toInsert.Valid() && |toInsert.channels| >= 1
    ensures snd.Valid() && snd.sampleRate == ctx.snd.sampleRate
    ensures Edited(snd.channels, ctx.snd.channels, ctx.channels,
                   Inserted(ctx.snd.channels, InsertPoint(point, ctx.snd.Len()), toInsert.channels))
  {
    var at := InsertPoint(point, ctx.snd.Len());
    var chs := InsertEach(ctx.snd.channels, ctx.channels, at, toInsert.channels);
    snd := Snd(ctx.snd.sampleRate, chs);
  }

  /** The channel walk of insert_multichannel. */
  method InsertEach(chs: seq<BlockSequence>, m: Mask, at: nat, ins: seq<BlockSequence>) returns (out: seq<BlockSequence>)
    requires ValidChannels(chs) && SoundChannels(chs) && |chs| <= Channels
    requires ValidChannels(ins) && SoundChannels(ins) && |ins| >= 1
    ensures ValidChannels(out) && Edited(out, chs, m, Inserted(chs, at, ins))
  {
    ghost var want := Inserted(chs, at, ins);
    out := [];
    for n := 0 to |chs|
      invariant |out| == n && ValidChannels(out) && Applied(out, chs, m, want)
    {
      var p := chs[n];
      if m.IsOn(n) {
        var iseq := ins[SourceChannel(n, |ins|)];
        p := Insert(chs[n], at, iseq);
        chs[n].LenIsSamples();
      }
      AppliedSnoc(out, chs, m, want, p);
      ValidSnoc(out, p);
      out := out + [p];
    }
  }

  /** replace_multichannel (util.rs:30-57) */
  method ReplaceMultichannel(ctx: Ctx, toInsert: Snd, a: real, b: real) returns (snd: Snd)
    requires ctx.Valid() && toInsert.Sound() && toInsert.Valid() && |toInsert.channels| >= 1
    ensures snd.Valid() && snd.sampleRate == ctx.snd.sampleRate
    ensures Edited(snd.channels, ctx.snd.channels, ctx.channels,
                   Replaced(ctx.snd.channels, ReplaceBounds(a, b, ctx.snd.Len()).0,
                            ReplaceBounds(a, b, ctx.snd.Len()).1, toInsert.channels))
  {
    var (s, e) := ReplaceBounds(a, b, ctx.snd.Len());
    var chs := ReplaceEach(ctx.snd.channels, ctx.channels, s, e, toInsert.channels);
    snd := Snd(ctx.snd.sampleRate, chs);
  }

  /** The channel walk of replace_multichannel. */
  method ReplaceEach(chs: seq<BlockSequence>, m: Mask, s: nat, e: nat, ins: seq<BlockSequence>)
    returns (out: seq<BlockSequence>)
    requires ValidChannels(chs) && SoundChannels(chs) && |chs| <= Channels
    requires ValidChannels(ins) && SoundChannels(ins) && |ins| >= 1
    ensures ValidChannels(out) && Edited(out, chs, m, Replaced(chs, s, e, ins))
  {
    ghost var want := Replaced(chs, s, e, ins);
    out := [];
    for n := 0 to |chs|
      invariant |out| == n && ValidChannels(out) && Applied(out, chs, m, want)
    {
      var p := chs[n];
      if m.IsOn(n) {
        var iseq := ins[SourceChannel(n, |ins|)];
        p := Replace(chs[n], s, e, iseq);
      }
      AppliedSnoc(out, chs, m, want, p);
      ValidSnoc(out, p);
      out := out + [p];
    }
  }

  /** map_rng (sequence.rs:84-97) on samples: f applied over [s, e), its
      first argument counting from s. */
  function MappedSamples(sq: BlockSequence, s: nat, e: nat, f: (nat, real) -> real): seq<real>
    requires sq.Sound()
  {
    sq.Window(0, s) + Mapped(f, 0, sq.Window(s, e)) + sq.Window(e, sq.Len())
  }

  /** What an edit that maps [s, e) of every active channel gives channel n:
      f sees the channel, the index from s and the sample. */
  function MappedChannels(chs: seq<BlockSequence>, s: nat, e: nat, f: (nat, nat, real) -> real): (w: seq<seq<real>>)
    requires SoundChannels(chs)
    ensures |w| == |chs|
  {
    seq(|chs|, n requires 0 <= n < |chs| => MappedSamples(chs[n], s, e, (k: nat, x: real) => f(n, k, x)))
  }

  /** A mapped channel keeps its length; inside [s, e) sample i becomes
      f(n, i - s, sample), outside it stays. */
  lemma MappedChannelsAt(chs: seq<BlockSequence>, s: nat, e: nat, f: (nat, nat, real) -> real, n: nat)
    requires SoundChannels(chs) && n < |chs| && s <= e
    ensures |chs[n].Samples()| == chs[n].Len() == |MappedChannels(chs, s, e, f)[n]|
    ensures forall i :: 0 <= i < chs[n].Len() && (i < s || e <= i) ==>
      MappedChannels(chs, s, e, f)[n][i] == chs[n].Samples()[i]
    ensures forall i :: 0 <= i < chs[n].Len() && s <= i < e ==>
      MappedChannels(chs, s, e, f)[n][i] == f(n, i - s, chs[n].Samples()[i])
  {
    var g := (k: nat, x: real) => f(n, k, x);
    MapRngWithin(chs[n], s, e, g, MappedChannels(chs, s, e, f)[n]);
  }

  /** The same for one sample of the range. */
  lemma MappedAt(chs: seq<BlockSequence>, s: nat, e: nat, f: (nat, nat, real) -> real, n: nat, i: nat)
    requires SoundChannels(chs) && n < |chs| && s <= i < e && i < chs[n].Len()
    ensures |chs[n].Samples()| == chs[n].Len() == |MappedChannels(chs, s, e, f)[n]|
    ensures MappedChannels(chs, s, e, f)[n][i] == f(n, i - s, chs[n].Samples()[i])
  {
    MappedChannelsAt(chs, s, e, f, n);
  }

  /** map_rng(s..e) is safe on every channel: s is at most e, or past
      the end of every channel. */
  predicate MapOk(chs: seq<BlockSequence>, s: nat, e: nat)
    requires SoundChannels(chs)
  {
    s <= e || forall k :: 0 <= k < |chs| ==> chs[k].Len() <= s
  }

  /** The channel walk of an edit that maps [s, e) of the active channels. */
  method MapEach(chs: seq<BlockSequence>, m: Mask, s: nat, e: nat, f: (nat, nat, real) -> real)
    returns (out: seq<BlockSequence>)
    requires ValidChannels(chs) && SoundChannels(chs) && |chs| <= Channels && MapOk(chs, s, e)
    ensures ValidChannels(out) && Edited(out, chs, m, MappedChannels(chs, s, e, f))
  {
    ghost var want := MappedChannels(chs, s, e, f);
    out := [];
    for n := 0 to |chs|
      invariant |out| == n && ValidChannels(out) && Applied(out, chs, m, want)
    {
      var p := chs[n];
      if m.IsOn(n) {
        Bounds(chs[n], s, e);
        p := MapRng(chs[n], Span(s, e), (k: nat, x: real) => f(n, k, x));
      }
      AppliedSnoc(out, chs, m, want, p);
      ValidSnoc(out, p);
      out := out + [p];
    }
  }
}
