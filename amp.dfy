/** gain, lin_fade and normalize (src/edit/amp.rs): scale the samples of the
    active channels inside the sample region. */
module Amp {
  import opened Util
  import opened Mips
  import opened Sequences
  import opened SequenceOps
  import opened ChannelMasks
  import opened Snds
  import opened Ctxs
  import opened EditUtil

  /** gain's sample map (amp.rs:9): every sample times amt. */
  function GainAt(amt: real): (nat, nat, real) -> real
  {
    (c: nat, k: nat, x: real) => x * amt
  }

  /** lin_fade's step (amp.rs:22): from start to end in e - s steps; no
      step at all when the region is empty. */
  function FadeStep(start: real, end: real, s: nat, e: nat): real
  {
    if e <= s then 0.0 else (end - start) / (e - s) as real
  }

  /** The gain lin_fade applies to the k-th sample of the region: start,
      with step added after every sample. */
  function FadeGain(start: real, step: real, k: nat): real
  {
    if k == 0 then start else FadeGain(start, step, k - 1) + step
  }

  /** After k steps the gain is start + k * step. */
  lemma {:induction false} FadeGainLinear(start: real, step: real, k: nat)
    ensures FadeGain(start, step, k) == start + k as real * step
  {
    if k > 0 {
      FadeGainLinear(start, step, k - 1);
    }
  }

  /** lin_fade's sample map (amp.rs:27-31): the k-th sample of the region
      times the gain after k steps. */
  function FadeAt(start: real, step: real): (nat, nat, real) -> real
  {
    (c: nat, k: nat, x: real) => Faded(start, step, k, x)
  }

  /** Sample x, k samples into the fade, times the gain reached by then. */
  function Faded(start: real, step: real, k: nat, x: real): real
  {
    x * FadeGain(start, step, k)
  }

  /** The faded sample in closed form: x * (start + k * step). */
  lemma FadedLinear(start: real, step: real, k: nat, x: real)
    ensures Faded(start, step, k, x) == x * (start + k as real * step)
  {
    FadeGainLinear(start, step, k);
  }

  /** Fading one channel: sample s + k of the region is the old sample
      scaled by the gain after k steps, which is start + k * step by
      FadedLinear. */
  lemma FadeAtIndex(chs: seq<BlockSequence>, s: nat, e: nat, start: real, step: real, n: nat, k: nat)
    requires SoundChannels(chs) && n < |chs| && s + k < e && s + k < chs[n].Len()
    ensures |chs[n].Samples()| == chs[n].Len() == |MappedChannels(chs, s, e, FadeAt(start, step))[n]|
    ensures MappedChannels(chs, s, e, FadeAt(start, step))[n][s + k] ==
      Faded(start, step, k, chs[n].Samples()[s + k])
  {
    MappedAt(chs, s, e, FadeAt(start, step), n, s + k);
    FadeMapped(start, step, n, k, chs[n].Samples()[s + k]);
  }

  lemma FadeMapped(start: real, step: real, c: nat, k: nat, x: real)
    ensures FadeAt(start, step)(c, k, x) == Faded(start, step, k, x)
  {
  }

  /** The fade starts at start, and one step past the last sample of the
      region it has reached end. */
  lemma FadeRamp(start: real, end: real, s: nat, e: nat)
    requires s < e
    ensures FadeGain(start, FadeStep(start, end, s, e), 0) == start
    ensures FadeGain(start, FadeStep(start, end, s, e), e - s) == end
  {
    var d := (e - s) as real;
    FadeGainLinear(start, FadeStep(start, end, s, e), e - s);
    assert d * ((end - start) / d) == end - start;
  }

  /** gain (amp.rs:4-18): every active channel's samples in the sample
      region are multiplied by amt; the snapshot is flipped onto the result. */
  method Gain(ctx: Ctx, amt: real) returns (r: Ctx)
    requires ctx.Valid()
    ensures r.snd.Valid() && r.snd.sampleRate == ctx.snd.sampleRate
    ensures Edited(r.snd.channels, ctx.snd.channels, ctx.channels,
                   MappedChannels(ctx.snd.channels, ctx.SampleRegion().0, ctx.SampleRegion().1, GainAt(amt)))
    ensures r == ctx.Flip(r.snd)
  {
    var (s, e) := ctx.SampleRegion();
    var chs := MapEach(ctx.snd.channels, ctx.channels, s, e, GainAt(amt));
    r := ctx.Flip(Snd(ctx.snd.sampleRate, chs));
  }

  /** Gain on one channel: the length stays, samples in [s, e) are scaled
      by amt and the rest are untouched. */
  lemma GainPointwise(chs: seq<BlockSequence>, s: nat, e: nat, amt: real, n: nat)
    requires SoundChannels(chs) && n < |chs| && s <= e
    ensures |chs[n].Samples()| == |MappedChannels(chs, s, e, GainAt(amt))[n]|
    ensures forall i :: 0 <= i < |chs[n].Samples()| && (i < s || e <= i) ==>
      MappedChannels(chs, s, e, GainAt(amt))[n][i] == chs[n].Samples()[i]
    ensures forall i :: 0 <= i < |chs[n].Samples()| && s <= i < e ==>
      MappedChannels(chs, s, e, GainAt(amt))[n][i] == chs[n].Samples()[i] * amt
  {
    MappedChannelsAt(chs, s, e, GainAt(amt), n);
  }

  /** Gain on one sample of the region. */
  lemma GainAtIndex(chs: seq<BlockSequence>, s: nat, e: nat, amt: real, n: nat, i: nat)
    requires SoundChannels(chs) && n < |chs| && s <= i < e && i < chs[n].Len()
    ensures |chs[n].Samples()| == chs[n].Len() == |MappedChannels(chs, s, e, GainAt(amt))[n]|
    ensures MappedChannels(chs, s, e, GainAt(amt))[n][i] == chs[n].Samples()[i] * amt
  {
    MappedChannelsAt(chs, s, e, GainAt(amt), n);
  }

  /** lin_fade (amp.rs:20-40): the active channels' samples in the sample
      region are scaled by a gain going from start towards end in equal
      steps. */
  method LinFade(ctx: Ctx, start: real, end: real) returns (r: Ctx)
    requires ctx.Valid()
    ensures r.snd.Valid() && r.snd.sampleRate == ctx.snd.sampleRate
    ensures Edited(r.snd.channels, ctx.snd.channels, ctx.channels,
                   MappedChannels(ctx.snd.channels, ctx.SampleRegion().0, ctx.SampleRegion().1,
                                  FadeAt(start, FadeStep(start, end, ctx.SampleRegion().0, ctx.SampleRegion().1))))
    ensures r == ctx.Flip(r.snd)
  {
    var (s, e) := ctx.SampleRegion();
    var step := FadeStep(start, end, s, e);
    var chs := MapEach(ctx.snd.channels, ctx.channels, s, e, FadeAt(start, step));
    r := ctx.Flip(Snd(ctx.snd.sampleRate, chs));
  }

  /** normalize's level (amp.rs:43): 1.0 unless given. */
  function Level(level: Option<real>): real
  {
    if level.Some? then level.value else 1.0
  }

  /** What one active channel adds to normalize's peak (amp.rs:49-50): the
      larger magnitude of the summary over [s, e). Past the end the summary
      is (0, 0); on an empty region inside the sound it is the sample at s. */
  function ChannelPeak(sq: BlockSequence, s: nat, e: nat): (p: real)
    requires sq.Sound()
    ensures p >= 0.0
  {
    sq.LenIsSamples();
    if s >= sq.Len() then 0.0
    else if e <= s then Abs(sq.Samples()[s])
    else
      var q := Scan(sq.Window(s, e));
      Max(Abs(q.hi), Abs(q.lo))
  }

  /** Every channel's peak over [s, e). */
  function ChannelPeaks(chs: seq<BlockSequence>, s: nat, e: nat): (ps: seq<real>)
    requires SoundChannels(chs)
    ensures |ps| == |chs|
  {
    seq(|chs|, k requires 0 <= k < |chs| => ChannelPeak(chs[k], s, e))
  }

  /** normalize's fold (amp.rs:46-56) over the peaks of the first n
      channels, from 0, taking in the active ones. */
  function PeakOf(ps: seq<real>, m: Mask, n: nat): (p: real)
    requires n <= |ps| <= Channels
    ensures p >= 0.0
  {
    if n == 0 then 0.0
    else
      var acc := PeakOf(ps, m, n - 1);
      if m.IsOn(n - 1) then Max(acc, ps[n - 1]) else acc
  }

  /** Every sample of the region is within the channel's peak. */
  lemma ChannelPeakCovers(sq: BlockSequence, s: nat, e: nat, i: nat)
    requires sq.Sound() && s <= i < e && i < sq.Len()
    ensures |sq.Samples()| == sq.Len()
    ensures Abs(sq.Samples()[i]) <= ChannelPeak(sq, s, e)
  {
    sq.LenIsSamples();
    var w := sq.Window(s, e);
    assert w == sq.Samples()[s..MinNat(e, sq.Len())];
    assert w[i - s] == sq.Samples()[i];
    LoHiBounds(w);
    ScanIsCover(w);
  }

  /** The fold is at least every active channel's peak. */
  lemma {:induction false} PeakCovers(ps: seq<real>, m: Mask, n: nat, c: nat)
    requires n <= |ps| <= Channels && c < n && m.IsOn(c)
    ensures ps[c] <= PeakOf(ps, m, n)
  {
    if c < n - 1 {
      PeakCovers(ps, m, n - 1, c);
    }
  }

  /** normalize (amp.rs:42-58): the gain that brings the loudest active
      sample of the region to the level. With a silent region the peak is
      0 and there is no such gain: None. */
  method Normalize(ctx: Ctx, level: Option<real>) returns (r: Option<Ctx>, peak: real)
    requires ctx.Valid()
    ensures peak >= 0.0
    ensures peak == PeakOf(ChannelPeaks(ctx.snd.channels, ctx.SampleRegion().0, ctx.SampleRegion().1),
                     ctx.channels, |ctx.snd.channels|)
    ensures r.None? <==> peak == 0.0
    ensures r.Some? ==>
      r.value.snd.Valid() && r.value.snd.sampleRate == ctx.snd.sampleRate &&
      Edited(r.value.snd.channels, ctx.snd.channels, ctx.channels,
             MappedChannels(ctx.snd.channels, ctx.SampleRegion().0, ctx.SampleRegion().1,
                            GainAt(Level(level) / peak))) &&
      r.value == ctx.Flip(r.value.snd)
  {
    var lvl := Level(level);
    var (s, e) := ctx.SampleRegion();
    peak := PeakEach(ctx.snd.channels, ctx.channels, s, e);
    if peak == 0.0 {
      return None, peak;
    }
    var c := Gain(ctx, lvl / peak);
    r := Some(c);
  }

  /** normalize's fold over the channels, with sequence summaries. */
  method PeakEach(chs: seq<BlockSequence>, m: Mask, s: nat, e: nat) returns (peak: real)
    requires ValidChannels(chs) && SoundChannels(chs) && |chs| <= Channels && s <= e
    ensures peak >= 0.0
    ensures peak == PeakOf(ChannelPeaks(chs, s, e), m, |chs|)
  {
    ghost var ps := ChannelPeaks(chs, s, e);
    peak := 0.0;
    for n := 0 to |chs|
      invariant peak == PeakOf(ps, m, n)
    {
      peak := PeakFold(peak, m.IsOn(n), chs[n], s, e);
      assert ps[n] == ChannelPeak(chs[n], s, e);
    }
  }

  /** The closure of normalize's fold (amp.rs:47-53): an active channel
      takes its peak over [s, e) into the accumulator, an inactive one
      leaves it. */
  method PeakFold(acc: real, active: bool, sq: BlockSequence, s: nat, e: nat) returns (r: real)
    requires sq.Valid() && sq.Sound() && s <= e
    ensures r == if active then Max(acc, ChannelPeak(sq, s, e)) else acc
  {
    if active {
      var p := Summary(sq, s, e);
      PeakStep(sq, s, e, p, acc);
      r := Max(Max(acc, Abs(p.hi)), Abs(p.lo));
    } else {
      r := acc;
    }
  }

  /** The larger magnitude of a channel's summary is the channel's peak,
      whichever case of summary produced it. */
  lemma PeakStep(sq: BlockSequence, s: nat, e: nat, p: Peak, acc: real)
    requires sq.Sound() && s <= e
    requires s == e < sq.Len() ==> sq.GetSample(s).Some? && p == Peak(sq.GetSample(s).value, sq.GetSample(s).value)
    requires s >= sq.Len() ==> p == Peak(0.0, 0.0)
    requires s < e && s < sq.Len() ==> FoldOf(p, sq.Window(s, e))
    ensures Max(Max(acc, Abs(p.hi)), Abs(p.lo)) == Max(acc, ChannelPeak(sq, s, e))
  {
    sq.LenIsSamples();
    if s < e && s < sq.Len() {
      FoldMagnitude(p, sq.Window(s, e));
    }
  }

  /** A (0, 0) folded into the scan of a non-empty run does not change its
      larger magnitude: the run's minimum is at most its maximum, so 0 can
      only move the end nearer to zero. */
  lemma FoldMagnitude(p: Peak, w: seq<real>)
    requires FoldOf(p, w) && |w| > 0
    ensures Max(Abs(p.hi), Abs(p.lo)) == Max(Abs(Scan(w).hi), Abs(Scan(w).lo))
  {
    ScanIsCover(w);
    LoHiBounds(w);
    assert Lo(w) <= w[0] <= Hi(w);
  }

  /** After normalizing, every active sample of the region is within the
      level. */
  lemma {:induction false} NormalizedWithin(chs: seq<BlockSequence>, m: Mask, s: nat, e: nat, level: real,
                                           peak: real, c: nat, i: nat)
    requires SoundChannels(chs) && |chs| <= Channels && c < |chs| && m.IsOn(c)
    requires s <= i < e && i < chs[c].Len()
    requires peak == PeakOf(ChannelPeaks(chs, s, e), m, |chs|) && peak > 0.0
    ensures |MappedChannels(chs, s, e, GainAt(level / peak))[c]| == chs[c].Len()
    ensures Abs(MappedChannels(chs, s, e, GainAt(level / peak))[c][i]) <= Abs(level)
  {
    var ps := ChannelPeaks(chs, s, e);
    PeakCovers(ps, m, |chs|, c);
    ChannelPeakCovers(chs[c], s, e, i);
    NormalizedSample(chs, s, e, c, i, peak, level);
  }

  /** A sample within the peak, gained by level / peak, is within the level. */
  lemma NormalizedSample(chs: seq<BlockSequence>, s: nat, e: nat, c: nat, i: nat, peak: real, level: real)
    requires SoundChannels(chs) && c < |chs| && s <= i < e && i < chs[c].Len()
    requires |chs[c].Samples()| == chs[c].Len() && Abs(chs[c].Samples()[i]) <= peak && peak > 0.0
    ensures |MappedChannels(chs, s, e, GainAt(level / peak))[c]| == chs[c].Len()
    ensures Abs(MappedChannels(chs, s, e, GainAt(level / peak))[c][i]) <= Abs(level)
  {
    ScaledWithin(chs[c].Samples()[i], peak, level, level / peak);
    GainedWithin(chs, s, e, c, i, level / peak, level);
  }

  /** A gained sample whose product is within the level stays so in the
      mapped channel. */
  lemma GainedWithin(chs: seq<BlockSequence>, s: nat, e: nat, c: nat, i: nat, amt: real, level: real)
    requires SoundChannels(chs) && c < |chs| && s <= i < e && i < chs[c].Len()
    requires |chs[c].Samples()| == chs[c].Len() && Abs(chs[c].Samples()[i] * amt) <= Abs(level)
    ensures |MappedChannels(chs, s, e, GainAt(amt))[c]| == chs[c].Len()
    ensures Abs(MappedChannels(chs, s, e, GainAt(amt))[c][i]) <= Abs(level)
  {
    GainAtIndex(chs, s, e, amt, c, i);
  }
}
