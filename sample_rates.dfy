/** resample and pitch (src/edit/sample_rates.rs). The windowed resampler
    itself is not part of this model: both operations take it as a function
    `rs(samples, ratio, quality)`. */
module SampleRates {
  import opened Util
  import opened Blocks
  import opened Sequences
  import opened Chunking
  import opened SequenceOps
  import opened ChannelMasks
  import opened Snds
  import opened Ctxs
  import opened EditUtil

  /** The resampler: samples, ratio of input to output rate, quality. */
  type Resampler = (seq<real>, real, nat) -> seq<real>

  /** What resample makes of every channel: all of its samples resampled. */
  function ResampledAll(chs: seq<BlockSequence>, rs: Resampler, ratio: real, q: nat): (w: seq<seq<real>>)
    requires SoundChannels(chs)
    ensures |w| == |chs|
  {
    seq(|chs|, n requires 0 <= n < |chs| => rs(chs[n].Samples(), ratio, q))
  }

  /** The first channels of out hold the wanted samples, in one block each. */
  predicate OneBlockEach(out: seq<BlockSequence>, want: seq<seq<real>>)
  {
    |out| <= |want| && SoundChannels(out) &&
    forall k :: 0 <= k < |out| ==> |out[k].blocks| == 1 && out[k].Samples() == want[k]
  }

  /** The channel walk of resample (sample_rates.rs:10-12): every channel,
      active or not, becomes one data block of its resampled samples. */
  method ResampleEach(chs: seq<BlockSequence>, rs: Resampler, ratio: real, q: nat) returns (out: seq<BlockSequence>)
    requires ValidChannels(chs) && SoundChannels(chs)
    ensures ValidChannels(out) && |out| == |chs| && OneBlockEach(out, ResampledAll(chs, rs, ratio, q))
  {
    ghost var want := ResampledAll(chs, rs, ratio, q);
    out := [];
    for n := 0 to |chs|
      invariant |out| == n && ValidChannels(out) && OneBlockEach(out, want)
    {
      Bounds(chs[n], 0, 0);
      WindowAll(chs[n]);
      var samples := CollectSamples(chs[n], Full);
      var b := Data(rs(samples, ratio, q));
      var p := FromIter([b]);
      assert [b][..0] == [];
      ValidSnoc(out, p);
      OneBlockSnoc(out, want, p);
      out := out + [p];
    }
  }

  lemma OneBlockSnoc(out: seq<BlockSequence>, want: seq<seq<real>>, p: BlockSequence)
    requires OneBlockEach(out, want) && |out| < |want| && p.Sound()
    requires |p.blocks| == 1 && p.Samples() == want[|out|]
    ensures OneBlockEach(out + [p], want)
  {
    var o := out + [p];
    forall k | 0 <= k < |o|
      ensures o[k].Sound()
    {
      if k < |out| {
        assert o[k] == out[k];
      }
    }
  }

  /** resample (sample_rates.rs:6-17): every channel resampled with ratio
      old rate / new rate, and the new rate is the requested one truncated
      to an integer. The ratio is a division by the requested rate, which
      must not be 0. */
  method Resample(ctx: Ctx, rate: real, q: nat, rs: Resampler) returns (r: Ctx)
    requires ctx.Valid() && rate != 0.0
    ensures r.snd.Valid() && r.snd.sampleRate == ToUsize(rate)
    ensures |r.snd.channels| == |ctx.snd.channels|
    ensures OneBlockEach(r.snd.channels, ResampledAll(ctx.snd.channels, rs, ctx.snd.sampleRate as real / rate, q))
    ensures r == ctx.Flip(r.snd)
  {
    var ratio := ctx.snd.sampleRate as real / rate;
    var chs := ResampleEach(ctx.snd.channels, rs, ratio, q);
    r := ctx.Flip(Snd(ToUsize(rate), chs));
  }

  /** What pitch makes of one active channel (sample_rates.rs:25-28): the
      region's samples resampled and put back in their place. */
  function PitchedSamples(sq: BlockSequence, s: nat, e: nat, rs: Resampler, ratio: real, q: nat): seq<real>
    requires sq.Sound()
  {
    ReplacedSamples(sq, s, e, rs(sq.Window(s, e), ratio, q))
  }

  /** What pitch makes of every channel, of which the active ones are taken. */
  function Pitched(chs: seq<BlockSequence>, s: nat, e: nat, rs: Resampler, ratio: real, q: nat): (w: seq<seq<real>>)
    requires SoundChannels(chs)
    ensures |w| == |chs|
  {
    seq(|chs|, n requires 0 <= n < |chs| => PitchedSamples(chs[n], s, e, rs, ratio, q))
  }

  /** out_sel_len after the first n channels (sample_rates.rs:20, 27): the
      resampled length of the last active one, 0 when none is active. */
  function OutLen(chs: seq<BlockSequence>, m: Mask, s: nat, e: nat, rs: Resampler, ratio: real, q: nat, n: nat): (l: nat)
    requires SoundChannels(chs) && n <= |chs| <= Channels
  {
    if n == 0 then 0
    else if m.IsOn(n - 1) then |rs(chs[n - 1].Window(s, e), ratio, q)|
    else OutLen(chs, m, s, e, rs, ratio, q, n - 1)
  }

  /** One more channel: an active one sets out_sel_len, any other keeps it. */
  lemma OutLenStep(chs: seq<BlockSequence>, m: Mask, s: nat, e: nat, rs: Resampler, ratio: real, q: nat, n: nat)
    requires SoundChannels(chs) && n < |chs| <= Channels
    ensures m.IsOn(n) ==> OutLen(chs, m, s, e, rs, ratio, q, n + 1) == |rs(chs[n].Window(s, e), ratio, q)|
    ensures !m.IsOn(n) ==> OutLen(chs, m, s, e, rs, ratio, q, n + 1) == OutLen(chs, m, s, e, rs, ratio, q, n)
  {
  }

  /** out_sel_len is the resampled length of some active channel, or 0
      when no channel is active. */
  lemma {:induction false} OutLenOfActive(chs: seq<BlockSequence>, m: Mask, s: nat, e: nat, rs: Resampler, ratio: real, q: nat, n: nat)
    requires SoundChannels(chs) && n <= |chs| <= Channels
    ensures (forall k :: 0 <= k < n ==> !m.IsOn(k)) ==> OutLen(chs, m, s, e, rs, ratio, q, n) == 0
    ensures (exists k :: 0 <= k < n && m.IsOn(k)) ==>
      exists k :: 0 <= k < n && m.IsOn(k) && OutLen(chs, m, s, e, rs, ratio, q, n) == |rs(chs[k].Window(s, e), ratio, q)|
  {
    if n > 0 {
      var prev, now := OutLen(chs, m, s, e, rs, ratio, q, n - 1), OutLen(chs, m, s, e, rs, ratio, q, n);
      OutLenStep(chs, m, s, e, rs, ratio, q, n - 1);
      if m.IsOn(n - 1) {
        assert 0 <= n - 1 < n && m.IsOn(n - 1) && now == |rs(chs[n - 1].Window(s, e), ratio, q)|;
      } else {
        OutLenOfActive(chs, m, s, e, rs, ratio, q, n - 1);
        assert now == prev;
        if exists k :: 0 <= k < n && m.IsOn(k) {
          var k :| 0 <= k < n && m.IsOn(k);
          assert k < n - 1;
          var j :| 0 <= j < n - 1 && m.IsOn(j) && prev == |rs(chs[j].Window(s, e), ratio, q)|;
          assert 0 <= j < n && m.IsOn(j) && now == |rs(chs[j].Window(s, e), ratio, q)|;
        }
      }
    }
  }

  /** pitch on one active channel (sample_rates.rs:26-28), with the
      resampled length. */
  method PitchChannel(sq: BlockSequence, s: nat, e: nat, rs: Resampler, ratio: real, q: nat)
    returns (p: BlockSequence, len: nat)
    requires sq.Valid() && s <= e
    ensures p.Valid() && p.Samples() == PitchedSamples(sq, s, e, rs, ratio, q)
    ensures len == |rs(sq.Window(s, e), ratio, q)|
  {
    Bounds(sq, s, e);
    var sub := SubSeq(sq, Span(s, e));
    Bounds(sub, 0, 0);
    WindowAll(sub);
    var samples := CollectSamples(sub, Full);
    var b := Data(rs(samples, ratio, q));
    len := |b.Samples()|;
    var section := FromBlock(b);
    p := Replace(sq, s, e, section);
  }

  /** The channel walk of pitch (sample_rates.rs:24-33), with out_sel_len. */
  method PitchEach(chs: seq<BlockSequence>, m: Mask, s: nat, e: nat, rs: Resampler, ratio: real, q: nat)
    returns (out: seq<BlockSequence>, outSelLen: nat)
    requires ValidChannels(chs) && SoundChannels(chs) && |chs| <= Channels && s <= e
    ensures ValidChannels(out) && Edited(out, chs, m, Pitched(chs, s, e, rs, ratio, q))
    ensures outSelLen == OutLen(chs, m, s, e, rs, ratio, q, |chs|)
  {
    ghost var want := Pitched(chs, s, e, rs, ratio, q);
    out := [];
    outSelLen := 0;
    for n := 0 to |chs|
      invariant |out| == n && ValidChannels(out) && Applied(out, chs, m, want)
      invariant outSelLen == OutLen(chs, m, s, e, rs, ratio, q, n)
    {
      var p := chs[n];
      OutLenStep(chs, m, s, e, rs, ratio, q, n);
      if m.IsOn(n) {
        p, outSelLen := PitchChannel(chs[n], s, e, rs, ratio, q);
      }
      AppliedSnoc(out, chs, m, want, p);
      ValidSnoc(out, p);
      out := out + [p];
    }
  }

  /** pitch's cursor and selection (sample_rates.rs:38-47), from the old
      snapshot, the flipped one and out_sel_len: a forward selection takes
      the new length; a backward one keeps its start, the new cursor
      moving to the start plus the new length. */
  function PitchSelection(old_: Ctx, flipped: Ctx, outSelLen: real): (r: Ctx)
    ensures r.snd == flipped.snd && r.channels == flipped.channels && r.ruler == flipped.ruler
    ensures r.zoom == flipped.zoom && r.slide == flipped.slide && r.loopMode == flipped.loopMode
  {
    match (old_.cursor, old_.selection)
    case (Some(_), Some(len)) =>
      if len >= 0.0 then flipped.(selection := Some(outSelLen))
      else flipped.(cursor := Some(old_.cursor.value + (outSelLen + len)), selection := Some(-outSelLen))
    case _ => flipped
  }

  /** After pitch a backward selection starts where it started before, and
      spans out_sel_len samples. */
  lemma PitchKeepsBackwardStart(old_: Ctx, flipped: Ctx, outSelLen: real)
    requires old_.cursor.Some? && old_.selection.Some? && old_.selection.value < 0.0
    ensures PitchSelection(old_, flipped, outSelLen).cursor.Some?
    ensures PitchSelection(old_, flipped, outSelLen).selection == Some(-outSelLen)
    ensures PitchSelection(old_, flipped, outSelLen).cursor.value - outSelLen
         == old_.cursor.value + old_.selection.value
  {
  }

  /** After pitch a forward selection keeps the (flipped) cursor and spans
      out_sel_len samples; without a cursor and a selection both, the
      flipped snapshot is left as it is. */
  lemma PitchForward(old_: Ctx, flipped: Ctx, outSelLen: real)
    ensures old_.cursor.Some? && old_.selection.Some? && old_.selection.value >= 0.0 ==>
      PitchSelection(old_, flipped, outSelLen) == flipped.(selection := Some(outSelLen))
    ensures old_.cursor.None? || old_.selection.None? ==> PitchSelection(old_, flipped, outSelLen) == flipped
  {
  }

  /** pitch (sample_rates.rs:19-50): the sample region of every active
      channel resampled in place; cursor and selection as PitchSelection
      says, with the resampled length of the last active channel. */
  method Pitch(ctx: Ctx, ratio: real, q: nat, rs: Resampler) returns (r: Ctx)
    requires ctx.Valid()
    ensures r.snd.Valid() && r.snd.sampleRate == ctx.snd.sampleRate
    ensures Edited(r.snd.channels, ctx.snd.channels, ctx.channels,
                   Pitched(ctx.snd.channels, ctx.SampleRegion().0, ctx.SampleRegion().1, rs, ratio, q))
    ensures r == PitchSelection(ctx, ctx.Flip(r.snd),
                                OutLen(ctx.snd.channels, ctx.channels, ctx.SampleRegion().0, ctx.SampleRegion().1,
                                       rs, ratio, q, |ctx.snd.channels|) as real)
  {
    var (s, e) := ctx.SampleRegion();
    var chs, outSelLen := PitchEach(ctx.snd.channels, ctx.channels, s, e, rs, ratio, q);
    var flipped := ctx.Flip(Snd(ctx.snd.sampleRate, chs));
    r := PitchSelection(ctx, flipped, outSelLen as real);
  }

  /** Inside a channel, pitch changes its length by the difference between
      the resampled and the original length of the region. */
  lemma PitchedLen(sq: BlockSequence, s: nat, e: nat, rs: Resampler, ratio: real, q: nat)
    requires sq.Sound() && s <= e <= sq.Len()
    ensures |PitchedSamples(sq, s, e, rs, ratio, q)| == sq.Len() - (e - s) + |rs(sq.Window(s, e), ratio, q)|
  {
    ReplacedWithin(sq, s, e, rs(sq.Window(s, e), ratio, q));
  }
}
