/** insert_or_replace and mix_in (src/edit/paste.rs): paste a sound into the
    active channels, over the selection, at the cursor, or mixed in. */
module Paste {
  import opened Util
  import opened Sequences
  import opened SequenceOps
  import opened ChannelMasks
  import opened Snds
  import opened Ctxs
  import opened EditUtil

  /** insert_or_replace (paste.rs:7-21): with a selection, the pasted sound
      replaces it, the cursor goes to the selection's start and the selection
      spans the pasted length; otherwise the sound goes in at the cursor, or
      at the end without one. */
  method InsertOrReplace(target: Ctx, toInsert: Snd) returns (r: Ctx)
    requires target.Valid() && toInsert.Sound() && toInsert.Valid() && |toInsert.channels| >= 1
    ensures r.snd.Valid() && r.snd.sampleRate == target.snd.sampleRate
    ensures target.SelectedRegion().Some? ==>
      var reg := target.SelectedRegion().value;
      var (s, e) := ReplaceBounds(reg.start, reg.end, target.snd.Len());
      Edited(r.snd.channels, target.snd.channels, target.channels, Replaced(target.snd.channels, s, e, toInsert.channels)) &&
      r == target.Flip(r.snd).(cursor := Some(reg.start), selection := Some(toInsert.Len() as real))
    ensures target.SelectedRegion().None? ==>
      var pt := if target.cursor.Some? then target.cursor.value else target.Len();
      Edited(r.snd.channels, target.snd.channels, target.channels,
             Inserted(target.snd.channels, InsertPoint(pt, target.snd.Len()), toInsert.channels)) &&
      r == target.Flip(r.snd)
  {
    var sel := target.SelectedRegion();
    if sel.Some? {
      var reg := sel.value;
      var snd := ReplaceMultichannel(target, toInsert, reg.start, reg.end);
      r := target.Flip(snd).(cursor := Some(reg.start), selection := Some(toInsert.Len() as real));
      return;
    }
    var pt := if target.cursor.Some? then target.cursor.value else target.Len();
    var snd := InsertMultichannel(target, toInsert, pt);
    r := target.Flip(snd);
  }

  /** Pasting d into a channel at a point inside it and then deleting the
      pasted span gives the channel back. */
  method PasteThenCut(sq: BlockSequence, at: nat, d: BlockSequence) returns (back: BlockSequence)
    requires sq.Valid() && d.Valid() && at <= sq.Len()
    ensures back.Valid() && back.Samples() == sq.Samples()
  {
    var pasted := Insert(sq, at, d);
    sq.LenIsSamples();
    d.LenIsSamples();
    pasted.LenIsSamples();
    var s, p, x := sq.Samples(), d.Samples(), pasted.Samples();
    CutOutMiddle(s, p, at, x);
    back := Delete(pasted, at, at + d.Len());
  }

  /** mix_in's range (paste.rs:25-28): from the cursor rounded up to the end
      of the sound when there is only a cursor, the sample region otherwise. */
  function MixRange(c: Ctx): (r: (nat, nat))
    requires c.snd.Sound()
    ensures c.cursor.Some? && c.selection.None? ==> r == (ToUsize(Ceil(c.cursor.value)), c.snd.Len())
    ensures !(c.cursor.Some? && c.selection.None?) ==> r == c.SampleRegion()
    ensures r.0 <= r.1 || forall k :: 0 <= k < |c.snd.channels| ==> c.snd.channels[k].Len() <= r.0
  {
    match (c.cursor, c.selection)
    case (Some(pt), None) => (ToUsize(Ceil(pt)), c.snd.Len())
    case _ => c.SampleRegion()
  }

  /** The k-th sample the source channel for channel c yields, 0 once it
      runs out (paste.rs:31-35). */
  function SrcSample(srcs: seq<seq<real>>, c: nat, k: nat): (x: real)
    ensures |srcs| >= 1 && k < |srcs[SourceChannel(c, |srcs|)]| ==> x == srcs[SourceChannel(c, |srcs|)][k]
    ensures |srcs| >= 1 && k >= |srcs[SourceChannel(c, |srcs|)]| ==> x == 0.0
  {
    if |srcs| == 0 then 0.0
    else
      var ch := srcs[SourceChannel(c, |srcs|)];
      if k < |ch| then ch[k] else 0.0
  }

  /** mix_in's sample map (paste.rs:36-37): the target sample times the
      target gain plus the source sample times the source gain. */
  function MixAt(srcs: seq<seq<real>>, srcGain: real, targetGain: real): (nat, nat, real) -> real
  {
    (c: nat, k: nat, t: real) => Mixed(srcs, srcGain, targetGain, c, k, t)
  }

  /** Target sample t, k samples into the mix range of channel c, times the
      target gain, plus the source sample it meets times the source gain. */
  function Mixed(srcs: seq<seq<real>>, srcGain: real, targetGain: real, c: nat, k: nat, t: real): real
  {
    t * targetGain + SrcSample(srcs, c, k) * srcGain
  }

  /** The samples of every channel of a sound. */
  function ChannelSamples(s: Snd): (srcs: seq<seq<real>>)
    requires s.Sound()
    ensures |srcs| == |s.channels|
    ensures forall k :: 0 <= k < |s.channels| ==> srcs[k] == s.channels[k].Samples()
  {
    seq(|s.channels|, k requires 0 <= k < |s.channels| => s.channels[k].Samples())
  }

  /** mix_in (paste.rs:24-46): over the mix range of every active channel,
      the target sample is scaled by targetGain and the matching sample of
      the source channel, scaled by srcGain, is added. */
  method MixIn(target: Ctx, src: Snd, srcGain: real, targetGain: real) returns (r: Ctx)
    requires target.Valid() && src.Sound() && |src.channels| >= 1
    ensures r.snd.Valid() && r.snd.sampleRate == target.snd.sampleRate
    ensures Edited(r.snd.channels, target.snd.channels, target.channels,
                   MappedChannels(target.snd.channels, MixRange(target).0, MixRange(target).1,
                                  MixAt(ChannelSamples(src), srcGain, targetGain)))
    ensures r == target.Flip(r.snd)
  {
    var (s, e) := MixRange(target);
    var chs := MapEach(target.snd.channels, target.channels, s, e, MixAt(ChannelSamples(src), srcGain, targetGain));
    r := target.Flip(Snd(target.snd.sampleRate, chs));
  }

  /** Mixing into one channel: sample s + k of the range becomes Mixed of
      the old sample, k samples in; the source sample it meets there is
      given by SourceSample. */
  lemma MixedSample(chs: seq<BlockSequence>, s: nat, e: nat, srcs: seq<seq<real>>, srcGain: real, targetGain: real,
                    n: nat, k: nat)
    requires SoundChannels(chs) && n < |chs| && s + k < e && s + k < chs[n].Len()
    ensures |chs[n].Samples()| == chs[n].Len() == |MappedChannels(chs, s, e, MixAt(srcs, srcGain, targetGain))[n]|
    ensures MappedChannels(chs, s, e, MixAt(srcs, srcGain, targetGain))[n][s + k] ==
      Mixed(srcs, srcGain, targetGain, n, k, chs[n].Samples()[s + k])
  {
    MappedAt(chs, s, e, MixAt(srcs, srcGain, targetGain), n, s + k);
    MixMapped(srcs, srcGain, targetGain, n, k, chs[n].Samples()[s + k]);
  }

  lemma MixMapped(srcs: seq<seq<real>>, srcGain: real, targetGain: real, c: nat, k: nat, t: real)
    ensures MixAt(srcs, srcGain, targetGain)(c, k, t) == Mixed(srcs, srcGain, targetGain, c, k, t)
  {
  }

  /** The source sample mix_in reads: sample k of the source channel that
      feeds channel c, or 0 once it has run out. */
  lemma SourceSample(src: Snd, c: nat, k: nat)
    requires src.Sound() && |src.channels| >= 1
    ensures var from := src.channels[SourceChannel(c, |src.channels|)].Samples();
      SrcSample(ChannelSamples(src), c, k) == if k < |from| then from[k] else 0.0
  {
    var srcs := ChannelSamples(src);
    assert srcs[SourceChannel(c, |srcs|)] == src.channels[SourceChannel(c, |src.channels|)].Samples();
  }

  /** Mixing in with source gain 0 and target gain 1 leaves every channel
      as it was. */
  lemma {:induction false} MixNeutral(chs: seq<BlockSequence>, s: nat, e: nat, srcs: seq<seq<real>>, n: nat)
    requires SoundChannels(chs) && n < |chs| && s <= e
    ensures MappedChannels(chs, s, e, MixAt(srcs, 0.0, 1.0))[n] == chs[n].Samples()
  {
    var f := MixAt(srcs, 0.0, 1.0);
    MappedChannelsAt(chs, s, e, f, n);
    forall i | 0 <= i < chs[n].Len() && s <= i < e
      ensures MappedChannels(chs, s, e, f)[n][i] == chs[n].Samples()[i]
    {
      assert f(n, i - s, chs[n].Samples()[i]) == Mixed(srcs, 0.0, 1.0, n, i - s, chs[n].Samples()[i]);
    }
  }

  /** Mixing in with target gain 0 and source gain 1 puts the source's
      samples over the range, from its first sample on, and silence once
      the source runs out. */
  lemma {:induction false} MixReplaces(chs: seq<BlockSequence>, s: nat, e: nat, srcs: seq<seq<real>>, n: nat, i: nat)
    requires SoundChannels(chs) && n < |chs| && s <= i < e && i < chs[n].Len()
    ensures |chs[n].Samples()| == chs[n].Len() == |MappedChannels(chs, s, e, MixAt(srcs, 1.0, 0.0))[n]|
    ensures MappedChannels(chs, s, e, MixAt(srcs, 1.0, 0.0))[n][i] == SrcSample(srcs, n, i - s)
  {
    var f := MixAt(srcs, 1.0, 0.0);
    MappedChannelsAt(chs, s, e, f, n);
    MixPick(srcs, n, i - s, chs[n].Samples()[i]);
  }

  /** With source gain 1 and target gain 0 the map gives the source sample. */
  lemma MixPick(srcs: seq<seq<real>>, c: nat, k: nat, t: real)
    ensures MixAt(srcs, 1.0, 0.0)(c, k, t) == SrcSample(srcs, c, k)
  {
  }
}
