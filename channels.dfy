/** solo, delete and insert (src/edit/channels.rs): keep one channel, drop
    one, or add a silent one. */
module ChannelOps {
  import opened Util
  import opened Blocks
  import opened Sequences
  import opened ChannelMasks
  import opened Snds
  import opened Ctxs
  import opened EditUtil

  /** solo (channels.rs:4-10): only the given channel is left (none when
      there is no such channel), and the mask turns on channel 0 alone. */
  function Solo(ctx: Ctx, channel: nat): (r: Ctx)
    requires ctx.snd.Sound()
    ensures channel < |ctx.snd.channels| ==> r.snd.channels == [ctx.snd.channels[channel]]
    ensures channel >= |ctx.snd.channels| ==> r.snd.channels == []
    ensures r.snd.sampleRate == ctx.snd.sampleRate
    ensures r == ctx.Flip(r.snd).(channels := ChannelMasks.Solo())
  {
    var chs := if channel < |ctx.snd.channels| then [ctx.snd.channels[channel]] else [];
    var nc := ctx.Flip(Snd(ctx.snd.sampleRate, chs));
    nc.(channels := ChannelMasks.Solo())
  }

  /** After solo the one channel left is the active one. */
  lemma SoloActive(ctx: Ctx, channel: nat)
    requires ctx.snd.Sound() && channel < |ctx.snd.channels|
    ensures Solo(ctx, channel).Fits() && Solo(ctx, channel).Active(0)
    ensures |Solo(ctx, channel).snd.channels| == 1
    ensures Solo(ctx, channel).snd.channels[0] == ctx.snd.channels[channel]
  {
  }

  /** The channels without channel c. */
  function Without(chs: seq<BlockSequence>, c: nat): (r: seq<BlockSequence>)
    ensures c < |chs| ==> |r| == |chs| - 1
    ensures c >= |chs| ==> r == chs
    ensures forall k :: 0 <= k < |r| && k < c ==> r[k] == chs[k]
    ensures forall k :: 0 <= k < |r| && k >= c ==> r[k] == chs[k + 1]
  {
    if c < |chs| then chs[..c] + chs[c + 1..] else chs
  }

  /** delete (channels.rs:12-18): channel c goes, the channels after it move
      down by one and so do their mask bits. */
  function Delete(ctx: Ctx, c: nat): (r: Ctx)
    requires ctx.snd.Sound() && c < Channels
    ensures r.snd.channels == Without(ctx.snd.channels, c) && r.snd.sampleRate == ctx.snd.sampleRate
    ensures r == ctx.Flip(r.snd).(channels := ctx.channels.ShiftAfter(c))
  {
    var chs := Without(ctx.snd.channels, c);
    SoundWithout(ctx.snd.channels, c);
    var nc := ctx.Flip(Snd(ctx.snd.sampleRate, chs));
    nc.(channels := nc.channels.ShiftAfter(c))
  }

  /** Dropping a channel keeps the rest sound. */
  lemma SoundWithout(chs: seq<BlockSequence>, c: nat)
    requires SoundChannels(chs)
    ensures SoundChannels(Without(chs, c))
  {
    var r := Without(chs, c);
    forall k | 0 <= k < |r|
      ensures r[k].Sound()
    {
      if k < c {
        assert r[k] == chs[k];
      } else {
        assert r[k] == chs[k + 1];
      }
    }
  }

  /** After delete every remaining channel keeps its own samples and its
      own active flag, except that the channel just before the deleted one
      is also turned on when the deleted one was on. */
  lemma DeleteKeepsFlags(ctx: Ctx, c: nat, k: nat)
    requires ctx.Fits() && c < |ctx.snd.channels| && k < |ctx.snd.channels| - 1
    ensures Delete(ctx, c).Fits()
    ensures k < c ==> Delete(ctx, c).snd.channels[k] == ctx.snd.channels[k]
    ensures k >= c ==> Delete(ctx, c).snd.channels[k] == ctx.snd.channels[k + 1]
    ensures k + 1 < c ==> (Delete(ctx, c).Active(k) <==> ctx.Active(k))
    ensures k + 1 == c ==> (Delete(ctx, c).Active(k) <==> ctx.Active(k) || ctx.Active(c))
    ensures k >= c ==> (Delete(ctx, c).Active(k) <==> ctx.Active(k + 1))
  {
    SoundWithout(ctx.snd.channels, c);
    var d, m := Delete(ctx, c), ctx.channels.ShiftAfter(c);
    assert d.channels == m;
    if k + 1 < c {
      assert m.IsOn(k) <==> ctx.channels.IsOn(k);
    } else if k >= c {
      assert m.IsOn(k) <==> ctx.channels.IsOn(k + 1);
    }
  }

  /** insert (channels.rs:20-27): a silent channel as long as the sound is
      added after the others. */
  method Insert(ctx: Ctx) returns (r: Ctx)
    requires ctx.Valid()
    ensures r.snd.Valid() && r.snd.sampleRate == ctx.snd.sampleRate
    ensures |r.snd.channels| == |ctx.snd.channels| + 1
    ensures r.snd.channels[..|ctx.snd.channels|] == ctx.snd.channels
    ensures r.snd.channels[|ctx.snd.channels|].Samples() == Zeros(ctx.snd.Len())
    ensures r.snd.Len() == ctx.snd.Len()
    ensures r == ctx.Flip(r.snd)
  {
    var silence := FromBlock(Silence(ctx.snd.Len()));
    ValidSnoc(ctx.snd.channels, silence);
    InsertKeepsLen(ctx.snd.channels, silence, ctx.snd.sampleRate);
    var chs := ctx.snd.channels + [silence];
    assert chs[..|ctx.snd.channels|] == ctx.snd.channels;
    r := ctx.Flip(Snd(ctx.snd.sampleRate, chs));
  }

  /** A silent channel as long as the sound leaves the sound's length as
      it was. */
  lemma InsertKeepsLen(chs: seq<BlockSequence>, sq: BlockSequence, sr: nat)
    requires SoundChannels(chs) && sq.Sound() && sq.Samples() == Zeros(Snd(sr, chs).Len())
    ensures Snd(sr, chs + [sq]).Sound() && Snd(sr, chs + [sq]).Len() == Snd(sr, chs).Len()
  {
    var t := chs + [sq];
    SoundChannelsSnoc(chs, sq);
    assert t[..|t| - 1] == chs && t[|t| - 1] == sq;
    sq.LenIsSamples();
    assert MaxLen(t) == MaxNat(MaxLen(chs), sq.Len());
  }

  /** Sound channels with one more sound channel after them. */
  lemma SoundChannelsSnoc(chs: seq<BlockSequence>, sq: BlockSequence)
    requires SoundChannels(chs) && sq.Sound()
    ensures SoundChannels(chs + [sq])
  {
    var t := chs + [sq];
    forall k | 0 <= k < |t|
      ensures t[k].Sound()
    {
      if k < |chs| {
        assert t[k] == chs[k];
      }
    }
  }
}
