/** reverse (src/edit/fx.rs): turn the sample region of every active channel
    around, one chunk at a time. */
module Fx {
  import opened Util
  import opened Blocks
  import opened Sequences
  import opened Chunking
  import opened SequenceOps
  import opened ChannelMasks
  import opened Snds
  import opened Ctxs
  import opened EditUtil

  /** What one chunk becomes (fx.rs:13): its samples read back to front by a
      runner whose `next_back` never yields the first one. */
  function RevChunk(b: Block): (r: seq<real>)
    requires b.InBounds()
    ensures b.Len() >= 1 ==> |r| == b.Len() - 1
    ensures b.Len() >= 1 ==> forall i :: 0 <= i < |r| ==> r[i] == b.Samples()[b.Len() - 1 - i]
  {
    if b.Len() == 0 then [] else Util.Reverse(b.Samples()[1..])
  }

  /** The reversed section (fx.rs:12-15): each chunk, back chunk first,
      turned around. */
  function RevSection(bs: seq<Block>): (r: seq<real>)
    requires forall k :: 0 <= k < |bs| ==> bs[k].InBounds()
  {
    if bs == [] then [] else RevSection(bs[..|bs| - 1]) + RevChunk(bs[|bs| - 1])
  }

  /** What reverse gives one active channel (fx.rs:12-17). */
  function ReversedSamples(sq: BlockSequence, s: nat, e: nat): seq<real>
    requires sq.Sound() && s <= e
  {
    sq.Window(0, s) + RevSection(BackChunks(sq, s, e)) + sq.Window(e, sq.Len())
  }

  /** What reverse gives every channel, of which the active ones are taken. */
  function Reversed(chs: seq<BlockSequence>, s: nat, e: nat): (w: seq<seq<real>>)
    requires SoundChannels(chs) && s <= e
    ensures |w| == |chs|
  {
    seq(|chs|, n requires 0 <= n < |chs| => ReversedSamples(chs[n], s, e))
  }

  /** No chunk of [s, e) in an active channel is empty: the runner's
      `next_back` starts by stepping its end down, which an empty chunk
      cannot take. */
  predicate Reversible(chs: seq<BlockSequence>, m: Mask, s: nat, e: nat)
    requires SoundChannels(chs) && s <= e && |chs| <= Channels
  {
    forall n :: 0 <= n < |chs| && m.IsOn(n) ==> AllNonEmpty(BackChunks(chs[n], s, e))
  }

  /** Channels without empty blocks can always be reversed. */
  lemma ReversibleWithoutEmptyBlocks(chs: seq<BlockSequence>, m: Mask, s: nat, e: nat)
    requires SoundChannels(chs) && s <= e && |chs| <= Channels
    requires forall n :: 0 <= n < |chs| ==> chs[n].NoEmptyBlocks()
    ensures Reversible(chs, m, s, e)
  {
    forall n | 0 <= n < |chs| && m.IsOn(n)
      ensures AllNonEmpty(BackChunks(chs[n], s, e))
    {
      BackChunksNonEmpty(chs[n], s, e);
    }
  }

  /** Every chunk, turned around, as a block of its own. */
  method RevBlocks(bs: seq<Block>) returns (out: seq<Block>)
    requires AllNonEmpty(bs)
    ensures AllValid(out) && Flatten(out) == RevSection(bs)
  {
    out := [];
    for k := 0 to |bs|
      invariant AllValid(out) && AllIn(out) && Flatten(out) == RevSection(bs[..k])
    {
      var samples := CollectRev(bs[k]);
      var b := Data(samples);
      RevSectionSnoc(bs, k);
      JoinOne(out, b);
      out := out + [b];
    }
    assert bs[..|bs|] == bs;
  }

  /** One more chunk turned around extends the reversed section. */
  lemma RevSectionSnoc(bs: seq<Block>, k: nat)
    requires AllNonEmpty(bs) && k < |bs|
    ensures RevSection(bs[..k + 1]) == RevSection(bs[..k]) + Util.Reverse(bs[k].Samples()[1..])
  {
    assert bs[..k + 1][..k] == bs[..k];
  }

  /** reverse on one channel (fx.rs:12-17). */
  method ReverseChannel(sq: BlockSequence, s: nat, e: nat) returns (p: BlockSequence)
    requires sq.Valid() && s <= e && AllNonEmpty(BackChunks(sq, s, e))
    ensures p.Valid() && p.Samples() == ReversedSamples(sq, s, e)
  {
    Bounds(sq, s, e);
    var c := Chunks(sq, Span(s, e));
    var bs := DrainBack(c);
    var revs := RevBlocks(bs);
    var section := FromIter(revs);
    p := Replace(sq, s, e, section);
  }

  /** The channel walk of reverse. */
  method ReverseEach(chs: seq<BlockSequence>, m: Mask, s: nat, e: nat) returns (out: seq<BlockSequence>)
    requires ValidChannels(chs) && SoundChannels(chs) && |chs| <= Channels && s <= e
    requires Reversible(chs, m, s, e)
    ensures ValidChannels(out) && Edited(out, chs, m, Reversed(chs, s, e))
  {
    ghost var want := Reversed(chs, s, e);
    out := [];
    for n := 0 to |chs|
      invariant |out| == n && ValidChannels(out) && Applied(out, chs, m, want)
    {
      var p := chs[n];
      if m.IsOn(n) {
        p := ReverseChannel(chs[n], s, e);
      }
      AppliedSnoc(out, chs, m, want, p);
      ValidSnoc(out, p);
      out := out + [p];
    }
  }

  /** reverse (fx.rs:7-26): every active channel has its sample region
      turned around chunk by chunk; cursor and selection stay. */
  method Reverse(ctx: Ctx) returns (r: Ctx)
    requires ctx.Valid()
    requires Reversible(ctx.snd.channels, ctx.channels, ctx.SampleRegion().0, ctx.SampleRegion().1)
    ensures r.snd.Valid() && r.snd.sampleRate == ctx.snd.sampleRate
    ensures Edited(r.snd.channels, ctx.snd.channels, ctx.channels,
                   Reversed(ctx.snd.channels, ctx.SampleRegion().0, ctx.SampleRegion().1))
    ensures r == ctx.Flip(r.snd)
  {
    var (s, e) := ctx.SampleRegion();
    var chs := ReverseEach(ctx.snd.channels, ctx.channels, s, e);
    r := ctx.Flip(Snd(ctx.snd.sampleRate, chs));
  }

  /** Each chunk loses one sample: the reversed section is shorter than the
      chunks by their number. */
  lemma {:induction false} RevSectionLen(bs: seq<Block>)
    requires AllNonEmpty(bs)
    ensures |RevSection(bs)| == |FlattenRev(bs)| - |bs|
    decreases |bs|
  {
    if bs != [] {
      var n := |bs| - 1;
      NonEmptyPrefix(bs, n);
      RevSectionLen(bs[..n]);
      RevSectionLast(bs);
      FlattenRevLast(bs);
    }
  }

  /** The last chunk adds one sample less than it holds. */
  lemma RevSectionLast(bs: seq<Block>)
    requires AllNonEmpty(bs) && bs != []
    ensures |RevSection(bs)| == |RevSection(bs[..|bs| - 1])| + bs[|bs| - 1].Len() - 1
  {
  }

  /** Read back to front, the last chunk adds all it holds. */
  lemma FlattenRevLast(bs: seq<Block>)
    requires AllNonEmpty(bs) && bs != []
    ensures |FlattenRev(bs)| == |FlattenRev(bs[..|bs| - 1])| + bs[|bs| - 1].Len()
  {
    var n := |bs| - 1;
    assert bs == bs[..n] + [bs[n]];
    FlattenRevSnoc(bs[..n], bs[n]);
  }

  /** Inside the channel, reverse leaves the channel shorter by one sample
      per chunk of the region. */
  lemma ReversedLen(sq: BlockSequence, s: nat, e: nat)
    requires sq.Sound() && s <= e <= sq.Len() && AllNonEmpty(BackChunks(sq, s, e))
    ensures |ReversedSamples(sq, s, e)| == sq.Len() - |BackChunks(sq, s, e)|
  {
    BackChunksWindow(sq, s, e);
    RevSectionLen(BackChunks(sq, s, e));
    WindowEnds(sq, s, e);
    WindowEnds(sq, 0, s);
    WindowEnds(sq, e, sq.Len());
  }

  /** A region that runs past the end of the channel yields no chunks, so
      reverse cuts the channel off at the region's start. */
  lemma ReversedPastEnd(sq: BlockSequence, s: nat, e: nat)
    requires sq.Sound() && s <= e && e > sq.Len()
    ensures ReversedSamples(sq, s, e) == sq.Window(0, s)
  {
    BackChunksWindow(sq, s, e);
    assert sq.Window(e, sq.Len()) == [];
  }

  /** A region inside one block is one chunk: it comes back turned around
      without its first sample. */
  lemma ReversedInOneBlock(sq: BlockSequence, s: nat, e: nat, k: nat)
    requires sq.Sound() && s < e && k < |sq.blocks| && sq.Start(k) <= s && e <= sq.Stop(k)
    ensures |sq.Samples()| == sq.Len() && e <= sq.Len()
    ensures ReversedSamples(sq, s, e) == sq.Samples()[..s] + Util.Reverse(sq.Samples()[s + 1..e]) + sq.Samples()[e..]
  {
    OneBlockChunk(sq, s, e, k);
    var cs := BackChunks(sq, s, e);
    RevSectionOne(cs);
    RevChunkSlice(cs[0], sq.Samples(), s, e);
    WindowEnds(sq, 0, s);
    WindowEnds(sq, e, sq.Len());
  }

  /** One chunk is reversed on its own. */
  lemma RevSectionOne(bs: seq<Block>)
    requires |bs| == 1 && bs[0].InBounds()
    ensures RevSection(bs) == RevChunk(bs[0])
  {
    assert bs[..0] == [];
  }

  /** A chunk holding x[s..e] turns around into x[s + 1..e] reversed. */
  lemma RevChunkSlice(c: Block, x: seq<real>, s: nat, e: nat)
    requires c.InBounds() && s < e <= |x| && c.Samples() == x[s..e]
    ensures RevChunk(c) == Util.Reverse(x[s + 1..e])
  {
    assert c.Samples()[1..] == x[s + 1..e];
  }

  /** The one chunk of a region inside block k holds the region's samples. */
  lemma OneBlockChunk(sq: BlockSequence, s: nat, e: nat, k: nat)
    requires sq.Sound() && s < e && k < |sq.blocks| && sq.Start(k) <= s && e <= sq.Stop(k)
    ensures |sq.Samples()| == sq.Len() && e <= sq.Len()
    ensures |BackChunks(sq, s, e)| == 1
    ensures BackChunks(sq, s, e)[0].Len() == e - s >= 1
    ensures BackChunks(sq, s, e)[0].Samples() == sq.Samples()[s..e]
  {
    sq.LenIsSamples();
    sq.Ordered();
    var ei := BackIndex(sq, e);
    assert ei == k;
    BwdIn(sq, s, e, k);
    BackChunksWindow(sq, s, e);
    WindowEnds(sq, s, e);
  }
}
