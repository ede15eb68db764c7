/** BlockSequence (src/blocks/sequence.rs:6-153): one channel as a list of
    blocks, each tagged with the offset at which it starts. Offsets are prefix
    sums of the block lengths, and the channel's samples are the blocks'
    samples one after the other. */
module Sequences {
  import opened Util
  import opened Blocks

  datatype BlockSequence = BlockSequence(blocks: seq<(nat, Block)>)
  {
    /** Offsets start at 0 and each block starts where the previous one stops. */
    predicate Sound()
    {
      (forall k :: 0 <= k < |blocks| ==> blocks[k].1.InBounds()) &&
      (|blocks| > 0 ==> blocks[0].0 == 0) &&
      (forall k :: 0 < k < |blocks| ==> Start(k) == Stop(k - 1))
    }

    ghost predicate Valid()
    {
      Sound() && forall k :: 0 <= k < |blocks| ==> blocks[k].1.Valid()
    }

    /** Every block holds at least one sample. */
    predicate NoEmptyBlocks()
      requires Sound()
    {
      forall k :: 0 <= k < |blocks| ==> blocks[k].1.Len() > 0
    }

    /** The blocks without their offsets. */
    function Blocks(): (bs: seq<Block>)
      ensures |bs| == |blocks| && forall k :: 0 <= k < |blocks| ==> bs[k] == blocks[k].1
      ensures Sound() ==> forall k :: 0 <= k < |bs| ==> bs[k].InBounds()
    {
      seq(|blocks|, k requires 0 <= k < |blocks| => blocks[k].1)
    }

    /** The channel's samples. */
    function Samples(): seq<real>
      requires Sound()
    {
      Flatten(Blocks())
    }

    /** Where block k starts. */
    function Start(k: nat): nat
      requires k < |blocks|
    {
      blocks[k].0
    }

    /** Where block k stops (exclusive). */
    function Stop(k: nat): nat
      requires k < |blocks| && blocks[k].1.InBounds()
    {
      blocks[k].0 + blocks[k].1.Len()
    }

    /** len (sequence.rs:12-14): where the last block stops, or 0. */
    function Len(): (n: nat)
      requires Sound()
    {
      if blocks == [] then 0 else Stop(|blocks| - 1)
    }

    /** The samples from a up to b, cut at the end of the channel. */
    function Window(a: nat, b: nat): (w: seq<real>)
      requires Sound()
    {
      LenIsSamples();
      var e := MinNat(b, Len());
      if a < e then Samples()[a..e] else []
    }

    /** The length is the number of samples. */
    lemma LenIsSamples()
      requires Sound()
      ensures Len() == |Samples()|
    {
      var bs := Blocks();
      if bs != [] {
        OffsetIsPrefix(|bs| - 1);
      }
    }

    /** Each offset counts the samples of the blocks before it. */
    lemma {:induction false} OffsetIsPrefix(k: nat)
      requires Sound() && k < |blocks|
      ensures Start(k) == |Flatten(Blocks()[..k])|
    {
      var bs := Blocks();
      if k > 0 {
        OffsetIsPrefix(k - 1);
        assert bs[..k][..k - 1] == bs[..k - 1];
      } else {
        assert bs[..0] == [];
      }
    }

    /** Block k's samples sit in the channel at [Start(k), Stop(k)). */
    lemma BlockSlice(k: nat)
      requires Sound() && k < |blocks|
      ensures Stop(k) <= |Samples()|
      ensures Samples()[Start(k)..Stop(k)] == blocks[k].1.Samples()
      ensures SitsAt(Samples(), blocks[k].1, Start(k), Stop(k))
    {
      OffsetIsPrefix(k);
      FlattenSplit(Blocks(), k);
    }

    /** Blocks do not overlap and come in order. */
    lemma {:induction false} StopBeforeStart(j: nat, k: nat)
      requires Sound() && j < k < |blocks|
      ensures Stop(j) <= Start(k)
      decreases k - j
    {
      assert Start(j + 1) == Stop(j);
      if j + 1 < k {
        StopBeforeStart(j + 1, k);
      }
    }

    lemma Ordered()
      requires Sound()
      ensures forall j, k :: 0 <= j < k < |blocks| ==> Stop(j) <= Start(k)
      ensures forall j, k :: 0 <= j <= k < |blocks| ==> Start(j) <= Start(k)
      ensures forall j, k :: 0 <= j <= k < |blocks| ==> Stop(j) <= Stop(k)
      ensures forall k :: 0 <= k < |blocks| ==> Stop(k) <= Len()
    {
      forall j, k | 0 <= j < k < |blocks|
        ensures Stop(j) <= Start(k)
      {
        StopBeforeStart(j, k);
      }
      forall j, k | 0 <= j <= k < |blocks|
        ensures Start(j) <= Start(k) && Stop(j) <= Stop(k)
      {
        InOrder(j, k);
      }
      forall k | 0 <= k < |blocks|
        ensures Stop(k) <= Len()
      {
        Adjacent(|blocks|);
        InOrder(k, |blocks| - 1);
      }
    }

    /** One pair of blocks, in order. */
    lemma InOrder(j: nat, k: nat)
      requires Sound() && j <= k < |blocks|
      ensures j < k ==> Stop(j) <= Start(k)
      ensures Start(j) <= Start(k) && Stop(j) <= Stop(k)
    {
      if j < k {
        StopBeforeStart(j, k);
      }
    }

    /** Block k starts where block k - 1 stops, the first at 0, and the
        last stops at the length. */
    lemma Adjacent(k: nat)
      requires Sound() && k <= |blocks|
      ensures 0 < k < |blocks| ==> Start(k) == Stop(k - 1)
      ensures k == 0 < |blocks| ==> Start(0) == 0
      ensures 0 < k == |blocks| ==> Len() == Stop(k - 1)
    {
    }

    /** binary_search_by over [lo, hi): every block before lo stops at or
        before idx and every block from hi on starts after it. */
    function Search(idx: nat, lo: nat, hi: nat): (r: Option<nat>)
      requires Sound() && lo <= hi <= |blocks|
      requires forall k :: 0 <= k < lo ==> Stop(k) <= idx
      requires forall k :: hi <= k < |blocks| ==> idx < Start(k)
      ensures r.Some? <==> idx < Len()
      ensures r.Some? ==> r.value < |blocks| && Start(r.value) <= idx < Stop(r.value)
      decreases hi - lo
    {
      Ordered();
      Adjacent(hi);
      if lo == hi then
        None
      else
        var mid := lo + (hi - lo) / 2;
        if idx < Start(mid) then Search(idx, lo, mid)
        else if idx >= Stop(mid) then Search(idx, mid + 1, hi)
        else Some(mid)
    }

    /** get_containing_block_index (sequence.rs:25-36): the block whose span
        holds idx; blocks of length 0 hold nothing. */
    function ContainingIndex(idx: nat): (r: Option<nat>)
      requires Sound()
      ensures r.Some? <==> idx < Len()
      ensures r.Some? ==> r.value < |blocks| && Start(r.value) <= idx < Stop(r.value)
    {
      Search(idx, 0, |blocks|)
    }

    /** get_sample (sequence.rs:42-46): read the containing block at idx
        minus its offset. */
    function GetSample(idx: nat): (x: Option<real>)
      requires Sound()
      ensures x.Some? <==> idx < |Samples()|
      ensures x.Some? ==> x.value == Samples()[idx]
    {
      LenIsSamples();
      var c := ContainingIndex(idx);
      if c.None? then None
      else
        var k := c.value;
        SampleInBlock(k, idx);
        blocks[k].1.GetSample(idx - Start(k))
    }

    lemma SampleInBlock(k: nat, idx: nat)
      requires Sound() && k < |blocks| && Start(k) <= idx < Stop(k)
      ensures idx < |Samples()|
      ensures blocks[k].1.GetSample(idx - Start(k)) == Some(Samples()[idx])
    {
      BlockSlice(k);
      var all := Samples();
      assert all[Start(k)..Stop(k)][idx - Start(k)] == all[idx];
    }
  }

  /** Appending a block at the current length keeps the offsets prefix sums. */
  lemma SoundSnoc(sq: BlockSequence, b: Block)
    requires sq.Sound() && b.InBounds()
    ensures BlockSequence(sq.blocks + [(sq.Len(), b)]).Sound()
    ensures BlockSequence(sq.blocks + [(sq.Len(), b)]).Len() == sq.Len() + b.Len()
    ensures BlockSequence(sq.blocks + [(sq.Len(), b)]).Blocks() == sq.Blocks() + [b]
  {
    var n := |sq.blocks|;
    var next := BlockSequence(sq.blocks + [(sq.Len(), b)]);
    forall k | 0 < k < n + 1
      ensures next.Start(k) == next.Stop(k - 1)
    {
      if k < n {
        assert sq.Start(k) == sq.Stop(k - 1);
      }
    }
    assert next.Blocks() == sq.Blocks() + [b];
  }

  /** A window from a to b within the channel is that slice of the samples. */
  lemma WindowSlice(sq: BlockSequence, a: nat, b: nat)
    requires sq.Sound() && a <= b <= sq.Len()
    ensures |sq.Samples()| == sq.Len()
    ensures sq.Window(a, b) == sq.Samples()[a..b]
  {
    sq.LenIsSamples();
  }

  /** Two adjacent windows make one. */
  lemma WindowJoin(sq: BlockSequence, a: nat, m: nat, b: nat)
    requires sq.Sound() && a <= m <= b
    ensures sq.Window(a, m) + sq.Window(m, b) == sq.Window(a, b)
  {
    sq.LenIsSamples();
    var s := sq.Samples();
    var e := MinNat(b, sq.Len());
    if a < MinNat(m, sq.Len()) && m < e {
      assert s[a..m] + s[m..e] == s[a..e];
    }
  }

  /** from_iter (sequence.rs:133-147): tag each block with the running count
      of samples before it. */
  method FromIter(bs: seq<Block>) returns (sq: BlockSequence)
    requires forall k :: 0 <= k < |bs| ==> bs[k].Valid()
    ensures sq.Valid() && sq.Blocks() == bs
    ensures sq.Samples() == Flatten(bs)
  {
    var count := 0;
    sq := BlockSequence([]);
    for k := 0 to |bs|
      invariant sq.Sound() && sq.Blocks() == bs[..k] && count == sq.Len()
    {
      SoundSnoc(sq, bs[k]);
      assert bs[..k + 1] == bs[..k] + [bs[k]];
      sq := BlockSequence(sq.blocks + [(count, bs[k])]);
      count := count + bs[k].Len();
    }
    assert bs[..|bs|] == bs;
    forall k | 0 <= k < |sq.blocks|
      ensures sq.blocks[k].1.Valid()
    {
      assert sq.Blocks()[k] == bs[k];
    }
  }

  /** from_iter's offsets are the prefix sums of the lengths, and the length
      of the result is the total. */
  lemma FromIterOffsets(bs: seq<Block>, sq: BlockSequence)
    requires forall k :: 0 <= k < |bs| ==> bs[k].Valid()
    requires sq.Valid() && sq.Blocks() == bs
    ensures forall k :: 0 <= k < |bs| ==> sq.Start(k) == |Flatten(bs[..k])|
    ensures sq.Len() == |Flatten(bs)|
  {
    forall k | 0 <= k < |bs|
      ensures sq.Start(k) == |Flatten(bs[..k])|
    {
      sq.OffsetIsPrefix(k);
    }
    sq.LenIsSamples();
  }

  /** From<Block> (sequence.rs:149-153): a one-block channel. */
  method FromBlock(b: Block) returns (sq: BlockSequence)
    requires b.Valid()
    ensures sq.Valid() && sq.Samples() == b.Samples()
  {
    sq := FromIter([b]);
    assert [b][..0] == [];
  }
}
