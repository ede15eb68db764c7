/** SilentBlock (src/blocks/block/silent_block.rs): a run of zeros that is only a length. */
module SilentBlocks {
  import opened Util
  import opened Mips

  datatype SilentBlock = SilentBlock(len: nat)
  {
    /** The samples the block stands for: `len` zeros. */
    function Samples(): (s: seq<real>)
      ensures |s| == len
    {
      seq(len, _ => 0.0)
    }

    /** len (silent_block.rs:13-15) */
    function Len(): (n: nat)
      ensures n == |Samples()|
    {
      len
    }

    /** rng (silent_block.rs:17-20): only the width of `r` counts; it is not
        clamped to the block, and `end - start` would underflow on a reversed range. */
    function Rng(r: Range): (b: SilentBlock)
      requires RangeBounds(r, len).0 <= RangeBounds(r, len).1
      ensures b.Len() == RangeBounds(r, len).1 - RangeBounds(r, len).0
      ensures forall i :: 0 <= i < |b.Samples()| ==> b.Samples()[i] == 0.0
    {
      var (start, end) := RangeBounds(r, len);
      New(end - start)
    }

    /** get_sample (silent_block.rs:22-29) */
    function GetSample(index: nat): (x: Option<real>)
      ensures index < Len() <==> x.Some?
      ensures index < Len() ==> x.value == Samples()[index] == 0.0
    {
      if index < len then Some(0.0) else None
    }

    /** summary (silent_block.rs:31-33): silence peaks at zero, even when empty. */
    function Summary(): Peak
    {
      Peak(0.0, 0.0)
    }
  }

  /** new (silent_block.rs:9-11) */
  function New(len: nat): (b: SilentBlock)
    ensures b.Len() == len
  {
    SilentBlock(len)
  }

  /** A run of zeros peaks at (0, 0). */
  lemma {:induction false} AllZeroCover(s: seq<real>)
    requires |s| > 0 && forall i :: 0 <= i < |s| ==> s[i] == 0.0
    ensures Cover(s) == Peak(0.0, 0.0)
  {
    if |s| > 1 {
      AllZeroCover(s[..|s| - 1]);
    }
  }

  /** The summary of a non-empty silence is its true (min, max). */
  lemma SummaryIsCover(b: SilentBlock)
    requires b.Len() > 0
    ensures b.Summary() == Cover(b.Samples())
  {
    AllZeroCover(b.Samples());
  }

  /** Cutting 10..50 then 10..20 of a 100-sample silence leaves 10 zeros
      (silent_block.rs:41-54); cutting past the end grows the block. */
  lemma RngWidths()
    ensures New(100).Rng(Span(10, 50)).Len() == 40
    ensures New(100).Rng(Span(10, 50)).Rng(Span(10, 20)).Len() == 10
    ensures New(100).Rng(Span(0, 200)).Len() == 200
  {
  }
}
