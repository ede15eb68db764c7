/** ArcBlock (src/blocks/block/arc_block.rs): a window [start, end) onto shared,
    immutable sample data and the peak pyramid built over all of that data.
    Cutting a block shares the data; only the window moves. */
module ArcBlocks {
  import opened Util
  import opened Mips

  datatype ArcBlock = ArcBlock(data: seq<real>, mips: Pyramid, start: nat, end: nat)
  {
    /** The window lies inside the data. */
    predicate InBounds()
    {
      start <= end <= |data|
    }

    ghost predicate Valid()
    {
      InBounds() && ValidPyramid(mips, data)
    }

    /** The samples the block stands for. */
    function Samples(): seq<real>
      requires InBounds()
    {
      data[start..end]
    }

    /** len (arc_block.rs:14) */
    function Len(): (n: nat)
      requires InBounds()
      ensures n == |Samples()|
    {
      end - start
    }

    /** Whether `rng(r)` keeps the window in order: the source computes
        `end - start` later and would underflow otherwise. */
    predicate RngOk(r: Range)
    {
      var (s, e) := RangeBounds(r, end);
      start <= end ==> ClampNat(start + s, start, end) <= ClampNat(start + e, start, end)
    }

    /** rng (arc_block.rs:31-43): the sub-block for `r`, measured from the
        window's start and clamped to the window; the data is shared. */
    function Rng(r: Range): (b: ArcBlock)
      requires InBounds() && RngOk(r)
      ensures b.InBounds() && b.data == data && b.mips == mips
    {
      var (st, en) := RangeBounds(r, end);
      var s := start + st;
      var e := start + en;
      ArcBlock(data, mips, ClampNat(s, start, end), ClampNat(e, start, end))
    }

    /** get_sample (arc_block.rs:45-55) */
    function GetSample(index: nat): (x: Option<real>)
      requires InBounds()
      ensures index < Len() <==> x.Some?
      ensures index < Len() ==> x.value == Samples()[index]
    {
      var sampleIndex := start + index;
      if sampleIndex >= end then None else Some(data[sampleIndex])
    }
  }

  /** wrap (arc_block.rs:16-23) */
  function Wrap(data: seq<real>, mips: Pyramid): (b: ArcBlock)
    requires ValidPyramid(mips, data)
    ensures b.Valid() && b.Samples() == data
  {
    ArcBlock(data, mips, 0, |data|)
  }

  /** from_samples (arc_block.rs:25-29) */
  method FromSamples(data: seq<real>) returns (b: ArcBlock)
    ensures b.Valid() && b.Samples() == data
  {
    var pyr := Floats(data);
    b := Wrap(data, pyr);
  }

  /** summary (arc_block.rs:57-59): the peaks of the window, read from the pyramid. */
  method Summary(b: ArcBlock) returns (r: Peak)
    requires b.Valid()
    ensures b.Len() > 0 ==> r == Scan(b.Samples())
    ensures b.Len() == 0 ==> r == Sentinel
  {
    r := Peaks(b.mips, b.start, b.end, b.data);
  }

  /** rng keeps the samples from the resolved start to the resolved end, both
      measured from the window's start and clamped to the window. */
  lemma RngSamples(b: ArcBlock, r: Range)
    requires b.InBounds() && b.RngOk(r)
    ensures var (s, e) := RangeBounds(r, b.end);
      b.Rng(r).Samples() == b.Samples()[MinNat(s, b.Len())..MinNat(e, b.Len())]
  {
    var (s, e) := RangeBounds(r, b.end);
    assert b.Rng(r).start == b.start + MinNat(s, b.Len());
    assert b.Rng(r).end == b.start + MinNat(e, b.Len());
    SubSlice(b.data, b.Samples(), b.start, b.end, b.Rng(r).start, b.Rng(r).end);
  }

  /** Cutting twice is cutting once with the composed range, as the source's
      test does with rng(10..50) then rng(10..20) (arc_block.rs:74-83). */
  lemma RngTwice(b: ArcBlock, a1: nat, b1: nat, a2: nat, b2: nat)
    requires b.InBounds() && a1 <= b1 <= b.Len() && a2 <= b2 <= b1 - a1
    ensures b.RngOk(Span(a1, b1))
    ensures b.Rng(Span(a1, b1)).RngOk(Span(a2, b2))
    ensures b.Rng(Span(a1, b1)).Rng(Span(a2, b2)).Samples() == b.Samples()[a1 + a2..a1 + b2]
  {
    RangeShapes(a1, b1, b.end);
    var c := b.Rng(Span(a1, b1));
    assert c.start == b.start + a1 && c.end == b.start + b1;
    RangeShapes(a2, b2, c.end);
    assert c.Rng(Span(a2, b2)).start == c.start + a2;
    assert c.Rng(Span(a2, b2)).end == c.start + b2;
    SubSlice(b.data, b.Samples(), b.start, b.end, b.start + a1 + a2, b.start + a1 + b2);
  }
}
