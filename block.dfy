/** Block (src/blocks/block.rs): either a window onto shared sample data or a
    run of silence, and BlockRunner, the iterator over a block's samples. */
module Blocks {
  import opened Util
  import opened Mips
  import opened ArcBlocks
  import opened SilentBlocks

  datatype Block = Arc(ab: ArcBlock) | Silent(sb: SilentBlock)
  {
    /** A data block's window lies inside its data. */
    predicate InBounds()
    {
      Arc? ==> ab.InBounds()
    }

    ghost predicate Valid()
    {
      Arc? ==> ab.Valid()
    }

    /** The samples the block stands for. */
    function Samples(): seq<real>
      requires InBounds()
    {
      match this
      case Arc(ab) => ab.Samples()
      case Silent(sb) => sb.Samples()
    }

    /** len (block.rs:26-31) */
    function Len(): (n: nat)
      requires InBounds()
      ensures n == |Samples()|
    {
      match this
      case Arc(ab) => ab.Len()
      case Silent(sb) => sb.Len()
    }

    /** Whether `rng(r)` is defined: the source subtracts the resolved bounds. */
    predicate RngOk(r: Range)
    {
      match this
      case Arc(ab) => ab.RngOk(r)
      case Silent(sb) => RangeBounds(r, sb.len).0 <= RangeBounds(r, sb.len).1
    }

    /** rng (block.rs:33-38): a data block is cut to the range, clamped to
        itself; a silent block only takes the range's width. */
    function Rng(r: Range): (b: Block)
      requires InBounds() && RngOk(r)
      ensures b.InBounds() && b.Arc? == Arc?
    {
      match this
      case Arc(ab) => Arc(ab.Rng(r))
      case Silent(sb) => Silent(sb.Rng(r))
    }

    /** get_sample (block.rs:40-45) */
    function GetSample(index: nat): (x: Option<real>)
      requires InBounds()
      ensures index < Len() <==> x.Some?
      ensures index < Len() ==> x.value == Samples()[index]
    {
      match this
      case Arc(ab) => ab.GetSample(index)
      case Silent(sb) => sb.GetSample(index)
    }
  }

  /** The samples of a run of blocks, one after the other. */
  function Flatten(bs: seq<Block>): seq<real>
    requires forall k :: 0 <= k < |bs| ==> bs[k].InBounds()
  {
    if bs == [] then [] else Flatten(bs[..|bs| - 1]) + bs[|bs| - 1].Samples()
  }

  lemma {:induction false} FlattenAppend(a: seq<Block>, b: seq<Block>)
    requires forall k :: 0 <= k < |a| ==> a[k].InBounds()
    requires forall k :: 0 <= k < |b| ==> b[k].InBounds()
    ensures Flatten(a + b) == Flatten(a) + Flatten(b)
    decreases |b|
  {
    if b == [] {
      assert a + b == a;
    } else {
      var b' := b[..|b| - 1];
      var last := b[|b| - 1];
      assert (a + b)[..|a + b| - 1] == a + b';
      assert (a + b)[|a + b| - 1] == last;
      FlattenAppend(a, b');
      assert Flatten(a + b) == Flatten(a + b') + last.Samples();
      assert Flatten(b) == Flatten(b') + last.Samples();
    }
  }

  /** Block k's samples follow the samples of the blocks before it. */
  lemma FlattenSplit(bs: seq<Block>, k: nat)
    requires forall j :: 0 <= j < |bs| ==> bs[j].InBounds()
    requires k < |bs|
    ensures |Flatten(bs[..k])| + bs[k].Len() <= |Flatten(bs)|
    ensures Flatten(bs)[|Flatten(bs[..k])|..|Flatten(bs[..k])| + bs[k].Len()] == bs[k].Samples()
  {
    var pre, post := bs[..k + 1], bs[k + 1..];
    assert pre + post == bs;
    assert pre[..|pre| - 1] == bs[..k] && pre[|pre| - 1] == bs[k];
    var p, x, q := Flatten(bs[..k]), bs[k].Samples(), Flatten(post);
    assert Flatten(pre) == p + x;
    FlattenAppend(pre, post);
    MiddleSlice(p, x, q);
  }

  /** The middle of three runs, cut back out. */
  lemma MiddleSlice(p: seq<real>, x: seq<real>, q: seq<real>)
    ensures (p + x + q)[|p|..|p| + |x|] == x
  {
  }

  /** Block b's samples sit in `all` at [i, j). */
  predicate SitsAt(all: seq<real>, b: Block, i: nat, j: nat)
  {
    b.InBounds() && j == i + b.Len() <= |all| && all[i..j] == b.Samples()
  }

  /** A block whose samples sit in `all` from i on, cut to [s - i, e - i),
      holds the samples of `all` from s to e. */
  lemma CutSlice(all: seq<real>, b: Block, i: nat, j: nat, s: nat, e: nat)
    requires SitsAt(all, b, i, j) && i <= s <= e <= j
    ensures b.RngOk(Span(s - i, e - i))
    ensures b.Rng(Span(s - i, e - i)).Samples() == all[s..e]
  {
    SubSlice(all, b.Samples(), i, j, s, e);
    RngSpan(b, s - i, e - i);
  }

  /** A cut block shares its data and pyramid, so a valid block stays valid. */
  lemma RngValid(b: Block, r: Range)
    requires b.Valid() && b.RngOk(r)
    ensures b.Rng(r).Valid()
  {
  }

  /** rng cuts a data block to the clamped range and turns a silent block
      into zeros as wide as the range. */
  lemma RngSamples(b: Block, r: Range)
    requires b.InBounds() && b.RngOk(r)
    ensures b.Arc? ==> var (s, e) := RangeBounds(r, b.ab.end);
      b.Rng(r).Samples() == b.Samples()[MinNat(s, b.Len())..MinNat(e, b.Len())]
    ensures b.Silent? ==> var (s, e) := RangeBounds(r, b.sb.len);
      b.Rng(r).Samples() == Zeros(e - s)
  {
    match b
    case Arc(ab) => ArcBlocks.RngSamples(ab, r);
    case Silent(sb) =>
  }

  /** The three range shapes a chunker cuts with are safe to cut with. */
  lemma RngOkShapes(b: Block, s: nat, e: nat)
    requires b.InBounds() && s <= e <= b.Len()
    ensures b.RngOk(Span(s, e)) && b.RngOk(From(s)) && b.RngOk(UpTo(e))
  {
    RangeShapes(s, e, b.Len());
    match b
    case Arc(ab) =>
      RangeShapes(s, e, ab.end);
    case Silent(sb) =>
  }

  /** Every block of the list has a valid pyramid. */
  ghost predicate AllValid(bs: seq<Block>)
  {
    forall k :: 0 <= k < |bs| ==> bs[k].Valid()
  }

  /** A valid block before valid blocks. */
  lemma ValidCons(b: Block, bs: seq<Block>)
    requires b.Valid() && AllValid(bs)
    ensures AllValid([b] + bs)
  {
    forall k | 0 <= k < |[b] + bs|
      ensures ([b] + bs)[k].Valid()
    {
      if k > 0 {
        assert ([b] + bs)[k] == bs[k - 1];
      }
    }
  }

  /** A list made of a valid block before valid blocks is valid. */
  lemma ValidFront(all: seq<Block>, b: Block, bs: seq<Block>)
    requires all == [b] + bs && b.Valid() && AllValid(bs)
    ensures AllValid(all)
  {
    ValidCons(b, bs);
  }

  /** Every data block of the list has its window inside its data. */
  predicate AllIn(bs: seq<Block>)
  {
    forall k :: 0 <= k < |bs| ==> bs[k].InBounds()
  }

  /** Two runs of valid blocks, one after the other: still valid, and their
      samples follow one another. */
  lemma Join(a: seq<Block>, b: seq<Block>)
    requires AllValid(a) && AllIn(a) && AllValid(b) && AllIn(b)
    ensures AllValid(a + b) && AllIn(a + b)
    ensures Flatten(a + b) == Flatten(a) + Flatten(b)
  {
    assert forall k :: 0 <= k < |a| ==> (a + b)[k] == a[k];
    assert forall k :: |a| <= k < |a + b| ==> (a + b)[k] == b[k - |a|];
    FlattenAppend(a, b);
  }

  /** A valid block after a run of valid blocks. */
  lemma JoinOne(a: seq<Block>, b: Block)
    requires AllValid(a) && AllIn(a) && b.Valid() && b.InBounds()
    ensures AllValid(a + [b]) && AllIn(a + [b])
    ensures Flatten(a + [b]) == Flatten(a) + b.Samples()
  {
    assert forall k :: 0 <= k < |a| ==> (a + [b])[k] == a[k];
    FlattenSnoc(a, b);
  }

  /** Every block of the list holds at least one sample. */
  predicate AllNonEmpty(bs: seq<Block>)
  {
    forall k :: 0 <= k < |bs| ==> bs[k].InBounds() && bs[k].Len() > 0
  }

  /** A prefix of blocks with samples has only blocks with samples. */
  lemma NonEmptyPrefix(bs: seq<Block>, n: nat)
    requires AllNonEmpty(bs) && n <= |bs|
    ensures AllNonEmpty(bs[..n])
  {
    forall k | 0 <= k < n
      ensures bs[..n][k].InBounds() && bs[..n][k].Len() > 0
    {
      assert bs[..n][k] == bs[k];
    }
  }

  /** A block with samples before blocks with samples. */
  lemma NonEmptyCons(b: Block, bs: seq<Block>)
    requires b.InBounds() && b.Len() > 0 && AllNonEmpty(bs)
    ensures AllNonEmpty([b] + bs)
  {
    forall k | 0 <= k < |[b] + bs|
      ensures ([b] + bs)[k].InBounds() && ([b] + bs)[k].Len() > 0
    {
      if k > 0 {
        assert ([b] + bs)[k] == bs[k - 1];
      }
    }
  }

  /** A list made of a block with samples before blocks with samples has
      only blocks with samples. */
  lemma NonEmptyFront(all: seq<Block>, b: Block, bs: seq<Block>)
    requires all == [b] + bs && b.InBounds() && b.Len() > 0 && AllNonEmpty(bs)
    ensures AllNonEmpty(all)
  {
    NonEmptyCons(b, bs);
  }

  /** A block cut to [s, e) inside its length holds exactly those samples. */
  lemma RngSpan(b: Block, s: nat, e: nat)
    requires b.InBounds() && s <= e <= b.Len()
    ensures b.RngOk(Span(s, e))
    ensures b.Rng(Span(s, e)).Samples() == b.Samples()[s..e]
  {
    RangeShapes(s, e, b.Len());
    RngSamples(b, Span(s, e));
    if b.Arc? {
      RangeShapes(s, e, b.ab.end);
    }
  }

  /** The three range shapes a chunker cuts with select the expected slice,
      and `from(s)` and `..e` are the same blocks as the spans they abbreviate. */
  lemma RngSlices(b: Block, s: nat, e: nat)
    requires b.InBounds() && s <= e <= b.Len()
    ensures b.RngOk(Span(s, e)) && b.RngOk(From(s)) && b.RngOk(UpTo(e))
    ensures b.Rng(Span(s, e)).Samples() == b.Samples()[s..e]
    ensures b.Rng(From(s)) == b.Rng(Span(s, b.Len()))
    ensures b.Rng(UpTo(e)) == b.Rng(Span(0, e))
  {
    RangeShapes(s, e, b.Len());
    RngSamples(b, Span(s, e));
    match b
    case Arc(ab) =>
      RangeShapes(s, e, ab.end);
      RangeShapes(s, b.Len(), ab.end);
      RangeShapes(0, e, ab.end);
    case Silent(sb) =>
      RangeShapes(s, b.Len(), sb.len);
      RangeShapes(0, e, sb.len);
  }

  lemma FlattenCons(b: Block, bs: seq<Block>)
    requires b.InBounds() && forall k :: 0 <= k < |bs| ==> bs[k].InBounds()
    ensures Flatten([b] + bs) == b.Samples() + Flatten(bs)
  {
    var one := [b];
    assert forall k :: 0 <= k < |one| ==> one[k].InBounds();
    FlattenAppend(one, bs);
    assert one[..0] == [];
    assert Flatten(one) == b.Samples();
  }

  lemma FlattenSnoc(bs: seq<Block>, b: Block)
    requires b.InBounds() && forall k :: 0 <= k < |bs| ==> bs[k].InBounds()
    ensures Flatten(bs + [b]) == Flatten(bs) + b.Samples()
  {
    assert (bs + [b])[..|bs|] == bs;
  }

  /** The samples of a run of blocks given back to front: the last block's
      samples come first, each block still read forwards. */
  function FlattenRev(bs: seq<Block>): seq<real>
    requires forall k :: 0 <= k < |bs| ==> bs[k].InBounds()
  {
    if bs == [] then [] else FlattenRev(bs[1..]) + bs[0].Samples()
  }

  /** The samples of a list that starts with b, given those of b and of the
      rest. */
  lemma FlattenFront(all: seq<Block>, b: Block, bs: seq<Block>, x: seq<real>, y: seq<real>)
    requires all == [b] + bs && b.InBounds() && forall k :: 0 <= k < |bs| ==> bs[k].InBounds()
    requires b.Samples() == x && Flatten(bs) == y
    ensures Flatten(all) == x + y
  {
    FlattenCons(b, bs);
  }

  /** The same for a list read back to front: the rest comes first. */
  lemma FlattenRevFront(all: seq<Block>, b: Block, bs: seq<Block>, x: seq<real>, y: seq<real>)
    requires all == [b] + bs && b.InBounds() && forall k :: 0 <= k < |bs| ==> bs[k].InBounds()
    requires b.Samples() == x && FlattenRev(bs) == y
    ensures FlattenRev(all) == y + x
  {
    FlattenRevCons(b, bs);
  }

  lemma FlattenRevCons(b: Block, bs: seq<Block>)
    requires b.InBounds() && forall k :: 0 <= k < |bs| ==> bs[k].InBounds()
    ensures FlattenRev([b] + bs) == FlattenRev(bs) + b.Samples()
  {
    ConsParts(b, bs);
  }

  /** A block appended to back-to-front blocks is read first. */
  lemma {:induction false} FlattenRevSnoc(bs: seq<Block>, b: Block)
    requires b.InBounds() && forall k :: 0 <= k < |bs| ==> bs[k].InBounds()
    ensures FlattenRev(bs + [b]) == b.Samples() + FlattenRev(bs)
    decreases |bs|
  {
    if bs == [] {
      assert bs + [b] == [b] + [];
      FlattenRevCons(b, []);
    } else {
      var rest := bs[1..];
      FlattenRevSnoc(rest, b);
      assert (bs + [b])[1..] == rest + [b] && (bs + [b])[0] == bs[0];
      assert FlattenRev(bs + [b]) == FlattenRev(rest + [b]) + bs[0].Samples();
      assert FlattenRev(bs) == FlattenRev(rest) + bs[0].Samples();
      Assoc(b.Samples(), FlattenRev(rest), bs[0].Samples());
    }
  }

  /** Reading back-to-front blocks in reverse is reading the reversed run. */
  lemma {:induction false} FlattenRevIsReverse(bs: seq<Block>)
    requires forall k :: 0 <= k < |bs| ==> bs[k].InBounds()
    ensures FlattenRev(bs) == Flatten(Reverse(bs))
  {
    if bs != [] {
      FlattenRevIsReverse(bs[1..]);
      assert bs == [bs[0]] + bs[1..];
      ReverseCons(bs[0], bs[1..]);
      FlattenSnoc(Reverse(bs[1..]), bs[0]);
    }
  }

  function Zeros(n: nat): (s: seq<real>)
    ensures |s| == n && forall i :: 0 <= i < n ==> s[i] == 0.0
  {
    seq(n, _ => 0.0)
  }

  /** data (block.rs:14-17): a new data block over `samples`. */
  method Data(samples: seq<real>) returns (b: Block)
    ensures b.Valid() && b.Arc? && b.Samples() == samples
  {
    var ab := FromSamples(samples);
    b := Arc(ab);
  }

  /** silence (block.rs:19-22) */
  function Silence(len: nat): (b: Block)
    ensures b.Valid() && b.Silent? && b.Samples() == Zeros(len)
  {
    Silent(New(len))
  }

  /** What `summary` stands for: the naive scan of a data block's samples
      (the sentinel when there are none), and (0, 0) for any silence. */
  function SummaryOf(b: Block): Peak
    requires b.InBounds()
  {
    if b.Arc? then Scan(b.Samples()) else Peak(0.0, 0.0)
  }

  /** summary (block.rs:47-52): the peaks of a data block; (0, 0) for silence. */
  method Summary(b: Block) returns (r: Peak)
    requires b.Valid()
    ensures r == SummaryOf(b)
    ensures b.Arc? && b.Len() > 0 ==> r == Scan(b.Samples())
    ensures b.Arc? && b.Len() == 0 ==> r == Sentinel
    ensures b.Silent? ==> r == Peak(0.0, 0.0)
  {
    match b
    case Arc(ab) =>
      r := ArcBlocks.Summary(ab);
    case Silent(sb) =>
      r := sb.Summary();
  }

  /** The samples of `s` passed through `f`, which also sees each sample's
      position counted from `offset` (a stateful closure, made explicit). */
  function Mapped(f: (nat, real) -> real, offset: nat, s: seq<real>): (m: seq<real>)
    ensures |m| == |s|
  {
    seq(|s|, i requires 0 <= i < |s| => f(offset + i, s[i]))
  }

  /** BlockRunner (block.rs:70-113): walks a block by index from both ends. */
  class BlockRunner {
    const b: Block
    var start: nat
    var end: nat

    ghost predicate Valid()
      reads this
    {
      b.InBounds() && end <= b.Len()
    }

    /** new (block.rs:77-85) */
    constructor (blk: Block)
      requires blk.InBounds()
      ensures Valid() && b == blk && start == 0 && end == blk.Len()
    {
      b := blk;
      start := 0;
      end := blk.Len();
    }

    /** next (block.rs:91-99) */
    method Next() returns (x: Option<real>)
      requires Valid()
      modifies this
      ensures Valid() && end == old(end)
      ensures old(start) == end ==> x.None? && start == old(start)
      ensures old(start) != end ==> start == old(start) + 1 && x == b.GetSample(old(start))
      ensures old(start) < end ==> x == Some(b.Samples()[old(start)])
    {
      if start == end {
        return None;
      }
      x := b.GetSample(start);
      start := start + 1;
    }

    /** next_back (block.rs:104-112): steps `end` back before comparing, so it
        never yields index `start`; `end` must be positive or it underflows. */
    method NextBack() returns (x: Option<real>)
      requires Valid() && end >= 1
      modifies this
      ensures Valid() && start == old(start) && end == old(end) - 1
      ensures x == if start == end then None else Some(b.Samples()[end])
    {
      end := end - 1;
      if start == end {
        return None;
      }
      x := b.GetSample(end);
    }
  }

  /** `b.samples().collect()`: every sample, in order. */
  method Collect(blk: Block) returns (out: seq<real>)
    requires blk.InBounds()
    ensures out == blk.Samples()
  {
    var runner := new BlockRunner(blk);
    out := [];
    var x := runner.Next();
    while x.Some?
      invariant runner.Valid() && runner.b == blk && runner.start <= runner.end == blk.Len()
      invariant x.Some? ==> runner.start == |out| + 1 && x.value == blk.Samples()[|out|]
      invariant x.None? ==> runner.start == |out| == blk.Len()
      invariant |out| <= blk.Len() && out == blk.Samples()[..|out|]
      decreases blk.Len() - |out|
    {
      out := out + [x.value];
      x := runner.Next();
    }
  }

  /** `b.samples().rev().collect()`: the samples back to front, without the
      first one, which next_back never reaches. An empty block underflows. */
  method CollectRev(blk: Block) returns (out: seq<real>)
    requires blk.InBounds() && blk.Len() >= 1
    ensures out == Reverse(blk.Samples()[1..])
  {
    ghost var all := blk.Samples();
    var runner := new BlockRunner(blk);
    out := [];
    var x := runner.NextBack();
    while x.Some?
      invariant runner.Valid() && runner.b == blk && runner.start == 0
      invariant x.Some? ==> 1 <= runner.end && x.value == all[runner.end]
      invariant x.None? ==> runner.end == 0
      invariant runner.end < |all|
      invariant out == Reverse(all[runner.end + 1..])
      decreases runner.end
    {
      ReverseSnoc(all, runner.end);
      out := out + [x.value];
      x := runner.NextBack();
    }
  }

  lemma ReverseSnoc(s: seq<real>, k: nat)
    requires k < |s|
    ensures Reverse(s[k..]) == Reverse(s[k + 1..]) + [s[k]]
  {
    assert s[k..][1..] == s[k + 1..];
  }

  /** map (block.rs:62-65): a new data block of the mapped samples. */
  method Map(blk: Block, f: (nat, real) -> real, offset: nat) returns (r: Block)
    requires blk.InBounds()
    ensures r.Valid() && r.Arc? && r.Samples() == Mapped(f, offset, blk.Samples())
  {
    var runner := new BlockRunner(blk);
    var rendered: seq<real> := [];
    var x := runner.Next();
    while x.Some?
      invariant runner.Valid() && runner.b == blk && runner.start <= runner.end == blk.Len()
      invariant x.Some? ==> runner.start == |rendered| + 1 && x.value == blk.Samples()[|rendered|]
      invariant x.None? ==> runner.start == |rendered| == blk.Len()
      invariant |rendered| <= blk.Len()
      invariant rendered == Mapped(f, offset, blk.Samples()[..|rendered|])
      decreases blk.Len() - |rendered|
    {
      rendered := rendered + [f(offset + |rendered|, x.value)];
      x := runner.Next();
    }
    assert blk.Samples()[..|rendered|] == blk.Samples();
    r := Data(rendered);
  }

  /** Reversing a block drops its first sample: a data block of [1, 2, 3]
      comes back as [3, 2]. */
  method CollectRevDropsFirst() returns (out: seq<real>)
    ensures out == [3.0, 2.0]
  {
    var b := Data([1.0, 2.0, 3.0]);
    out := CollectRev(b);
    assert b.Samples()[1..] == [2.0, 3.0];
  }
}
