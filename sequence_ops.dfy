/** The BlockSequence operations built from chunkers (src/blocks/sequence.rs:48-130):
    each cuts the channel into chunks, rearranges them, and re-tags the result
    with from_iter. None of them changes the channel it reads; what they
    promise is stated on the samples of the result. */
module SequenceOps {
  import opened Util
  import opened Mips
  import opened Blocks
  import opened Sequences
  import opened Chunking

  /** The bounds of the range shapes the operations cut with, and that
      chunks over them are always safe except for a span. */
  lemma Bounds(sq: BlockSequence, s: nat, e: nat)
    requires sq.Sound()
    ensures ChunksOk(sq, UpTo(s)) && ChunkBounds(sq, UpTo(s)) == (0, s)
    ensures ChunksOk(sq, From(e)) && ChunkBounds(sq, From(e)) == (e, sq.Len())
    ensures ChunksOk(sq, Full) && ChunkBounds(sq, Full) == (0, sq.Len())
    ensures ChunkBounds(sq, Span(s, e)) == (s, e)
  {
    RangeShapes(s, e, sq.Len());
  }

  /** Every chunk of `chunks(r)`, drained from the front. */
  method Take(sq: BlockSequence, r: Range, ghost s: nat, ghost e: nat) returns (bs: seq<Block>)
    requires sq.Valid() && ChunksOk(sq, r) && ChunkBounds(sq, r) == (s, e)
    ensures AllValid(bs) && AllIn(bs) && Flatten(bs) == sq.Window(s, e)
  {
    var c := Chunks(sq, r);
    FwdValid(sq, c.start, c.si, c.end);
    bs := Drain(c);
  }

  /** The window over the whole channel is all of its samples. */
  lemma WindowAll(sq: BlockSequence)
    requires sq.Sound()
    ensures sq.Window(0, sq.Len()) == sq.Samples()
  {
    sq.LenIsSamples();
    WindowSlice(sq, 0, sq.Len());
  }

  /** Within the channel, the windows before s, from s to e, and from e are
      plain slices of its samples. */
  lemma WindowEnds(sq: BlockSequence, s: nat, e: nat)
    requires sq.Sound()
    ensures |sq.Samples()| == sq.Len()
    ensures s <= e <= sq.Len() ==>
      sq.Window(0, s) == sq.Samples()[..s] &&
      sq.Window(s, e) == sq.Samples()[s..e] &&
      sq.Window(e, sq.Len()) == sq.Samples()[e..]
  {
    sq.LenIsSamples();
    if s <= e <= sq.Len() {
      WindowSlice(sq, 0, s);
      WindowSlice(sq, s, e);
      WindowSlice(sq, e, sq.Len());
    }
  }

  /** sub_seq (sequence.rs:84-86): a new channel holding the range's samples,
      cut at the end of the channel. */
  method SubSeq(sq: BlockSequence, r: Range) returns (out: BlockSequence)
    requires sq.Valid() && ChunksOk(sq, r)
    ensures out.Valid()
    ensures out.Samples() == sq.Window(ChunkBounds(sq, r).0, ChunkBounds(sq, r).1)
  {
    var bs := Take(sq, r, ChunkBounds(sq, r).0, ChunkBounds(sq, r).1);
    out := FromIter(bs);
  }

  /** samples (sequence.rs:80-82): the range's samples, chunk by chunk. */
  method CollectSamples(sq: BlockSequence, r: Range) returns (out: seq<real>)
    requires sq.Valid() && ChunksOk(sq, r)
    ensures out == sq.Window(ChunkBounds(sq, r).0, ChunkBounds(sq, r).1)
  {
    var bs := Take(sq, r, ChunkBounds(sq, r).0, ChunkBounds(sq, r).1);
    out := [];
    for k := 0 to |bs|
      invariant out == Flatten(bs[..k])
    {
      var part := Collect(bs[k]);
      FlattenStep(bs, k);
      out := out + part;
    }
    assert bs[..|bs|] == bs;
  }

  /** Three runs of valid blocks, one after the other. */
  lemma Join3(a: seq<Block>, b: seq<Block>, c: seq<Block>)
    requires AllValid(a) && AllIn(a) && AllValid(b) && AllIn(b) && AllValid(c) && AllIn(c)
    ensures AllValid(a + b + c) && AllIn(a + b + c)
    ensures Flatten(a + b + c) == Flatten(a) + Flatten(b) + Flatten(c)
  {
    Join(a, b);
    Join(a + b, c);
  }

  /** The samples of the first k + 1 blocks. */
  lemma FlattenStep(bs: seq<Block>, k: nat)
    requires AllIn(bs) && k < |bs|
    ensures Flatten(bs[..k + 1]) == Flatten(bs[..k]) + bs[k].Samples()
  {
    assert bs[..k + 1][..k] == bs[..k];
  }

  /** delete (sequence.rs:99-104): the chunks before `start` followed by the
      chunks from `end`. */
  method Delete(sq: BlockSequence, start: nat, end: nat) returns (out: BlockSequence)
    requires sq.Valid()
    ensures out.Valid()
    ensures out.Samples() == sq.Window(0, start) + sq.Window(end, sq.Len())
    ensures start <= end <= |sq.Samples()| ==>
      out.Samples() == sq.Samples()[..start] + sq.Samples()[end..]
  {
    Bounds(sq, start, end);
    var prev := Take(sq, UpTo(start), 0, start);
    var post := Take(sq, From(end), end, sq.Len());
    Join(prev, post);
    out := FromIter(prev + post);
    WindowEnds(sq, start, end);
  }

  /** replace (sequence.rs:124-130): the chunks before `start`, all of
      `datums`, then the chunks from `end`. */
  method Replace(sq: BlockSequence, start: nat, end: nat, datums: BlockSequence) returns (out: BlockSequence)
    requires sq.Valid() && datums.Valid()
    ensures out.Valid()
    ensures out.Samples() == sq.Window(0, start) + datums.Samples() + sq.Window(end, sq.Len())
    ensures start <= end <= |sq.Samples()| ==>
      out.Samples() == sq.Samples()[..start] + datums.Samples() + sq.Samples()[end..]
  {
    Bounds(sq, start, end);
    Bounds(datums, 0, 0);
    var mid := Take(datums, Full, 0, datums.Len());
    var prev := Take(sq, UpTo(start), 0, start);
    var post := Take(sq, From(end), end, sq.Len());
    Join3(prev, mid, post);
    out := FromIter(prev + mid + post);
    WindowAll(datums);
    WindowEnds(sq, start, end);
  }

  /** insert (sequence.rs:106-122): `datums` spliced in at `at`; past the end
      of the channel, silence pads the gap first. */
  method Insert(sq: BlockSequence, at: nat, datums: BlockSequence) returns (out: BlockSequence)
    requires sq.Valid() && datums.Valid()
    ensures out.Valid()
    ensures at > sq.Len() ==> out.Samples() == sq.Samples() + Zeros(at - sq.Len()) + datums.Samples()
    ensures at <= |sq.Samples()| ==>
      out.Samples() == sq.Samples()[..at] + datums.Samples() + sq.Samples()[at..]
    ensures |out.Samples()| == MaxNat(at, |sq.Samples()|) + |datums.Samples()|
  {
    sq.LenIsSamples();
    if at > sq.Len() {
      out := InsertPast(sq, at, datums);
    } else {
      out := InsertWithin(sq, at, datums);
    }
  }

  /** insert past the end: the whole channel, silence up to `at`, then `datums`. */
  method InsertPast(sq: BlockSequence, at: nat, datums: BlockSequence) returns (out: BlockSequence)
    requires sq.Valid() && datums.Valid() && at > sq.Len()
    ensures out.Valid()
    ensures out.Samples() == sq.Samples() + Zeros(at - sq.Len()) + datums.Samples()
  {
    Bounds(sq, 0, 0);
    Bounds(datums, 0, 0);
    var pad := Silence(at - sq.Len());
    var all := Take(sq, Full, 0, sq.Len());
    var post := Take(datums, Full, 0, datums.Len());
    JoinOne(all, pad);
    Join(all + [pad], post);
    out := FromIter(all + [pad] + post);
    WindowAll(sq);
    WindowAll(datums);
  }

  /** insert within the channel: the chunks before `at`, `datums`, then the rest. */
  method InsertWithin(sq: BlockSequence, at: nat, datums: BlockSequence) returns (out: BlockSequence)
    requires sq.Valid() && datums.Valid() && at <= sq.Len()
    ensures out.Valid()
    ensures |sq.Samples()| == sq.Len()
    ensures out.Samples() == sq.Samples()[..at] + datums.Samples() + sq.Samples()[at..]
  {
    Bounds(sq, at, at);
    Bounds(datums, 0, 0);
    var mid := Take(datums, Full, 0, datums.Len());
    var prev := Take(sq, UpTo(at), 0, at);
    var post := Take(sq, From(at), at, sq.Len());
    Join3(prev, mid, post);
    out := FromIter(prev + mid + post);
    WindowAll(datums);
    WindowEnds(sq, at, at);
  }

  /** Mapping two runs one after the other maps their concatenation, the
      second run's positions counted on from the first's. */
  lemma MappedAppend(f: (nat, real) -> real, offset: nat, a: seq<real>, b: seq<real>)
    ensures Mapped(f, offset, a + b) == Mapped(f, offset, a) + Mapped(f, offset + |a|, b)
  {
    var l, r := Mapped(f, offset, a + b), Mapped(f, offset, a) + Mapped(f, offset + |a|, b);
    forall i | 0 <= i < |l|
      ensures l[i] == r[i]
    {
      if i >= |a| {
        assert (a + b)[i] == b[i - |a|];
      }
    }
  }

  /** `mid.map(|c| c.map(&mut proc))`: each chunk mapped by the one closure,
      whose count of calls runs on from chunk to chunk. */
  method MapChunks(bs: seq<Block>, f: (nat, real) -> real) returns (out: seq<Block>)
    requires AllIn(bs)
    ensures AllValid(out) && AllIn(out)
    ensures Flatten(out) == Mapped(f, 0, Flatten(bs))
  {
    out := [];
    var count := 0;
    for k := 0 to |bs|
      invariant AllValid(out) && AllIn(out)
      invariant count == |Flatten(bs[..k])|
      invariant Flatten(out) == Mapped(f, 0, Flatten(bs[..k]))
    {
      var m := Map(bs[k], f, count);
      FlattenStep(bs, k);
      JoinOne(out, m);
      MappedStep(f, Flatten(bs[..k]), bs[k].Samples(), Flatten(out), m.Samples());
      out := out + [m];
      count := count + bs[k].Len();
    }
    assert bs[..|bs|] == bs;
  }

  /** A mapped run followed by the next chunk mapped from where the run
      ends is the mapped concatenation. */
  lemma MappedStep(f: (nat, real) -> real, done: seq<real>, next: seq<real>, a: seq<real>, b: seq<real>)
    requires a == Mapped(f, 0, done) && b == Mapped(f, |done|, next)
    ensures a + b == Mapped(f, 0, done + next)
  {
    MappedAppend(f, 0, done, next);
  }

  /** map_rng (sequence.rs:88-97): the chunks before the range, the range's
      chunks passed through `proc` in order, then the chunks after it. */
  method MapRng(sq: BlockSequence, r: Range, f: (nat, real) -> real) returns (out: BlockSequence)
    requires sq.Valid() && ChunksOk(sq, r)
    ensures out.Valid()
    ensures out.Samples() == sq.Window(0, ChunkBounds(sq, r).0) +
      Mapped(f, 0, sq.Window(ChunkBounds(sq, r).0, ChunkBounds(sq, r).1)) +
      sq.Window(ChunkBounds(sq, r).1, sq.Len())
  {
    var (start, end) := RangeBounds(r, sq.Len());
    Bounds(sq, start, end);
    var mid := Take(sq, Span(start, end), start, end);
    var prev := Take(sq, UpTo(start), 0, start);
    var post := Take(sq, From(end), end, sq.Len());
    var midMap := MapChunks(mid, f);
    Join3(prev, midMap, post);
    out := FromIter(prev + midMap + post);
  }

  /** Within the channel, map_rng keeps its length and every sample outside
      [start, end), and sends the k-th sample inside through `proc` as its
      k-th call. */
  lemma MapRngSamples(sq: BlockSequence, start: nat, end: nat, f: (nat, real) -> real, out: seq<real>)
    requires sq.Sound() && start <= end <= sq.Len()
    requires out == sq.Window(0, start) + Mapped(f, 0, sq.Window(start, end)) + sq.Window(end, sq.Len())
    ensures |sq.Samples()| == sq.Len() == |out|
    ensures forall i :: 0 <= i < start || end <= i < sq.Len() ==> out[i] == sq.Samples()[i]
    ensures forall i :: start <= i < end ==> out[i] == f(i - start, sq.Samples()[i])
  {
    WindowEnds(sq, start, end);
    MappedMiddle(f, sq.Samples(), start, end, out);
  }

  /** A run with its middle [start, end) mapped: the ends stay, and the
      k-th sample of the middle goes through f as its k-th call. */
  lemma MappedMiddle(f: (nat, real) -> real, x: seq<real>, start: nat, end: nat, out: seq<real>)
    requires start <= end <= |x| && out == x[..start] + Mapped(f, 0, x[start..end]) + x[end..]
    ensures |out| == |x|
    ensures forall i :: 0 <= i < start || end <= i < |x| ==> out[i] == x[i]
    ensures forall i :: start <= i < end ==> out[i] == f(i - start, x[i])
  {
    forall i | 0 <= i < |x|
      ensures i < start || end <= i ==> out[i] == x[i]
      ensures start <= i < end ==> out[i] == f(i - start, x[i])
    {
      if i < start {
        assert out[i] == x[..start][i];
      } else if i < end {
        assert out[i] == Mapped(f, 0, x[start..end])[i - start];
      } else {
        assert out[i] == x[end..][i - end];
      }
    }
  }

  /** The same for any ordered range, also one that runs past the end of
      the channel: samples in [start, end) go through `proc`, the others stay. */
  lemma MapRngWithin(sq: BlockSequence, start: nat, end: nat, f: (nat, real) -> real, out: seq<real>)
    requires sq.Sound() && start <= end
    requires out == sq.Window(0, start) + Mapped(f, 0, sq.Window(start, end)) + sq.Window(end, sq.Len())
    ensures |sq.Samples()| == sq.Len() == |out|
    ensures forall i :: 0 <= i < sq.Len() && (i < start || end <= i) ==> out[i] == sq.Samples()[i]
    ensures forall i :: 0 <= i < sq.Len() && start <= i < end ==> out[i] == f(i - start, sq.Samples()[i])
  {
    sq.LenIsSamples();
    var len := sq.Len();
    if start <= len {
      var e := MinNat(end, len);
      assert sq.Window(start, end) == sq.Window(start, e);
      assert sq.Window(end, len) == sq.Window(e, len);
      MapRngSamples(sq, start, e, f, out);
    } else {
      WindowSlice(sq, 0, len);
      assert sq.Window(0, start) == sq.Window(0, len);
      assert out == sq.Samples();
    }
  }

  /** One step of summary's fold: the smaller minimum and the larger maximum. */
  function Combine(p: Peak, q: Peak): (c: Peak)
    ensures c.lo <= p.lo && c.lo <= q.lo && (c.lo == p.lo || c.lo == q.lo)
    ensures c.hi >= p.hi && c.hi >= q.hi && (c.hi == p.hi || c.hi == q.hi)
  {
    Peak(Min(p.lo, q.lo), Max(p.hi, q.hi))
  }

  /** The fold summary runs over the chunks' own summaries, from the sentinel. */
  function FoldPeaks(cs: seq<Block>): Peak
    requires AllIn(cs)
  {
    if cs == [] then Sentinel else Combine(FoldPeaks(cs[..|cs| - 1]), SummaryOf(cs[|cs| - 1]))
  }

  /** The scan never goes above the f32 maximum or below the f32 minimum it starts from. */
  lemma ScanCapped(s: seq<real>)
    ensures Scan(s).lo <= F32_MAX && Scan(s).hi >= F32_MIN
  {
    if s != [] {
      ScanIsCover(s);
    }
  }

  /** Over chunks that all hold samples, folding the chunk summaries is the
      naive scan over all their samples. */
  lemma {:induction false} FoldPeaksScan(cs: seq<Block>)
    requires AllNonEmpty(cs)
    ensures FoldPeaks(cs) == Scan(Flatten(cs))
    decreases |cs|
  {
    if cs != [] {
      var init, last := cs[..|cs| - 1], cs[|cs| - 1];
      assert cs == init + [last];
      FoldPeaksScan(init);
      FlattenSnoc(init, last);
      var w, c := Flatten(init), last.Samples();
      ScanAppend(w, c);
      ScanCapped(w);
      if last.Arc? {
        ScanIsCover(c);
      } else {
        LoHiBounds(c);
      }
    }
  }

  /** What folding chunk summaries gives for the samples w: their scan, or,
      when an empty silent chunk took part, that scan combined with (0, 0). */
  predicate FoldOf(p: Peak, w: seq<real>)
  {
    p == Scan(w) || p == Combine(Scan(w), Peak(0.0, 0.0))
  }

  /** Over any chunks, folding the chunk summaries is the naive scan of all
      their samples, up to a (0, 0) that only an empty silent chunk brings. */
  lemma {:induction false} FoldPeaksOf(cs: seq<Block>)
    requires AllIn(cs)
    ensures FoldOf(FoldPeaks(cs), Flatten(cs))
    decreases |cs|
  {
    if cs != [] {
      var init, last := cs[..|cs| - 1], cs[|cs| - 1];
      assert cs == init + [last];
      FoldPeaksOf(init);
      FlattenSnoc(init, last);
      FoldStep(FoldPeaks(init), Flatten(init), last);
    }
  }

  /** One chunk more keeps FoldOf. */
  lemma FoldStep(p: Peak, w: seq<real>, b: Block)
    requires b.InBounds() && FoldOf(p, w)
    ensures FoldOf(Combine(p, SummaryOf(b)), w + b.Samples())
  {
    var c := b.Samples();
    ScanCapped(w);
    if c == [] {
      assert w + c == w;
    } else {
      ScanAppend(w, c);
      if b.Arc? {
        ScanIsCover(c);
      } else {
        LoHiBounds(c);
        assert Lo(c) == 0.0 && Hi(c) == 0.0;
      }
    }
  }

  /** summary (sequence.rs:48-69) over [st, end): a reversed or empty range
      inside the channel reads the sample at st, a range from the end of the
      channel gives (0, 0), and any other folds the chunks' summaries. */
  method Summary(sq: BlockSequence, st: nat, end: nat) returns (r: Peak)
    requires sq.Valid()
    requires st > end ==> st < sq.Len()
    ensures st > end || st == end < sq.Len() ==>
      sq.GetSample(st).Some? && r == Peak(sq.GetSample(st).value, sq.GetSample(st).value)
    ensures st <= end && st >= sq.Len() ==> r == Peak(0.0, 0.0)
    ensures st < end && st < sq.Len() ==> FoldOf(r, sq.Window(st, end))
    ensures st < end && st < sq.Len() && sq.NoEmptyBlocks() ==> r == Scan(sq.Window(st, end))
  {
    sq.LenIsSamples();
    if st > end {
      var v := sq.GetSample(st).value;
      return Peak(v, v);
    }
    if end - st == 0 && st < sq.Len() {
      var v := sq.GetSample(st).value;
      return Peak(v, v);
    }
    if st >= sq.Len() {
      return Peak(0.0, 0.0);
    }
    RangeShapes(st, end, sq.Len());
    var c := Chunks(sq, Span(st, end));
    FwdValid(sq, c.start, c.si, c.end);
    if sq.NoEmptyBlocks() {
      FwdNonEmpty(sq, c.start, c.si, c.end);
    }
    var bs := Drain(c);
    r := FoldSummaries(bs);
    FoldPeaksOf(bs);
    if sq.NoEmptyBlocks() {
      FoldPeaksScan(bs);
    }
  }

  /** The fold of summary's last case: each chunk's summary combined in turn. */
  method FoldSummaries(bs: seq<Block>) returns (r: Peak)
    requires AllValid(bs) && AllIn(bs)
    ensures r == FoldPeaks(bs)
  {
    r := Sentinel;
    for k := 0 to |bs|
      invariant r == FoldPeaks(bs[..k])
    {
      var p := Blocks.Summary(bs[k]);
      assert bs[..k + 1][..k] == bs[..k];
      r := Combine(r, p);
    }
    assert bs[..|bs|] == bs;
  }
}
