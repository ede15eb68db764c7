/** Region (src/util/region.rs): a span of positions on the time line, its
    two ends kept in order by every way of building one. */
module Regions {
  import opened Util

  datatype Region = Region(start: real, end: real)
  {
    /** What every constructor of the source establishes. */
    predicate Ordered()
    {
      start <= end
    }

    /** len (region.rs:11-13): how far the end lies past the start. */
    function Len(): (l: real)
      ensures start + l == end
      ensures Ordered() <==> l >= 0.0
    {
      end - start
    }

    /** sample_range (region.rs:15-23): each end rounded up to a whole
        sample, so that [s, e) takes every sample the region touches; `as
        usize` sends negatives to 0. */
    function SampleRange(): (r: (nat, nat))
      ensures r.0 as real - 1.0 < Max(start, 0.0) <= r.0 as real
      ensures end > -1.0 ==> r.1 as real - 1.0 < end <= r.1 as real
      ensures end <= -1.0 ==> r.1 == 0
      ensures Ordered() ==> r.0 <= r.1
    {
      CeilUsize(Max(start, 0.0));
      CeilUsize(end);
      if Ordered() && end >= 0.0 then
        CeilUsizeMono(Max(start, 0.0), end);
        (ToUsize(Ceil(Max(start, 0.0))), ToUsize(Ceil(end)))
      else
        (ToUsize(Ceil(Max(start, 0.0))), ToUsize(Ceil(end)))
    }

    /** contains (region.rs:49-51): both ends count as inside. */
    predicate Contains(pt: real)
    {
      pt >= start && pt <= end
    }

    /** intersect (region.rs:25-35): the overlap of two regions, if any. */
    function Intersect(other: Region): (r: Option<Region>)
      ensures r.None? <==> end < other.start || other.end < start
      ensures r.Some? ==> r.value.start == Max(start, other.start) && r.value.end == Min(end, other.end)
    {
      if end < other.start || other.end < start then None
      else Some(Region(Max(start, other.start), Min(end, other.end)))
    }

    /** clamp (region.rs:53-55): f64::clamp, which needs its bounds in order. */
    function Clamp(pt: real): (c: real)
      requires Ordered()
      ensures Contains(c)
      ensures Contains(pt) ==> c == pt
      ensures pt < start ==> c == start
      ensures pt > end ==> c == end
    {
      Util.Clamp(pt, start, end)
    }

    /** slide (region.rs:57-59): both ends moved by dist, rebuilt in order. */
    function Slide(dist: real): (r: Region)
      requires Ordered()
      ensures r.Ordered() && r.start == start + dist && r.Len() == Len()
    {
      FromPair(start + dist, end + dist)
    }

    /** center (region.rs:45-47): halfway between the ends. */
    function Center(): (c: real)
      ensures c - start == end - c
      ensures Ordered() ==> Contains(c)
    {
      (start + end) / 2.0
    }
  }

  /** From<(f64, f64)> (region.rs:62-67): the smaller value starts the region. */
  function FromPair(s: real, e: real): (r: Region)
    ensures r.Ordered()
    ensures (r.start == s && r.end == e) || (r.start == e && r.end == s)
  {
    var (lo, hi) := MinMax(s, e);
    Region(lo, hi)
  }

  /** Two ordered regions intersect exactly when they share a point, and the
      intersection holds exactly the points they share. */
  lemma IntersectMeaning(a: Region, b: Region, pt: real)
    requires a.Ordered() && b.Ordered()
    ensures a.Intersect(b).None? <==> forall q :: !(a.Contains(q) && b.Contains(q))
    ensures a.Intersect(b).Some? ==> a.Intersect(b).value.Ordered()
    ensures a.Intersect(b).Some? ==> (a.Intersect(b).value.Contains(pt) <==> a.Contains(pt) && b.Contains(pt))
  {
    if a.Intersect(b).Some? {
      var q := Max(a.start, b.start);
      assert a.Contains(q) && b.Contains(q);
    }
  }

  /** Regions that only touch meet in a single point. */
  lemma TouchingMeetAtAPoint(a: Region, b: Region)
    requires a.Ordered() && b.Ordered() && a.end == b.start
    ensures a.Intersect(b) == Some(Region(a.end, a.end))
  {
  }

  /** The unit tests of region.rs:79-157, as facts about the model. */
  lemma RegionExamples()
    ensures FromPair(256.0, 16.0) == Region(16.0, 256.0) && FromPair(256.0, 16.0).Len() == 240.0
    ensures FromPair(-5.4, 10.0).SampleRange() == (0, 10)
    ensures FromPair(3.4, 10.7).SampleRange() == (4, 11)
    ensures FromPair(0.0, 10.0).Intersect(FromPair(-3.0, 7.0)) == Some(Region(0.0, 7.0))
    ensures FromPair(0.0, 10.0).Intersect(FromPair(11.0, 15.0)).None?
    ensures FromPair(0.0, 10.0).Intersect(FromPair(10.0, 11.0)) == Some(Region(10.0, 10.0))
    ensures FromPair(-5.4, 10.0).Contains(-5.4) && FromPair(-5.4, 10.0).Contains(10.0)
    ensures !FromPair(-5.4, 10.0).Contains(-60.0)
    ensures FromPair(-5.0, -10.0).Center() == -7.5
  {
    var x := FromPair(-5.4, 10.0);
    assert x == Region(-5.4, 10.0);
    assert Ceil(0.0) == 0.0 && Ceil(10.0) == 10.0;
    var y := FromPair(3.4, 10.7);
    assert y == Region(3.4, 10.7);
    assert Ceil(3.4) == 4.0 && Ceil(10.7) == 11.0;
  }
}
