/** Ruler (src/util/ruler.rs): evenly spaced marks on the time line, one
    every `scale` samples, shifted by `offset`. The k-th mark is
    k·scale + offset, for every integer k. */
module Rulers {
  import opened Util

  datatype Ruler = Ruler(scale: real, offset: real)
  {
    /** What `new` establishes and `slide`/`rescale` keep: a positive scale. */
    predicate Valid()
    {
      scale > 0.0
    }

    /** The k-th mark. */
    function Mark(k: int): real
    {
      k as real * scale + offset
    }

    /** How many whole spacings pos lies past the offset (`ruler_divs`):
        pos lies between that mark and the next one. */
    function Divs(pos: real): (k: int)
      requires Valid()
      ensures Mark(k) <= pos < Mark(k + 1)
    {
      var dist := (pos - offset) / scale;
      Cancel(pos - offset, scale);
      Between(this, pos, dist, dist.Floor);
      dist.Floor
    }

    /** slide (ruler.rs:17-22): same spacing, offset moved to ⌊o⌋ reduced by
        f64's remainder (truncated, with the sign of ⌊o⌋). */
    function Slide(o: real): (r: Ruler)
      requires Valid()
      ensures r.Valid() && r.scale == scale
      ensures Abs(r.offset) < scale
      ensures Floor(o) >= 0.0 ==> r.offset >= 0.0
      ensures Floor(o) <= 0.0 ==> r.offset <= 0.0
    {
      Ruler(scale, FRem(Floor(o), scale))
    }

    /** rescale (ruler.rs:24-33): the spacing multiplied by div; a divisor
        that is not positive leaves the ruler as it is. */
    function Rescale(div: real): (r: Ruler)
      requires Valid()
      ensures r.Valid() && r.offset == offset
      ensures div <= 0.0 ==> r == this
      ensures div > 0.0 ==> r.scale == scale * div
    {
      if div <= 0.0 then this
      else
        MulStrict(0.0, div, scale);
        Ruler(scale * div, offset)
    }

    /** previous_mark (ruler.rs:35-39): the mark at or just before pos. */
    function PreviousMark(pos: real): (pm: real)
      requires Valid()
      ensures pm <= pos < pm + scale
      ensures pm == Mark(Divs(pos))
    {
      var ruler_dist := (pos - offset) / scale;
      var ruler_divs := Floor(ruler_dist);
      MarkStep(this, Divs(pos));
      ruler_divs * scale + offset
    }

    /** next_mark (ruler.rs:41-44): one spacing past the previous mark, so
        always strictly after pos, even when pos is a mark. */
    function NextMark(pos: real): (nm: real)
      requires Valid()
      ensures pos < nm <= pos + scale
      ensures nm == Mark(Divs(pos) + 1)
    {
      var pmark := PreviousMark(pos);
      MarkStep(this, Divs(pos));
      pmark + scale
    }

    /** next_or_current (ruler.rs:46-54): pos itself when it is a mark, else
        the next mark. */
    function NextOrCurrent(pos: real): (m: real)
      requires Valid()
      ensures pos <= m < pos + scale
      ensures m == PreviousMark(pos) || m == NextMark(pos)
    {
      var pmar := PreviousMark(pos);
      if pos == pmar then pos else pmar + scale
    }

    /** time_pt (ruler.rs:56-58): the position pt spacings past the offset. */
    function TimePt(pt: real): (t: real)
      requires Valid()
      ensures forall k: int {:trigger Mark(k)} :: pt == k as real ==> t == Mark(k)
    {
      pt * scale + offset
    }
  }

  /** new (ruler.rs:8-15): the spacing is at least 1, and both fields are
      rounded down to whole samples. */
  function New(scale: real, offset: real): (r: Ruler)
    ensures r.Valid() && r.scale >= 1.0
    ensures scale >= 1.0 ==> r.scale == Floor(scale)
    ensures scale < 1.0 ==> r.scale == 1.0
    ensures r.offset == Floor(offset)
  {
    var s := Max(scale, 1.0);
    assert Floor(s) >= 1.0;
    Ruler(Floor(s), Floor(offset))
  }

  /** f64's `%`: the remainder of truncated division, with the sign of a. */
  function FRem(a: real, b: real): (r: real)
    requires b > 0.0
    ensures Abs(r) < b
    ensures a >= 0.0 ==> r >= 0.0
    ensures a <= 0.0 ==> r <= 0.0
  {
    RemBounds(a, b);
    a - b * Trunc(a / b)
  }

  /** Truncated division leaves less than one divisor, on the dividend's side. */
  lemma RemBounds(a: real, b: real)
    requires b > 0.0
    ensures a >= 0.0 ==> 0.0 <= a - b * Trunc(a / b) < b
    ensures a <= 0.0 ==> -b < a - b * Trunc(a / b) <= 0.0
  {
    var q := a / b;
    var t := Trunc(q);
    Cancel(a, b);
    SameSign(a, q, b);
    if q >= 0.0 {
      FracBelow(a, q, t, b);
    }
    if q <= 0.0 {
      FracAbove(a, q, t, b);
    }
  }

  /** The arithmetic behind the remainder, for a non-negative quotient. */
  lemma FracBelow(a: real, q: real, t: real, b: real)
    requires b > 0.0 && a == q * b && 0.0 <= q - t < 1.0
    ensures 0.0 <= a - b * t < b
  {
    var f := q - t;
    assert a - b * t == f * b;
    MulStrict(f, 1.0, b);
    assert f * b < b;
    MulWeak(0.0, f, b);
  }

  /** The arithmetic behind the remainder, for a non-positive quotient. */
  lemma FracAbove(a: real, q: real, t: real, b: real)
    requires b > 0.0 && a == q * b && -1.0 < q - t <= 0.0
    ensures -b < a - b * t <= 0.0
  {
    var f := q - t;
    assert a - b * t == f * b;
    MulStrict(-1.0, f, b);
    assert -b < f * b;
    MulWeak(f, 0.0, b);
  }

  /** A positive divisor keeps the sign. */
  lemma SameSign(a: real, q: real, b: real)
    requires b > 0.0 && a == q * b
    ensures a >= 0.0 <==> q >= 0.0
    ensures a <= 0.0 <==> q <= 0.0
  {
    if q < 0.0 {
      MulStrict(q, 0.0, b);
    }
    if q > 0.0 {
      MulStrict(0.0, q, b);
    }
  }

  /** Dividing by s and multiplying back is the identity. */
  lemma Cancel(x: real, s: real)
    requires s > 0.0
    ensures (x / s) * s == x
  {
  }

  /** Scaling by a positive factor keeps a weak order. */
  lemma MulWeak(a: real, b: real, s: real)
    requires s > 0.0 && a <= b
    ensures a * s <= b * s
  {
    assert b * s - a * s == (b - a) * s;
  }

  /** Scaling by a positive factor keeps a strict order. */
  lemma MulStrict(a: real, b: real, s: real)
    requires s > 0.0 && a < b
    ensures a * s < b * s
  {
    assert b * s - a * s == (b - a) * s;
  }

  /** Consecutive marks are one spacing apart. */
  lemma MarkStep(r: Ruler, k: int)
    ensures r.Mark(k + 1) == r.Mark(k) + r.scale
  {
  }

  /** Marks are in the order of their indices. */
  lemma MarkMono(r: Ruler, i: int, j: int)
    requires r.Valid() && i <= j
    ensures r.Mark(i) <= r.Mark(j)
  {
    MulWeak(i as real, j as real, r.scale);
  }

  /** pos lies d spacings past the offset, with k the whole part of d: pos
      lies between the k-th and the next mark. */
  lemma Between(r: Ruler, pos: real, d: real, k: int)
    requires r.Valid() && d * r.scale == pos - r.offset
    requires k as real <= d < (k + 1) as real
    ensures r.Mark(k) <= pos < r.Mark(k + 1)
  {
    MulWeak(k as real, d, r.scale);
    MulStrict(d, (k + 1) as real, r.scale);
  }

  /** The previous mark is the one mark within a spacing at or below pos. */
  lemma PreviousMarkOf(r: Ruler, pos: real, k: int)
    requires r.Valid() && r.Mark(k) <= pos < r.Mark(k + 1)
    ensures r.Divs(pos) == k
    ensures r.PreviousMark(pos) == r.Mark(k)
  {
    var j := r.Divs(pos);
    if j < k {
      MarkMono(r, j + 1, k);
      assert false;
    }
    if k < j {
      MarkMono(r, k + 1, j);
      assert false;
    }
  }

  /** No mark lies strictly between the previous mark and pos: the previous
      mark is the greatest mark not after pos. */
  lemma PreviousMarkIsGreatest(r: Ruler, pos: real, k: int)
    requires r.Valid() && r.Mark(k) <= pos
    ensures r.Mark(k) <= r.PreviousMark(pos)
  {
    var j := r.Divs(pos);
    if j < k {
      MarkMono(r, j + 1, k);
      assert false;
    }
    MarkMono(r, k, j);
  }

  /** The next mark is the least mark strictly after pos. */
  lemma NextMarkIsLeast(r: Ruler, pos: real, k: int)
    requires r.Valid() && r.Mark(k) > pos
    ensures r.NextMark(pos) <= r.Mark(k)
  {
    var j := r.Divs(pos);
    if k <= j {
      MarkMono(r, k, j);
      assert false;
    }
    MarkMono(r, j + 1, k);
  }

  /** A position is its own previous mark exactly when it is a mark. */
  lemma OnMarkIsFixed(r: Ruler, pos: real)
    requires r.Valid()
    ensures r.PreviousMark(pos) == pos <==> exists k :: r.Mark(k) == pos
  {
    if exists k :: r.Mark(k) == pos {
      var k :| r.Mark(k) == pos;
      MarkStep(r, k);
      PreviousMarkOf(r, pos, k);
    }
  }

  /** next_or_current is the least mark at or after pos. */
  lemma NextOrCurrentIsLeast(r: Ruler, pos: real, k: int)
    requires r.Valid() && r.Mark(k) >= pos
    ensures r.NextOrCurrent(pos) <= r.Mark(k)
    ensures exists j :: r.Mark(j) == r.NextOrCurrent(pos)
  {
    var j := r.Divs(pos);
    if r.Mark(k) > pos {
      NextMarkIsLeast(r, pos, k);
    }
    if r.Mark(k) == pos {
      MarkStep(r, k);
      PreviousMarkOf(r, pos, k);
    }
    if r.NextOrCurrent(pos) == r.PreviousMark(pos) {
      assert r.Mark(j) == r.NextOrCurrent(pos);
    } else {
      assert r.Mark(j + 1) == r.NextOrCurrent(pos);
    }
  }

  /** After slide(o), ⌊o⌋ is a mark of the slid ruler: its own previous mark. */
  lemma SlideMarksFloor(r: Ruler, o: real)
    requires r.Valid()
    ensures r.Slide(o).PreviousMark(Floor(o)) == Floor(o)
  {
    var a := Floor(o);
    var q := a / r.scale;
    var k: int := if q >= 0.0 then q.Floor else -((-q).Floor);
    assert k as real == Trunc(q);
    var s := r.Slide(o);
    assert s.Mark(k) == a;
    OnMarkIsFixed(s, a);
  }

  /** The unit tests of ruler.rs:75-82, as facts about the model. */
  lemma PreviousMarkExamples()
    ensures New(1000.0, 0.0) == Ruler(1000.0, 0.0)
    ensures Ruler(1000.0, 0.0).PreviousMark(5.0) == 0.0
    ensures Ruler(1000.0, 0.0).PreviousMark(1999.0) == 1000.0
  {
    assert Floor(1000.0) == 1000.0;
    PreviousMarkOf(Ruler(1000.0, 0.0), 5.0, 0);
    PreviousMarkOf(Ruler(1000.0, 0.0), 1999.0, 1);
  }

  /** A position before the offset and a position on a mark (ruler.rs:80-82). */
  lemma PreviousMarkEdgeExamples()
    ensures Ruler(1000.0, 0.0).PreviousMark(-10.0) == -1000.0
    ensures Ruler(1000.0, 0.0).PreviousMark(1000.0) == 1000.0
  {
    var r := Ruler(1000.0, 0.0);
    PreviousMarkOf(r, -10.0, -1);
    PreviousMarkOf(r, 1000.0, 1);
  }

  /** The same tests after slide(250.0) (ruler.rs:84-88). */
  lemma SlidPreviousMarkExamples()
    ensures Ruler(1000.0, 0.0).Slide(250.0) == Ruler(1000.0, 250.0)
    ensures Ruler(1000.0, 250.0).PreviousMark(295.0) == 250.0
    ensures Ruler(1000.0, 250.0).PreviousMark(1999.0) == 1250.0
    ensures Ruler(1000.0, 250.0).PreviousMark(-10.0) == -750.0
    ensures Ruler(1000.0, 250.0).PreviousMark(2250.0) == 2250.0
  {
    var r := Ruler(1000.0, 250.0);
    assert Floor(250.0) == 250.0;
    assert Trunc(250.0 / 1000.0) == 0.0;
    PreviousMarkOf(r, 295.0, 0);
    PreviousMarkOf(r, 1999.0, 1);
    PreviousMarkOf(r, -10.0, -1);
    PreviousMarkOf(r, 2250.0, 2);
  }

  /** The unit tests of ruler.rs:91-98, as facts about the model. */
  lemma NextMarkExample()
    ensures Ruler(1000.0, 0.0).NextMark(5.0) == 1000.0
  {
    PreviousMarkOf(Ruler(1000.0, 0.0), 5.0, 0);
  }

  lemma NextMarkHigherExample()
    ensures Ruler(1000.0, 0.0).NextMark(1999.0) == 2000.0
  {
    PreviousMarkOf(Ruler(1000.0, 0.0), 1999.0, 1);
  }

  lemma NextMarkNegativeExample()
    ensures Ruler(1000.0, 0.0).NextMark(-10.0) == 0.0
  {
    PreviousMarkOf(Ruler(1000.0, 0.0), -10.0, -1);
  }

  lemma NextMarkOnMarkExample()
    ensures Ruler(1000.0, 0.0).NextMark(1000.0) == 2000.0
  {
    PreviousMarkOf(Ruler(1000.0, 0.0), 1000.0, 1);
  }

  /** The next-mark tests with an offset (ruler.rs:100-104). */
  lemma SlidNextMarkExamples()
    ensures Ruler(1000.0, 250.0).NextMark(295.0) == 1250.0
    ensures Ruler(1000.0, 250.0).NextMark(1999.0) == 2250.0
    ensures Ruler(1000.0, 250.0).NextMark(-10.0) == 250.0
    ensures Ruler(1000.0, 250.0).NextMark(2250.0) == 3250.0
  {
    var r := Ruler(1000.0, 250.0);
    PreviousMarkOf(r, 295.0, 0);
    PreviousMarkOf(r, 1999.0, 1);
    PreviousMarkOf(r, -10.0, -1);
    PreviousMarkOf(r, 2250.0, 2);
  }

  /** The unit test of ruler.rs:107-112, as facts about the model. */
  lemma NextOrCurrentExample()
    ensures Ruler(1000.0, 0.0).NextOrCurrent(5.0) == 1000.0
  {
    PreviousMarkOf(Ruler(1000.0, 0.0), 5.0, 0);
  }

  lemma NextOrCurrentOnMarkExample()
    ensures Ruler(1000.0, 0.0).NextOrCurrent(1000.0) == 1000.0
  {
    PreviousMarkOf(Ruler(1000.0, 0.0), 1000.0, 1);
  }
}
