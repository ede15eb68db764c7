/** Helpers of src/util/mod.rs (range_bounds, min_max, lerp) and the numeric
    conventions shared by the whole model: f32 samples and f64 positions are
    `real`, usize is `nat`, and Rust's float operations that matter
    (floor, ceil, truncation, `as usize`, clamp) are written out here. */
module Util {

  datatype Option<T> = None | Some(value: T)

  /** std::ops::Bound over usize. */
  datatype Bound = Unbounded | Included(n: nat) | Excluded(n: nat)

  /** A RangeBounds<usize> argument, reduced to its two bounds. */
  datatype Range = Range(lo: Bound, hi: Bound)

  /** `a..b` */
  function Span(a: nat, b: nat): Range { Range(Included(a), Excluded(b)) }
  /** `a..` */
  function From(a: nat): Range { Range(Included(a), Unbounded) }
  /** `..b` */
  function UpTo(b: nat): Range { Range(Unbounded, Excluded(b)) }
  /** `..` */
  const Full: Range := Range(Unbounded, Unbounded)

  /** range_bounds: resolves a range against `limit` without clamping or ordering. */
  function RangeBounds(r: Range, limit: nat): (b: (nat, nat))
    ensures r.lo.Unbounded? ==> b.0 == 0
    ensures r.hi.Unbounded? ==> b.1 == limit
    ensures !r.lo.Unbounded? ==> b.0 >= r.lo.n
    ensures !r.hi.Unbounded? ==> b.1 <= r.hi.n + 1
  {
    var start := match r.lo
      case Unbounded => 0
      case Included(s) => s
      case Excluded(s) => s + 1;
    var end := match r.hi
      case Unbounded => limit
      case Included(s) => s + 1
      case Excluded(s) => s;
    (start, end)
  }

  /** The Rust range shapes the model uses resolve to the expected pairs, and
      nothing is clamped to `limit` nor put in order. */
  lemma RangeShapes(a: nat, b: nat, limit: nat)
    ensures RangeBounds(Span(a, b), limit) == (a, b)
    ensures RangeBounds(From(a), limit) == (a, limit)
    ensures RangeBounds(UpTo(b), limit) == (0, b)
    ensures RangeBounds(Full, limit) == (0, limit)
    ensures RangeBounds(Range(Excluded(a), Included(b)), limit) == (a + 1, b + 1)
  {
  }

  /** The sequence back to front. */
  function Reverse<T>(s: seq<T>): (r: seq<T>)
    ensures |r| == |s|
    ensures forall i :: 0 <= i < |s| ==> r[i] == s[|s| - 1 - i]
  {
    seq(|s|, i requires 0 <= i < |s| => s[|s| - 1 - i])
  }

  /** The head and the tail of a sequence built by consing. */
  lemma ConsParts<T>(c: T, rest: seq<T>)
    ensures ([c] + rest)[0] == c && ([c] + rest)[1..] == rest
  {
    assert ([c] + rest)[1..] == rest;
  }

  /** Moving an element from the front of the rest to the end of what is
      done keeps the whole. */
  lemma Shift<T>(done: seq<T>, x: T, rest: seq<T>)
    ensures (done + [x]) + rest == done + ([x] + rest)
  {
  }

  /** Cutting back out a run spliced into s at `at` gives s. */
  lemma CutOutMiddle<T>(s: seq<T>, p: seq<T>, at: nat, x: seq<T>)
    requires at <= |s| && x == s[..at] + p + s[at..]
    ensures at + |p| <= |x| && x[..at] + x[at + |p|..] == s
  {
    assert x[..at] == s[..at];
    assert x[at + |p|..] == s[at..];
    assert s[..at] + s[at..] == s;
  }

  /** Concatenation is associative. */
  lemma Assoc<T>(a: seq<T>, b: seq<T>, c: seq<T>)
    ensures (a + b) + c == a + (b + c)
  {
  }

  /** Reversing a cons puts its head last. */
  lemma ReverseCons<T>(c: T, rest: seq<T>)
    ensures Reverse([c] + rest) == Reverse(rest) + [c]
  {
    var l, r := Reverse([c] + rest), Reverse(rest) + [c];
    forall i | 0 <= i < |l|
      ensures l[i] == r[i]
    {
      if i < |rest| {
        assert l[i] == ([c] + rest)[|rest| - i] == rest[|rest| - 1 - i];
      }
    }
  }

  /** Cutting [s, e) out of the slice [i, j) cuts it out of the whole. */
  lemma SubSlice<T>(all: seq<T>, part: seq<T>, i: nat, j: nat, s: nat, e: nat)
    requires i <= s <= e <= j <= |all| && part == all[i..j]
    ensures part[s - i..e - i] == all[s..e]
  {
    forall x | 0 <= x < e - s
      ensures part[s - i..e - i][x] == all[s..e][x]
    {
      assert part[s - i + x] == all[s + x];
    }
  }

  function Min(a: real, b: real): (m: real)
    ensures m <= a && m <= b && (m == a || m == b)
  {
    if a <= b then a else b
  }

  function Max(a: real, b: real): (m: real)
    ensures m >= a && m >= b && (m == a || m == b)
  {
    if a >= b then a else b
  }

  function MinInt(a: int, b: int): (m: int)
    ensures m <= a && m <= b && (m == a || m == b)
  {
    if a <= b then a else b
  }

  function MaxInt(a: int, b: int): (m: int)
    ensures m >= a && m >= b && (m == a || m == b)
  {
    if a >= b then a else b
  }

  /** MinInt and MaxInt of two naturals, as naturals. */
  function MinNat(a: nat, b: nat): (m: nat)
    ensures m <= a && m <= b && (m == a || m == b)
  {
    MinInt(a, b)
  }

  function MaxNat(a: nat, b: nat): (m: nat)
    ensures m >= a && m >= b && (m == a || m == b)
  {
    MaxInt(a, b)
  }

  /** Ord::clamp on usize, which panics unless lo <= hi. */
  function ClampNat(x: nat, lo: nat, hi: nat): (c: nat)
    requires lo <= hi
    ensures lo <= c <= hi
    ensures lo <= x <= hi ==> c == x
    ensures x < lo ==> c == lo
    ensures x > hi ==> c == hi
  {
    if x < lo then lo else if x > hi then hi else x
  }

  function Abs(x: real): (a: real)
    ensures a >= 0.0 && (a == x || a == -x)
  {
    if x < 0.0 then -x else x
  }

  /** f64::clamp, which panics unless lo <= hi. */
  function Clamp(x: real, lo: real, hi: real): (c: real)
    requires lo <= hi
    ensures lo <= c <= hi
    ensures lo <= x <= hi ==> c == x
  {
    if x < lo then lo else if x > hi then hi else x
  }

  /** f64::floor */
  function Floor(x: real): (f: real)
    ensures f <= x < f + 1.0
    ensures x >= 0.0 ==> f >= 0.0
  {
    x.Floor as real
  }

  /** f64::ceil */
  function Ceil(x: real): (c: real)
    ensures c - 1.0 < x <= c
  {
    -((-x).Floor as real)
  }

  /** f64::trunc: rounds toward zero. */
  function Trunc(x: real): (t: real)
    ensures x >= 0.0 ==> t == Floor(x)
    ensures x < 0.0 ==> t == Ceil(x)
  {
    if x >= 0.0 then Floor(x) else Ceil(x)
  }

  /** f64::fract: the part after truncation, with the sign of x. */
  function Fract(x: real): (f: real)
    ensures -1.0 < f < 1.0
    ensures x >= 0.0 ==> 0.0 <= f && x == Floor(x) + f
  {
    x - Trunc(x)
  }

  /** `x as usize` for a float: truncation toward zero, saturating at 0. */
  function ToUsize(x: real): (n: nat)
    ensures x >= 0.0 ==> n as real == Floor(x)
    ensures x < 1.0 ==> n == 0
  {
    if x < 0.0 then 0 else x.Floor
  }

  /** `x.ceil() as usize`: x rounded up to a whole number, negatives to 0. */
  lemma CeilUsize(x: real)
    ensures x > -1.0 ==> ToUsize(Ceil(x)) as real - 1.0 < x <= ToUsize(Ceil(x)) as real
    ensures x <= -1.0 ==> ToUsize(Ceil(x)) == 0
  {
    var k := (-x).Floor;
    assert Ceil(x) == -k as real;
    WholeFloor(-k);
  }

  /** A whole number is its own floor. */
  lemma WholeFloor(k: int)
    ensures (k as real).Floor == k
  {
  }

  /** Rounding up, then to usize, keeps the order. */
  lemma CeilUsizeMono(x: real, y: real)
    requires x <= y
    ensures ToUsize(Ceil(x)) <= ToUsize(Ceil(y))
  {
    var i, j := (-x).Floor, (-y).Floor;
    assert j <= i;
    WholeFloor(-i);
    WholeFloor(-j);
  }

  /** min_max: the pair (smaller, larger). */
  function MinMax(x: real, y: real): (p: (real, real))
    ensures p.0 <= p.1
    ensures (p.0 == x && p.1 == y) || (p.0 == y && p.1 == x)
  {
    (Min(x, y), Max(x, y))
  }

  /** lerp: linear interpolation (the fused multiply-add is exact over the reals). */
  function Lerp(left: real, right: real, frac: real): (v: real)
    ensures frac == 0.0 ==> v == left
    ensures frac == 1.0 ==> v == right
  {
    (right - left) * frac + left
  }

  /** Between 0 and 1, lerp stays between its ends. */
  lemma LerpBetween(left: real, right: real, frac: real)
    requires 0.0 <= frac <= 1.0
    ensures Min(left, right) <= Lerp(left, right, frac) <= Max(left, right)
  {
    var d := right - left;
    var v := Lerp(left, right, frac);
    assert v == left + d * frac;
    ScaleBounds(d, frac);
    if d >= 0.0 {
      assert left <= v <= right;
    } else {
      assert right <= v <= left;
    }
  }

  lemma ScaleBounds(d: real, f: real)
    requires 0.0 <= f <= 1.0
    ensures d >= 0.0 ==> 0.0 <= d * f <= d
    ensures d <= 0.0 ==> d <= d * f <= 0.0
  {
    MulNonNeg(if d >= 0.0 then d else -d, f);
    MulNonNeg(if d >= 0.0 then d else -d, 1.0 - f);
    assert d * (1.0 - f) == d - d * f;
    assert (-d) * f == -(d * f);
  }

  lemma MulNonNeg(a: real, b: real)
    requires a >= 0.0 && b >= 0.0
    ensures a * b >= 0.0
  {
  }

  /** A value within the peak, scaled by q = level / peak, is within the level. */
  lemma ScaledWithin(x: real, peak: real, level: real, q: real)
    requires Abs(x) <= peak && peak > 0.0 && q == level / peak
    ensures Abs(x * q) <= Abs(level)
  {
    assert peak * q == level;
    if q >= 0.0 {
      ScaledUp(x, peak, level, q);
    } else {
      ScaledUp(x, peak, -level, -q);
      assert x * (-q) == -(x * q);
    }
  }

  /** The same for a non-negative factor, without the division. */
  lemma ScaledUp(x: real, peak: real, level: real, q: real)
    requires -peak <= x <= peak && q >= 0.0 && peak * q == level
    ensures -level <= x * q <= level
  {
    MulMono(x, peak, q);
    MulMono(-peak, x, q);
    assert (-peak) * q == -level;
  }

  /** Scaling by a non-negative factor keeps the order. */
  lemma MulMono(a: real, b: real, q: real)
    requires a <= b && q >= 0.0
    ensures a * q <= b * q
  {
    MulNonNeg(b - a, q);
    assert (b - a) * q == b * q - a * q;
  }
}
