/** The peak pyramid of src/blocks/mips.rs: a mip-map of (min, max) pairs over
    a block's samples, and `peaks`, which answers a range query from it. */
module Mips {
  import opened Util

  /** f32::MAX and f32::MIN, the starting values of the running min and max. */
  const F32_MAX: real := 340282346638528859811704183484516925440.0
  const F32_MIN: real := -340282346638528859811704183484516925440.0

  /** A (min, max) pair. */
  datatype Peak = Peak(lo: real, hi: real)

  /** What `peaks` answers for an empty range. */
  const Sentinel: Peak := Peak(F32_MAX, F32_MIN)

  /** The pyramid: level k holds the peaks of aligned runs of 2^(k+1) samples. */
  datatype Pyramid = Pyramid(mips: seq<seq<Peak>>)

  // ---------------------------------------------------------------------
  // Reference definitions: true minimum and maximum, and the naive scan.

  function Lo(s: seq<real>): real
    requires |s| > 0
  {
    if |s| == 1 then s[0] else Min(Lo(s[..|s| - 1]), s[|s| - 1])
  }

  function Hi(s: seq<real>): real
    requires |s| > 0
  {
    if |s| == 1 then s[0] else Max(Hi(s[..|s| - 1]), s[|s| - 1])
  }

  /** The peak of a non-empty run of samples. */
  function Cover(s: seq<real>): Peak
    requires |s| > 0
  {
    Peak(Lo(s), Hi(s))
  }

  /** The naive linear min/max scan starting from (f32::MAX, f32::MIN). */
  function Scan(s: seq<real>): Peak
  {
    if s == [] then Sentinel
    else
      var p := Scan(s[..|s| - 1]);
      Peak(Min(p.lo, s[|s| - 1]), Max(p.hi, s[|s| - 1]))
  }

  /** Lo and Hi are the least and the greatest element. */
  lemma {:induction false} LoHiBounds(s: seq<real>)
    requires |s| > 0
    ensures Lo(s) in s && Hi(s) in s
    ensures forall i :: 0 <= i < |s| ==> Lo(s) <= s[i] <= Hi(s)
  {
    if |s| > 1 {
      var t := s[..|s| - 1];
      LoHiBounds(t);
      assert forall i :: 0 <= i < |t| ==> t[i] == s[i];
    }
  }

  /** Extending a scanned prefix by a non-empty run folds the run's peak in. */
  lemma {:induction false} ScanAppend(w: seq<real>, c: seq<real>)
    requires |c| > 0
    ensures Scan(w + c) == Peak(Min(Scan(w).lo, Lo(c)), Max(Scan(w).hi, Hi(c)))
    decreases |c|
  {
    if |c| == 1 {
      assert (w + c)[..|w + c| - 1] == w;
    } else {
      var c' := c[..|c| - 1];
      ScanAppend(w, c');
      assert (w + c)[..|w + c| - 1] == w + c';
    }
  }

  /** On a non-empty run the scan is the true (min, max), capped by the f32 extremes. */
  lemma ScanIsCover(s: seq<real>)
    requires |s| > 0
    ensures Scan(s) == Peak(Min(F32_MAX, Lo(s)), Max(F32_MIN, Hi(s)))
  {
    ScanAppend([], s);
    assert [] + s == s;
  }

  /** Lo/Hi of a concatenation. */
  lemma {:induction false} CoverSplit(s: seq<real>, t: seq<real>)
    requires |s| > 0 && |t| > 0
    ensures Lo(s + t) == Min(Lo(s), Lo(t))
    ensures Hi(s + t) == Max(Hi(s), Hi(t))
    decreases |t|
  {
    if |t| == 1 {
      assert (s + t)[..|s + t| - 1] == s;
    } else {
      var t' := t[..|t| - 1];
      CoverSplit(s, t');
      assert (s + t)[..|s + t| - 1] == s + t';
    }
  }

  // ---------------------------------------------------------------------
  // Powers of two.

  function Pow2(k: nat): (p: nat)
    ensures p >= 1
  {
    if k == 0 then 1 else 2 * Pow2(k - 1)
  }

  lemma {:induction false} Pow2Mono(j: nat, k: nat)
    requires j <= k
    ensures Pow2(j) <= Pow2(k)
    decreases k
  {
    if j < k {
      Pow2Mono(j, k - 1);
    }
  }

  /** usize::ilog2 */
  function ILog2(n: nat): (k: nat)
    requires n >= 1
    ensures Pow2(k) <= n < 2 * Pow2(k)
  {
    if n == 1 then 0 else 1 + ILog2(n / 2)
  }

  lemma {:induction false} ILog2OfPow2(k: nat)
    ensures ILog2(Pow2(k)) == k
  {
    if k > 0 {
      ILog2OfPow2(k - 1);
      assert Pow2(k) / 2 == Pow2(k - 1);
    }
  }

  /** A smaller power of two has a smaller exponent. */
  lemma Pow2Inv(a: nat, b: nat)
    requires Pow2(a) < Pow2(b)
    ensures a < b
  {
    if a >= b {
      Pow2Mono(b, a);
    }
  }

  lemma MulMono(a: int, b: int, d: int)
    requires a <= b && d >= 0
    ensures a * d <= b * d
  {
    assert b * d - a * d == (b - a) * d;
  }

  lemma ExactDiv(a: nat, d: nat)
    requires d > 0 && a % d == 0
    ensures (a / d) * d == a
  {
  }

  // ---------------------------------------------------------------------
  // What a well-formed pyramid is.

  /** vals.chunks_exact(w): the complete runs of w samples, the tail dropped. */
  function Runs(vals: seq<real>, w: nat): (rs: seq<seq<real>>)
    requires w > 0
    ensures forall i :: 0 <= i < |rs| ==> |rs[i]| == w
    decreases |vals|
  {
    if |vals| < w then [] else [vals[..w]] + Runs(vals[w..], w)
  }

  /** Run i is vals[i*w .. (i+1)*w]. */
  lemma {:induction false} RunsIndex(vals: seq<real>, w: nat, i: nat)
    requires w > 0 && i < |Runs(vals, w)|
    ensures (i + 1) * w <= |vals|
    ensures Runs(vals, w)[i] == vals[i * w..(i + 1) * w]
    decreases i
  {
    if i > 0 {
      var a := (i - 1) * w;
      RunsIndex(vals[w..], w, i - 1);
      assert i * w == w + a && (i + 1) * w == w + a + w;
      assert vals[w..][a..a + w] == vals[w + a..w + a + w];
    }
  }

  /** Every complete run is there. */
  lemma {:induction false} RunsCount(vals: seq<real>, w: nat, i: nat)
    requires w > 0 && (i + 1) * w <= |vals|
    ensures i < |Runs(vals, w)|
    decreases i
  {
    if i > 0 {
      assert (i + 1) * w == w + i * w;
      RunsCount(vals[w..], w, i - 1);
    }
  }

  /** Runs of 2w are adjacent pairs of runs of w. */
  lemma {:induction false} RunsDouble(vals: seq<real>, w: nat)
    requires w > 0
    ensures |Runs(vals, 2 * w)| == |Runs(vals, w)| / 2
    ensures forall i :: 0 <= i < |Runs(vals, 2 * w)| ==>
      Runs(vals, 2 * w)[i] == Runs(vals, w)[2 * i] + Runs(vals, w)[2 * i + 1]
    decreases |vals|
  {
    if |vals| >= 2 * w {
      var rest := vals[2 * w..];
      RunsDouble(rest, w);
      assert vals[w..][w..] == rest;
      assert Runs(vals, w) == [vals[..w], vals[w..][..w]] + Runs(rest, w);
      assert vals[..2 * w] == vals[..w] + vals[w..][..w];
    } else if |vals| >= w {
      assert |Runs(vals, w)| == 1;
    }
  }

  /** Fewer than two runs of w means fewer than 2w samples, and conversely. */
  lemma RunsTwo(vals: seq<real>, w: nat)
    requires w > 0
    ensures |Runs(vals, w)| >= 2 <==> |vals| >= 2 * w
  {
    if |vals| >= w {
      assert Runs(vals, w) == [vals[..w]] + Runs(vals[w..], w);
    }
  }

  /** Level k over `vals`: one entry per complete run of 2^(k+1) samples,
      each the run's peak. */
  ghost predicate LevelOf(vals: seq<real>, k: nat, level: seq<Peak>)
  {
    var runs := Runs(vals, Pow2(k + 1));
    |level| == |runs| &&
    forall i :: 0 <= i < |level| ==> level[i] == Cover(runs[i])
  }

  /** Levels are stacked until one has fewer than two entries. */
  ghost predicate ValidPyramid(p: Pyramid, vals: seq<real>)
  {
    |p.mips| >= 1 &&
    (forall k :: 0 <= k < |p.mips| ==> LevelOf(vals, k, p.mips[k])) &&
    (forall k :: 0 <= k < |p.mips| - 1 ==> |p.mips[k]| >= 2) &&
    |p.mips[|p.mips| - 1]| < 2
  }

  /** min_max (mips.rs:5-7) */
  function MinMaxPeak(a: real, b: real): (p: Peak)
    ensures p == Cover([a, b])
  {
    assert [a, b][..1] == [a];
    assert Lo([a]) == a && Hi([a]) == a;
    Peak(Min(a, b), Max(b, a))
  }

  /** min_max_pair (mips.rs:9-11) */
  function MinMaxPair(min1: real, min2: real, max1: real, max2: real): (p: Peak)
    ensures p.lo <= min1 && p.lo <= min2 && (p.lo == min1 || p.lo == min2)
    ensures p.hi >= max1 && p.hi >= max2 && (p.hi == max1 || p.hi == max2)
  {
    Peak(Min(min1, min2), Max(max1, max2))
  }

  /** One step of from_base: pair up adjacent entries of `top`. */
  function PairUp(top: seq<Peak>): (next: seq<Peak>)
    ensures |next| == |top| / 2
  {
    seq(|top| / 2, i requires 0 <= i < |top| / 2 =>
      MinMaxPair(top[2 * i].lo, top[2 * i + 1].lo, top[2 * i].hi, top[2 * i + 1].hi))
  }

  /** Pairing up level k gives level k + 1. */
  lemma NextLevel(vals: seq<real>, k: nat, top: seq<Peak>)
    requires LevelOf(vals, k, top)
    ensures LevelOf(vals, k + 1, PairUp(top))
  {
    var w := Pow2(k + 1);
    assert Pow2(k + 2) == 2 * w;
    var runs := Runs(vals, w);
    RunsDouble(vals, w);
    var next := PairUp(top);
    forall i | 0 <= i < |next|
      ensures next[i] == Cover(Runs(vals, 2 * w)[i])
    {
      CoverSplit(runs[2 * i], runs[2 * i + 1]);
    }
  }

  /** from_base (mips.rs:14-31): stack levels until the top has fewer than two entries. */
  method FromBase(base: seq<Peak>, ghost vals: seq<real>) returns (p: Pyramid)
    requires LevelOf(vals, 0, base)
    ensures ValidPyramid(p, vals)
    ensures p.mips[0] == base
  {
    var mips := [base];
    while |mips[|mips| - 1]| >= 2
      invariant |mips| >= 1 && mips[0] == base
      invariant forall k :: 0 <= k < |mips| ==> LevelOf(vals, k, mips[k])
      invariant forall k :: 0 <= k < |mips| - 1 ==> |mips[k]| >= 2
      decreases |mips[|mips| - 1]|
    {
      var top := mips[|mips| - 1];
      NextLevel(vals, |mips| - 1, top);
      mips := mips + [PairUp(top)];
    }
    p := Pyramid(mips);
  }

  /** Runs of two are the adjacent pairs. */
  lemma {:induction false} RunsOfTwo(vals: seq<real>)
    ensures |Runs(vals, 2)| == |vals| / 2
    ensures forall i :: 0 <= i < |vals| / 2 ==> Runs(vals, 2)[i] == [vals[2 * i], vals[2 * i + 1]]
    decreases |vals|
  {
    if |vals| >= 2 {
      var rest := vals[2..];
      RunsOfTwo(rest);
      assert Runs(vals, 2) == [vals[..2]] + Runs(rest, 2);
      forall i | 0 <= i < |vals| / 2
        ensures Runs(vals, 2)[i] == [vals[2 * i], vals[2 * i + 1]]
      {
        if i > 0 {
          assert Runs(vals, 2)[i] == Runs(rest, 2)[i - 1];
          assert rest[2 * (i - 1)] == vals[2 * i];
        }
      }
    }
  }

  /** floats (mips.rs:33-41): the base level pairs adjacent samples. */
  method Floats(vals: seq<real>) returns (p: Pyramid)
    ensures ValidPyramid(p, vals)
  {
    var base := seq(|vals| / 2, i requires 0 <= i < |vals| / 2 => MinMaxPeak(vals[2 * i], vals[2 * i + 1]));
    assert Pow2(1) == 2;
    RunsOfTwo(vals);
    p := FromBase(base, vals);
  }

  // ---------------------------------------------------------------------
  // Range queries.

  /** The exponent of the largest 2^n, n in 1..=k, dividing start; 0 if none. */
  function AlignExp(start: nat, k: nat): (n: nat)
    ensures n <= k
    ensures start % Pow2(n) == 0
    ensures forall m :: n < m <= k ==> start % Pow2(m) != 0
  {
    if k == 0 then 0
    else if start % Pow2(k) == 0 then k
    else AlignExp(start, k - 1)
  }

  /** power_chunk (mips.rs:67-76): the largest aligned power-of-two run that
      starts at `start` and fits before `end`, its level and its index. */
  function PowerChunk(start: nat, end: nat): (r: (nat, nat, nat))
    requires start < end
    ensures r.0 == Pow2(r.1)
    ensures r.2 * r.0 == start
    ensures start + r.0 <= end
  {
    var scale := ILog2(end - start);
    var n := AlignExp(start, scale);
    var align := Pow2(n);
    AlignFits(start, end, n);
    var idx := start / align;
    (align, ILog2(align), idx)
  }

  /** No larger aligned power-of-two run fits: the chunk is the largest. */
  lemma PowerChunkIsLargest(start: nat, end: nat, m: nat)
    requires start < end
    requires PowerChunk(start, end).1 < m <= ILog2(end - start)
    ensures start % Pow2(m) != 0
  {
    ILog2OfPow2(AlignExp(start, ILog2(end - start)));
  }

  lemma AlignFits(start: nat, end: nat, n: nat)
    requires start < end && n <= ILog2(end - start) && start % Pow2(n) == 0
    ensures ILog2(Pow2(n)) == n
    ensures start + Pow2(n) <= end
    ensures (start / Pow2(n)) * Pow2(n) == start
  {
    var d := end - start;
    Pow2Mono(n, ILog2(d));
    ILog2OfPow2(n);
    ExactDiv(start, Pow2(n));
  }

  /** The top level of a pyramid over `vals` covers fewer than two runs. */
  lemma TopBound(p: Pyramid, vals: seq<real>)
    requires ValidPyramid(p, vals)
    ensures |vals| < Pow2(|p.mips| + 1)
  {
    var top := |p.mips| - 1;
    assert LevelOf(vals, top, p.mips[top]);
    RunsTwo(vals, Pow2(top + 1));
  }

  /** A pyramid over `vals` reaches every level whose runs fit in `vals`. */
  lemma LevelExists(p: Pyramid, vals: seq<real>, j: nat)
    requires ValidPyramid(p, vals)
    requires Pow2(j + 1) <= |vals|
    ensures j < |p.mips|
  {
    TopBound(p, vals);
    Pow2Inv(j + 1, |p.mips| + 1);
  }

  /** An aligned run of 2^lod >= 2 samples inside `base` is one pyramid entry. */
  lemma EntryOfRun(p: Pyramid, base: seq<real>, at: nat, lod: nat, idx: nat)
    requires ValidPyramid(p, base)
    requires lod >= 1 && idx * Pow2(lod) == at && at + Pow2(lod) <= |base|
    ensures lod - 1 < |p.mips|
    ensures idx < |p.mips[lod - 1]|
    ensures p.mips[lod - 1][idx] == Cover(base[at..at + Pow2(lod)])
  {
    var w := Pow2(lod);
    assert (idx + 1) * w == at + w;
    LevelExists(p, base, lod - 1);
    assert LevelOf(base, lod - 1, p.mips[lod - 1]);
    RunsCount(base, w, idx);
    RunsIndex(base, w, idx);
  }

  /** What one step of `peaks` reads is the peak of the run it skips over. */
  lemma StepReadsRun(p: Pyramid, base: seq<real>, at: nat, end: nat)
    requires ValidPyramid(p, base)
    requires at < end <= |base|
    ensures var (asz, lod, idx) := PowerChunk(at, end);
      if asz == 1 then Cover(base[at..at + asz]) == Peak(base[at], base[at])
      else (lod >= 1 && lod - 1 < |p.mips| && idx < |p.mips[lod - 1]| &&
            p.mips[lod - 1][idx] == Cover(base[at..at + asz]))
  {
    var (asz, lod, idx) := PowerChunk(at, end);
    if asz == 1 {
      assert base[at..at + asz] == [base[at]];
    } else {
      assert lod != 0;
      EntryOfRun(p, base, at, lod, idx);
    }
  }

  /** Scanning on past a run folds the run's peak into the running pair. */
  lemma ScanOn(base: seq<real>, start: nat, at: nat, next: nat)
    requires start <= at < next <= |base|
    ensures Scan(base[start..next]) ==
      Peak(Min(Scan(base[start..at]).lo, Cover(base[at..next]).lo),
           Max(Scan(base[start..at]).hi, Cover(base[at..next]).hi))
  {
    var w, c := base[start..at], base[at..next];
    assert w + c == base[start..next];
    ScanAppend(w, c);
  }

  /** peaks (mips.rs:43-64): the (min, max) of base[start..end], assembled
      from pyramid entries; equal to the naive scan from (f32::MAX, f32::MIN),
      which is what an empty range returns. */
  method Peaks(p: Pyramid, start: nat, end: nat, base: seq<real>) returns (r: Peak)
    requires ValidPyramid(p, base)
    requires start < end ==> end <= |base|
    ensures start < end ==> r == Scan(base[start..end])
    ensures start >= end ==> r == Sentinel
  {
    var at := start;
    var min, max := F32_MAX, F32_MIN;
    while at < end
      invariant start <= at
      invariant start < end ==> at <= end
      invariant start < end ==> Peak(min, max) == Scan(base[start..at])
      invariant start >= end ==> at == start && Peak(min, max) == Sentinel
      decreases end - at
    {
      var (asz, lod, idx) := PowerChunk(at, end);
      StepReadsRun(p, base, at, end);
      var c := if asz == 1 then Peak(base[at], base[at]) else p.mips[lod - 1][idx];
      ScanOn(base, start, at, at + asz);
      min := Min(min, c.lo);
      max := Max(max, c.hi);
      at := at + asz;
    }
    r := Peak(min, max);
  }

  // ---------------------------------------------------------------------
  // Properties the source's tests exercise.

  /** A pyramid over 1000 samples has nine levels (mips.rs:83-86). */
  lemma ThousandSamplesNineLevels(p: Pyramid, vals: seq<real>)
    requires |vals| == 1000 && ValidPyramid(p, vals)
    ensures |p.mips| == 9
  {
    var top := |p.mips| - 1;
    assert Pow2(9) == 512 && Pow2(10) == 1024;
    TopBound(p, vals);
    Pow2Inv(9, top + 2);
    if top >= 1 {
      assert LevelOf(vals, top - 1, p.mips[top - 1]);
      RunsTwo(vals, Pow2(top));
      Pow2Inv(top, 10);
    }
  }

  /** A non-decreasing run peaks at its ends. */
  lemma {:induction false} SortedCover(s: seq<real>)
    requires |s| > 0
    requires forall i, j :: 0 <= i <= j < |s| ==> s[i] <= s[j]
    ensures Cover(s) == Peak(s[0], s[|s| - 1])
  {
    if |s| > 1 {
      SortedCover(s[..|s| - 1]);
    }
  }

  /** The ramp 0, 1, 2, ... of the source's test. */
  function Ramp(n: nat): (s: seq<real>)
    ensures |s| == n
  {
    seq(n, i => i as real)
  }

  /** Any non-empty range of the ramp answers (first, last), e.g. peaks(257, 600)
      is (257, 599) (mips.rs:88-93); 2^24 bounds the ramps whose values an
      f32 holds exactly. */
  lemma RampPeaks(n: nat, start: nat, end: nat)
    requires n <= 16777216
    requires start < end <= n
    ensures Scan(Ramp(n)[start..end]) == Peak(start as real, (end - 1) as real)
  {
    var s := Ramp(n)[start..end];
    SortedCover(s);
    ScanIsCover(s);
  }
}
