/** Window and IterWindow (src/dsp/sliding_window.rs): a ring buffer of SZ
    samples read relative to its head, and a window pulled along a source
    of samples, padded with zeros once the source runs out. */
module SlidingWindows {
  import opened Blocks

  /** d whole laps of n, d at least 1, cover at least n. */
  lemma MulAtLeast(d: int, n: nat)
    requires d >= 1
    ensures d * n >= n
    decreases d
  {
    if d > 1 {
      MulAtLeast(d - 1, n);
      assert d * n == (d - 1) * n + n;
    }
  }

  /** A number q laps plus r, with r less than a lap, sits in slot r. */
  lemma ModUnique(y: int, q: int, r: int, n: nat)
    requires n > 0 && y == q * n + r && 0 <= r < n
    ensures y % n == r
  {
    var q', r' := y / n, y % n;
    assert y == q' * n + r';
    var d := q - q';
    assert d * n == r' - r;
    if d >= 1 {
      MulAtLeast(d, n);
    } else if d <= -1 {
      MulAtLeast(-d, n);
    }
  }

  /** Moving a number by whole laps does not change its slot. */
  lemma ModLaps(x: int, k: int, n: nat)
    requires n > 0
    ensures (x + k * n) % n == x % n
  {
    var q, r := x / n, x % n;
    assert x == q * n + r;
    assert x + k * n == (q + k) * n + r;
    ModUnique(x + k * n, q + k, r, n);
  }

  /** Reducing the head first does not change the slot it leads to. */
  lemma ModOfMod(a: int, b: int, n: nat)
    requires n > 0
    ensures (a % n + b) % n == (a + b) % n
  {
    assert a == (a / n) * n + a % n;
    assert a % n + b == (a + b) + (-(a / n)) * n;
    ModLaps(a + b, -(a / n), n);
  }

  /** Numbers less than a lap apart sit in different slots. */
  lemma ModApart(x: int, j: int, n: nat)
    requires n > 0 && 0 < j < n
    ensures (x - j) % n != x % n
  {
    var q, r := x / n, x % n;
    assert x == q * n + r;
    if r >= j {
      assert x - j == q * n + (r - j);
      ModUnique(x - j, q, r - j, n);
    } else {
      assert x - j == (q - 1) * n + (r - j + n);
      ModUnique(x - j, q - 1, r - j + n, n);
    }
  }

  /** The slot holding what was pushed j pushes ago, for head h in a
      buffer of n: half a buffer behind the head. */
  function Slot(h: int, n: nat, j: int): (s: nat)
    requires n > 0
    ensures s < n
  {
    (h + n / 2 - 1 - j) % n
  }

  class Window {
    const size: nat
    const buff: array<real>
    var head: nat
    /** Every value pushed so far, after size zeros standing for the
        buffer's initial contents. */
    ghost var hist: seq<real>

    /** The slot j pushes back from the newest sits half a buffer behind
        the head. */
    ghost predicate Valid()
      reads this, buff
    {
      buff.Length == size && size > 0 && head < size && |hist| >= size &&
      forall j :: 0 <= j < size ==> buff[Slot(head, size, j)] == hist[|hist| - 1 - j]
    }

    /** default (sliding_window.rs:6-13): all zeros, the head half way. A
        window of size 0 cannot take a push, so size is at least 1. */
    constructor (sz: nat)
      requires sz > 0
      ensures Valid() && fresh(buff) && size == sz
      ensures head == sz / 2 && buff[..] == Zeros(sz) && hist == Zeros(sz)
    {
      size := sz;
      buff := new real[sz](_ => 0.0);
      head := sz / 2;
      hist := Zeros(sz);
      new;
      assert buff[..] == Zeros(sz);
    }

    /** push (sliding_window.rs:16-19): val goes half a buffer ahead of the
        head, and the head moves one slot on, wrapping. */
    method Push(val: real)
      requires Valid()
      modifies this, buff
      ensures Valid() && hist == old(hist) + [val]
      ensures head == (old(head) + 1) % size
      ensures buff[..] == old(buff[..])[(old(head) + size / 2) % size := val]
    {
      var slot := (head + size / 2) % size;
      buff[slot] := val;
      head := (head + 1) % size;
      hist := hist + [val];
      forall j | 0 <= j < size
        ensures buff[Slot(head, size, j)] == hist[|hist| - 1 - j]
      {
        PushedSlot(old(head), size, j);
        if j > 0 {
          ModApart(old(head) + size / 2, j, size);
          assert Slot(head, size, j) == Slot(old(head), size, j - 1);
        }
      }
    }

    /** get (sliding_window.rs:21-30): the slot idx away from the head,
        going back for a negative idx, which may not be more than a whole
        buffer back. Index size/2 - 1 - j reads what was pushed j pushes ago. */
    method Get(idx: int) returns (v: real)
      requires Valid() && -(size as int) <= idx
      ensures v == buff[(head + idx) % size]
      ensures 0 <= size / 2 - 1 - idx < size ==> v == hist[|hist| - 1 - (size / 2 - 1 - idx)]
    {
      if idx < 0 {
        var ui := -idx;
        v := buff[(head + (size - ui)) % size];
        ModLaps(head + idx, 1, size);
      } else {
        v := buff[(head + idx) % size];
      }
      if 0 <= size / 2 - 1 - idx < size {
        var j := size / 2 - 1 - idx;
        assert Slot(head, size, j) == (head + idx) % size;
      }
    }
  }

  /** After a push from head h, the slot j pushes back is the one j - 1
      pushes back from before. */
  lemma PushedSlot(h: nat, n: nat, j: nat)
    requires n > 0
    ensures Slot((h + 1) % n, n, j) == (h + n / 2 - j) % n
  {
    ModOfMod(h + 1, n / 2 - 1 - j, n);
  }

  /** After pulls, the window holds its initial zeros, then the source's
      values in order, then the zeros pushed once the source ran out. */
  class IterWindow {
    const window: Window
    var overhead: nat
    /** What the source still has to give. */
    var rest: seq<real>
    ghost const source: seq<real>

    ghost predicate Valid()
      reads this, window, window.buff
    {
      window.Valid() && overhead <= window.size / 2 &&
      |rest| <= |source| && rest == source[|source| - |rest|..] &&
      (overhead < window.size / 2 ==> rest == []) &&
      window.hist == Zeros(window.size) + source[..|source| - |rest|] + Zeros(window.size / 2 - overhead)
    }

    /** The number of zeros pushed after the source ran out. */
    ghost function Pads(): nat
      reads this, window
      requires overhead <= window.size / 2
    {
      window.size / 2 - overhead
    }

    /** new (sliding_window.rs:40-52): a window of size sz over the source,
        pulled size/2 + 1 times: as much of the source as that reaches,
        then zeros, at most size/2 of them. A window of size 1 has no
        padding to wait for and pulls nothing. */
    constructor (sz: nat, src: seq<real>)
      requires sz > 0
      ensures Valid() && fresh(window) && fresh(window.buff) && window.size == sz && source == src
      ensures var c := if sz / 2 == 0 then 0 else if |src| < sz / 2 + 1 then |src| else sz / 2 + 1;
        rest == src[c..] && Pads() == (if sz / 2 + 1 - c < sz / 2 then sz / 2 + 1 - c else sz / 2)
    {
      window := new Window(sz);
      overhead := sz / 2;
      rest := src;
      source := src;
      new;
      assert source[..0] == [] && Zeros(sz) + [] + Zeros(0) == Zeros(sz);
      var i := 0;
      while i < sz / 2 + 1
        invariant 0 <= i <= sz / 2 + 1 && Valid() && window.size == sz && source == src
        invariant fresh(window) && fresh(window.buff)
        invariant var c := if sz / 2 == 0 then 0 else if |src| < i then |src| else i;
          rest == src[c..] && Pads() == (if i - c < sz / 2 then i - c else sz / 2)
      {
        ghost var c := if sz / 2 == 0 then 0 else if |src| < i then |src| else i;
        if sz / 2 > 0 {
          if rest != [] {
            assert c == i < |src|;
          } else {
            assert c == |src|;
          }
        }
        var _ := Pull();
        i := i + 1;
      }
    }

    /** pull (sliding_window.rs:54-66): once all padding is in, nothing
        changes and the answer is true; otherwise the source's next value is
        pushed, or, when it is spent, a zero that uses up one padding slot,
        and the answer says whether the padding is complete. */
    method Pull() returns (done: bool)
      requires Valid()
      modifies this, window, window.buff
      ensures Valid() && done == (overhead == 0) && (done <==> Pads() == window.size / 2)
      ensures old(overhead) == 0 ==>
        overhead == 0 && rest == old(rest) && window.hist == old(window.hist)
      ensures old(overhead) > 0 && old(rest) != [] ==>
        overhead == old(overhead) && rest == old(rest)[1..] && window.hist == old(window.hist) + [old(rest)[0]]
      ensures old(overhead) > 0 && old(rest) == [] ==>
        overhead == old(overhead) - 1 && rest == [] && window.hist == old(window.hist) + [0.0]
    {
      if overhead == 0 {
        return true;
      }
      var v;
      if rest != [] {
        v := rest[0];
        ghost var taken := |source| - |rest|;
        rest := rest[1..];
        assert source[..taken + 1] == source[..taken] + [v];
      } else {
        overhead := overhead - 1;
        v := 0.0;
      }
      window.Push(v);
      done := overhead == 0;
    }
  }
}
