/** Ring (src/util/ring_vec.rs): a deque bounded to `size` items, newest at
    the front, read back oldest first. */
module RingVec {
  import opened Util

  /** The last n items of s, or all of s when it is shorter. */
  function Newest<T>(s: seq<T>, n: nat): (r: seq<T>)
    ensures |r| == MinNat(n, |s|)
    ensures forall i :: 0 <= i < |r| ==> r[i] == s[|s| - |r| + i]
  {
    if |s| <= n then s else s[|s| - n..]
  }

  class Ring<T> {
    /** The const parameter SZ. */
    const size: nat
    /** The VecDeque, most recent item first. */
    var deque: seq<T>

    ghost predicate Valid()
      reads this
    {
      |deque| <= size
    }

    /** new (ring_vec.rs:6-8): empty. */
    constructor (size: nat)
      ensures Valid() && this.size == size && deque == []
    {
      this.size := size;
      deque := [];
    }

    /** iter (ring_vec.rs:15-17): the items oldest first. */
    function Items(): (items: seq<T>)
      reads this
      ensures |items| == |deque|
      ensures forall i :: 0 <= i < |items| ==> items[i] == deque[|deque| - 1 - i]
    {
      Reverse(deque)
    }

    /** push (ring_vec.rs:10-13): push_front then truncate to size. */
    method Push(x: T)
      requires Valid()
      modifies this
      ensures Valid()
      ensures deque == ([x] + old(deque))[..MinNat(size, |old(deque)| + 1)]
      ensures Items() == Newest(old(Items()) + [x], size)
    {
      PushKeepsNewest(deque, x, size);
      var front := [x] + deque;
      deque := front[..MinNat(size, |front|)];
    }

    /** clear (ring_vec.rs:19-21). */
    method Clear()
      requires Valid()
      modifies this
      ensures Valid() && deque == [] && Items() == []
    {
      deque := [];
    }
  }

  /** Pushing x at the front and keeping the first n is, read oldest first,
      keeping the newest n of the old items followed by x. */
  lemma PushKeepsNewest<T>(d: seq<T>, x: T, n: nat)
    ensures Reverse(([x] + d)[..MinNat(n, |d| + 1)]) == Newest(Reverse(d) + [x], n)
  {
    if n > |d| {
      PushWithRoom(d, x, n);
    } else if n > 0 {
      PushWhenFull(d, x, n);
    } else {
      assert ([x] + d)[..0] == [];
    }
  }

  /** A ring with room keeps every item. */
  lemma PushWithRoom<T>(d: seq<T>, x: T, n: nat)
    requires n > |d|
    ensures Reverse(([x] + d)[..|d| + 1]) == Newest(Reverse(d) + [x], n)
  {
    assert ([x] + d)[..|d| + 1] == [x] + d;
    ReverseCons(x, d);
  }

  /** A full ring drops its oldest item. */
  lemma PushWhenFull<T>(d: seq<T>, x: T, n: nat)
    requires 0 < n <= |d|
    ensures Reverse(([x] + d)[..n]) == Newest(Reverse(d) + [x], n)
  {
    var t, r := d[..n - 1], Reverse(d);
    assert |r| == |d|;
    PrefixCons(x, d, n);
    ReverseCons(x, t);
    ReversePrefix(d, n - 1);
    KeepNewest(r, x, n);
    assert Reverse(t) == r[|r| - (n - 1)..];
  }

  /** The first n items of a cons are its head and n - 1 of its tail. */
  lemma PrefixCons<T>(x: T, d: seq<T>, n: nat)
    requires 0 < n <= |d| + 1
    ensures ([x] + d)[..n] == [x] + d[..n - 1]
  {
  }

  /** Keeping the newest n of a + [x] keeps the newest n - 1 of a, then x. */
  lemma KeepNewest<T>(a: seq<T>, x: T, n: nat)
    requires 0 < n <= |a|
    ensures Newest(a + [x], n) == a[|a| - (n - 1)..] + [x]
  {
    assert (a + [x])[|a| + 1 - n..] == a[|a| + 1 - n..] + [x];
  }

  /** Reversing the first k items gives the last k of the reversed sequence. */
  lemma {:induction false} ReversePrefix<T>(d: seq<T>, k: nat)
    requires k <= |d|
    ensures Reverse(d[..k]) == Reverse(d)[|d| - k..]
  {
    if k == 0 {
      assert d[..k] == [];
    } else {
      var rest := d[1..];
      ConsParts(d[0], rest);
      assert d == [d[0]] + rest;
      assert d[..k] == [d[0]] + rest[..k - 1];
      ReverseCons(d[0], rest[..k - 1]);
      ReversePrefix(rest, k - 1);
      ReverseCons(d[0], rest);
      assert Reverse(d) == Reverse(rest) + [d[0]];
      assert (Reverse(rest) + [d[0]])[|rest| - (k - 1)..] == Reverse(rest)[|rest| - (k - 1)..] + [d[0]];
    }
  }

  /** Pushing never lets the ring grow past its size, and a ring that is
      not yet full keeps everything. */
  lemma NewestBound<T>(s: seq<T>, x: T, n: nat)
    ensures |Newest(s + [x], n)| <= n
    ensures |s| < n ==> Newest(s + [x], n) == s + [x]
  {
  }

  /** The unit test of ring_vec.rs:29-43: six pushes into a ring of five
      iterate as the last five, oldest first. */
  method RingExample() returns (items: seq<int>)
    ensures items == [2, 3, 4, 5, 6]
  {
    var z := FirstFive();
    z.Push(6);
    assert z.Items() == Newest([1, 2, 3, 4, 5] + [6], 5);
    items := z.Items();
  }

  /** The first five pushes of that test fill the ring. */
  method FirstFive() returns (z: Ring<int>)
    ensures fresh(z) && z.Valid() && z.size == 5
    ensures z.Items() == [1, 2, 3, 4, 5]
  {
    z := new Ring<int>(5);
    z.Push(1);
    assert z.Items() == [1];
    z.Push(2);
    assert z.Items() == [1, 2];
    z.Push(3);
    assert z.Items() == [1, 2, 3];
    z.Push(4);
    assert z.Items() == [1, 2, 3, 4];
    z.Push(5);
  }
}
