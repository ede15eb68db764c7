/** Keystate (src/util/keystate.rs): the keys currently held down, in the
    order they were pressed. */
module Keystates {

  /** No key appears twice. */
  predicate NoDup<K(==)>(s: seq<K>)
  {
    forall i, j :: 0 <= i < j < |s| ==> s[i] != s[j]
  }

  /** `retain(|dk| *dk != k)`: every item but k, in order. */
  function Without<K(==)>(s: seq<K>, k: K): (r: seq<K>)
    ensures k !in r
    ensures forall i :: 0 <= i < |r| ==> r[i] in s
    ensures |r| <= |s|
  {
    if s == [] then []
    else if s[0] == k then Without(s[1..], k)
    else [s[0]] + Without(s[1..], k)
  }

  /** Removing a key that is not there changes nothing. */
  lemma {:induction false} WithoutAbsent<K>(s: seq<K>, k: K)
    requires k !in s
    ensures Without(s, k) == s
  {
    if s != [] {
      assert s[0] != k;
      WithoutAbsent(s[1..], k);
      assert [s[0]] + s[1..] == s;
    }
  }

  /** Appending a key that is not there keeps the list free of duplicates. */
  lemma AppendFresh<K>(s: seq<K>, k: K)
    requires NoDup(s) && k !in s
    ensures NoDup(s + [k])
  {
    var t := s + [k];
    forall i, j | 0 <= i < j < |t|
      ensures t[i] != t[j]
    {
      if j == |s| {
        assert t[i] == s[i];
      }
    }
  }

  class Keystate<K(==)> {
    var keys: seq<K>

    ghost predicate Valid()
      reads this
    {
      NoDup(keys)
    }

    /** Default: nothing held. */
    constructor ()
      ensures Valid() && keys == []
    {
      keys := [];
    }

    /** key_down (keystate.rs:9-17): a new key goes at the end and the call
        says so; a key already held is not added again. */
    method KeyDown(k: K) returns (added: bool)
      requires Valid()
      modifies this
      ensures Valid()
      ensures added <==> k !in old(keys)
      ensures added ==> keys == old(keys) + [k]
      ensures !added ==> keys == old(keys)
    {
      if k !in keys {
        AppendFresh(keys, k);
        keys := keys + [k];
        added := true;
      } else {
        added := false;
      }
    }

    /** key_up (keystate.rs:19-23): as written it retains only when k is not
        held, where there is nothing to drop, so the list never changes. */
    method KeyUp(k: K)
      requires Valid()
      modifies this
      ensures Valid()
      ensures keys == old(keys)
    {
      if k !in keys {
        WithoutAbsent(keys, k);
        keys := Without(keys, k);
      }
    }
  }

  /** Pressing a key and releasing it leaves it held: key_up, as written,
      never lets go. */
  method PressRelease<K(==)>(k: K) returns (held: bool)
    ensures held
  {
    var ks := new Keystate<K>();
    var added := ks.KeyDown(k);
    ks.KeyUp(k);
    held := k in ks.keys;
  }
}
