/** Stack (src/edit/undo.rs): the undo history, a bottom entry that is never
    removed and the entries pushed on top of it. */
module Undo {

  class Stack<T> {
    var btm: T
    var undos: seq<T>

    /** new (undo.rs:9-11): only the bottom. */
    constructor (btm: T)
      ensures this.btm == btm && undos == []
      ensures Top() == btm
    {
      this.btm := btm;
      undos := [];
    }

    /** top (undo.rs:21-23): the last pushed entry, or the bottom. */
    function Top(): (t: T)
      reads this
      ensures undos == [] ==> t == btm
      ensures undos != [] ==> t == undos[|undos| - 1]
    {
      if undos == [] then btm else undos[|undos| - 1]
    }

    /** Every entry, bottom first. */
    function Entries(): (es: seq<T>)
      reads this
      ensures |es| == |undos| + 1 && es[0] == btm && es[|es| - 1] == Top()
    {
      [btm] + undos
    }

    /** Every entry below the top, bottom first. */
    function Below(): (es: seq<T>)
      reads this
      ensures Entries() == es + [Top()]
    {
      if undos == [] then [] else [btm] + undos[..|undos| - 1]
    }

    /** push (undo.rs:13-15) */
    method Push(x: T)
      modifies this
      ensures btm == old(btm) && undos == old(undos) + [x]
      ensures Top() == x && Entries() == old(Entries()) + [x]
    {
      undos := undos + [x];
    }

    /** pop (undo.rs:17-19): drops the last pushed entry, if there is one;
        the bottom stays. */
    method Pop()
      modifies this
      ensures btm == old(btm)
      ensures old(undos) == [] ==> undos == []
      ensures old(undos) != [] ==> undos == old(undos)[..|old(undos)| - 1]
      ensures old(undos) != [] ==> Entries() == old(Entries())[..|old(Entries())| - 1]
    {
      if undos != [] {
        undos := undos[..|undos| - 1];
      }
    }

    /** Writing through top_mut (undo.rs:25-27): the entry top returns is
        replaced, and only that one. */
    method SetTop(x: T)
      modifies this
      ensures Top() == x
      ensures old(undos) == [] ==> btm == x && undos == []
      ensures old(undos) != [] ==> btm == old(btm) && undos == old(undos)[..|old(undos)| - 1] + [x]
      ensures |Entries()| == |old(Entries())| && Below() == old(Below())
    {
      if undos == [] {
        btm := x;
      } else {
        undos := undos[..|undos| - 1] + [x];
      }
    }
  }

  /** A push followed by a pop brings back the previous top and the whole
      previous history. */
  method PushPop<T>(s: Stack<T>, x: T)
    modifies s
    ensures s.Top() == old(s.Top()) && s.Entries() == old(s.Entries())
  {
    s.Push(x);
    s.Pop();
    assert s.undos == old(s.undos);
  }

  /** Popping an empty history keeps the bottom on top. */
  method PopBottom<T>(b: T) returns (t: T)
    ensures t == b
  {
    var s := new Stack<T>(b);
    s.Pop();
    s.Pop();
    t := s.Top();
  }
}
