/** Editor (src/edit.rs): the undo stack of snapshots, whether there are
    unsaved changes, the console of the last 20 messages and the file path. */
module Editors {
  import opened Util
  import opened Regions
  import opened Snds
  import opened Ctxs
  import opened Undo
  import opened RingVec

  /** A console message (src/widgets/console.rs:12-15). */
  datatype Ptype = Nfo(msg: string) | Err(msg: string)

  /** How many messages the console keeps. */
  const ConsoleSize: nat := 20

  /** What the player needs: the sound, where to start and stop, where the
      head starts and whether to loop. */
  datatype Playback = Playback(snd: Snd, start: real, end: real, head: real, loopMode: bool)

  /** playback_settings (edit.rs:54-68) for the snapshot c: the whole sound
      from the start, or from the cursor, or exactly the selection. */
  function PlaybackOf(c: Ctx): (p: Playback)
    requires c.snd.Sound()
    ensures p.snd == c.snd && p.loopMode == c.loopMode && p.start <= p.end
    ensures c.SelectedRegion().Some? ==>
      p.start == c.SelectedRegion().value.start && p.end == c.SelectedRegion().value.end && p.head == p.start
    ensures c.cursor.Some? && c.selection.None? ==> p.start == 0.0 && p.end == c.Len() && p.head == c.cursor.value
    ensures c.cursor.None? ==> p.start == 0.0 && p.end == c.Len() && p.head == 0.0
  {
    var sndLen := c.Len();
    match (c.cursor, c.selection)
    case (Some(pt), None) => Playback(c.snd, 0.0, sndLen, pt, c.loopMode)
    case (Some(pt), Some(len)) =>
      var pt2 := pt + len;
      var (s, e) := (Min(pt2, pt), Max(pt, pt2));
      Playback(c.snd, s, e, s, c.loopMode)
    case _ => Playback(c.snd, 0.0, sndLen, 0.0, c.loopMode)
  }

  /** Every snapshot of a stack is over a sound whose offsets are prefix sums. */
  ghost predicate AllSound(s: Stack<Ctx>)
    reads s
  {
    s.btm.snd.Sound() && forall i :: 0 <= i < |s.undos| ==> s.undos[i].snd.Sound()
  }

  class Editor {
    var stack: Stack<Ctx>
    var dirty: bool
    const console: Ring<Ptype>
    var path: Option<string>

    ghost predicate Valid()
      reads this, stack, console
    {
      AllSound(stack) && console.Valid() && console.size == ConsoleSize
    }

    /** new (edit.rs:29-36): a fresh snapshot of s at the bottom, dirty, an
        empty console. */
    constructor (s: Snd, file: Option<string>)
      requires s.Sound()
      ensures Valid() && fresh(stack) && fresh(console)
      ensures stack.undos == [] && stack.btm == FromSnd(s)
      ensures dirty && console.deque == [] && path == file
    {
      stack := new Stack<Ctx>(FromSnd(s));
      dirty := true;
      console := new Ring<Ptype>(ConsoleSize);
      path := file;
    }

    /** ctx (edit.rs:38-40): the top of the stack. */
    function Ctx(): (c: Ctx)
      reads this, stack
      ensures c == stack.Top()
    {
      stack.Top()
    }

    /** playback_settings (edit.rs:54-68) */
    function PlaybackSettings(): (p: Playback)
      reads this, stack
      requires AllSound(stack)
      ensures p == PlaybackOf(stack.Top())
    {
      TopSound(stack);
      PlaybackOf(stack.Top())
    }

    /** Writing through ctx_mut (edit.rs:42-44): the top snapshot is replaced. */
    method SetCtx(c: Ctx)
      requires Valid() && c.snd.Sound()
      modifies stack
      ensures Valid() && Ctx() == c && |stack.undos| == old(|stack.undos|)
      ensures old(stack.undos) != [] ==> stack.btm == old(stack.btm)
      ensures stack.Below() == old(stack.Below())
    {
      stack.SetTop(c);
      StackSound(stack);
    }

    /** print_nfo (edit.rs:70-72) */
    method PrintNfo(msg: string)
      requires Valid()
      modifies console
      ensures Valid()
      ensures console.Items() == Newest(old(console.Items()) + [Nfo(msg)], ConsoleSize)
    {
      console.Push(Nfo(msg));
    }

    /** print_err (edit.rs:74-76) */
    method PrintErr(msg: string)
      requires Valid()
      modifies console
      ensures Valid()
      ensures console.Items() == Newest(old(console.Items()) + [Err(msg)], ConsoleSize)
    {
      console.Push(Err(msg));
    }

    /** clear_console (edit.rs:78-80) */
    method ClearConsole()
      requires Valid()
      modifies console
      ensures Valid() && console.Items() == []
    {
      console.Clear();
    }

    /** con_txt (edit.rs:82-84): the messages, oldest first, at most 20. */
    function ConTxt(): (msgs: seq<Ptype>)
      reads this, stack, console
      requires Valid()
      ensures msgs == console.Items() && |msgs| <= ConsoleSize
    {
      console.Items()
    }

    /** undo (edit.rs:86-88): back to the previous snapshot; the dirty flag
        stays as it was. */
    method Undo()
      requires Valid()
      modifies stack
      ensures Valid() && dirty == old(dirty) && stack.btm == old(stack.btm)
      ensures old(stack.undos) != [] ==> stack.undos == old(stack.undos)[..|old(stack.undos)| - 1]
      ensures old(stack.undos) == [] ==> stack.undos == []
    {
      stack.Pop();
      StackPrefixSound(stack, old(stack.undos));
    }

    /** push_new (edit.rs:90-93): the new snapshot goes on top, and there
        are changes to save. */
    method PushNew(c: Ctx)
      requires Valid() && c.snd.Sound()
      modifies this, stack
      ensures Valid() && stack == old(stack) && dirty
      ensures Ctx() == c && stack.undos == old(stack.undos) + [c] && stack.btm == old(stack.btm)
      ensures path == old(path)
    {
      stack.Push(c);
      StackSound(stack);
      dirty := true;
    }

    /** dirty (edit.rs:95-97) */
    function Dirty(): (d: bool)
      reads this
      ensures d == dirty
    {
      dirty
    }

    /** clean_up (edit.rs:99-101) */
    method CleanUp()
      modifies this
      ensures !dirty && stack == old(stack) && path == old(path)
    {
      dirty := false;
    }

    /** dirty_up (edit.rs:103-105) */
    method DirtyUp()
      modifies this
      ensures dirty && stack == old(stack) && path == old(path)
    {
      dirty := true;
    }

    /** set_path (edit.rs:50-52) */
    method SetPath(p: Option<string>)
      modifies this
      ensures path == p && dirty == old(dirty) && stack == old(stack)
    {
      path := p;
    }

    /** reset_stack (edit.rs:107-110): the whole history goes, c is the new
        bottom, and there are changes to save. */
    method ResetStack(c: Ctx)
      requires Valid() && c.snd.Sound()
      modifies this
      ensures Valid() && fresh(stack) && stack.btm == c && stack.undos == [] && dirty
      ensures Ctx() == c && path == old(path)
    {
      stack := new Stack<Ctx>(c);
      dirty := true;
    }
  }

  /** The top of a stack of sounds is a sound. */
  lemma TopSound(s: Stack<Ctx>)
    requires AllSound(s)
    ensures s.Top().snd.Sound()
  {
  }

  /** A stack whose entries were a sound and whose new top is a sound is
      all sound. */
  lemma StackSound(s: Stack<Ctx>)
    requires s.btm.snd.Sound() && s.Top().snd.Sound()
    requires forall i :: 0 <= i < |s.undos| - 1 ==> s.undos[i].snd.Sound()
    ensures AllSound(s)
  {
  }

  /** Dropping the last entries of a sound history leaves it sound. */
  lemma StackPrefixSound(s: Stack<Ctx>, before: seq<Ctx>)
    requires s.btm.snd.Sound() && forall i :: 0 <= i < |before| ==> before[i].snd.Sound()
    requires |s.undos| <= |before| && s.undos == before[..|s.undos|]
    ensures AllSound(s)
  {
    forall i | 0 <= i < |s.undos|
      ensures s.undos[i].snd.Sound()
    {
      assert s.undos[i] == before[i];
    }
  }
}
