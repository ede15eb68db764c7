/** The ruler commands of the scripting console (src/lua/commands/ruler.rs):
    set, slide and rescale the ruler of the current snapshot, and ask for
    the marks around a position. Queries are functions of the snapshot;
    updates replace the editor's top snapshot. */
module RulerCommands {
  import opened Util
  import opened Rulers
  import opened Ctxs
  import opened Editors

  /** Every ruler is made by `new`, `slide` or `rescale`, so its spacing is
      positive. */
  predicate RulerOk(c: Ctx)
  {
    c.ruler.Some? ==> c.ruler.value.Valid()
  }

  /** The ruler `set` installs (ruler.rs:6-20): the scale given, else the
      current ruler's, else the sound's length; the offset given, else 0. */
  function SetRuler(c: Ctx, offset: Option<real>, scale: Option<real>): (r: Ctx)
    requires c.snd.Sound()
    ensures r == c.(ruler := r.ruler) && RulerOk(r) && r.ruler.Some?
    ensures scale.Some? ==> r.ruler.value.scale == New(scale.value, 0.0).scale
    ensures scale.None? && c.ruler.Some? ==> r.ruler.value.scale == New(c.ruler.value.scale, 0.0).scale
    ensures scale.None? && c.ruler.None? ==> r.ruler.value.scale == New(c.Len(), 0.0).scale
    ensures offset.None? ==> r.ruler.value.offset == 0.0
    ensures offset.Some? ==> r.ruler.value.offset == Floor(offset.value)
  {
    var s := if scale.Some? then scale.value else if c.ruler.Some? then c.ruler.value.scale else c.Len();
    var o := if offset.Some? then offset.value else 0.0;
    c.(ruler := Some(New(s, o)))
  }

  /** previous_mark (ruler.rs:22-33): 0 without a ruler; otherwise the
      greatest mark at or before half a sample back from pos, cut at 0. */
  function PreviousMarkAt(c: Ctx, pos: real): (m: real)
    requires RulerOk(c)
    ensures c.ruler.None? ==> m == 0.0
    ensures c.ruler.Some? ==> m <= Max(pos - 0.5, 0.0) < m + c.ruler.value.scale
    ensures c.ruler.Some? ==> forall k {:trigger c.ruler.value.Mark(k)} ::
      c.ruler.value.Mark(k) <= Max(pos - 0.5, 0.0) ==> c.ruler.value.Mark(k) <= m
  {
    match c.ruler
    case None => 0.0
    case Some(r) =>
      var p := Max(pos - 0.5, 0.0);
      assert forall k {:trigger r.Mark(k)} :: r.Mark(k) <= p ==> r.Mark(k) <= r.PreviousMark(p) by {
        forall k | r.Mark(k) <= p
          ensures r.Mark(k) <= r.PreviousMark(p)
        {
          PreviousMarkIsGreatest(r, p, k);
        }
      }
      r.PreviousMark(p)
  }

  /** next_mark (ruler.rs:35-46): the sound's end without a ruler;
      otherwise the least mark strictly after pos, cut at the end. */
  function NextMarkAt(c: Ctx, pos: real): (m: real)
    requires c.snd.Sound() && RulerOk(c)
    ensures m <= c.Len()
    ensures c.ruler.None? ==> m == c.Len()
    ensures c.ruler.Some? ==> m == c.Len() || pos < m
    ensures c.ruler.Some? ==> forall k {:trigger c.ruler.value.Mark(k)} ::
      pos < c.ruler.value.Mark(k) ==> m <= c.ruler.value.Mark(k)
  {
    match c.ruler
    case None => c.Len()
    case Some(r) =>
      assert forall k {:trigger r.Mark(k)} :: pos < r.Mark(k) ==> r.NextMark(pos) <= r.Mark(k) by {
        forall k | pos < r.Mark(k)
          ensures r.NextMark(pos) <= r.Mark(k)
        {
          NextMarkIsLeast(r, pos, k);
        }
      }
      Min(r.NextMark(pos), c.Len())
  }

  /** nearest_mark (ruler.rs:48-68): whichever of the previous and the next
      mark is closer to pos, the previous one on a tie. */
  function NearestMark(c: Ctx, pos: real): (m: real)
    requires c.snd.Sound() && RulerOk(c)
    ensures pos - PreviousMarkAt(c, pos) <= Abs(pos - NextMarkAt(c, pos)) ==> m == PreviousMarkAt(c, pos)
    ensures pos - PreviousMarkAt(c, pos) > Abs(pos - NextMarkAt(c, pos)) ==> m == NextMarkAt(c, pos)
  {
    var pre := PreviousMarkAt(c, pos);
    var nxt := NextMarkAt(c, pos);
    if pos - pre <= Abs(pos - nxt) then pre else nxt
  }

  /** When the previous mark is not after pos, the nearest mark is at
      least as close as either candidate, and on a tie it is the previous
      one. */
  lemma NearestIsClosest(c: Ctx, pos: real)
    requires c.snd.Sound() && RulerOk(c) && PreviousMarkAt(c, pos) <= pos
    ensures var m, pre, nxt := NearestMark(c, pos), PreviousMarkAt(c, pos), NextMarkAt(c, pos);
      Abs(pos - m) <= Abs(pos - pre) && Abs(pos - m) <= Abs(pos - nxt) &&
      (Abs(pos - pre) == Abs(pos - nxt) ==> m == pre)
  {
  }

  /** slide (ruler.rs:70-80): the ruler moved to put a mark at ⌊amt⌋;
      nothing without a ruler. */
  function SlideRuler(c: Ctx, amt: real): (r: Ctx)
    requires RulerOk(c)
    ensures r == c.(ruler := r.ruler) && RulerOk(r)
    ensures c.ruler.None? ==> r == c
    ensures c.ruler.Some? ==> r.ruler.Some? && r.ruler.value.scale == c.ruler.value.scale
    ensures c.ruler.Some? ==> r.ruler.value.PreviousMark(Floor(amt)) == Floor(amt)
  {
    match c.ruler
    case None => c
    case Some(rl) =>
      SlideMarksFloor(rl, amt);
      c.(ruler := Some(rl.Slide(amt)))
  }

  /** rescale (ruler.rs:82-95): 0 removes the ruler; a positive amount
      multiplies its spacing; a negative one leaves it. */
  function RescaleRuler(c: Ctx, amt: real): (r: Ctx)
    requires RulerOk(c)
    ensures r == c.(ruler := r.ruler) && RulerOk(r)
    ensures amt == 0.0 ==> r.ruler.None?
    ensures amt < 0.0 ==> r == c
    ensures amt > 0.0 ==> r.ruler.Some? == c.ruler.Some?
    ensures amt > 0.0 && c.ruler.Some? ==>
      r.ruler.value.scale == c.ruler.value.scale * amt && r.ruler.value.offset == c.ruler.value.offset
  {
    if amt == 0.0 then c.(ruler := None)
    else
      match c.ruler
      case None => c
      case Some(rl) => c.(ruler := Some(rl.Rescale(amt)))
  }

  /** time (ruler.rs:99-112): with a ruler, raw counts spacings past the
      offset; without, raw is a fraction of the sound; either way the
      position is kept inside the sound. */
  function TimeAt(c: Ctx, raw: real): (t: real)
    requires c.snd.Sound() && RulerOk(c)
    ensures 0.0 <= t <= c.Len()
    ensures c.ruler.Some? && 0.0 <= c.ruler.value.TimePt(raw) <= c.Len() ==> t == c.ruler.value.TimePt(raw)
    ensures c.ruler.None? ==> t == FractionOf(raw, c.Len())
  {
    var len := c.Len();
    match c.ruler
    case Some(r) => Clamp(r.TimePt(raw), 0.0, len)
    case None => FractionOf(raw, len)
  }

  /** The fraction raw of len, kept inside [0, len]. */
  function FractionOf(raw: real, len: real): (t: real)
    requires len >= 0.0
    ensures 0.0 <= t <= len
    ensures 0.0 <= raw <= 1.0 ==> t == raw * len
  {
    if 0.0 <= raw <= 1.0 then ScaleBounds(len, raw); Clamp(raw * len, 0.0, len)
    else Clamp(raw * len, 0.0, len)
  }

  /** set, slide and rescale, on the editor's current snapshot. */
  method SetRulerCmd(ed: Editor, offset: Option<real>, scale: Option<real>)
    requires ed.Valid()
    modifies ed.stack
    ensures ed.Valid() && ed.stack.Below() == old(ed.stack.Below())
    ensures ed.Ctx() == SetRuler(old(ed.Ctx()), offset, scale)
  {
    TopSound(ed.stack);
    ed.SetCtx(SetRuler(ed.Ctx(), offset, scale));
  }

  method SlideRulerCmd(ed: Editor, amt: real)
    requires ed.Valid() && RulerOk(ed.Ctx())
    modifies ed.stack
    ensures ed.Valid() && ed.stack.Below() == old(ed.stack.Below())
    ensures ed.Ctx() == SlideRuler(old(ed.Ctx()), amt)
  {
    TopSound(ed.stack);
    ed.SetCtx(SlideRuler(ed.Ctx(), amt));
  }

  method RescaleRulerCmd(ed: Editor, amt: real)
    requires ed.Valid() && RulerOk(ed.Ctx())
    modifies ed.stack
    ensures ed.Valid() && ed.stack.Below() == old(ed.stack.Below())
    ensures ed.Ctx() == RescaleRuler(old(ed.Ctx()), amt)
  {
    TopSound(ed.stack);
    ed.SetCtx(RescaleRuler(ed.Ctx(), amt));
  }
}
