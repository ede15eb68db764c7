/** The navigation commands of the scripting console
    (src/lua/commands/nav.rs): each one rewrites the cursor, the selection
    or the view of the editor's current snapshot. The new snapshot is given
    by a function of the old one; the command replaces the top of the
    editor's stack with it. */
module NavCommands {
  import opened Util
  import opened Regions
  import opened Rulers
  import opened Snds
  import opened Ctxs
  import opened Editors
  import opened RulerCommands

  /** A whole number. */
  predicate Whole(x: real)
  {
    Floor(x) == x
  }

  /** ⌊x⌋ grows with x. */
  lemma FloorMono(x: real, y: real)
    ensures x <= y ==> Floor(x) <= Floor(y)
  {
    var i, j := x.Floor, y.Floor;
    assert i as real <= x && y < j as real + 1.0;
    if x <= y && i > j {
      assert false;
    }
  }

  /** How many samples one step of amt moves (nav.rs:9-10): the samples
      in view per pixel of a view width pixels wide, at least 1. A negative
      width gives a negative ratio, so the scale is then 1. */
  function StepScale(c: Ctx, width: real): (s: real)
    requires c.snd.Sound() && width != 0.0
    ensures s >= 1.0 && s >= c.WindowWidth() / width
    ensures s == 1.0 || s == c.WindowWidth() / width
    ensures width < 0.0 && c.zoom >= 0.0 ==> s == 1.0
  {
    Max(c.WindowWidth() / width, 1.0)
  }

  /** Where step puts a cursor at pt (nav.rs:12-14): moved by amt steps of
      scale, kept inside [0, len], down to a whole sample. */
  function StepTarget(pt: real, amt: real, scale: real, len: real): (t: real)
    requires len >= 0.0 && scale >= 0.0
    ensures 0.0 <= t <= len && Whole(t)
    ensures 0.0 <= pt <= len && amt >= 0.0 ==> t >= Floor(pt)
    ensures 0.0 <= pt <= len && amt <= 0.0 ==> t <= pt
  {
    var moved := pt + amt * scale;
    if amt >= 0.0 then
      MulNonNeg(amt, scale);
      FloorMono(pt, Clamp(moved, 0.0, len));
      Floor(Clamp(moved, 0.0, len))
    else
      MulNonNeg(-amt, scale);
      Floor(Clamp(moved, 0.0, len))
  }

  /** step (nav.rs:3-21): nothing without a cursor; otherwise the cursor
      moves to StepTarget and the selection goes. The width only matters
      when there is a cursor. */
  function Step(c: Ctx, amt: real, width: real): (r: Ctx)
    requires c.snd.Sound() && (width != 0.0 || c.cursor.None?)
    ensures c.cursor.None? ==> r == c
    ensures c.cursor.Some? ==> r == c.(cursor := r.cursor, selection := None) && r.cursor.Some?
    ensures c.cursor.Some? ==> r.cursor.value == StepTarget(c.cursor.value, amt, StepScale(c, width), c.Len())
  {
    match c.cursor
    case None => c
    case Some(pt) => c.(cursor := Some(StepTarget(pt, amt, StepScale(c, width), c.Len())), selection := None)
  }

  /** The selection feather gives (nav.rs:30-33): sel moved by step,
      with the selection's far end kept inside [0, len], down to a whole
      sample. */
  function FeatherLen(pt: real, sel: real, step: real, len: real): (l: real)
    requires len >= 0.0
    ensures Whole(l) && l <= len - pt
    ensures Whole(pt) ==> -pt <= l
    ensures -pt <= sel <= len - pt && step >= 0.0 ==> l >= Floor(sel)
    ensures -pt <= sel <= len - pt && step <= 0.0 ==> l <= sel
  {
    var c := Clamp(sel + step, -pt, len - pt);
    FloorWhole(c);
    WholeAtMost(-pt, c);
    FloorMono(sel, c);
    Floor(c)
  }

  /** A floor is whole. */
  lemma FloorWhole(x: real)
    ensures Whole(Floor(x))
  {
    WholeFloor(x.Floor);
  }

  /** The negation of a whole number is whole. */
  lemma WholeNeg(x: real)
    requires Whole(x)
    ensures Whole(-x)
  {
    var k := x.Floor;
    assert -x == (-k) as real;
    WholeFloor(-k);
  }

  /** A whole number at most x is at most ⌊x⌋. */
  lemma WholeAtMost(w: real, x: real)
    ensures Whole(-w) && w <= x ==> w <= Floor(x)
  {
    if Whole(-w) && w <= x {
      var k := (-w).Floor;
      assert w == (-k) as real;
      WholeFloor(-k);
      FloorMono(w, x);
    }
  }

  /** feather (nav.rs:23-44): nothing without a cursor; otherwise the
      selection (0 when there is none) becomes FeatherLen, and an empty
      one is dropped. The width only matters when there is a cursor. */
  function Feather(c: Ctx, amt: real, width: real): (r: Ctx)
    requires c.snd.Sound() && (width != 0.0 || c.cursor.None?)
    ensures r == c.(selection := r.selection)
    ensures c.cursor.None? ==> r == c
    ensures c.cursor.Some? ==>
      var l := FeatherLen(c.cursor.value, if c.selection.Some? then c.selection.value else 0.0,
                          amt * StepScale(c, width), c.Len());
      r.selection == if l == 0.0 then None else Some(l)
  {
    match c.cursor
    case None => c
    case Some(pt) =>
      var sel := if c.selection.Some? then c.selection.value else 0.0;
      var l := FeatherLen(pt, sel, amt * StepScale(c, width), c.Len());
      c.(selection := if l == 0.0 then None else Some(l))
  }

  /** Where expand_selection_left takes the selection's end
      (nav.rs:64, 75): 0 without a ruler, else the greatest mark at or
      before half a sample back from origin, cut at 0. */
  function LeftPoint(c: Ctx, origin: real): (l: real)
    requires RulerOk(c)
    ensures l >= 0.0
    ensures c.ruler.None? ==> l == 0.0
    ensures c.ruler.Some? ==> l <= Max(origin - 0.5, 0.0)
    ensures c.ruler.Some? ==> forall k {:trigger c.ruler.value.Mark(k)} ::
      c.ruler.value.Mark(k) <= origin - 0.5 ==> c.ruler.value.Mark(k) <= l
  {
    match c.ruler
    case None => 0.0
    case Some(r) =>
      var p := origin - 0.5;
      assert forall k {:trigger r.Mark(k)} :: r.Mark(k) <= p ==> r.Mark(k) <= r.PreviousMark(p) by {
        forall k | r.Mark(k) <= p
          ensures r.Mark(k) <= r.PreviousMark(p)
        {
          PreviousMarkIsGreatest(r, p, k);
        }
      }
      Max(r.PreviousMark(p), 0.0)
  }

  /** Where expand_selection_right takes the selection's end
      (nav.rs:98, 110): the sound's end without a ruler, else the least
      mark strictly after origin, cut at the end. */
  function RightPoint(c: Ctx, origin: real): (l: real)
    requires c.snd.Sound() && RulerOk(c)
    ensures l <= c.Len()
    ensures c.ruler.None? ==> l == c.Len()
    ensures c.ruler.Some? ==> l == c.Len() || origin < l
    ensures c.ruler.Some? ==> forall k {:trigger c.ruler.value.Mark(k)} ::
      origin < c.ruler.value.Mark(k) ==> l <= c.ruler.value.Mark(k)
  {
    NextMarkAt(c, origin)
  }

  /** The far end of the selection: the cursor plus the selection, or the
      cursor alone. */
  function Origin(pt: real, sel: Option<real>): real
  {
    if sel.Some? then pt + sel.value else pt
  }

  /** The selection that runs from the cursor pt to the point p. */
  function SpanTo(pt: real, p: real): (s: Option<real>)
    ensures s.None? <==> p == pt
    ensures s.Some? ==> pt + s.value == p
  {
    if p == pt then None else Some(p - pt)
  }

  /** expand_selection_left (nav.rs:57-89): nothing without a cursor;
      otherwise the selection runs from the cursor to LeftPoint of its far
      end, none when that is the cursor. */
  function ExpandLeft(c: Ctx): (r: Ctx)
    requires RulerOk(c)
    ensures r == c.(selection := r.selection)
    ensures c.cursor.None? ==> r == c
    ensures c.cursor.Some? ==> r.selection == SpanTo(c.cursor.value, LeftPoint(c, Origin(c.cursor.value, c.selection)))
  {
    match c.cursor
    case None => c
    case Some(pt) => c.(selection := SpanTo(pt, LeftPoint(c, Origin(pt, c.selection))))
  }

  /** expand_selection_right (nav.rs:91-124), the mirror image, up to
      RightPoint. */
  function ExpandRight(c: Ctx): (r: Ctx)
    requires c.snd.Sound() && RulerOk(c)
    ensures r == c.(selection := r.selection)
    ensures c.cursor.None? ==> r == c
    ensures c.cursor.Some? ==> r.selection == SpanTo(c.cursor.value, RightPoint(c, Origin(c.cursor.value, c.selection)))
  {
    match c.cursor
    case None => c
    case Some(pt) => c.(selection := SpanTo(pt, RightPoint(c, Origin(pt, c.selection))))
  }

  /** After expanding left the selected region reaches LeftPoint, which is
      never to the right of where the selection ended (half a sample back
      from it, or 0). */
  lemma ExpandLeftReaches(c: Ctx)
    requires c.snd.Sound() && RulerOk(c) && c.cursor.Some?
    ensures var o := Origin(c.cursor.value, c.selection);
      var l := LeftPoint(c, o);
      && (ExpandLeft(c).SelectedRegion().Some? ==> ExpandLeft(c).SelectedRegion().value == FromPair(c.cursor.value, l))
      && (ExpandLeft(c).SelectedRegion().None? ==> l == c.cursor.value)
      && l <= Max(o - 0.5, 0.0)
  {
  }

  /** After expanding right the selected region reaches RightPoint, which
      is inside the sound and strictly after the old end, unless it is the
      sound's end. */
  lemma ExpandRightReaches(c: Ctx)
    requires c.snd.Sound() && RulerOk(c) && c.cursor.Some?
    ensures var o := Origin(c.cursor.value, c.selection);
      var l := RightPoint(c, o);
      && (ExpandRight(c).SelectedRegion().Some? ==> ExpandRight(c).SelectedRegion().value == FromPair(c.cursor.value, l))
      && (ExpandRight(c).SelectedRegion().None? ==> l == c.cursor.value)
      && l <= c.Len() && (l == c.Len() || o < l)
  {
  }

  /** select_len (nav.rs:135-156): nothing without a cursor; otherwise the
      selection's far end moves by amt, kept inside [0, len]. */
  function SelectLen(c: Ctx, amt: real): (r: Ctx)
    requires c.snd.Sound()
    ensures r == c.(selection := r.selection)
    ensures c.cursor.None? ==> r == c
    ensures c.cursor.Some? ==> r.selection.Some? && 0.0 <= c.cursor.value + r.selection.value <= c.Len()
    ensures c.cursor.Some? && 0.0 <= Origin(c.cursor.value, c.selection) + amt <= c.Len() ==>
      c.cursor.value + r.selection.value == Origin(c.cursor.value, c.selection) + amt
  {
    var len := c.Len();
    match (c.cursor, c.selection)
    case (Some(pt), None) => c.(selection := Some(Clamp(amt, -pt, len - pt)))
    case (Some(pt), Some(l)) =>
      var endPt := pt + l;
      var extra := Clamp(amt, -endPt, len - endPt);
      c.(selection := Some(l + extra))
    case _ => c
  }

  /** look_at (nav.rs:170-184): the view becomes [a, b] cut to the sound.
      The zoom and slide are fractions of the length, which must not be 0. */
  function LookAt(c: Ctx, a: real, b: real): (r: Ctx)
    requires c.snd.Sound() && c.Len() > 0.0
    ensures r == c.(zoom := r.zoom, slide := r.slide)
    ensures Max(a, 0.0) <= Min(b, c.Len()) ==> r.View() == Region(Max(a, 0.0), Min(b, c.Len()))
  {
    var len := c.Len();
    var e := Min(b, len);
    var s := Max(a, 0.0);
    if s <= e then ViewOfFractions(s, e, len); c.(zoom := (e - s) / len, slide := s / len)
    else c.(zoom := (e - s) / len, slide := s / len)
  }

  /** The view of the fractions s / len and (e - s) / len of len is [s, e]. */
  lemma ViewOfFractions(s: real, e: real, len: real)
    requires len > 0.0 && s <= e
    ensures ViewOf(s / len, (e - s) / len, len) == Region(s, e)
  {
    assert (s / len) * len == s;
    assert ((e - s) / len) * len == e - s;
  }

  /** The snapshot the editor shows is over a sound. */
  lemma CtxSound(ed: Editor)
    requires ed.Valid()
    ensures ed.Ctx().snd.Sound()
  {
    TopSound(ed.stack);
  }

  /** step, on the editor's current snapshot. */
  method StepCmd(ed: Editor, amt: real, width: real)
    requires ed.Valid() && (width != 0.0 || ed.Ctx().cursor.None?)
    modifies ed.stack
    ensures ed.Valid() && ed.stack.Below() == old(ed.stack.Below())
    ensures ed.Ctx() == Step(old(ed.Ctx()), amt, width)
  {
    CtxSound(ed);
    ed.SetCtx(Step(ed.Ctx(), amt, width));
  }

  /** feather, on the editor's current snapshot. */
  method FeatherCmd(ed: Editor, amt: real, width: real)
    requires ed.Valid() && (width != 0.0 || ed.Ctx().cursor.None?)
    modifies ed.stack
    ensures ed.Valid() && ed.stack.Below() == old(ed.stack.Below())
    ensures ed.Ctx() == Feather(old(ed.Ctx()), amt, width)
  {
    CtxSound(ed);
    ed.SetCtx(Feather(ed.Ctx(), amt, width));
  }

  /** clear_cursor (nav.rs:46-54): no cursor, no selection, so every later
      edit works on the whole sound. */
  method ClearCursor(ed: Editor)
    requires ed.Valid()
    modifies ed.stack
    ensures ed.Valid() && ed.stack.Below() == old(ed.stack.Below())
    ensures ed.Ctx() == old(ed.Ctx()).(cursor := None, selection := None)
    ensures ed.Ctx().SampleRegion() == (0, ed.Ctx().snd.Len())
  {
    CtxSound(ed);
    ed.SetCtx(ed.Ctx().(cursor := None, selection := None));
  }

  /** expand_selection_left, on the editor's current snapshot. */
  method ExpandLeftCmd(ed: Editor)
    requires ed.Valid() && RulerOk(ed.Ctx())
    modifies ed.stack
    ensures ed.Valid() && ed.stack.Below() == old(ed.stack.Below())
    ensures ed.Ctx() == ExpandLeft(old(ed.Ctx()))
  {
    CtxSound(ed);
    ed.SetCtx(ExpandLeft(ed.Ctx()));
  }

  /** expand_selection_right, on the editor's current snapshot. */
  method ExpandRightCmd(ed: Editor)
    requires ed.Valid() && RulerOk(ed.Ctx())
    modifies ed.stack
    ensures ed.Valid() && ed.stack.Below() == old(ed.stack.Below())
    ensures ed.Ctx() == ExpandRight(old(ed.Ctx()))
  {
    CtxSound(ed);
    ed.SetCtx(ExpandRight(ed.Ctx()));
  }

  /** set_cursor (nav.rs:126-133): the cursor at pos and no selection. */
  method SetCursor(ed: Editor, pos: real)
    requires ed.Valid()
    modifies ed.stack
    ensures ed.Valid() && ed.stack.Below() == old(ed.stack.Below())
    ensures ed.Ctx() == old(ed.Ctx()).(cursor := Some(pos), selection := None)
    ensures ed.Ctx().SelectedRegion().None?
  {
    CtxSound(ed);
    ed.SetCtx(ed.Ctx().(cursor := Some(pos), selection := None));
  }

  /** select_len, on the editor's current snapshot. */
  method SelectLenCmd(ed: Editor, amt: real)
    requires ed.Valid()
    modifies ed.stack
    ensures ed.Valid() && ed.stack.Below() == old(ed.stack.Below())
    ensures ed.Ctx() == SelectLen(old(ed.Ctx()), amt)
  {
    CtxSound(ed);
    ed.SetCtx(SelectLen(ed.Ctx(), amt));
  }

  /** select_region (nav.rs:158-168): the cursor at a and the selection
      b - a, so the selected region is [a, b] in order. */
  method SelectRegion(ed: Editor, a: real, b: real)
    requires ed.Valid()
    modifies ed.stack
    ensures ed.Valid() && ed.stack.Below() == old(ed.stack.Below())
    ensures ed.Ctx() == old(ed.Ctx()).(cursor := Some(a), selection := Some(b - a))
    ensures ed.Ctx().SelectedRegion() == Some(FromPair(a, b))
  {
    CtxSound(ed);
    ed.SetCtx(ed.Ctx().(cursor := Some(a), selection := Some(b - a)));
  }

  /** look_at, on the editor's current snapshot, which marks it changed. */
  method LookAtCmd(ed: Editor, a: real, b: real)
    requires ed.Valid() && ed.Ctx().Len() > 0.0
    modifies ed, ed.stack
    ensures ed.Valid() && ed.stack == old(ed.stack) && ed.path == old(ed.path)
    ensures ed.stack.Below() == old(ed.stack.Below()) && ed.dirty
    ensures ed.Ctx() == LookAt(old(ed.Ctx()), a, b)
  {
    CtxSound(ed);
    ed.SetCtx(LookAt(ed.Ctx(), a, b));
    ed.DirtyUp();
  }

  /** zoom_out (nav.rs:222-231): the whole sound in view, marked changed. */
  method ZoomOut(ed: Editor)
    requires ed.Valid()
    modifies ed, ed.stack
    ensures ed.Valid() && ed.stack == old(ed.stack) && ed.path == old(ed.path)
    ensures ed.stack.Below() == old(ed.stack.Below()) && ed.dirty
    ensures ed.Ctx() == old(ed.Ctx()).(zoom := 1.0, slide := 0.0)
    ensures ed.Ctx().View() == Region(0.0, ed.Ctx().Len())
  {
    CtxSound(ed);
    ed.SetCtx(ed.Ctx().(zoom := 1.0, slide := 0.0));
    ed.DirtyUp();
  }

  /** zoom_to_selected (nav.rs:233-247): look_at the selected region; with
      no selection nothing changes. A selection inside the sound becomes
      exactly the view. */
  method ZoomToSelected(ed: Editor)
    requires ed.Valid() && (ed.Ctx().SelectedRegion().Some? ==> ed.Ctx().Len() > 0.0)
    modifies ed, ed.stack
    ensures ed.Valid() && ed.stack == old(ed.stack) && ed.path == old(ed.path)
    ensures ed.stack.Below() == old(ed.stack.Below())
    ensures old(ed.Ctx().SelectedRegion()).None? ==> ed.Ctx() == old(ed.Ctx()) && ed.dirty == old(ed.dirty)
    ensures old(ed.Ctx().SelectedRegion()).Some? ==>
      var reg := old(ed.Ctx().SelectedRegion()).value;
      ed.dirty && ed.Ctx() == LookAt(old(ed.Ctx()), reg.start, reg.end) &&
      (0.0 <= reg.start && reg.end <= ed.Ctx().Len() ==> ed.Ctx().View() == reg)
  {
    CtxSound(ed);
    var sel := ed.Ctx().SelectedRegion();
    if sel.Some? {
      LookAtCmd(ed, sel.value.start, sel.value.end);
    }
  }
}
