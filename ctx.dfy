/** Ctx (src/edit/ctx.rs): one snapshot of the editor: the sound, the cursor
    and selection, the ruler, the channel mask and the view. It is a Clone
    value, so the source's `&mut self` updates are functions returning the
    updated snapshot. */
module Ctxs {
  import opened Util
  import opened Sequences
  import opened Chunking
  import opened SequenceOps
  import opened Regions
  import opened Rulers
  import opened ChannelMasks
  import opened Snds

  /** The channels below n whose mask bit is on, in increasing order. */
  function ActiveIndices(m: Mask, n: nat): (ix: seq<nat>)
    requires n <= Channels
    ensures forall j :: 0 <= j < |ix| ==> ix[j] < n && m.IsOn(ix[j])
    ensures forall i, j :: 0 <= i < j < |ix| ==> ix[i] < ix[j]
    ensures forall c :: 0 <= c < n && m.IsOn(c) ==> c in ix
  {
    if n == 0 then []
    else if m.IsOn(n - 1) then ActiveIndices(m, n - 1) + [n - 1]
    else ActiveIndices(m, n - 1)
  }

  datatype Ctx = Ctx(snd: Snd, cursor: Option<real>, selection: Option<real>, ruler: Option<Ruler>,
                     channels: Mask, zoom: real, slide: real, loopMode: bool)
  {
    /** What `seqs` needs: channels with prefix-sum offsets, and no more of
        them than the mask has bits (`is_on` overflows past 31). */
    predicate Fits()
    {
      snd.Sound() && |snd.channels| <= Channels
    }

    ghost predicate Valid()
    {
      Fits() && snd.Valid()
    }

    /** len (ctx.rs:91-93) */
    function Len(): (l: real)
      requires snd.Sound()
      ensures l >= 0.0
    {
      snd.Len() as real
    }

    /** The flag `seqs` (ctx.rs:95-97) pairs with channel i. */
    predicate Active(i: nat)
      requires Fits() && i < |snd.channels|
    {
      channels.IsOn(i)
    }

    /** flip (ctx.rs:26-63): the snapshot over a new sound, the cursor and
        selection pulled back inside it. */
    function Flip(newSnd: Snd): (r: Ctx)
      requires newSnd.Sound()
      ensures r.snd == newSnd && r.ruler == ruler && r.channels == channels
      ensures r.zoom == zoom && r.slide == slide && r.loopMode == loopMode
    {
      var len := newSnd.Len() as real;
      var (nc, ns) :=
        match (cursor, selection)
        case (Some(c), Some(s)) =>
          var newC := Min(c, len);
          var newS := if s < 0.0 then Max(s, -newC) else Min(s, len - newC);
          (Some(newC), Some(newS))
        case (Some(c), None) =>
          (if c > len then None else Some(c), None)
        case _ => (None, None);
      Ctx(newSnd, nc, ns, ruler, channels, zoom, slide, loopMode)
    }

    /** region (ctx.rs:66-71): the part of the sound in view, `slide` and
        `zoom` being fractions of its length. */
    function View(): (r: Region)
      requires snd.Sound()
      ensures r.Ordered()
    {
      ViewOf(slide, zoom, Len())
    }

    /** selected_region (ctx.rs:74-81): present with both a cursor and a
        selection, from the cursor to the cursor plus the selection, in order. */
    function SelectedRegion(): (r: Option<Region>)
      ensures r.Some? <==> cursor.Some? && selection.Some?
      ensures r.Some? ==> r.value.Ordered() && r.value.Len() == Abs(selection.value)
      ensures r.Some? ==> r.value.start == Min(cursor.value, cursor.value + selection.value)
    {
      match (cursor, selection)
      case (Some(pt), Some(len)) => Some(FromPair(pt, pt + len))
      case _ => None
    }

    /** sample_region (ctx.rs:83-85): the selection's samples, or the whole sound. */
    function SampleRegion(): (r: (nat, nat))
      requires snd.Sound()
      ensures r.0 <= r.1
      ensures SelectedRegion().None? ==> r == (0, snd.Len())
      ensures SelectedRegion().Some? ==> r == SelectedRegion().value.SampleRange()
    {
      match SelectedRegion()
      case Some(reg) => reg.SampleRange()
      case None => (0, snd.Len())
    }

    /** window_width (ctx.rs:87-89): the length of the part in view. */
    function WindowWidth(): (w: real)
      requires snd.Sound()
      ensures zoom >= 0.0 ==> w >= 0.0 && w == View().Len()
    {
      WidthOf(slide, zoom, Len())
    }

    /** default_click (ctx.rs:109-117): the cursor goes to the whole sample
        under the fraction x of the view, and the selection goes. */
    function DefaultClick(x: real): (r: Ctx)
      requires snd.Sound()
      ensures r == this.(cursor := r.cursor, selection := None) && r.cursor.Some?
      ensures r.cursor == Some(ClickPoint(View(), x))
      ensures r.cursor.value - View().start == Floor(View().Len() * x)
      ensures 0.0 <= x <= 1.0 ==> View().Contains(r.cursor.value)
    {
      this.(cursor := Some(ClickPoint(View(), x)), selection := None)
    }

    /** default_drag (ctx.rs:119-132): the selection runs from the cursor to
        the whole sample under x, unless that is less than one sample away. */
    function DefaultDrag(x: real): (r: Ctx)
      requires snd.Sound()
      ensures r == this.(selection := r.selection)
      ensures cursor.None? ==> r.selection.None?
      ensures cursor.Some? ==> r.selection == DragSelection(View(), cursor.value, x)
    {
      match cursor
      case None => this.(selection := None)
      case Some(c) => this.(selection := DragSelection(View(), c, x))
    }
  }

  /** The view over a sound of length len: from the slide fraction of it,
      the zoom fraction of it long. */
  function ViewOf(slide: real, zoom: real, len: real): (r: Region)
    ensures r.Ordered()
    ensures zoom >= 0.0 && len >= 0.0 ==> r.start == slide * len && r.Len() == zoom * len
  {
    if zoom >= 0.0 && len >= 0.0 then ScaledSpan(slide, zoom, len); FromPair(slide * len, slide * len + zoom * len)
    else FromPair(slide * len, slide * len + zoom * len)
  }

  /** The window width over a sound of length len: the length of the view. */
  function WidthOf(slide: real, zoom: real, len: real): (w: real)
    ensures zoom >= 0.0 && len >= 0.0 ==> w >= 0.0 && w == ViewOf(slide, zoom, len).Len()
  {
    len * zoom
  }

  /** Where a click at the fraction x of the view v puts the cursor: a whole
      number of samples past the start, inside v when x lies in [0, 1]. */
  function ClickPoint(v: Region, x: real): (p: real)
    ensures p - v.start == Floor(v.Len() * x)
    ensures v.Ordered() && 0.0 <= x <= 1.0 ==> v.Contains(p)
  {
    var y := v.Len() * x;
    if v.Ordered() && 0.0 <= x <= 1.0 then FloorScaled(v.Len(), x, y); Floor(y) + v.start
    else Floor(y) + v.start
  }

  /** The whole part of a fraction x in [0, 1] of d >= 0 lies in [0, d]. */
  lemma FloorScaled(d: real, x: real, y: real)
    requires d >= 0.0 && 0.0 <= x <= 1.0 && y == d * x
    ensures 0.0 <= Floor(y) <= d
  {
    ScaleBounds(d, x);
  }

  /** The selection a drag to the fraction x of the view v makes from the
      cursor c: up to the whole sample under x, and none when that is less
      than one sample from c. */
  function DragSelection(v: Region, c: real, x: real): (r: Option<real>)
    ensures r.Some? <==> Abs(Floor(x * v.Len() + v.start) - c) >= 1.0
    ensures r.Some? ==> c + r.value == Floor(x * v.Len() + v.start) && Abs(r.value) >= 1.0
  {
    var windowX := Floor(x * v.Len() + v.start);
    if Abs(windowX - c) < 1.0 then None else Some(windowX - c)
  }

  /** From<Arc<Snd>> (ctx.rs:135-148): a fresh snapshot with every channel
      on, the whole sound in view, and no cursor, selection or ruler. */
  function FromSnd(s: Snd): (r: Ctx)
    requires s.Sound()
    ensures r.snd == s && r.cursor.None? && r.selection.None? && r.ruler.None? && !r.loopMode
    ensures forall c :: 0 <= c < Channels ==> r.channels.IsOn(c)
    ensures r.View() == Region(0.0, s.Len() as real)
    ensures r.SampleRegion() == (0, s.Len())
  {
    Ctx(s, None, None, None, Default(), 1.0, 0.0, false)
  }

  /** The pair (s L, s L + z L) is already in order when z, L >= 0. */
  lemma ScaledSpan(s: real, z: real, l: real)
    requires z >= 0.0 && l >= 0.0
    ensures FromPair(s * l, s * l + z * l) == Region(s * l, s * l + z * l)
  {
    MulNonNeg(z, l);
  }

  /** flip without a cursor leaves neither cursor nor selection. */
  lemma FlipNoCursor(c: Ctx, s: Snd)
    requires s.Sound() && c.cursor.None?
    ensures c.Flip(s).cursor.None? && c.Flip(s).selection.None?
  {
  }

  /** flip with a cursor and no selection keeps the cursor exactly when it
      is not past the new end. */
  lemma FlipCursorOnly(c: Ctx, s: Snd)
    requires s.Sound() && c.cursor.Some? && c.selection.None?
    ensures c.Flip(s).selection.None?
    ensures c.Flip(s).cursor.Some? <==> c.cursor.value <= s.Len() as real
    ensures c.Flip(s).cursor.Some? ==> c.Flip(s).cursor == c.cursor
  {
  }

  /** flip with a selection pulls the cursor back to the new end and trims
      the selection so that both of its ends lie inside the new sound,
      keeping its direction. */
  lemma FlipClamps(c: Ctx, s: Snd)
    requires s.Sound() && c.cursor.Some? && c.selection.Some? && c.cursor.value >= 0.0
    ensures c.Flip(s).cursor == Some(Min(c.cursor.value, s.Len() as real)) && c.Flip(s).selection.Some?
    ensures 0.0 <= c.Flip(s).cursor.value + c.Flip(s).selection.value <= s.Len() as real
    ensures c.selection.value < 0.0 ==> c.Flip(s).selection.value <= 0.0
    ensures c.selection.value >= 0.0 ==> c.Flip(s).selection.value >= 0.0
  {
  }

  /** A selection already inside the new sound survives flip unchanged. */
  lemma FlipKeepsInside(c: Ctx, s: Snd)
    requires s.Sound() && c.cursor.Some? && c.selection.Some?
    requires c.cursor.value <= s.Len() as real
    requires 0.0 <= c.cursor.value + c.selection.value <= s.Len() as real
    ensures c.Flip(s).cursor == c.cursor && c.Flip(s).selection == c.selection
  {
  }

  /** Flipping twice onto the same sound changes nothing more: the clamped
      cursor and selection already lie inside it. */
  lemma FlipTwice(c: Ctx, s: Snd)
    requires s.Sound()
    ensures c.Flip(s).Flip(s) == c.Flip(s)
  {
  }

  /** copy (ctx.rs:99-107): the active channels' samples over the sample
      region, as a new sound at the same rate. */
  method Copy(ctx: Ctx) returns (out: Snd)
    requires ctx.Valid()
    ensures out.Valid() && out.sampleRate == ctx.snd.sampleRate
    ensures Copied(out.channels, ctx.snd.channels, ActiveIndices(ctx.channels, |ctx.snd.channels|),
                   ctx.SampleRegion().0, ctx.SampleRegion().1)
  {
    var (s, e) := ctx.SampleRegion();
    var chs := CopyActive(ctx.snd.channels, ctx.channels, s, e);
    out := Snd(ctx.snd.sampleRate, chs);
  }

  /** out holds, for each index in ix, the samples s..e of that channel. */
  predicate Copied(out: seq<BlockSequence>, chs: seq<BlockSequence>, ix: seq<nat>, s: nat, e: nat)
  {
    |out| == |ix| && SoundChannels(out) && SoundChannels(chs) &&
    forall j :: 0 <= j < |out| ==> ix[j] < |chs| && out[j].Samples() == chs[ix[j]].Window(s, e)
  }

  /** Appending the copy of channel i extends what has been copied by i. */
  lemma CopiedSnoc(out: seq<BlockSequence>, chs: seq<BlockSequence>, ix: seq<nat>, s: nat, e: nat,
                   part: BlockSequence, i: nat)
    requires Copied(out, chs, ix, s, e) && i < |chs| && part.Sound()
    requires part.Samples() == chs[i].Window(s, e)
    ensures Copied(out + [part], chs, ix + [i], s, e)
  {
    var o, x := out + [part], ix + [i];
    forall j | 0 <= j < |o|
      ensures o[j].Sound()
    {
      if j < |out| { assert o[j] == out[j]; }
    }
    forall j | 0 <= j < |o|
      ensures x[j] < |chs| && o[j].Samples() == chs[x[j]].Window(s, e)
    {
      if j < |out| { assert o[j] == out[j] && x[j] == ix[j]; }
    }
  }

  /** The loop of copy: the samples s..e of each channel whose mask bit is
      on, in channel order. */
  method CopyActive(chs: seq<BlockSequence>, m: Mask, s: nat, e: nat) returns (out: seq<BlockSequence>)
    requires ValidChannels(chs) && |chs| <= Channels && s <= e
    ensures ValidChannels(out)
    ensures Copied(out, chs, ActiveIndices(m, |chs|), s, e)
  {
    out := [];
    for i := 0 to |chs|
      invariant ValidChannels(out) && Copied(out, chs, ActiveIndices(m, i), s, e)
    {
      ghost var taken := ActiveIndices(m, i);
      if m.IsOn(i) {
        var sq := chs[i];
        Bounds(sq, s, e);
        var part := SubSeq(sq, Span(s, e));
        CopiedSnoc(out, chs, taken, s, e, part, i);
        ValidSnoc(out, part);
        out := out + [part];
        assert ActiveIndices(m, i + 1) == taken + [i];
      } else {
        assert ActiveIndices(m, i + 1) == taken;
      }
    }
  }

  /** Appending a valid channel keeps every channel valid. */
  lemma ValidSnoc(chs: seq<BlockSequence>, sq: BlockSequence)
    requires ValidChannels(chs) && sq.Valid()
    ensures ValidChannels(chs + [sq])
  {
    var t := chs + [sq];
    forall k | 0 <= k < |t|
      ensures t[k].Valid()
    {
      if k < |chs| { assert t[k] == chs[k]; }
    }
  }
}
