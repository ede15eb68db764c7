/** remove_selected and remove_non_selected (src/edit/delete.rs): cut the
    selection out of the active channels, or keep only the selection. */
module Deletes {
  import opened Util
  import opened Sequences
  import opened Chunking
  import opened SequenceOps
  import opened ChannelMasks
  import opened Snds
  import opened Ctxs
  import opened EditUtil

  /** delete (sequence.rs:99-104) on samples: everything before s and from e on. */
  function DeletedSamples(sq: BlockSequence, s: nat, e: nat): seq<real>
    requires sq.Sound()
  {
    sq.Window(0, s) + sq.Window(e, sq.Len())
  }

  /** What remove_selected gives every active channel. */
  function Deleted(chs: seq<BlockSequence>, s: nat, e: nat): (w: seq<seq<real>>)
    requires SoundChannels(chs)
    ensures |w| == |chs|
  {
    seq(|chs|, n requires 0 <= n < |chs| => DeletedSamples(chs[n], s, e))
  }

  /** What remove_non_selected gives every active channel: the samples
      from s up to e, cut at the end of the channel. */
  function Cropped(chs: seq<BlockSequence>, s: nat, e: nat): (w: seq<seq<real>>)
    requires SoundChannels(chs)
    ensures |w| == |chs|
  {
    seq(|chs|, n requires 0 <= n < |chs| => chs[n].Window(s, e))
  }

  /** Inside the channel, deleting [s, e) joins the samples on both sides
      and shortens the channel by e - s. */
  lemma DeletedWithin(sq: BlockSequence, s: nat, e: nat)
    requires sq.Sound() && s <= e <= sq.Len()
    ensures |sq.Samples()| == sq.Len()
    ensures DeletedSamples(sq, s, e) == sq.Samples()[..s] + sq.Samples()[e..]
    ensures |DeletedSamples(sq, s, e)| == sq.Len() - (e - s)
  {
    WindowEnds(sq, s, e);
  }

  /** Deleting from past the end of a channel leaves it as it was. */
  lemma DeletedPastEnd(sq: BlockSequence, s: nat, e: nat)
    requires sq.Sound() && sq.Len() <= s <= e
    ensures DeletedSamples(sq, s, e) == sq.Samples()
  {
    sq.LenIsSamples();
    assert sq.Window(0, s) == sq.Samples()[..sq.Len()];
  }

  /** Cropping to [s, e) inside the channel keeps exactly those e - s samples. */
  lemma CroppedWithin(sq: BlockSequence, s: nat, e: nat)
    requires sq.Sound() && s <= e <= sq.Len()
    ensures |sq.Samples()| == sq.Len()
    ensures sq.Window(s, e) == sq.Samples()[s..e] && |sq.Window(s, e)| == e - s
  {
    WindowEnds(sq, s, e);
  }

  /** remove_selected (delete.rs:6-27): None without a selection; otherwise
      the active channels lose the selection's samples, the cursor goes to
      its first sample and the selection goes. */
  method RemoveSelected(ctx: Ctx) returns (r: Option<Ctx>)
    requires ctx.Valid()
    ensures r.None? <==> ctx.SelectedRegion().None?
    ensures r.Some? ==>
      r.value.snd.Valid() && r.value.snd.sampleRate == ctx.snd.sampleRate &&
      Edited(r.value.snd.channels, ctx.snd.channels, ctx.channels,
             Deleted(ctx.snd.channels, ctx.SampleRegion().0, ctx.SampleRegion().1)) &&
      r.value == ctx.Flip(r.value.snd).(cursor := Some(ctx.SampleRegion().0 as real), selection := None)
  {
    if ctx.SelectedRegion().None? {
      return None;
    }
    var (s, e) := ctx.SelectedRegion().value.SampleRange();
    var chs := DeleteEach(ctx.snd.channels, ctx.channels, s, e);
    var snd := Snd(ctx.snd.sampleRate, chs);
    r := Some(ctx.Flip(snd).(cursor := Some(s as real), selection := None));
  }

  /** The channel walk of remove_selected. */
  method DeleteEach(chs: seq<BlockSequence>, m: Mask, s: nat, e: nat) returns (out: seq<BlockSequence>)
    requires ValidChannels(chs) && SoundChannels(chs) && |chs| <= Channels
    ensures ValidChannels(out) && Edited(out, chs, m, Deleted(chs, s, e))
  {
    ghost var want := Deleted(chs, s, e);
    out := [];
    for n := 0 to |chs|
      invariant |out| == n && ValidChannels(out) && Applied(out, chs, m, want)
    {
      var p := chs[n];
      if m.IsOn(n) {
        p := Delete(chs[n], s, e);
      }
      AppliedSnoc(out, chs, m, want, p);
      ValidSnoc(out, p);
      out := out + [p];
    }
  }

  /** remove_non_selected (delete.rs:30-52), "crop": None without a
      selection; otherwise the active channels keep only the selection's
      samples, and cursor and selection go. */
  method RemoveNonSelected(ctx: Ctx) returns (r: Option<Ctx>)
    requires ctx.Valid()
    ensures r.None? <==> ctx.SelectedRegion().None?
    ensures r.Some? ==>
      r.value.snd.Valid() && r.value.snd.sampleRate == ctx.snd.sampleRate &&
      Edited(r.value.snd.channels, ctx.snd.channels, ctx.channels,
             Cropped(ctx.snd.channels, ctx.SampleRegion().0, ctx.SampleRegion().1)) &&
      r.value == ctx.Flip(r.value.snd).(cursor := None, selection := None)
  {
    if ctx.SelectedRegion().None? {
      return None;
    }
    var (s, e) := ctx.SelectedRegion().value.SampleRange();
    var chs := CropEach(ctx.snd.channels, ctx.channels, s, e);
    var snd := Snd(ctx.snd.sampleRate, chs);
    r := Some(ctx.Flip(snd).(cursor := None, selection := None));
  }

  /** The channel walk of remove_non_selected. */
  method CropEach(chs: seq<BlockSequence>, m: Mask, s: nat, e: nat) returns (out: seq<BlockSequence>)
    requires ValidChannels(chs) && SoundChannels(chs) && |chs| <= Channels && s <= e
    ensures ValidChannels(out) && Edited(out, chs, m, Cropped(chs, s, e))
  {
    ghost var want := Cropped(chs, s, e);
    out := [];
    for n := 0 to |chs|
      invariant |out| == n && ValidChannels(out) && Applied(out, chs, m, want)
    {
      var p := chs[n];
      if m.IsOn(n) {
        Bounds(chs[n], s, e);
        p := SubSeq(chs[n], Span(s, e));
      }
      AppliedSnoc(out, chs, m, want, p);
      ValidSnoc(out, p);
      out := out + [p];
    }
  }
}
