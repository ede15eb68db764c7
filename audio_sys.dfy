/** The stream callback of the audio system (src/audio_sys/mod.rs): the
    output buffer is cleared, the current player fills it frame by frame
    and reports its position or its end, and then at most one request is
    taken: Play installs a new player, Stop removes the current one. */
module AudioSys {
  import opened Util
  import opened Snds
  import opened Players

  /** A request to the audio system (mod.rs:31-34): play a sound over a
      range from a start with or without looping, or stop a sound. */
  datatype Cmd =
    | Play(id: nat, snd: Snd, rangeStart: real, rangeEnd: real, playStart: real, playLoop: bool)
    | Stop(id: nat)

  /** A message from the audio system (mod.rs:36-40). */
  datatype OutMsg = Playback(id: nat, pos: nat) | Stop(id: nat)

  /** What the dispatch does with the current player. */
  datatype Decision = Keep | Install | Clear

  /** clear_buffs (mod.rs:245-247): every slot becomes 0. */
  method ClearBuffs(buffs: array<real>)
    modifies buffs
    ensures forall k :: 0 <= k < buffs.Length ==> buffs[k] == 0.0
  {
    for k := 0 to buffs.Length
      invariant forall j :: 0 <= j < k ==> buffs[j] == 0.0
    {
      buffs[k] := 0.0;
    }
  }

  /** fill_buffs (mod.rs:249-258): one tick per whole frame of two slots,
      frame i from the head after i ticks; an odd last slot is not
      touched; the answer is the last tick's, true without frames. A
      player without channels cannot fill a frame. */
  method FillBuffs(buffs: array<real>, p: Player) returns (keepOn: bool)
    requires p.Valid() && (|p.snd.channels| >= 1 || buffs.Length < 2)
    modifies buffs, p
    ensures p.playHead == p.HeadAfter(old(p.playHead), buffs.Length / 2)
    ensures keepOn == p.KeepsOn(old(p.playHead), buffs.Length / 2)
    ensures forall k :: 0 <= k < buffs.Length / 2 * 2 ==>
      buffs[k] == Voice(p.snd, p.HeadAfter(old(p.playHead), k / 2), k % 2)
    ensures buffs.Length % 2 == 1 ==> buffs[buffs.Length - 1] == old(buffs[buffs.Length - 1])
  {
    ghost var h0 := p.playHead;
    keepOn := true;
    for i := 0 to buffs.Length / 2
      invariant p.playHead == p.HeadAfter(h0, i)
      invariant keepOn == p.KeepsOn(h0, i)
      invariant forall k :: 0 <= k < 2 * i ==> buffs[k] == Voice(p.snd, p.HeadAfter(h0, k / 2), k % 2)
      invariant forall k :: 2 * i <= k < buffs.Length ==> buffs[k] == old(buffs[k])
    {
      keepOn := p.Tick(buffs, 2 * i, 2);
      forall k | 2 * i <= k < 2 * i + 2
        ensures k / 2 == i && k % 2 == k - 2 * i
      {
        FrameSlot(k, i);
      }
    }
    FrameSlot(buffs.Length, buffs.Length / 2);
  }

  /** Slot k of a buffer of two-slot frames lies in frame k / 2. */
  lemma FrameSlot(k: nat, i: nat)
    ensures 2 * i <= k < 2 * i + 2 ==> k / 2 == i && k % 2 == k - 2 * i
    ensures i == k / 2 ==> 2 * i <= k < 2 * i + 2
  {
  }

  /** What the callback reports after filling (mod.rs:97-107): a player
      that stopped is reported stopped, one that goes on reports where it
      is. */
  function FillMsgs(id: nat, keepOn: bool, pos: nat): (m: seq<OutMsg>)
    ensures |m| == 1 && m[0].id == id
    ensures m[0].Stop? <==> !keepOn
  {
    if keepOn then [Playback(id, pos)] else [OutMsg.Stop(id)]
  }

  /** The request dispatch (mod.rs:111-130) for the id of the player still
      playing, if any: Play replaces it, reporting it stopped when the new
      id differs; Stop with its id removes it and reports so; anything else
      leaves it. */
  function Dispatch(live: Option<nat>, req: Option<Cmd>): (r: (Decision, seq<OutMsg>))
    ensures r.0 == Install <==> req.Some? && req.value.Play?
    ensures r.0 == Clear <==> live.Some? && req == Some(Cmd.Stop(live.value))
    ensures |r.1| <= 1 && forall k :: 0 <= k < |r.1| ==> r.1[k].Stop?
  {
    match req
    case Some(Play(id, _, _, _, _, _)) =>
      if live.Some? && live.value != id then (Install, [OutMsg.Stop(live.value)]) else (Install, [])
    case Some(Stop(id)) =>
      if live == Some(id) then (Clear, [OutMsg.Stop(id)]) else (Keep, [])
    case None => (Keep, [])
  }

  /** The dispatch reports exactly the player it drops: a Stop message
      names the playing player, sent when it is removed or replaced by a
      player of another id. */
  lemma DispatchStopsDropped(live: Option<nat>, req: Option<Cmd>, x: nat)
    ensures OutMsg.Stop(x) in Dispatch(live, req).1 <==>
      live == Some(x) && (Dispatch(live, req).0 == Clear ||
                          (Dispatch(live, req).0 == Install && req.value.id != x))
  {
  }

  /** A player that stopped while filling is not playing any more, so
      the callback sends at most one Stop message. */
  lemma {:induction false} OneStopPerCallback(id: nat, keepOn: bool, pos: nat, req: Option<Cmd>)
    ensures var m := FillMsgs(id, keepOn, pos) + Dispatch(if keepOn then Some(id) else None, req).1;
      forall i, j :: 0 <= i < j < |m| ==> !(m[i].Stop? && m[j].Stop?)
  {
    var f := FillMsgs(id, keepOn, pos);
    var d := Dispatch(if keepOn then Some(id) else None, req).1;
    if !keepOn {
      assert d == [];
    }
    var m := f + d;
    forall i, j | 0 <= i < j < |m|
      ensures !(m[i].Stop? && m[j].Stop?)
    {
      assert i == 0 && j == 1;
      assert m[0] == f[0] && m[1] == d[0];
    }
  }

  /** The stream callback (mod.rs:92-131), with the request that was
      waiting, if any, and the device's rate, which is not 0. */
  method Callback(cur: Player?, output: array<real>, req: Option<Cmd>, sr: real)
    returns (next: Player?, msgs: seq<OutMsg>)
    requires sr != 0.0
    requires cur != null ==> cur.Valid() && (|cur.snd.channels| >= 1 || output.Length < 2)
    requires req.Some? && req.value.Play? ==> req.value.snd.Sound()
    modifies output, cur
    ensures cur == null ==> forall k :: 0 <= k < output.Length ==> output[k] == 0.0
    ensures cur != null ==> cur.playHead == cur.HeadAfter(old(cur.playHead), output.Length / 2)
    ensures cur != null ==> forall k :: 0 <= k < output.Length / 2 * 2 ==>
      output[k] == Voice(cur.snd, cur.HeadAfter(old(cur.playHead), k / 2), k % 2)
    ensures output.Length % 2 == 1 ==> output[output.Length - 1] == 0.0
    ensures var keep := cur != null && cur.KeepsOn(old(cur.playHead), output.Length / 2);
      var live := if keep then Some(cur.id) else None;
      var d := Dispatch(live, req);
      && msgs == (if cur == null then [] else FillMsgs(cur.id, keep, cur.PlayPos())) + d.1
      && (d.0 == Keep ==> next == (if keep then cur else null))
      && (d.0 == Clear ==> next == null)
      && (d.0 == Install ==>
            && next != null && fresh(next) && next.Valid() && next.id == req.value.id
            && next.snd == req.value.snd && next.start == req.value.rangeStart && next.end == req.value.rangeEnd
            && next.playHead == req.value.playStart && next.playLoop == req.value.playLoop
            && next.ratio == req.value.snd.sampleRate as real / sr)
  {
    ClearBuffs(output);
    msgs := [];
    var live: Option<nat> := None;
    next := null;
    if cur != null {
      var keepOn := FillBuffs(output, cur);
      if !keepOn {
        msgs := [OutMsg.Stop(cur.id)];
      } else {
        msgs := [Playback(cur.id, cur.PlayPos())];
        live := Some(cur.id);
        next := cur;
      }
    }
    var d := Dispatch(live, req);
    msgs := msgs + d.1;
    match d.0
    case Install =>
      var c := req.value;
      next := new Player(c.id, c.snd, sr, c.rangeStart, c.rangeEnd, c.playStart, c.playLoop);
    case Clear =>
      next := null;
    case Keep =>
  }
}
