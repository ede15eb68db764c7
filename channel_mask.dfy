/** Mask (src/util/channel_mask.rs): one bit per channel, on when the channel
    takes part in edits. The source's Mask is a Copy value kept inside each
    Ctx, so its `&mut self` updates are functions returning the new mask. */
module ChannelMasks {

  /** Channel c is bit c of a 32-bit word. */
  const Channels: nat := 32

  /** A channel number below 32 as a 5-bit shift amount: c counted up from 0. */
  function Lane(c: nat): bv5
    requires c < Channels
  {
    if c == 0 then 0 else Lane(c - 1) + 1
  }

  /** Bit k of a word. */
  predicate Bit(w: bv32, k: bv5)
  {
    (w >> k) & 1 == 1
  }

  datatype Mask = Mask(bits: bv32)
  {
    /** is_on (channel_mask.rs:14-16): bit c; shifting by 32 or more is an
        overflow in the source, hence the precondition. */
    predicate IsOn(c: nat)
      requires c < Channels
    {
      Bit(bits, Lane(c))
    }

    /** toggle (channel_mask.rs:18-20): flips bit c. */
    function Toggle(c: nat): (m: Mask)
      requires c < Channels
      ensures m.IsOn(c) <==> !IsOn(c)
      ensures forall k :: 0 <= k < Channels && k != c ==> (m.IsOn(k) <==> IsOn(k))
    {
      ToggleChannels(bits, c);
      Mask(Toggled(bits, Lane(c)))
    }

    /** shift_after (channel_mask.rs:22-29): the bits below c stay, the bits
        from c up move down by one, the top bit becomes 0. As written, bit c
        lands on bit c - 1 by OR, so c - 1 is on when either of the old bits
        c - 1 and c was. */
    function ShiftAfter(c: nat): (m: Mask)
      requires c < Channels
      ensures forall k :: 0 <= k < c - 1 ==> (m.IsOn(k) <==> IsOn(k))
      ensures c > 0 ==> (m.IsOn(c - 1) <==> IsOn(c - 1) || IsOn(c))
      ensures forall k :: c <= k < Channels - 1 ==> (m.IsOn(k) <==> IsOn(k + 1))
      ensures !m.IsOn(Channels - 1)
    {
      ShiftChannels(bits, c);
      Mask(Shifted(bits, Lane(c)))
    }
  }

  /** default (channel_mask.rs:9-11): every channel on. */
  function Default(): (m: Mask)
    ensures forall c :: 0 <= c < Channels ==> m.IsOn(c)
  {
    AllOn();
    Mask(0xFFFF_FFFF)
  }

  /** solo (channel_mask.rs:31-34): only channel 0 on. */
  function Solo(): (m: Mask)
    ensures m.IsOn(0)
    ensures forall c :: 0 < c < Channels ==> !m.IsOn(c)
  {
    OnlyFirst();
    Mask(1)
  }

  /** The lane of channel c is the number c. */
  lemma {:induction false} LaneValue(c: nat)
    requires c < Channels
    ensures Lane(c) as int == c
  {
    if c > 0 {
      LaneValue(c - 1);
    }
  }

  /** Lanes are ordered as the channel numbers are. */
  lemma LaneOrder(c: nat, k: nat)
    requires c < Channels && k < Channels
    ensures c < k <==> Lane(c) < Lane(k)
    ensures c == k <==> Lane(c) == Lane(k)
  {
    LaneValue(c);
    LaneValue(k);
  }

  /** The word toggle builds from w for lane l. */
  function Toggled(w: bv32, l: bv5): bv32
  {
    w ^ (1 << l)
  }

  /** toggle flips the bit it names. */
  lemma ToggleSame(w: bv32, l: bv5)
    ensures Bit(Toggled(w, l), l) <==> !Bit(w, l)
  {
  }

  /** toggle leaves every other bit. */
  lemma ToggleOther(w: bv32, l: bv5, k: bv5)
    requires k != l
    ensures Bit(Toggled(w, l), k) <==> Bit(w, k)
  {
  }

  /** The word shift_after builds from w when deleting lane l. */
  function Shifted(w: bv32, l: bv5): bv32
  {
    (w & ((1 << l) - 1)) | ((w & !((1 << l) - 1)) >> 1)
  }

  /** Bits below l - 1 stay. */
  lemma ShiftBelow(w: bv32, l: bv5, k: bv5)
    requires k < l && k != l - 1
    ensures Bit(Shifted(w, l), k) <==> Bit(w, k)
  {
  }

  /** Bit l - 1 gets old bit l OR-ed in. */
  lemma ShiftAt(w: bv32, l: bv5)
    requires l > 0
    ensures Bit(Shifted(w, l), l - 1) <==> Bit(w, l - 1) || Bit(w, l)
  {
  }

  /** Bits from l up take the bit above them. */
  lemma ShiftAbove(w: bv32, l: bv5, k: bv5)
    requires l <= k < 31
    ensures Bit(Shifted(w, l), k) <==> Bit(w, k + 1)
  {
  }

  /** The top bit is cleared. */
  lemma ShiftTop(w: bv32, l: bv5)
    ensures !Bit(Shifted(w, l), 31)
  {
  }

  /** The toggle facts per channel number. */
  lemma ToggleChannels(w: bv32, c: nat)
    requires c < Channels
    ensures Mask(Toggled(w, Lane(c))).IsOn(c) <==> !Mask(w).IsOn(c)
    ensures forall k :: 0 <= k < Channels && k != c ==>
      (Mask(Toggled(w, Lane(c))).IsOn(k) <==> Mask(w).IsOn(k))
  {
    ToggleSame(w, Lane(c));
    ToggleKeeps(w, c);
  }

  lemma ToggleKeeps(w: bv32, c: nat)
    requires c < Channels
    ensures forall k :: 0 <= k < Channels && k != c ==>
      (Mask(Toggled(w, Lane(c))).IsOn(k) <==> Mask(w).IsOn(k))
  {
    forall k | 0 <= k < Channels && k != c
      ensures Mask(Toggled(w, Lane(c))).IsOn(k) <==> Mask(w).IsOn(k)
    {
      LaneOrder(c, k);
      ToggleOther(w, Lane(c), Lane(k));
    }
  }

  /** The shift_after facts per channel number. */
  lemma ShiftChannels(w: bv32, c: nat)
    requires c < Channels
    ensures forall k :: 0 <= k < c - 1 ==> (Mask(Shifted(w, Lane(c))).IsOn(k) <==> Mask(w).IsOn(k))
    ensures c > 0 ==> (Mask(Shifted(w, Lane(c))).IsOn(c - 1) <==> Mask(w).IsOn(c - 1) || Mask(w).IsOn(c))
    ensures forall k :: c <= k < Channels - 1 ==> (Mask(Shifted(w, Lane(c))).IsOn(k) <==> Mask(w).IsOn(k + 1))
    ensures !Mask(Shifted(w, Lane(c))).IsOn(Channels - 1)
  {
    var l := Lane(c);
    forall k | 0 <= k < c - 1
      ensures Mask(Shifted(w, l)).IsOn(k) <==> Mask(w).IsOn(k)
    {
      LaneOrder(k, c);
      LaneOrder(k, c - 1);
      ShiftBelow(w, l, Lane(k));
    }
    if c > 0 {
      LaneOrder(0, c);
      ShiftAt(w, l);
    }
    forall k | c <= k < Channels - 1
      ensures Mask(Shifted(w, l)).IsOn(k) <==> Mask(w).IsOn(k + 1)
    {
      LaneOrder(c, k);
      LaneOrder(k, Channels - 1);
      ShiftAbove(w, l, Lane(k));
    }
    LaneValue(Channels - 1);
    ShiftTop(w, l);
  }

  /** Every bit of 0xFFFFFFFF is set. */
  lemma AllOn()
    ensures forall c :: 0 <= c < Channels ==> Mask(0xFFFF_FFFF).IsOn(c)
  {
    forall c | 0 <= c < Channels
      ensures Mask(0xFFFF_FFFF).IsOn(c)
    {
      FullBit(Lane(c));
    }
  }

  lemma FullBit(l: bv5)
    ensures Bit(0xFFFF_FFFF, l)
  {
  }

  /** Only bit 0 of 1 is set. */
  lemma OnlyFirst()
    ensures Mask(1).IsOn(0)
    ensures forall c :: 0 < c < Channels ==> !Mask(1).IsOn(c)
  {
    forall c | 0 < c < Channels
      ensures !Mask(1).IsOn(c)
    {
      LaneOrder(0, c);
      OneBit(Lane(c));
    }
  }

  lemma OneBit(l: bv5)
    requires l != 0
    ensures !Bit(1, l)
  {
  }

  /** Toggling a channel twice gives the mask back. */
  lemma ToggleTwice(m: Mask, c: nat)
    requires c < Channels
    ensures m.Toggle(c).Toggle(c) == m
  {
    XorTwice(m.bits, Lane(c));
  }

  lemma XorTwice(w: bv32, l: bv5)
    ensures Toggled(Toggled(w, l), l) == w
  {
  }

  /** The unit test of channel_mask.rs:42-51: three deletions in a row. */
  lemma ShiftAfterExample()
    ensures Mask(0x1010_1010).ShiftAfter(24) == Mask(0x0810_1010)
    ensures Mask(0x0810_1010).ShiftAfter(16) == Mask(0x0408_1010)
    ensures Mask(0x0408_1010).ShiftAfter(0) == Mask(0x0204_0808)
  {
    LaneValue(24);
    LaneValue(16);
  }

  /** Deleting channel 1 while channel 0 is off turns channel 0 on: bit 1
      is ORed into bit 0 rather than dropped. */
  lemma ShiftAfterOrsDown()
    ensures !Mask(2).IsOn(0) && Mask(2).IsOn(1)
    ensures Mask(2).ShiftAfter(1) == Mask(1) && Mask(1).IsOn(0)
  {
    LaneValue(1);
    LaneValue(0);
  }
}
