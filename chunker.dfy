/** Chunker (src/blocks/sequence.rs:155-219): walks a range of a channel one
    block at a time, cutting the first and the last block to the range, from
    the front (`next`) and from the back (`next_back`). */
module Chunking {
  import opened Util
  import opened Blocks
  import opened Sequences

  /** Where the front of a chunker may stand: inside block si (or at its
      start, when it is empty), or past the last block. */
  predicate FwdOn(sq: BlockSequence, start: nat, si: nat)
    requires sq.Sound()
  {
    (si < |sq.blocks| && sq.Start(si) <= start && (start < sq.Stop(si) || start == sq.Start(si)))
    || si == |sq.blocks|
  }

  /** The same, and past the last block only at or beyond the end of the
      channel. */
  predicate FwdAt(sq: BlockSequence, start: nat, si: nat)
    requires sq.Sound()
  {
    FwdOn(sq, start, si) && (si == |sq.blocks| ==> start >= sq.Len())
  }

  /** Where the back of a chunker may stand: within block ei, ends included,
      or past the last block. */
  predicate BackAt(sq: BlockSequence, end: nat, ei: nat)
    requires sq.Sound()
  {
    (ei < |sq.blocks| && sq.Start(ei) <= end <= sq.Stop(ei)) || ei == |sq.blocks|
  }

  /** Block k cut to the channel positions [s, e), which lie inside it. */
  function SpanPiece(sq: BlockSequence, k: nat, s: nat, e: nat): (c: Block)
    requires sq.Sound() && k < |sq.blocks| && sq.Start(k) <= s <= e <= sq.Stop(k)
    ensures c.InBounds()
  {
    RngOkShapes(sq.blocks[k].1, s - sq.Start(k), e - sq.Start(k));
    sq.blocks[k].1.Rng(Span(s - sq.Start(k), e - sq.Start(k)))
  }

  /** Block si cut from where the front stands to its own end. */
  function TailPiece(sq: BlockSequence, start: nat, si: nat): (c: Block)
    requires sq.Sound() && FwdOn(sq, start, si) && si < |sq.blocks|
    ensures c.InBounds()
  {
    RngOkShapes(sq.blocks[si].1, start - sq.Start(si), sq.blocks[si].1.Len());
    sq.blocks[si].1.Rng(From(start - sq.Start(si)))
  }

  /** Block ei cut from its own start up to where the back stands. */
  function HeadPiece(sq: BlockSequence, end: nat, ei: nat): (c: Block)
    requires sq.Sound() && BackAt(sq, end, ei) && ei < |sq.blocks|
    ensures c.InBounds()
  {
    RngOkShapes(sq.blocks[ei].1, 0, end - sq.Start(ei));
    sq.blocks[ei].1.Rng(UpTo(end - sq.Start(ei)))
  }

  /** The closure `next` maps over block si (sequence.rs:183-194): the block
      cut from start to end when end lies inside it, and otherwise from start
      to its own end; with it, where the front stands next. */
  function FwdCut(sq: BlockSequence, start: nat, si: nat, end: nat): (r: (Block, nat, nat))
    requires sq.Sound() && FwdOn(sq, start, si) && start < end && si < |sq.blocks|
    ensures r.0.InBounds() && FwdAt(sq, r.1, r.2) && r.1 <= end
    ensures (r.1 == end && r.2 == si) || r.2 == si + 1
  {
    sq.Adjacent(si + 1);
    if end < sq.Stop(si) then (SpanPiece(sq, si, start, end), end, si)
    else (TailPiece(sq, start, si), sq.Stop(si), si + 1)
  }

  /** The closure `next_back` maps over block ei (sequence.rs:207-217): the
      block cut from start to end when start lies inside it, and otherwise
      from its own start to end; with it, where the back stands next. */
  function BwdCut(sq: BlockSequence, start: nat, end: nat, ei: nat): (r: (Block, nat, nat))
    requires sq.Sound() && BackAt(sq, end, ei) && start < end && ei < |sq.blocks|
    ensures r.0.InBounds() && BackAt(sq, r.1, r.2) && start <= r.1 <= end
    ensures (r.1 == start && r.2 == ei) || r.2 + 1 == ei
  {
    sq.Adjacent(ei);
    if start >= sq.Start(ei) then (SpanPiece(sq, ei, start, end), start, ei)
    else (HeadPiece(sq, end, ei), sq.Start(ei), ei - 1)
  }

  /** The chunks `next` yields, in order, from front state (start, si) up
      to end: FwdCut's chunk for as long as the front has not reached end. */
  function Fwd(sq: BlockSequence, start: nat, si: nat, end: nat): (cs: seq<Block>)
    requires sq.Sound() && FwdOn(sq, start, si) && (start <= end || si == |sq.blocks|)
    ensures forall k :: 0 <= k < |cs| ==> cs[k].InBounds()
    decreases |sq.blocks| - si
  {
    if start == end || si >= |sq.blocks| then []
    else if end < sq.Stop(si) then [SpanPiece(sq, si, start, end)]
    else
      sq.Adjacent(si + 1);
      [TailPiece(sq, start, si)] + Fwd(sq, sq.Stop(si), si + 1, end)
  }

  /** The chunks `next_back` yields, in order, from back state (end, ei)
      down to start: BwdCut's chunk for as long as the back has not reached
      start. */
  function Bwd(sq: BlockSequence, start: nat, end: nat, ei: nat): (cs: seq<Block>)
    requires sq.Sound() && BackAt(sq, end, ei) && start <= end
    ensures forall k :: 0 <= k < |cs| ==> cs[k].InBounds()
    decreases ei
  {
    if end == start || ei >= |sq.blocks| then []
    else if start >= sq.Start(ei) then [SpanPiece(sq, ei, start, end)]
    else
      sq.Adjacent(ei);
      [HeadPiece(sq, end, ei)] + Bwd(sq, start, sq.Start(ei), ei - 1)
  }

  /** One step of the front: the chunks from (start, si) are FwdCut's chunk
      followed by the chunks from where FwdCut leaves the front. */
  lemma FwdStep(sq: BlockSequence, start: nat, si: nat, end: nat)
    requires sq.Sound() && FwdOn(sq, start, si) && start < end && si < |sq.blocks|
    ensures Fwd(sq, start, si, end) ==
      [FwdCut(sq, start, si, end).0] + Fwd(sq, FwdCut(sq, start, si, end).1, FwdCut(sq, start, si, end).2, end)
  {
    if end < sq.Stop(si) {
      assert Fwd(sq, end, si, end) == [];
    }
  }

  /** One step of the back: the chunks from (end, ei) are BwdCut's chunk
      followed by the chunks from where BwdCut leaves the back. */
  lemma BwdStep(sq: BlockSequence, start: nat, end: nat, ei: nat)
    requires sq.Sound() && BackAt(sq, end, ei) && start < end && ei < |sq.blocks|
    ensures Bwd(sq, start, end, ei) ==
      [BwdCut(sq, start, end, ei).0] + Bwd(sq, start, BwdCut(sq, start, end, ei).1, BwdCut(sq, start, end, ei).2)
  {
    if start >= sq.Start(ei) {
      assert Bwd(sq, start, start, ei) == [];
    }
  }

  /** When the end lies inside block si, the front yields one last chunk,
      cut from start to end. */
  lemma FwdIn(sq: BlockSequence, start: nat, si: nat, end: nat)
    requires sq.Sound() && FwdOn(sq, start, si) && (start <= end || si == |sq.blocks|)
    requires start != end && si < |sq.blocks| && end < sq.Stop(si)
    ensures start < end && FwdAt(sq, end, si)
    ensures FwdCut(sq, start, si, end) == (SpanPiece(sq, si, start, end), end, si)
    ensures Fwd(sq, start, si, end) == [SpanPiece(sq, si, start, end)]
  {
  }

  /** When the end lies at or past the end of block si, the front yields the
      rest of that block and goes on from the next one. */
  lemma FwdAcross(sq: BlockSequence, start: nat, si: nat, end: nat)
    requires sq.Sound() && FwdOn(sq, start, si) && (start <= end || si == |sq.blocks|)
    requires start != end && si < |sq.blocks| && sq.Stop(si) <= end
    ensures start < end && FwdAt(sq, sq.Stop(si), si + 1)
    ensures FwdCut(sq, start, si, end) == (TailPiece(sq, start, si), sq.Stop(si), si + 1)
    ensures Fwd(sq, start, si, end) ==
      [TailPiece(sq, start, si)] + Fwd(sq, sq.Stop(si), si + 1, end)
  {
    FwdNextAt(sq, start, si);
  }

  /** Past the end of block si, the front stands at the start of the next
      block, or at the end of the channel after the last one. */
  lemma FwdNextAt(sq: BlockSequence, start: nat, si: nat)
    requires sq.Sound() && FwdOn(sq, start, si) && si < |sq.blocks|
    ensures FwdAt(sq, sq.Stop(si), si + 1)
  {
    sq.Adjacent(si + 1);
    if si + 1 < |sq.blocks| {
      assert sq.Start(si + 1) == sq.Stop(si);
    } else {
      assert sq.Len() == sq.Stop(si);
    }
  }

  /** When start lies inside block ei, the back yields one last chunk, cut
      from start to end. */
  lemma BwdIn(sq: BlockSequence, start: nat, end: nat, ei: nat)
    requires sq.Sound() && BackAt(sq, end, ei) && start <= end
    requires start != end && ei < |sq.blocks| && sq.Start(ei) <= start
    ensures BackAt(sq, start, ei)
    ensures BwdCut(sq, start, end, ei) == (SpanPiece(sq, ei, start, end), start, ei)
    ensures Bwd(sq, start, end, ei) == [SpanPiece(sq, ei, start, end)]
  {
  }

  /** When start lies before block ei, the back yields that block up to end
      and goes on from the block before it. */
  lemma BwdAcross(sq: BlockSequence, start: nat, end: nat, ei: nat)
    requires sq.Sound() && BackAt(sq, end, ei) && start <= end
    requires start != end && ei < |sq.blocks| && start < sq.Start(ei)
    ensures 0 < ei && BackAt(sq, sq.Start(ei), ei - 1)
    ensures BwdCut(sq, start, end, ei) == (HeadPiece(sq, end, ei), sq.Start(ei), ei - 1)
    ensures Bwd(sq, start, end, ei) ==
      [HeadPiece(sq, end, ei)] + Bwd(sq, start, sq.Start(ei), ei - 1)
  {
    sq.Adjacent(ei);
  }

  /** Where a chunker's ends may stand: each at a block it may read, and the
      front not past the back unless it is also past the channel. */
  predicate Inv(sq: BlockSequence, start: nat, si: nat, end: nat, ei: nat)
  {
    sq.Sound() && FwdAt(sq, start, si) && BackAt(sq, end, ei) &&
    (start <= end || (start >= sq.Len() && si == |sq.blocks|))
  }

  class Chunker {
    const sq: BlockSequence
    var start: nat
    var si: nat
    var end: nat
    var ei: nat

    ghost predicate Valid()
      reads this
    {
      Inv(sq, start, si, end, ei)
    }

    /** The chunks still to come from the front. */
    ghost function Forward(): seq<Block>
      reads this
      requires Valid()
    {
      Fwd(sq, start, si, end)
    }

    /** The chunks still to come from the back, back first. */
    ghost function Backward(): seq<Block>
      reads this
      requires Valid() && start <= end
    {
      Bwd(sq, start, end, ei)
    }

    /** new (sequence.rs:166-171): both ends located by the containing-block
        search, the back one at end - 1; a miss puts them past the last block.
        A start beyond end is only safe when it is also beyond the channel. */
    constructor (s: BlockSequence, from: nat, to: nat)
      requires s.Sound() && (from <= to || from >= s.Len())
      ensures Valid() && sq == s && start == from && end == to
      ensures si == (var c := s.ContainingIndex(from); if c.Some? then c.value else |s.blocks|)
      ensures ei == (var c := s.ContainingIndex(MaxNat(to, 1) - 1); if c.Some? then c.value else |s.blocks|)
    {
      sq := s;
      start := from;
      end := to;
      var c := s.ContainingIndex(from);
      si := if c.Some? then c.value else |s.blocks|;
      var d := s.ContainingIndex(MaxNat(to, 1) - 1);
      ei := if d.Some? then d.value else |s.blocks|;
    }

    /** next (sequence.rs:177-195) */
    method Next() returns (x: Option<Block>)
      requires Valid()
      modifies this
      ensures Valid() && end == old(end) && ei == old(ei)
      ensures x.None? ==> Fwd(sq, old(start), old(si), end) == [] && start == old(start) && si == old(si)
      ensures x.Some? ==> Fwd(sq, old(start), old(si), end) == [x.value] + Fwd(sq, start, si, end)
      ensures old(start) <= old(end) ==> start <= end
    {
      if start == end {
        return None;
      }
      if si >= |sq.blocks| {
        return None;
      }
      FwdStep(sq, start, si, end);
      var (c, s, i) := FwdCut(sq, start, si, end);
      x, start, si := Some(c), s, i;
    }

    /** next_back (sequence.rs:199-218); needs start <= end, which the front
        keeps once it holds. */
    method NextBack() returns (x: Option<Block>)
      requires Valid() && start <= end
      modifies this
      ensures Valid() && start == old(start) && si == old(si) && start <= end
      ensures x.None? ==> Bwd(sq, old(start), old(end), old(ei)) == [] && end == old(end) && ei == old(ei)
      ensures x.Some? ==> Bwd(sq, old(start), old(end), old(ei)) == [x.value] + Bwd(sq, start, end, ei)
    {
      if end == start {
        return None;
      }
      if ei >= |sq.blocks| {
        return None;
      }
      BwdStep(sq, start, end, ei);
      var (c, e, i) := BwdCut(sq, start, end, ei);
      x, end, ei := Some(c), e, i;
    }
  }

  /** Where a fresh chunker's back stands (sequence.rs:169): the block
      holding the sample before end (sample 0 when end is 0), or past the
      last block when there is no such sample. */
  function BackIndex(sq: BlockSequence, end: nat): (ei: nat)
    requires sq.Sound()
    ensures BackAt(sq, end, ei)
    ensures ei == |sq.blocks| <==> MaxNat(end, 1) - 1 >= sq.Len()
    ensures ei < |sq.blocks| && end > 0 ==> sq.Start(ei) < end
  {
    var d := sq.ContainingIndex(MaxNat(end, 1) - 1);
    if d.Some? then d.value else |sq.blocks|
  }

  /** The chunks `chunks(start..end).rev()` yields, back first. */
  function BackChunks(sq: BlockSequence, start: nat, end: nat): (cs: seq<Block>)
    requires sq.Sound() && start <= end
    ensures forall k :: 0 <= k < |cs| ==> cs[k].InBounds()
  {
    Bwd(sq, start, end, BackIndex(sq, end))
  }

  /** Read back to front, the chunks of a range that ends inside the
      channel cover its window; past the end of the channel there are none. */
  lemma BackChunksWindow(sq: BlockSequence, start: nat, end: nat)
    requires sq.Sound() && start <= end
    ensures end <= sq.Len() ==> FlattenRev(BackChunks(sq, start, end)) == sq.Window(start, end)
    ensures end > sq.Len() ==> BackChunks(sq, start, end) == []
  {
    var ei := BackIndex(sq, end);
    if end <= sq.Len() {
      BwdWindow(sq, start, end, ei);
    }
  }

  /** Over a channel without empty blocks, every back chunk holds samples. */
  lemma BackChunksNonEmpty(sq: BlockSequence, start: nat, end: nat)
    requires sq.Sound() && sq.NoEmptyBlocks() && start <= end
    ensures AllNonEmpty(BackChunks(sq, start, end))
  {
    BwdNonEmpty(sq, start, end, BackIndex(sq, end));
  }

  /** The clipped bounds chunks(r) starts from. */
  function ChunkBounds(sq: BlockSequence, r: Range): (nat, nat)
    requires sq.Sound()
  {
    RangeBounds(r, sq.Len())
  }

  /** Whether chunks(r) is safe: its start is at most its end, or past the channel. */
  predicate ChunksOk(sq: BlockSequence, r: Range)
    requires sq.Sound()
  {
    var (s, e) := ChunkBounds(sq, r);
    s <= e || s >= sq.Len()
  }

  /** chunks (sequence.rs:71-74) */
  method Chunks(sq: BlockSequence, r: Range) returns (c: Chunker)
    requires sq.Sound() && ChunksOk(sq, r)
    ensures fresh(c) && c.Valid() && c.sq == sq
    ensures (c.start, c.end) == ChunkBounds(sq, r)
    ensures Flatten(c.Forward()) == sq.Window(c.start, c.end)
    ensures c.ei == BackIndex(sq, c.end)
  {
    var (s, e) := RangeBounds(r, sq.Len());
    c := new Chunker(sq, s, e);
    FwdWindow(sq, s, c.si, e);
  }

  /** Everything a chunker yields from the front, in order. */
  method Drain(c: Chunker) returns (bs: seq<Block>)
    requires c.Valid()
    modifies c
    ensures c.Valid() && bs == old(c.Forward())
  {
    bs := [];
    ghost var all := Fwd(c.sq, c.start, c.si, c.end);
    while true
      invariant c.Valid() && c.end == old(c.end)
      invariant bs + Fwd(c.sq, c.start, c.si, c.end) == all
      decreases |Fwd(c.sq, c.start, c.si, c.end)|
    {
      var x := c.Next();
      if x.None? {
        return;
      }
      Shift(bs, x.value, Fwd(c.sq, c.start, c.si, c.end));
      bs := bs + [x.value];
    }
  }

  /** Everything a chunker yields from the back (`.rev()`), back first. */
  method DrainBack(c: Chunker) returns (bs: seq<Block>)
    requires c.Valid() && c.start <= c.end
    modifies c
    ensures c.Valid() && bs == old(c.Backward())
  {
    bs := [];
    ghost var all := Bwd(c.sq, c.start, c.end, c.ei);
    while true
      invariant c.Valid() && c.start <= c.end && c.start == old(c.start)
      invariant bs + Bwd(c.sq, c.start, c.end, c.ei) == all
      decreases |Bwd(c.sq, c.start, c.end, c.ei)|
    {
      var x := c.NextBack();
      if x.None? {
        return;
      }
      Shift(bs, x.value, Bwd(c.sq, c.start, c.end, c.ei));
      bs := bs + [x.value];
    }
  }

  /** Cutting the blocks of a channel with valid pyramids keeps them valid. */
  lemma {:induction false} FwdValid(sq: BlockSequence, start: nat, si: nat, end: nat)
    requires sq.Valid() && FwdOn(sq, start, si) && (start <= end || si == |sq.blocks|)
    ensures AllValid(Fwd(sq, start, si, end))
    decreases |sq.blocks| - si
  {
    if start == end || si >= |sq.blocks| {
      assert Fwd(sq, start, si, end) == [];
    } else if end < sq.Stop(si) {
      FwdLastValid(sq, start, si, end);
    } else {
      sq.Adjacent(si + 1);
      FwdValid(sq, sq.Stop(si), si + 1, end);
      TailValid(sq, start, si);
      FwdMidValid(sq, start, si, end);
    }
  }

  lemma FwdLastValid(sq: BlockSequence, start: nat, si: nat, end: nat)
    requires sq.Valid() && FwdOn(sq, start, si) && (start <= end || si == |sq.blocks|)
    requires start != end && si < |sq.blocks| && end < sq.Stop(si)
    ensures AllValid(Fwd(sq, start, si, end))
  {
    FwdIn(sq, start, si, end);
    PieceValid(sq, si, start, end);
    ValidCons(SpanPiece(sq, si, start, end), []);
  }

  lemma FwdMidValid(sq: BlockSequence, start: nat, si: nat, end: nat)
    requires sq.Sound() && FwdOn(sq, start, si) && (start <= end || si == |sq.blocks|)
    requires start != end && si < |sq.blocks| && sq.Stop(si) <= end && TailPiece(sq, start, si).Valid()
    requires FwdOn(sq, sq.Stop(si), si + 1) && AllValid(Fwd(sq, sq.Stop(si), si + 1, end))
    ensures AllValid(Fwd(sq, start, si, end))
  {
    FwdAcross(sq, start, si, end);
    ValidFront(Fwd(sq, start, si, end), TailPiece(sq, start, si), Fwd(sq, sq.Stop(si), si + 1, end));
  }

  /** Block si of a channel with valid pyramids, cut from where the front
      stands, stays valid. */
  lemma TailValid(sq: BlockSequence, start: nat, si: nat)
    requires sq.Valid() && FwdOn(sq, start, si) && si < |sq.blocks|
    ensures sq.blocks[si].1.RngOk(From(start - sq.Start(si)))
    ensures TailPiece(sq, start, si).Valid()
  {
    var b, off := sq.blocks[si].1, start - sq.Start(si);
    RngOkShapes(b, off, b.Len());
    RngValid(b, From(off));
  }

  lemma {:induction false} BwdValid(sq: BlockSequence, start: nat, end: nat, ei: nat)
    requires sq.Valid() && BackAt(sq, end, ei) && start <= end
    ensures AllValid(Bwd(sq, start, end, ei))
    decreases ei
  {
    if end == start || ei >= |sq.blocks| {
      assert Bwd(sq, start, end, ei) == [];
    } else if sq.Start(ei) <= start {
      BwdLastValid(sq, start, end, ei);
    } else {
      sq.Adjacent(ei);
      BwdValid(sq, start, sq.Start(ei), ei - 1);
      BwdMidValid(sq, start, end, ei);
    }
  }

  lemma BwdLastValid(sq: BlockSequence, start: nat, end: nat, ei: nat)
    requires sq.Valid() && BackAt(sq, end, ei) && start <= end
    requires start != end && ei < |sq.blocks| && sq.Start(ei) <= start
    ensures AllValid(Bwd(sq, start, end, ei))
  {
    BwdIn(sq, start, end, ei);
    PieceValid(sq, ei, start, end);
    ValidCons(SpanPiece(sq, ei, start, end), []);
  }

  lemma BwdMidValid(sq: BlockSequence, start: nat, end: nat, ei: nat)
    requires sq.Valid() && BackAt(sq, end, ei) && start <= end
    requires start != end && ei < |sq.blocks| && start < sq.Start(ei)
    requires 0 < ei && BackAt(sq, sq.Start(ei), ei - 1) && AllValid(Bwd(sq, start, sq.Start(ei), ei - 1))
    ensures AllValid(Bwd(sq, start, end, ei))
  {
    BwdAcross(sq, start, end, ei);
    HeadValid(sq, end, ei);
    ValidFront(Bwd(sq, start, end, ei), HeadPiece(sq, end, ei), Bwd(sq, start, sq.Start(ei), ei - 1));
  }

  /** Block ei of a channel with valid pyramids, cut up to where the back
      stands, stays valid. */
  lemma HeadValid(sq: BlockSequence, end: nat, ei: nat)
    requires sq.Valid() && BackAt(sq, end, ei) && ei < |sq.blocks|
    ensures sq.blocks[ei].1.RngOk(UpTo(end - sq.Start(ei)))
    ensures HeadPiece(sq, end, ei).Valid()
  {
    var b, e := sq.blocks[ei].1, end - sq.Start(ei);
    RngOkShapes(b, 0, e);
    RngValid(b, UpTo(e));
  }

  /** Over a channel without empty blocks, every chunk holds samples. */
  lemma {:induction false} FwdNonEmpty(sq: BlockSequence, start: nat, si: nat, end: nat)
    requires sq.Sound() && sq.NoEmptyBlocks() && FwdOn(sq, start, si) && (start <= end || si == |sq.blocks|)
    ensures AllNonEmpty(Fwd(sq, start, si, end))
    decreases |sq.blocks| - si
  {
    if start == end || si >= |sq.blocks| {
      assert Fwd(sq, start, si, end) == [];
    } else if end < sq.Stop(si) {
      FwdLastNonEmpty(sq, start, si, end);
    } else {
      sq.Adjacent(si + 1);
      FwdNonEmpty(sq, sq.Stop(si), si + 1, end);
      TailNonEmpty(sq, start, si);
      FwdMidNonEmpty(sq, start, si, end);
    }
  }

  lemma FwdLastNonEmpty(sq: BlockSequence, start: nat, si: nat, end: nat)
    requires sq.Sound() && FwdOn(sq, start, si) && (start <= end || si == |sq.blocks|)
    requires start != end && si < |sq.blocks| && end < sq.Stop(si)
    ensures AllNonEmpty(Fwd(sq, start, si, end))
  {
    FwdIn(sq, start, si, end);
    RngSlices(sq.blocks[si].1, start - sq.Start(si), end - sq.Start(si));
    NonEmptyCons(SpanPiece(sq, si, start, end), []);
  }

  lemma FwdMidNonEmpty(sq: BlockSequence, start: nat, si: nat, end: nat)
    requires sq.Sound() && FwdOn(sq, start, si) && (start <= end || si == |sq.blocks|)
    requires start != end && si < |sq.blocks| && sq.Stop(si) <= end && TailPiece(sq, start, si).Len() > 0
    requires FwdOn(sq, sq.Stop(si), si + 1) && AllNonEmpty(Fwd(sq, sq.Stop(si), si + 1, end))
    ensures AllNonEmpty(Fwd(sq, start, si, end))
  {
    FwdAcross(sq, start, si, end);
    NonEmptyFront(Fwd(sq, start, si, end), TailPiece(sq, start, si), Fwd(sq, sq.Stop(si), si + 1, end));
  }

  /** Over a channel without empty blocks, block si cut from where the
      front stands keeps samples. */
  lemma TailNonEmpty(sq: BlockSequence, start: nat, si: nat)
    requires sq.Sound() && sq.NoEmptyBlocks() && FwdOn(sq, start, si) && si < |sq.blocks|
    ensures sq.blocks[si].1.RngOk(From(start - sq.Start(si)))
    ensures TailPiece(sq, start, si).InBounds()
    ensures TailPiece(sq, start, si).Len() > 0
  {
    var b, off := sq.blocks[si].1, start - sq.Start(si);
    assert b.Len() > 0;
    RngSlices(b, off, b.Len());
  }

  /** Over a channel without empty blocks, every back chunk holds samples. */
  lemma {:induction false} BwdNonEmpty(sq: BlockSequence, start: nat, end: nat, ei: nat)
    requires sq.Sound() && sq.NoEmptyBlocks() && BackAt(sq, end, ei) && start <= end
    requires ei < |sq.blocks| && start < end ==> sq.Start(ei) < end
    ensures AllNonEmpty(Bwd(sq, start, end, ei))
    decreases ei
  {
    if end == start || ei >= |sq.blocks| {
      assert Bwd(sq, start, end, ei) == [];
    } else if sq.Start(ei) <= start {
      BwdLastNonEmpty(sq, start, end, ei);
    } else {
      sq.Adjacent(ei);
      BwdNonEmpty(sq, start, sq.Start(ei), ei - 1);
      BwdMidNonEmpty(sq, start, end, ei);
    }
  }

  lemma BwdLastNonEmpty(sq: BlockSequence, start: nat, end: nat, ei: nat)
    requires sq.Sound() && BackAt(sq, end, ei) && start <= end
    requires start != end && ei < |sq.blocks| && sq.Start(ei) <= start
    ensures AllNonEmpty(Bwd(sq, start, end, ei))
  {
    BwdIn(sq, start, end, ei);
    RngSlices(sq.blocks[ei].1, start - sq.Start(ei), end - sq.Start(ei));
    NonEmptyCons(SpanPiece(sq, ei, start, end), []);
  }

  lemma BwdMidNonEmpty(sq: BlockSequence, start: nat, end: nat, ei: nat)
    requires sq.Sound() && sq.NoEmptyBlocks() && BackAt(sq, end, ei) && start <= end
    requires start != end && ei < |sq.blocks| && start < sq.Start(ei) < end
    requires 0 < ei && BackAt(sq, sq.Start(ei), ei - 1) && AllNonEmpty(Bwd(sq, start, sq.Start(ei), ei - 1))
    ensures AllNonEmpty(Bwd(sq, start, end, ei))
  {
    BwdAcross(sq, start, end, ei);
    HeadNonEmpty(sq, end, ei);
    NonEmptyFront(Bwd(sq, start, end, ei), HeadPiece(sq, end, ei), Bwd(sq, start, sq.Start(ei), ei - 1));
  }

  /** Block ei cut up to a back end past its start keeps samples. */
  lemma HeadNonEmpty(sq: BlockSequence, end: nat, ei: nat)
    requires sq.Sound() && BackAt(sq, end, ei) && ei < |sq.blocks| && sq.Start(ei) < end
    ensures sq.blocks[ei].1.RngOk(UpTo(end - sq.Start(ei)))
    ensures HeadPiece(sq, end, ei).InBounds()
    ensures HeadPiece(sq, end, ei).Len() > 0
  {
    var b, e := sq.blocks[ei].1, end - sq.Start(ei);
    RngSlices(b, 0, e);
  }

  /** Block k of a channel with valid pyramids, cut anywhere, stays valid. */
  lemma PieceValid(sq: BlockSequence, k: nat, s: nat, e: nat)
    requires sq.Valid() && k < |sq.blocks| && sq.Start(k) <= s <= e <= sq.Stop(k)
    ensures SpanPiece(sq, k, s, e).Valid()
  {
    var b := sq.blocks[k].1;
    RngOkShapes(b, s - sq.Start(k), e - sq.Start(k));
    RngValid(b, Span(s - sq.Start(k), e - sq.Start(k)));
  }

  /** Block k cut to [s, e) (positions in the channel) holds the channel's
      samples from s to e. */
  lemma PieceSlice(sq: BlockSequence, k: nat, s: nat, e: nat)
    requires sq.Sound() && k < |sq.blocks|
    requires sq.Start(k) <= s <= e <= sq.Stop(k)
    ensures e <= |sq.Samples()|
    ensures SpanPiece(sq, k, s, e).Samples() == sq.Samples()[s..e]
  {
    var b, i := sq.blocks[k].1, sq.Start(k);
    sq.BlockSlice(k);
    CutSlice(sq.Samples(), b, i, sq.Stop(k), s, e);
    assert SpanPiece(sq, k, s, e) == b.Rng(Span(s - i, e - i));
  }

  /** The same, as a window of the channel. */
  lemma PieceWindow(sq: BlockSequence, k: nat, s: nat, e: nat)
    requires sq.Sound() && k < |sq.blocks|
    requires sq.Start(k) <= s <= e <= sq.Stop(k)
    ensures SpanPiece(sq, k, s, e).Samples() == sq.Window(s, e)
  {
    PieceSlice(sq, k, s, e);
    sq.LenIsSamples();
    WindowSlice(sq, s, e);
  }

  /** The tail piece of block si holds the window from the front to the
      end of the block. */
  lemma TailWindow(sq: BlockSequence, start: nat, si: nat)
    requires sq.Sound() && FwdOn(sq, start, si) && si < |sq.blocks|
    ensures TailPiece(sq, start, si).Samples() == sq.Window(start, sq.Stop(si))
  {
    TailIsSpan(sq, start, si);
    PieceWindow(sq, si, start, sq.Stop(si));
  }

  /** The tail piece is block si cut from the front to the end of the block. */
  lemma TailIsSpan(sq: BlockSequence, start: nat, si: nat)
    requires sq.Sound() && FwdOn(sq, start, si) && si < |sq.blocks|
    ensures sq.Start(si) <= start <= sq.Stop(si)
    ensures TailPiece(sq, start, si) == SpanPiece(sq, si, start, sq.Stop(si))
  {
    var i, b := sq.Start(si), sq.blocks[si].1;
    assert sq.Stop(si) - i == b.Len();
    RngSlices(b, start - i, b.Len());
  }

  /** The head piece of block ei holds the window from the start of the
      block up to the back. */
  lemma HeadWindow(sq: BlockSequence, end: nat, ei: nat)
    requires sq.Sound() && BackAt(sq, end, ei) && ei < |sq.blocks|
    ensures HeadPiece(sq, end, ei).Samples() == sq.Window(sq.Start(ei), end)
  {
    var i, b := sq.Start(ei), sq.blocks[ei].1;
    RngSlices(b, 0, end - i);
    PieceWindow(sq, ei, i, end);
    assert i - i == 0;
  }

  /** The last front chunk covers the window up to end. */
  lemma FwdLastWindow(sq: BlockSequence, start: nat, si: nat, end: nat)
    requires sq.Sound() && FwdOn(sq, start, si) && (start <= end || si == |sq.blocks|)
    requires start != end && si < |sq.blocks| && end < sq.Stop(si)
    ensures Flatten(Fwd(sq, start, si, end)) == sq.Window(start, end)
  {
    FwdIn(sq, start, si, end);
    var c := SpanPiece(sq, si, start, end);
    FlattenCons(c, []);
    assert Flatten(Fwd(sq, start, si, end)) == c.Samples() + Flatten([]);
    PieceWindow(sq, si, start, end);
  }

  /** A front chunk that runs to the end of its block, followed by the rest. */
  lemma FwdMidWindow(sq: BlockSequence, start: nat, si: nat, end: nat)
    requires sq.Sound() && FwdOn(sq, start, si) && (start <= end || si == |sq.blocks|)
    requires start != end && si < |sq.blocks| && sq.Stop(si) <= end
    requires FwdOn(sq, sq.Stop(si), si + 1)
    requires Flatten(Fwd(sq, sq.Stop(si), si + 1, end)) == sq.Window(sq.Stop(si), end)
    ensures Flatten(Fwd(sq, start, si, end)) == sq.Window(start, end)
  {
    FwdAcross(sq, start, si, end);
    TailWindow(sq, start, si);
    WindowJoin(sq, start, sq.Stop(si), end);
    FlattenFront(Fwd(sq, start, si, end), TailPiece(sq, start, si), Fwd(sq, sq.Stop(si), si + 1, end),
                 sq.Window(start, sq.Stop(si)), sq.Window(sq.Stop(si), end));
  }

  /** The front chunks cover exactly the window from start to end, cut at
      the end of the channel. */
  lemma {:induction false} FwdWindow(sq: BlockSequence, start: nat, si: nat, end: nat)
    requires sq.Sound() && FwdAt(sq, start, si) && (start <= end || si == |sq.blocks|)
    ensures Flatten(Fwd(sq, start, si, end)) == sq.Window(start, end)
    decreases |sq.blocks| - si
  {
    if start == end || si >= |sq.blocks| {
      assert Fwd(sq, start, si, end) == [];
    } else if end < sq.Stop(si) {
      FwdLastWindow(sq, start, si, end);
    } else {
      sq.Adjacent(si + 1);
      FwdWindow(sq, sq.Stop(si), si + 1, end);
      FwdMidWindow(sq, start, si, end);
    }
  }

  /** The last back chunk covers the window from start. */
  lemma BwdLastWindow(sq: BlockSequence, start: nat, end: nat, ei: nat)
    requires sq.Sound() && BackAt(sq, end, ei) && start <= end
    requires start != end && ei < |sq.blocks| && sq.Start(ei) <= start
    ensures FlattenRev(Bwd(sq, start, end, ei)) == sq.Window(start, end)
  {
    BwdIn(sq, start, end, ei);
    var c := SpanPiece(sq, ei, start, end);
    FlattenRevCons(c, []);
    assert FlattenRev(Bwd(sq, start, end, ei)) == FlattenRev([]) + c.Samples();
    PieceWindow(sq, ei, start, end);
  }

  /** A back chunk that runs from the start of its block, after the rest. */
  lemma BwdMidWindow(sq: BlockSequence, start: nat, end: nat, ei: nat)
    requires sq.Sound() && BackAt(sq, end, ei) && start <= end
    requires start != end && ei < |sq.blocks| && start < sq.Start(ei)
    requires 0 < ei && BackAt(sq, sq.Start(ei), ei - 1)
    requires FlattenRev(Bwd(sq, start, sq.Start(ei), ei - 1)) == sq.Window(start, sq.Start(ei))
    ensures FlattenRev(Bwd(sq, start, end, ei)) == sq.Window(start, end)
  {
    BwdAcross(sq, start, end, ei);
    HeadWindow(sq, end, ei);
    WindowJoin(sq, start, sq.Start(ei), end);
    FlattenRevFront(Bwd(sq, start, end, ei), HeadPiece(sq, end, ei), Bwd(sq, start, sq.Start(ei), ei - 1),
                    sq.Window(sq.Start(ei), end), sq.Window(start, sq.Start(ei)));
  }

  /** The back chunks, each read forwards but taken back to front, cover the
      same window, provided the back end lies in the channel. */
  lemma {:induction false} BwdWindow(sq: BlockSequence, start: nat, end: nat, ei: nat)
    requires sq.Sound() && BackAt(sq, end, ei) && start <= end
    requires ei < |sq.blocks| || start == end
    ensures FlattenRev(Bwd(sq, start, end, ei)) == sq.Window(start, end)
    decreases ei
  {
    if end == start {
      assert Bwd(sq, start, end, ei) == [];
    } else if sq.Start(ei) <= start {
      BwdLastWindow(sq, start, end, ei);
    } else {
      sq.Adjacent(ei);
      BwdWindow(sq, start, sq.Start(ei), ei - 1);
      BwdMidWindow(sq, start, end, ei);
    }
  }
}
