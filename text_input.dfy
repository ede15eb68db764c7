/** The single-line text input (src/widgets/text_input.rs and
    src/widgets/text_input/actions.rs): a content string, a cursor that is
    either an insertion point or an anchored selection, and the handling of
    named keys and typed characters.  Positions count characters. */
module TextInputs {
  import Util

  /** 2^64: a negative isize cast to usize wraps by this much. */
  const USIZE: int := 0x1_0000_0000_0000_0000

  /** Ins(p): a caret before character p.  Sel(pt, len): a selection anchored
      at pt reaching len characters to the right (or -len to the left). */
  datatype Cursor = Ins(at: nat) | Sel(pt: nat, len: int)

  datatype NamedKey =
    | Space | Home | End | ArrowLeft | ArrowRight | Backspace | Enter | Escape
    | OtherKey

  datatype Mods = Mods(shift: bool, command: bool)

  datatype Key = Named(n: NamedKey) | Character(text: string) | Unidentified

  datatype Msg =
    | KeyMsg(key: Key, mods: Mods)
    | RequestFocus
    | SelectAll
    | SetCursor(to: nat)
    | SetSelection(from: nat, span: int)

  datatype OutMsg = Cancel | Submit | TakeFocus | None

  /** Content, cursor and reply after one key. */
  datatype Outcome = Outcome(content: string, cursor: Cursor, out: OutMsg)

  /** Cursor::range (actions.rs:19-33): the start and end of the cursor.  A
      selection reaching left of 0 makes `st as usize` wrap around. */
  function Range(cur: Cursor): (r: (nat, nat))
    ensures cur.Ins? ==> r == (cur.at, cur.at)
    ensures cur.Sel? && cur.pt + cur.len >= 0 ==>
      r.0 == Util.MinInt(cur.pt, cur.pt + cur.len) && r.1 == Util.MaxInt(cur.pt, cur.pt + cur.len)
    ensures cur.Sel? && cur.pt + cur.len < 0 && cur.len >= -USIZE ==>
      r.0 == cur.pt + cur.len + USIZE && r.1 == cur.pt
  {
    match cur
    case Ins(p) => (p, p)
    case Sel(p, l) =>
      if l < 0 then (if p + l >= 0 then p + l else (p + l) % USIZE, p) else (p, p + l)
  }

  /** The cursor lies within a content of length n. */
  predicate Fits(n: nat, cur: Cursor)
  {
    match cur
    case Ins(c) => c <= n
    case Sel(p, l) => p <= n && 0 <= p + l <= n
  }

  /** A placed cursor's range is an ordered span of the content whose end
      points are the anchor and the anchor moved by len. */
  lemma FitsRange(n: nat, cur: Cursor)
    requires Fits(n, cur)
    ensures Range(cur).0 <= Range(cur).1 <= n
    ensures cur.Sel? ==> Range(cur).1 - Range(cur).0 == if cur.len < 0 then -cur.len else cur.len
    ensures cur.Sel? ==> cur.pt == Range(cur).0 || cur.pt == Range(cur).1
  {
  }

  /** `replace_range(start..end, ins)`. */
  function Splice(s: string, start: nat, end: nat, ins: string): (r: string)
    requires start <= end <= |s|
    ensures |r| == |s| - (end - start) + |ins|
    ensures r[..start] == s[..start] && r[start..start + |ins|] == ins
    ensures r[start + |ins|..] == s[end..]
  {
    s[..start] + ins + s[end..]
  }

  /** The keys for which named_keys does not panic: `insert`, `remove` and
      `replace_range` need positions inside the content, and `len - pt`
      must not underflow. */
  predicate NamedDefined(n: nat, cur: Cursor, k: NamedKey, m: Mods)
  {
    match cur
    case Ins(c) =>
      c <= n
      || (k != Space && k != Backspace
          && !(m.shift && (k == End || (k == ArrowRight && m.command))))
    case Sel(p, l) =>
      ((k == Space || k == Backspace) ==> Range(cur).0 <= Range(cur).1 <= n)
      && (p <= n || !(m.shift && (k == End || (k == ArrowRight && (m.command || l != -1)))))
  }

  /** The cursor after a navigation key (Home, End, arrows) in named_keys
      (actions.rs:52-114, 145-218) over a content of length n; any other key
      leaves it. */
  function Moved(n: nat, cur: Cursor, k: NamedKey, m: Mods): (r: Cursor)
    requires NamedDefined(n, cur, k, m)
    ensures Fits(n, cur) ==> Fits(n, r)
    ensures k !in {Home, End, ArrowLeft, ArrowRight} ==> r == cur
  {
    match cur
    case Ins(c) =>
      if k == Home then
        if m.shift then (if c != 0 then Sel(c, -(c as int)) else cur) else Ins(0)
      else if k == ArrowLeft then
        if m.shift && m.command then (if c != 0 then Sel(c, -(c as int)) else cur)
        else if m.command then Ins(0)
        else if m.shift then (if c != 0 then Sel(c, -1) else cur)
        else Ins(if c == 0 then 0 else c - 1)
      else if k == End then
        if m.shift then (if c != n then Sel(c, n - c) else cur) else Ins(n)
      else if k == ArrowRight then
        if m.shift && m.command then (if c != n then Sel(c, n - c) else cur)
        else if m.command then Ins(n)
        else if m.shift then (if c != n then Sel(c, 1) else cur)
        else Ins(Util.MinNat(c + 1, n))
      else cur
    case Sel(p, l) =>
      if k == Home then
        if m.shift then (if p != 0 then Sel(p, -(p as int)) else cur) else Ins(0)
      else if k == ArrowLeft then
        if m.command && m.shift then (if p != 0 then Sel(p, -(p as int)) else cur)
        else if m.shift then (if l != 1 then Sel(p, Util.MaxInt(l - 1, -(p as int))) else Ins(p))
        else Ins(Range(cur).0)
      else if k == End then
        if m.shift then (if p != n then Sel(p, n - p) else cur) else Ins(n)
      else if k == ArrowRight then
        if m.shift && m.command then (if p != n then Sel(p, n - p) else cur)
        else if m.command then Ins(n)
        else if m.shift then (if l != -1 then Sel(p, Util.MinInt(l + 1, n - p)) else Ins(p))
        else Ins(Range(cur).1)
      else cur
  }

  /** Plain arrows move the caret one place, stopping at either end; with
      shift they grow or shrink a selection by one, and a selection of
      one character collapses back to its anchor. */
  lemma ArrowKeys(n: nat, cur: Cursor)
    requires Fits(n, cur)
    ensures cur.Ins? ==>
      Moved(n, cur, ArrowLeft, Mods(false, false)) == Ins(if cur.at == 0 then 0 else cur.at - 1)
      && Moved(n, cur, ArrowRight, Mods(false, false)) == Ins(if cur.at < n then cur.at + 1 else n)
    ensures cur.Sel? ==>
      Moved(n, cur, ArrowLeft, Mods(true, false))
        == (if cur.len == 1 then Ins(cur.pt) else Sel(cur.pt, Util.MaxInt(cur.len - 1, -(cur.pt as int))))
      && Moved(n, cur, ArrowRight, Mods(true, false))
        == (if cur.len == -1 then Ins(cur.pt) else Sel(cur.pt, Util.MinInt(cur.len + 1, n - cur.pt)))
  {
  }

  /** Shift+ArrowLeft then shift+ArrowRight gives the cursor back, from a
      caret or selection end with room on the left, when the selection
      neither is empty nor collapses. */
  lemma ShiftLeftThenRight(n: nat, cur: Cursor)
    requires Fits(n, cur)
    requires cur.Ins? ==> cur.at != 0
    requires cur.Sel? ==> cur.len != 0 && cur.len != 1 && cur.pt + cur.len != 0
    ensures Moved(n, Moved(n, cur, ArrowLeft, Mods(true, false)), ArrowRight, Mods(true, false)) == cur
  {
  }

  /** Shift+ArrowRight then shift+ArrowLeft gives the cursor back, from a
      caret or selection end with room on the right, when the selection
      neither is empty nor collapses. */
  lemma ShiftRightThenLeft(n: nat, cur: Cursor)
    requires Fits(n, cur)
    requires cur.Ins? ==> cur.at != n
    requires cur.Sel? ==> cur.len != 0 && cur.len != -1 && cur.pt + cur.len != n
    ensures Moved(n, Moved(n, cur, ArrowRight, Mods(true, false)), ArrowLeft, Mods(true, false)) == cur
  {
  }

  /** What named_keys (actions.rs:43-239) does to the content and the cursor,
      and what it answers. */
  function NamedStep(content: string, cur: Cursor, k: NamedKey, m: Mods): (r: Outcome)
    requires NamedDefined(|content|, cur, k, m)
    ensures r.out == (if k == Enter then Submit else if k == Escape then Cancel else None)
    ensures k != Space && k != Backspace ==> r.content == content
    ensures k in {Enter, Escape, OtherKey} ==> r.cursor == cur
    ensures Fits(|content|, cur) ==> Fits(|r.content|, r.cursor)
  {
    var out := if k == Enter then Submit else if k == Escape then Cancel else None;
    match cur
    case Ins(c) =>
      if k == Space then Outcome(content[..c] + [' '] + content[c..], Ins(c + 1), out)
      else if k == Backspace then
        if c != 0 then Outcome(content[..c - 1] + content[c..], Ins(c - 1), out)
        else Outcome(content, cur, out)
      else Outcome(content, Moved(|content|, cur, k, m), out)
    case Sel(_, _) =>
      var (s, e) := Range(cur);
      if k == Space then Outcome(Splice(content, s, e, " "), Ins(s + 1), out)
      else if k == Backspace then Outcome(Splice(content, s, e, ""), Ins(s), out)
      else Outcome(content, Moved(|content|, cur, k, m), out)
  }

  /** Space and Backspace edit the content: at a caret they insert a blank or
      drop the character before it, over a selection they replace it by a
      blank or by nothing, and the caret lands after the edit. */
  lemma EditKeys(content: string, cur: Cursor, m: Mods)
    requires Fits(|content|, cur)
    ensures cur.Ins? ==>
      NamedStep(content, cur, Space, m) == Outcome(Splice(content, cur.at, cur.at, " "), Ins(cur.at + 1), None)
    ensures cur.Ins? && cur.at == 0 ==>
      NamedStep(content, cur, Backspace, m) == Outcome(content, cur, None)
    ensures cur.Ins? && cur.at > 0 ==>
      NamedStep(content, cur, Backspace, m) == Outcome(Splice(content, cur.at - 1, cur.at, ""), Ins(cur.at - 1), None)
    ensures cur.Sel? ==>
      var (s, e) := Range(cur);
      NamedStep(content, cur, Space, m) == Outcome(Splice(content, s, e, " "), Ins(s + 1), None)
      && NamedStep(content, cur, Backspace, m) == Outcome(Splice(content, s, e, ""), Ins(s), None)
  {
    FitsRange(|content|, cur);
  }

  /** Backspace undoes Space at a caret: content and caret come back. */
  lemma SpaceThenBackspace(content: string, c: nat, m: Mods)
    requires c <= |content|
    ensures var r := NamedStep(content, Ins(c), Space, m);
      NamedStep(r.content, r.cursor, Backspace, m) == Outcome(content, Ins(c), None)
  {
    var t := content[..c] + [' '] + content[c..];
    assert t[..c] == content[..c];
    assert t[c + 1..] == content[c..];
    assert content[..c] + content[c..] == content;
  }

  predicate IsAscii(ch: char)
  {
    ch as int < 128
  }

  predicate AllAscii(s: string)
  {
    forall i :: 0 <= i < |s| ==> IsAscii(s[i])
  }

  /** The lower-case hexadecimal digit of d. */
  function HexDigit(d: nat): (ch: char)
    requires d < 16
    ensures IsAscii(ch)
  {
    "0123456789abcdef"[d]
  }

  /** The value of a lower-case hexadecimal digit. */
  function DigitValue(ch: char): (d: nat)
    ensures forall e :: 0 <= e < 16 && ch == HexDigit(e) ==> d == e
  {
    if '0' <= ch <= '9' then ch as int - '0' as int
    else if 'a' <= ch <= 'f' then ch as int - 'a' as int + 10
    else 0
  }

  /** The digits of n in base 16, most significant first, no leading zero. */
  function HexDigits(n: nat): (s: string)
    ensures |s| >= 1 && AllAscii(s)
    ensures n > 0 ==> s[0] != '0'
    decreases n
  {
    if n < 16 then [HexDigit(n)] else HexDigits(n / 16) + [HexDigit(n % 16)]
  }

  /** The number a string of hexadecimal digits spells. */
  function HexValue(s: string): nat
  {
    if s == [] then 0 else HexValue(s[..|s| - 1]) * 16 + DigitValue(s[|s| - 1])
  }

  /** Reading the digits back gives the number. */
  lemma {:induction false} HexRoundTrip(n: nat)
    ensures HexValue(HexDigits(n)) == n
    decreases n
  {
    var s := HexDigits(n);
    if n < 16 {
      assert s[..0] == [];
    } else {
      HexRoundTrip(n / 16);
      assert s[..|s| - 1] == HexDigits(n / 16);
    }
  }

  /** `char::escape_unicode`: the characters `\u{`, the code point in
      lower-case hexadecimal, then `}`; all of it ASCII. */
  function EscapeUnicode(ch: char): (esc: string)
    ensures AllAscii(esc) && |esc| >= 5
    ensures esc[..3] == "\\u{" && esc[|esc| - 1] == '}'
    ensures HexValue(esc[3..|esc| - 1]) == ch as int
  {
    var digits := HexDigits(ch as int);
    HexRoundTrip(ch as int);
    var esc := "\\u{" + digits + "}";
    assert esc[3..|esc| - 1] == digits;
    esc
  }

  /** One character typed at a caret c (actions.rs:245-253): an ASCII
      character is inserted at c and the caret set to c+1; any other is
      escaped and appended at the very end, and the caret set to c plus the
      escape's length.  None when the `insert` would panic. */
  function TypeOne(content: string, c: nat, ch: char): (r: Util.Option<(string, Cursor)>)
    ensures r.None? <==> IsAscii(ch) && c > |content|
    ensures r.Some? && IsAscii(ch) ==> r.value == (Splice(content, c, c, [ch]), Ins(c + 1))
    ensures !IsAscii(ch) ==>
      r.Some? && |r.value.0| >= |content| + 5 && r.value.0[..|content|] == content
      && r.value.1 == Ins(c + |r.value.0| - |content|)
  {
    if IsAscii(ch) then
      if c <= |content| then Util.Some((content[..c] + [ch] + content[c..], Ins(c + 1)))
      else Util.None
    else
      var esc := EscapeUnicode(ch);
      Util.Some((content + esc, Ins(c + |esc|)))
  }

  /** char_key at a caret c (actions.rs:243-254): the characters of k typed
      one at a time, always at the same c.  None when an `insert` would
      panic. */
  function Typed(content: string, c: nat, k: string, cur: Cursor): (r: Util.Option<(string, Cursor)>)
    ensures r.Some? ==> |r.value.0| >= |content|
    decreases |k|
  {
    if k == [] then Util.Some((content, cur))
    else
      match TypeOne(content, c, k[0])
      case None => Util.None
      case Some(t) => Typed(t.0, c, k[1..], t.1)
  }

  /** Typing the rest of k from its i-th character is typing that character
      and then the rest after it. */
  lemma TypedStep(content: string, c: nat, k: string, i: nat, cur: Cursor)
    requires i < |k| && Typed(content, c, k[i..], cur).Some?
    ensures TypeOne(content, c, k[i]).Some?
    ensures Typed(content, c, k[i..], cur)
      == Typed(TypeOne(content, c, k[i]).value.0, c, k[i + 1..], TypeOne(content, c, k[i]).value.1)
  {
    assert k[i..][0] == k[i] && k[i..][1..] == k[i + 1..];
  }

  /** Typing ASCII text at a caret puts it in back to front: every character
      goes in at the same place, in front of the ones typed before it, and
      the caret ends one past that place. */
  lemma {:induction false} TypedAscii(content: string, c: nat, k: string, cur: Cursor)
    requires c <= |content| && AllAscii(k)
    ensures Typed(content, c, k, cur)
      == Util.Some((content[..c] + Util.Reverse(k) + content[c..], if k == [] then cur else Ins(c + 1)))
    decreases |k|
  {
    if k == [] {
      assert content[..c] + Util.Reverse(k) + content[c..] == content;
    } else {
      var next := content[..c] + [k[0]] + content[c..];
      assert next[..c] == content[..c] && next[c..] == [k[0]] + content[c..];
      TypedAscii(next, c, k[1..], Ins(c + 1));
      Util.ReverseCons(k[0], k[1..]);
      assert [k[0]] + k[1..] == k;
      assert next[..c] + Util.Reverse(k[1..]) + next[c..]
        == content[..c] + Util.Reverse(k) + content[c..];
    }
  }

  /** A single ASCII character is spliced in at the caret. */
  lemma TypedOne(content: string, c: nat, ch: char, cur: Cursor)
    requires c <= |content| && IsAscii(ch)
    ensures Typed(content, c, [ch], cur) == Util.Some((Splice(content, c, c, [ch]), Ins(c + 1)))
  {
    TypedAscii(content, c, [ch], cur);
    assert Util.Reverse([ch]) == [ch];
  }

  /** Typing at a caret keeps ASCII content ASCII: other characters arrive
      escaped. */
  lemma {:induction false} TypedKeepsAscii(content: string, c: nat, k: string, cur: Cursor)
    requires AllAscii(content) && Typed(content, c, k, cur).Some?
    ensures AllAscii(Typed(content, c, k, cur).value.0)
    decreases |k|
  {
    if k != [] {
      if IsAscii(k[0]) {
        var next := content[..c] + [k[0]] + content[c..];
        forall i | 0 <= i < |next|
          ensures IsAscii(next[i])
        {
          if i < c {
            assert next[i] == content[i];
          } else if i > c {
            assert next[i] == content[i - 1];
          }
        }
        TypedKeepsAscii(next, c, k[1..], Ins(c + 1));
      } else {
        var esc := EscapeUnicode(k[0]);
        forall i | 0 <= i < |content + esc|
          ensures IsAscii((content + esc)[i])
        {
          if i >= |content| {
            assert (content + esc)[i] == esc[i - |content|];
          }
        }
        TypedKeepsAscii(content + esc, c, k[1..], Ins(c + |esc|));
      }
    }
  }

  /** Typing at a caret that fits leaves a caret that fits. */
  lemma {:induction false} TypedFits(content: string, c: nat, k: string, cur: Cursor)
    requires Typed(content, c, k, cur).Some?
    ensures Fits(|content|, cur) && c <= |content| ==>
      Fits(|Typed(content, c, k, cur).value.0|, Typed(content, c, k, cur).value.1)
    decreases |k|
  {
    if k != [] {
      if IsAscii(k[0]) {
        TypedFits(content[..c] + [k[0]] + content[c..], c, k[1..], Ins(c + 1));
      } else {
        var esc := EscapeUnicode(k[0]);
        TypedFits(content + esc, c, k[1..], Ins(c + |esc|));
      }
    }
  }

  /** The loop of char_key at a caret c (actions.rs:244-254): the characters
      of k go in one at a time. */
  method TypeAt(content: string, c: nat, k: string, cur: Cursor) returns (text: string, caret: Cursor)
    requires Typed(content, c, k, cur).Some?
    ensures Typed(content, c, k, cur) == Util.Some((text, caret))
  {
    text, caret := content, cur;
    var i := 0;
    while i < |k|
      invariant 0 <= i <= |k|
      invariant Typed(text, c, k[i..], caret) == Typed(content, c, k, cur)
    {
      TypedStep(text, c, k, i, caret);
      var t := TypeOne(text, c, k[i]).value;
      text, caret := t.0, t.1;
      i := i + 1;
    }
    assert k[i..] == [];
  }

  /** The keys for which char_key does not panic. */
  predicate CharDefined(content: string, cur: Cursor, k: string)
  {
    match cur
    case Ins(c) => Typed(content, c, k, cur).Some?
    case Sel(_, _) => Range(cur).0 <= Range(cur).1 <= |content|
  }

  /** What char_key (actions.rs:241-265) does: at a caret, type k one
      character at a time; over a selection, replace it by k and put the
      caret after it. */
  function CharStep(content: string, cur: Cursor, k: string): (r: Outcome)
    requires CharDefined(content, cur, k)
    ensures r.out == None
    ensures cur.Sel? ==>
      var (s, e) := Range(cur);
      |r.content| == |content| - (e - s) + |k|
      && r.content[..s] == content[..s] && r.content[s..s + |k|] == k
      && r.content[s + |k|..] == content[e..] && r.cursor == Ins(s + |k|)
    ensures Fits(|content|, cur) ==> Fits(|r.content|, r.cursor)
  {
    match cur
    case Ins(c) =>
      TypedFits(content, c, k, cur);
      var t := Typed(content, c, k, cur).value;
      Outcome(t.0, t.1, None)
    case Sel(_, _) =>
      var (s, e) := Range(cur);
      Outcome(Splice(content, s, e, k), Ins(s + |k|), None)
  }

  /** The text input's state (text_input.rs:8-13). */
  class TextInput {
    var focus: bool
    var content: string
    var cursor: Cursor

    /** Default: unfocused, empty, caret at 0. */
    constructor ()
      ensures !focus && content == [] && cursor == Ins(0)
    {
      focus := false;
      content := [];
      cursor := Ins(0);
    }

    /** The cursor lies within the content. */
    predicate Placed()
      reads this
    {
      Fits(|content|, cursor)
    }

    /** reset (text_input.rs:26-30). */
    method Reset()
      modifies this
      ensures !focus && content == [] && cursor == Ins(0)
      ensures Placed()
    {
      focus := false;
      content := [];
      cursor := Ins(0);
    }

    /** focus (text_input.rs:36-38). */
    method Focus()
      modifies this
      ensures focus && content == old(content) && cursor == old(cursor)
    {
      focus := true;
    }

    /** named_keys (actions.rs:43-239). */
    method NamedKeys(k: NamedKey, m: Mods) returns (out: OutMsg)
      requires NamedDefined(|content|, cursor, k, m)
      modifies this
      ensures Outcome(content, cursor, out) == NamedStep(old(content), old(cursor), k, m)
      ensures focus == old(focus)
      ensures old(Placed()) ==> Placed()
    {
      out := None;
      match cursor {
        case Ins(c) =>
          if k == Space {
            content := content[..c] + [' '] + content[c..];
            cursor := Ins(c + 1);
          } else if k == Backspace {
            if c != 0 {
              content := content[..c - 1] + content[c..];
              cursor := Ins(c - 1);
            }
          } else if k == Enter {
            return Submit;
          } else if k == Escape {
            return Cancel;
          } else {
            cursor := Moved(|content|, cursor, k, m);
          }
        case Sel(_, _) =>
          var (s, e) := Range(cursor);
          if k == Space {
            content := Splice(content, s, e, " ");
            cursor := Ins(s + 1);
          } else if k == Backspace {
            content := Splice(content, s, e, "");
            cursor := Ins(s);
          } else if k == Enter {
            return Submit;
          } else if k == Escape {
            return Cancel;
          } else {
            cursor := Moved(|content|, cursor, k, m);
          }
      }
    }

    /** char_key (actions.rs:241-265): the characters of k go in one at a
        time at a caret. */
    method CharKey(k: string) returns (out: OutMsg)
      requires CharDefined(content, cursor, k)
      modifies this
      ensures Outcome(content, cursor, out) == CharStep(old(content), old(cursor), k)
      ensures focus == old(focus)
      ensures old(Placed()) ==> Placed()
    {
      match cursor {
        case Ins(c) =>
          content, cursor := TypeAt(content, c, k, cursor);
        case Sel(_, _) =>
          var (s, e) := Range(cursor);
          content := Splice(content, s, e, k);
          cursor := Ins(s + |k|);
      }
      out := None;
    }

    /** update (text_input.rs:40-78). */
    method Update(msg: Msg) returns (out: OutMsg)
      requires msg.KeyMsg? && msg.key.Named? ==> NamedDefined(|content|, cursor, msg.key.n, msg.mods)
      requires msg.KeyMsg? && msg.key.Character? ==> CharDefined(content, cursor, msg.key.text)
      modifies this
      ensures focus == old(focus)
      ensures msg.KeyMsg? && msg.key.Named? ==>
        Outcome(content, cursor, out) == NamedStep(old(content), old(cursor), msg.key.n, msg.mods)
      ensures msg.KeyMsg? && msg.key.Character? ==>
        Outcome(content, cursor, out) == CharStep(old(content), old(cursor), msg.key.text)
      ensures !(msg.KeyMsg? && (msg.key.Named? || msg.key.Character?)) ==> content == old(content)
      ensures msg.KeyMsg? && msg.key.Unidentified? ==> out == None && cursor == old(cursor)
      ensures msg.RequestFocus? ==> out == TakeFocus && cursor == old(cursor)
      ensures msg.SelectAll? ==>
        out == None && cursor == (if |content| > 0 then Sel(0, |content|) else old(cursor))
      ensures msg.SetCursor? ==>
        out == None && cursor == (if focus then Ins(Util.MinNat(msg.to, |content|)) else old(cursor))
      ensures msg.SetSelection? ==>
        out == None && cursor == (if focus then Sel(msg.from, msg.span) else old(cursor))
      ensures old(Placed()) && !msg.SetSelection? ==> Placed()
    {
      match msg {
        case KeyMsg(key, m) =>
          match key {
            case Named(n) =>
              out := NamedKeys(n, m);
            case Character(text) =>
              out := CharKey(text);
            case Unidentified =>
              out := None;
          }
        case RequestFocus =>
          out := TakeFocus;
        case SelectAll =>
          if |content| != 0 {
            cursor := Sel(0, |content|);
          }
          out := None;
        case SetCursor(c) =>
          if focus {
            cursor := Ins(Util.MinNat(c, |content|));
          }
          out := None;
        case SetSelection(p, l) =>
          if focus {
            cursor := Sel(p, l);
          }
          out := None;
      }
    }
  }

  /** Typing "ab" into an empty input leaves "ba" with the caret after the
      first character. */
  method TypeTwo() returns (content: string, cursor: Cursor)
    ensures content == "ba" && cursor == Ins(1)
  {
    var t := new TextInput();
    TypedAscii([], 0, "ab", Ins(0));
    assert Util.Reverse("ab") == "ba";
    var out := t.CharKey("ab");
    content, cursor := t.content, t.cursor;
  }
}
