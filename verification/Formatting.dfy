/**
 Formatting edits on the wire: internal/server/handlers_langfeat.go turns the byte edits of the line
 diff into LSP text edits, and internal/overlay/position.go applies LSP content changes to a text.
 */
module Formatting {
  import opened Options
  import opened Text
  import opened Utf8
  import opened Positions
  import opened LineDiff

  /** An LSP text edit: positions instead of byte offsets. */
  datatype TextEdit = TextEdit(start: Position, end: Position, newText: seq<Byte>)

  /** `t` is `e` with its offsets, which are rune boundaries, given as positions. */
  ghost predicate OnWire(text: seq<Byte>, e: Edit, t: TextEdit) {
    IsAt(text, t.start, e.start) && IsAt(text, t.end, e.end) && t.newText == e.text
  }

  /** Offset `p` is the start of a line. */
  ghost predicate AfterNewline(text: seq<Byte>, p: int) {
    0 <= p <= |text| && (p == 0 || text[p - 1] == NEWLINE)
  }

  /** Offset `p` is the start of a line or the end of the text. */
  ghost predicate LineBoundary(text: seq<Byte>, p: int) {
    p == |text| || AfterNewline(text, p)
  }

  /** Edits on line boundaries with something kept between any two. */
  ghost predicate Spread(text: seq<Byte>, edits: seq<Edit>) {
    && (forall i | 0 <= i < |edits| :: LineBoundary(text, edits[i].start) && LineBoundary(text, edits[i].end))
    && (forall i, j | 0 <= i < j < |edits| :: edits[i].end < edits[j].start)
  }

  // ------------------------------------------------ line starts are rune boundaries

  /** Every line start, and the end of the text, is a rune boundary. */
  lemma LineStartBoundary(text: seq<Byte>, lines: seq<seq<Byte>>, offsets: seq<nat>, p: nat)
    requires IsSplitAt(text, lines, offsets) && p in offsets
    ensures Boundary(text, p)
    ensures LineBoundary(text, p)
  {
    var i :| 0 <= i < |offsets| && offsets[i] == p;
    if i == |lines| {
      assert lines[..i] == lines;
    } else if 0 < i {
      LineAt(lines, i - 1);
      LineAt(lines, i);
      assert text[p - 1] == lines[i - 1][|lines[i - 1]| - 1];
      NewlineBoundaries(text, p - 1);
    }
  }

  // --------------------------------------------------------------- to the client

  method ToTextEdit(text: seq<Byte>, e: Edit) returns (r: Option<TextEdit>)
    requires Boundary(text, e.start) && Boundary(text, e.end)
    ensures r.Some? && OnWire(text, e, r.value)
  {
    var start := UTF16PositionForByteOffset(text, e.start);
    var end := UTF16PositionForByteOffset(text, e.end);
    if start.None? || end.None? {
      return None;
    }
    return Some(TextEdit(start.value, end.value, e.text));
  }

  lemma LinesSpread(text: seq<Byte>, lines: seq<seq<Byte>>, offsets: seq<nat>, edits: seq<Edit>)
    requires IsSplitAt(text, lines, offsets) && LineEdits(edits, offsets)
    ensures Spread(text, edits)
    ensures forall i | 0 <= i < |edits| :: Boundary(text, edits[i].start) && Boundary(text, edits[i].end)
  {
    forall i | 0 <= i < |edits|
      ensures LineBoundary(text, edits[i].start) && LineBoundary(text, edits[i].end)
      ensures Boundary(text, edits[i].start) && Boundary(text, edits[i].end)
    {
      LineStartBoundary(text, lines, offsets, edits[i].start);
      LineStartBoundary(text, lines, offsets, edits[i].end);
    }
  }

  method FormattingTextEdits(text: seq<Byte>, formatted: seq<Byte>)
    returns (r: Option<seq<TextEdit>>, ghost edits: seq<Edit>, ghost how: Derivation)
    ensures Shortest(text, formatted, how) && FromScript(edits, how)
    ensures Ordered(edits, |text|) && Apply(text, edits) == formatted
    ensures Spread(text, edits)
    ensures r.Some? && |r.value| == |edits|
    ensures forall i | 0 <= i < |edits| :: OnWire(text, edits[i], r.value[i])
  {
    var byteEdits;
    byteEdits, how := Lines(text, formatted);
    edits := byteEdits;
    LinesSpread(text, how.a, how.offsets, edits);
    var out: seq<TextEdit> := [];
    for i := 0 to |byteEdits|
      invariant |out| == i && forall j | 0 <= j < i :: OnWire(text, edits[j], out[j])
    {
      var t := ToTextEdit(text, byteEdits[i]);
      if t.None? {
        return None, edits, how;
      }
      out := out + [t.value];
    }
    return Some(out), edits, how;
  }

  // -------------------------------------------------------------- content changes

  /** One entry of a didChange notification. */
  datatype Change = Whole(text: seq<Byte>) | Partial(start: Position, end: Position, text: seq<Byte>) | Unsupported

  predicate IsU32(p: Position) { 0 <= p.line < U32 && 0 <= p.character < U32 }

  /** The text after one change; nothing if the range does not name two boundaries in order. */
  ghost function Changed(text: seq<Byte>, change: Change): Option<seq<Byte>> {
    match change
    case Whole(t) => Some(t)
    case Unsupported => None
    case Partial(start, end, t) =>
      var p, q := Spot(text, start), Spot(text, end);
      if p.None? || q.None? || q.value < p.value then None
      else Some(text[..p.value] + t + text[q.value..])
  }

  /** The changes in turn, each against the text the previous one left. */
  ghost function ChangedAll(text: seq<Byte>, changes: seq<Change>): Option<seq<Byte>>
    decreases |changes|
  {
    if changes == [] then Some(text) else
      match Changed(text, changes[0])
      case None => None
      case Some(t) => ChangedAll(t, changes[1..])
  }

  method ApplyContentChanges(text: seq<Byte>, changes: seq<Change>) returns (r: Option<seq<Byte>>)
    requires forall i | 0 <= i < |changes| && changes[i].Partial? :: IsU32(changes[i].start) && IsU32(changes[i].end)
    ensures r == ChangedAll(text, changes)
  {
    var current := text;
    for i := 0 to |changes|
      invariant ChangedAll(current, changes[i..]) == ChangedAll(text, changes)
    {
      assert changes[i..][1..] == changes[i + 1..];
      match changes[i] {
        case Whole(t) =>
          current := t;
        case Partial(startPos, endPos, t) =>
          var start := ByteOffsetForUTF16Position(current, startPos);
          if start.None? {
            return None;
          }
          var end := ByteOffsetForUTF16Position(current, endPos);
          if end.None? || end.value < start.value {
            return None;
          }
          current := current[..start.value] + t + current[end.value..];
        case Unsupported =>
          return None;
      }
    }
    return Some(current);
  }

  // -------------------------------------------------------------- the round trip

  /** A newline shields what precedes it: decoding does not depend on what follows. */
  lemma DecodeShared(t1: seq<Byte>, t2: seq<Byte>, i: nat, p: nat)
    requires i < p <= |t1| && p <= |t2| && t1[..p] == t2[..p] && t1[p - 1] == NEWLINE
    ensures DecodeRune(t1, i) == DecodeRune(t2, i)
  {
    assert forall j | 0 <= j < p :: t1[j] == t1[..p][j] == t2[j];
  }

  lemma {:induction false} ScanShared(t1: seq<Byte>, t2: seq<Byte>, c: Cursor, p: nat)
    requires c.pos <= p < |t1| && p < |t2| && t1[..p + 1] == t2[..p + 1] && t1[p] == NEWLINE
    ensures Scan(t1, c, p) == Scan(t2, c, p)
    decreases p - c.pos
  {
    if c.pos < p {
      DecodeShared(t1, t2, c.pos, p + 1);
      NextStopsAtNewline(t1, c, p);
      ScanShared(t1, t2, Next(t1, c), p);
    }
  }

  /** A line start is at the same cursor in any text with the same bytes before it. */
  lemma CursorShared(t1: seq<Byte>, t2: seq<Byte>, p: nat)
    requires p <= |t1| && p <= |t2| && t1[..p] == t2[..p] && AfterNewline(t1, p)
    ensures At(t2, p) == At(t1, p) && (p > 0 ==> At(t1, p).col == 0)
  {
    if p > 0 {
      assert t2[p - 1] == t2[..p][p - 1] == t1[..p][p - 1] == NEWLINE;
      ScanShared(t1, t2, ORIGIN, p - 1);
      NewlineBoundaries(t1, p - 1);
      NewlineBoundaries(t2, p - 1);
    }
  }

  /** No position of the text wraps at a line start or at its end: fewer than 2^32 lines, the last of fewer units. */
  ghost predicate Addressable(text: seq<Byte>) {
    At(text, |text|).line < U32 && At(text, |text|).col < U32
  }

  /** Every text shorter than 2^32 bytes is addressable. */
  lemma ShortIsAddressable(text: seq<Byte>)
    requires |text| < U32
    ensures Addressable(text)
  {
    NoWrap(text, |text|);
  }

  lemma LineBoundaryFits(text: seq<Byte>, p: nat)
    requires Addressable(text) && p <= |text| && LineBoundary(text, p) && Boundary(text, p)
    ensures At(text, p).line < U32 && At(text, p).col < U32
  {
    if p < |text| {
      ScanResumes(text, ORIGIN, p, |text|);
      ScanForward(text, At(text, p), |text|);
      CursorShared(text, text, p);
    }
  }

  /** A position of a line start keeps its meaning in any text, however long, with the same bytes before it. */
  lemma PositionShared(t1: seq<Byte>, t2: seq<Byte>, pos: Position, p: nat)
    requires Addressable(t1) && p <= |t1| && p <= |t2| && t1[..p] == t2[..p] && LineBoundary(t1, p)
    requires AfterNewline(t1, p) || t1 == t2
    requires IsAt(t1, pos, p)
    ensures Spot(t2, pos) == Some(p)
  {
    LineBoundaryFits(t1, p);
    if t1 != t2 {
      CursorShared(t1, t2, p);
    }
    OnlySpot(t2, pos, p);
  }

  /** A boundary whose position does not wrap is where the search for that position ends. */
  lemma OnlySpot(text: seq<Byte>, pos: Position, p: nat)
    requires Boundary(text, p) && At(text, p).line == pos.line && At(text, p).col == pos.character < U32
    ensures Spot(text, pos) == Some(p)
  {
    assert IsSpot(text, pos, p);
    var q := Spot(text, pos).value;
    if q < p {
      BoundariesForward(text, q, p);
    }
  }

  /** The text edits as content changes, last one first, as a client that edits in place makes them. */
  function BottomUp(wire: seq<TextEdit>): seq<Change> {
    if wire == [] then [] else
      var e := wire[|wire| - 1];
      [Partial(e.start, e.end, e.newText)] + BottomUp(wire[..|wire| - 1])
  }

  lemma {:induction false} BottomUpU32(text: seq<Byte>, edits: seq<Edit>, wire: seq<TextEdit>)
    requires |wire| == |edits| && forall i | 0 <= i < |edits| :: OnWire(text, edits[i], wire[i])
    ensures forall i | 0 <= i < |BottomUp(wire)| ::
              var c := BottomUp(wire)[i]; c.Partial? && IsU32(c.start) && IsU32(c.end)
    decreases |wire|
  {
    if wire != [] {
      BottomUpU32(text, edits[..|wire| - 1], wire[..|wire| - 1]);
    }
  }

  /** A text edit, made on a text that agrees with the original up to `next`, replaces its own bytes. */
  lemma MakesEdit(text: seq<Byte>, e: Edit, t: TextEdit, current: seq<Byte>, next: nat)
    requires OnWire(text, e, t) && LineBoundary(text, e.start) && LineBoundary(text, e.end)
    requires e.start <= e.end <= next <= |text| && (e.end == next ==> current == text)
    requires next <= |current| && Addressable(text) && current[..next] == text[..next]
    ensures Changed(current, Partial(t.start, t.end, t.newText)) == Some(Replaced(current, e))
    ensures current[..e.start] == text[..e.start] && Replaced(current, e)[..e.start] == text[..e.start]
  {
    assert text[..e.start] == text[..next][..e.start] && text[..e.end] == text[..next][..e.end];
    assert current[..e.start] == current[..next][..e.start] && current[..e.end] == current[..next][..e.end];
    PositionShared(text, current, t.start, e.start);
    PositionShared(text, current, t.end, e.end);
  }

  ghost function Replaced(current: seq<Byte>, e: Edit): seq<Byte>
    requires e.start <= e.end <= |current|
  {
    current[..e.start] + e.text + current[e.end..]
  }

  lemma ReplacedFrom(text: seq<Byte>, current: seq<Byte>, e: Edit, c: nat)
    requires c <= e.start <= e.end <= |current| && e.start <= |text| && current[..e.start] == text[..e.start]
    ensures Replaced(current, e)[c..] == text[c..e.start] + e.text + current[e.end..]
  {
    assert Replaced(current, e)[c..] == current[..e.start][c..] + e.text + current[e.end..];
  }

  /** Making the last edit leaves the final result as it was. */
  lemma SameTarget(text: seq<Byte>, init: seq<Edit>, e: Edit, current: seq<Byte>)
    requires Ordered(init, |text|) && Covered(init) <= e.start <= e.end <= |text| && e.end <= |current|
    requires current[..e.start] == text[..e.start]
    ensures Ordered(init + [e], |text|)
    ensures Applied(text, init) + Replaced(current, e)[Covered(init)..] == Applied(text, init + [e]) + current[e.end..]
  {
    AppliedPush(text, init, e);
    ReplacedFrom(text, current, e, Covered(init));
    Regroup(Applied(text, init), text[Covered(init)..e.start], e.text, current[e.end..]);
  }

  lemma Regroup(a: seq<Byte>, b: seq<Byte>, c: seq<Byte>, d: seq<Byte>)
    ensures a + (b + c + d) == a + b + c + d
  {
  }

  lemma ChangedFirst(text: seq<Byte>, first: Change, rest: seq<Change>)
    requires Changed(text, first).Some?
    ensures ChangedAll(text, [first] + rest) == ChangedAll(Changed(text, first).value, rest)
  {
    assert ([first] + rest)[1..] == rest;
  }

  /** The edits still to make lead from `current`, which agrees with the original up to `next`, to `target`. */
  ghost predicate Ready(text: seq<Byte>, edits: seq<Edit>, current: seq<Byte>, next: nat, target: seq<Byte>) {
    && Ordered(edits, |text|) && Spread(text, edits) && Covered(edits) <= next <= |text|
    && (edits != [] && Covered(edits) == next ==> current == text)
    && next <= |current| && current[..next] == text[..next]
    && Applied(text, edits) + current[Covered(edits)..] == target && Addressable(text)
  }

  lemma NothingLeft(text: seq<Byte>, current: seq<Byte>, next: nat, target: seq<Byte>)
    requires Ready(text, [], current, next, target)
    ensures current == target
  {
    assert current[0..] == current;
    assert Applied(text, []) == [];
  }

  lemma MakesLast(text: seq<Byte>, init: seq<Edit>, e: Edit, t: TextEdit, current: seq<Byte>, next: nat,
                  target: seq<Byte>)
    requires Ready(text, init + [e], current, next, target) && OnWire(text, e, t)
    ensures Changed(current, Partial(t.start, t.end, t.newText)) == Some(Replaced(current, e))
    ensures Ready(text, init, Replaced(current, e), e.start, target)
  {
    var edits := init + [e];
    assert edits[|init|] == e;
    assert forall i | 0 <= i < |init| :: init[i] == edits[i];
    MakesEdit(text, e, t, current, next);
    SameTarget(text, init, e, current);
  }

  /** Making text edits bottom-up yields the target. */
  lemma {:induction false} BottomUpApplies(
    text: seq<Byte>, edits: seq<Edit>, wire: seq<TextEdit>, current: seq<Byte>, next: nat, target: seq<Byte>)
    requires Ready(text, edits, current, next, target)
    requires |wire| == |edits| && forall i | 0 <= i < |edits| :: OnWire(text, edits[i], wire[i])
    ensures ChangedAll(current, BottomUp(wire)) == Some(target)
    decreases |edits|
  {
    if edits == [] {
      NothingLeft(text, current, next, target);
    } else {
      var n := |edits| - 1;
      var init, e, t := edits[..n], edits[n], wire[n];
      assert edits == init + [e];
      MakesLast(text, init, e, t, current, next, target);
      BottomUpApplies(text, init, wire[..n], Replaced(current, e), e.start, target);
      ChangedFirst(current, Partial(t.start, t.end, t.newText), BottomUp(wire[..n]));
    }
  }

  /** A client that makes the formatting edits in place ends with exactly the formatted text. */
  method FormatInPlace(text: seq<Byte>, formatted: seq<Byte>) returns (r: Option<seq<Byte>>)
    requires Addressable(text)
    ensures r == Some(formatted)
  {
    var wire, edits, _ := FormattingTextEdits(text, formatted);
    BottomUpU32(text, edits, wire.value);
    BottomUpApplies(text, edits, wire.value, text, |text|, formatted);
    r := ApplyContentChanges(text, BottomUp(wire.value));
  }
}
