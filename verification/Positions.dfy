/**
 LSP positions of internal/overlay/position.go: zero-based lines and UTF-16 columns, held in 32-bit
 unsigned integers that wrap around.
 */
module Positions {
  import opened Options
  import opened Text
  import opened Utf8

  const U32 := 0x1_0000_0000

  /** An LSP position; both fields are uint32. */
  datatype Position = Pos(line: int, character: int)

  /** Addition of uint32 values. */
  function Add32(x: int, y: int): int { (x + y) % U32 }

  lemma Add32Wraps(x: nat, y: nat)
    ensures Add32(x % U32, y) == (x + y) % U32
  {
  }

  // ---------------------------------------------------------------- specification

  /** A point of a left-to-right scan of a text, with unbounded counters. */
  datatype Cursor = Cursor(pos: nat, line: nat, col: nat)

  const ORIGIN := Cursor(0, 0, 0)

  /** Move past one rune. */
  ghost function Next(text: seq<Byte>, c: Cursor): (n: Cursor)
    requires c.pos < |text|
    ensures c.pos < n.pos <= |text|
  {
    var r := DecodeRune(text, c.pos);
    if r.code == NEWLINE then Cursor(c.pos + r.size, c.line + 1, 0)
    else Cursor(c.pos + r.size, c.line, c.col + Utf16Units(r.code))
  }

  /** Move past runes until the given offset is reached or passed. */
  ghost function Scan(text: seq<Byte>, c: Cursor, offset: int): (r: Cursor)
    requires c.pos <= |text| && offset <= |text|
    ensures c.pos <= r.pos <= |text| && offset <= r.pos
    decreases offset - c.pos
  {
    if offset <= c.pos then c else Scan(text, Next(text, c), offset)
  }

  /** The scan from the start of the text to an offset. */
  ghost function At(text: seq<Byte>, offset: int): Cursor
    requires offset <= |text|
  {
    Scan(text, ORIGIN, offset)
  }

  /** No rune of the text spans the offset. */
  ghost predicate Boundary(text: seq<Byte>, offset: int) {
    0 <= offset <= |text| && At(text, offset).pos == offset
  }

  /** The position at which a cursor stands, as 32-bit counters record it. */
  ghost function Wrapped(c: Cursor): Position {
    Pos(c.line % U32, c.col % U32)
  }

  /** The order of positions in a document. */
  predicate Precedes(l1: int, c1: int, l2: int, c2: int) {
    l1 < l2 || (l1 == l2 && c1 < c2)
  }

  /** Offset `q` is a rune boundary, and `pos` is its position. */
  ghost predicate IsAt(text: seq<Byte>, pos: Position, q: int) {
    Boundary(text, q) && Wrapped(At(text, q)) == pos
  }

  /** The rune boundary at a position, if there is one. */
  ghost function Located(text: seq<Byte>, pos: Position): (r: Option<nat>)
    ensures r.Some? ==> IsAt(text, pos, r.value)
    ensures r.None? ==> forall q :: !IsAt(text, pos, q)
  {
    if exists q :: IsAt(text, pos, q) then
      var q :| IsAt(text, pos, q);
      Some(q)
    else None
  }

  lemma {:induction false} ScanResumes(text: seq<Byte>, c: Cursor, o1: int, o2: int)
    requires c.pos <= |text| && o1 <= o2 <= |text|
    ensures Scan(text, Scan(text, c, o1), o2) == Scan(text, c, o2)
    decreases o1 - c.pos
  {
    if c.pos < o1 {
      ScanResumes(text, Next(text, c), o1, o2);
    }
  }

  /** One more rune from a cursor of the scan is again a cursor of the scan. */
  lemma NextOnScan(text: seq<Byte>, c: Cursor)
    requires c.pos < |text| && c == At(text, c.pos)
    ensures Next(text, c) == At(text, Next(text, c).pos)
  {
    ScanResumes(text, ORIGIN, c.pos, Next(text, c).pos);
  }

  /** A scan moves forward in document order, and its counters are bounded by the bytes it passes. */
  lemma {:induction false} ScanForward(text: seq<Byte>, c: Cursor, offset: int)
    requires c.pos <= |text| && offset <= |text|
    ensures
      var r := Scan(text, c, offset);
      && (r == c || Precedes(c.line, c.col, r.line, r.col))
      && r.line + r.col <= c.line + c.col + (r.pos - c.pos)
    decreases offset - c.pos
  {
    if c.pos < offset {
      ScanForward(text, Next(text, c), offset);
    }
  }

  /** Counters never exceed the offset, so they do not wrap in a text shorter than 2^32 bytes. */
  lemma NoWrap(text: seq<Byte>, offset: int)
    requires offset <= |text|
    ensures At(text, offset).line + At(text, offset).col <= At(text, offset).pos
    ensures |text| < U32 ==> Wrapped(At(text, offset)) == Pos(At(text, offset).line, At(text, offset).col)
  {
    ScanForward(text, ORIGIN, offset);
  }

  /** Rune boundaries and the positions that have one are in bijection: a boundary is found again from its position. */
  lemma LocatedAt(text: seq<Byte>, pos: Position, p: int)
    requires |text| < U32 && IsAt(text, pos, p)
    ensures Located(text, pos) == Some(p)
  {
    var q := Located(text, pos).value;
    NoWrap(text, p);
    NoWrap(text, q);
    if p <= q {
      ScanResumes(text, ORIGIN, p, q);
      ScanForward(text, At(text, p), q);
    } else {
      ScanResumes(text, ORIGIN, q, p);
      ScanForward(text, At(text, q), p);
    }
  }

  // ------------------------------------------------------- newlines and boundaries

  /** No rune spans a newline, even in invalid UTF-8: the rune before one ends no later than it starts. */
  lemma NextStopsAtNewline(text: seq<Byte>, c: Cursor, p: int)
    requires c.pos < p < |text| && text[p] == NEWLINE
    ensures Next(text, c).pos <= p
  {
    var r := DecodeRune(text, c.pos);
    forall j | c.pos < j < c.pos + r.size ensures text[j] != NEWLINE {
      assert 0x80 <= text[j];
    }
  }

  /** A scan that starts before a newline stops at it. */
  lemma {:induction false} ScanStopsAtNewline(text: seq<Byte>, c: Cursor, p: int)
    requires c.pos <= p < |text| && text[p] == NEWLINE
    ensures Scan(text, c, p).pos == p
    decreases p - c.pos
  {
    if c.pos < p {
      NextStopsAtNewline(text, c, p);
      ScanStopsAtNewline(text, Next(text, c), p);
    }
  }

  /** Both sides of a newline are rune boundaries. */
  lemma NewlineBoundaries(text: seq<Byte>, p: int)
    requires 0 <= p < |text| && text[p] == NEWLINE
    ensures Boundary(text, p) && Boundary(text, p + 1)
    ensures At(text, p + 1) == Cursor(p + 1, At(text, p).line + 1, 0)
  {
    ScanStopsAtNewline(text, ORIGIN, p);
    NextOnScan(text, At(text, p));
  }

  // -------------------------------------------------------------- the conversions

  /** The first pass of UTF16PositionForByteOffset: count lines, and remember where the last one starts. */
  method FindLine(text: seq<Byte>, offset: nat) returns (line: int, lineStart: nat, ghost start: Cursor)
    requires offset <= |text|
    ensures line == At(text, offset).line % U32
    ensures start == Cursor(lineStart, At(text, offset).line, 0) && lineStart <= offset
    ensures Scan(text, start, offset) == At(text, offset)
  {
    line, lineStart, start := 0, 0, ORIGIN;
    var i := 0;
    ghost var c := ORIGIN;
    while i < offset
      invariant c.pos == i <= |text| && c.line % U32 == line
      invariant start == Cursor(lineStart, c.line, 0) && lineStart <= offset
      invariant Scan(text, c, offset) == At(text, offset) == Scan(text, start, offset)
    {
      var r := DecodeRune(text, i);
      c := Next(text, c);
      i := i + r.size;
      if r.code == NEWLINE {
        line := Add32(line, 1);
        lineStart := i;
        start := c;
      }
    }
  }

  /** Its second pass: add up the UTF-16 units of the line. */
  method FindColumn(text: seq<Byte>, lineStart: nat, offset: nat, ghost start: Cursor) returns (col: int)
    requires start.pos == lineStart <= |text| && offset <= |text| && start.col == 0
    requires Scan(text, start, offset).line == start.line
    ensures col == Scan(text, start, offset).col % U32
  {
    col := 0;
    var i := lineStart;
    ghost var c := start;
    while i < offset
      invariant c.pos == i <= |text| && c.col % U32 == col && c.line == start.line
      invariant Scan(text, c, offset) == Scan(text, start, offset)
    {
      var r := DecodeRune(text, i);
      ScanForward(text, Next(text, c), offset);
      Add32Wraps(c.col, Utf16Units(r.code));
      c := Next(text, c);
      col := Add32(col, Utf16Units(r.code));
      i := i + r.size;
    }
  }

  /** A byte offset's position; an offset inside a rune counts as the end of that rune. */
  method UTF16PositionForByteOffset(text: seq<Byte>, offset: int) returns (r: Option<Position>)
    ensures r.None? <==> offset < 0 || |text| < offset
    ensures r.Some? ==> r.value == Wrapped(At(text, offset))
  {
    if offset < 0 || |text| < offset {
      return None;
    }
    var line, lineStart, start := FindLine(text, offset);
    var col := FindColumn(text, lineStart, offset, start);
    return Some(Pos(line, col));
  }

  /** The resumable converter: the same answers, without rescanning from the start each time. */
  class UTF16PositionConverter {
    const text: seq<Byte>
    var pos: nat
    var line: int
    var col: int

    /** The fields record the scan of the text up to `pos`. */
    ghost predicate Valid()
      reads this
    {
      && pos <= |text| && At(text, pos).pos == pos
      && line == At(text, pos).line % U32 && col == At(text, pos).col % U32
    }

    constructor (text: seq<Byte>)
      ensures Valid() && this.text == text
    {
      this.text := text;
      pos, line, col := 0, 0, 0;
    }

    /** The body of the scanning loop: move past one rune. */
    method Advance()
      requires Valid() && pos < |text|
      modifies this
      ensures Valid() && pos == Next(text, At(text, old(pos))).pos
      ensures At(text, pos) == Next(text, At(text, old(pos)))
    {
      NextOnScan(text, At(text, pos));
      var d := DecodeRune(text, pos);
      pos := pos + d.size;
      if d.code == NEWLINE {
        line := Add32(line, 1);
        col := 0;
      } else {
        col := Add32(col, Utf16Units(d.code));
      }
    }

    /** In any order of calls, exactly the answer of UTF16PositionForByteOffset. */
    method Position(offset: int) returns (r: Option<Position>)
      requires Valid()
      modifies this
      ensures Valid()
      ensures r.None? <==> offset < 0 || |text| < offset
      ensures r.None? ==> pos == old(pos)
      ensures r.Some? ==> r.value == Wrapped(At(text, offset)) && pos == At(text, offset).pos
    {
      if offset < 0 || |text| < offset {
        return None;
      }
      if offset < pos {
        pos, line, col := 0, 0, 0;
      }
      ScanResumes(text, ORIGIN, pos, offset);
      while pos < offset
        invariant Valid() && Scan(text, At(text, pos), offset) == At(text, offset)
      {
        Advance();
      }
      return Some(Pos(line, col));
    }
  }

  // ------------------------------------------------------ from positions to offsets

  /**
   Offset `q` is a boundary that the search for `pos` accepts. Lines are counted up to a 32-bit number, so they
   never wrap; the column wraps only when a surrogate pair steps over the largest one.
   */
  ghost predicate IsSpot(text: seq<Byte>, pos: Position, q: int) {
    && Boundary(text, q) && At(text, q).line == pos.line
    && (At(text, q).col == pos.character || (pos.character == U32 - 1 && At(text, q).col % U32 == pos.character))
  }

  /** `r` is the first spot of a position, if there is one. */
  ghost predicate FirstSpot(text: seq<Byte>, pos: Position, r: Option<nat>) {
    && (r.Some? ==> IsSpot(text, pos, r.value) && forall q | q < r.value :: !IsSpot(text, pos, q))
    && (r.None? ==> forall q :: !IsSpot(text, pos, q))
  }

  /** Nothing before offset `i` is a spot. */
  ghost predicate NoSpotYet(text: seq<Byte>, pos: Position, i: nat) {
    forall q | q < i :: !IsSpot(text, pos, q)
  }

  ghost function SpotFrom(text: seq<Byte>, pos: Position, i: nat): (r: Option<nat>)
    requires i <= |text| + 1 && NoSpotYet(text, pos, i)
    ensures FirstSpot(text, pos, r)
    decreases |text| + 1 - i
  {
    if i == |text| + 1 then None
    else if IsSpot(text, pos, i) then Some(i)
    else SpotFrom(text, pos, i + 1)
  }

  /** Where the search for a position ends, in a text of any length. */
  ghost function Spot(text: seq<Byte>, pos: Position): (r: Option<nat>)
    ensures FirstSpot(text, pos, r)
    ensures r.Some? ==> r.value <= |text|
  {
    SpotFrom(text, pos, 0)
  }

  /** Between two neighbouring cursors there is no boundary. */
  lemma NoBoundaryInside(text: seq<Byte>, i: nat, q: int)
    requires i < |text| && At(text, i).pos == i && i < q < Next(text, At(text, i)).pos
    ensures !Boundary(text, q)
  {
    ScanResumes(text, ORIGIN, i, q);
  }

  /** Boundaries are in document order. */
  lemma BoundariesForward(text: seq<Byte>, p: int, q: int)
    requires Boundary(text, p) && Boundary(text, q) && p < q
    ensures Precedes(At(text, p).line, At(text, p).col, At(text, q).line, At(text, q).col)
  {
    ScanResumes(text, ORIGIN, p, q);
    ScanForward(text, At(text, p), q);
  }

  /** In a text shorter than 2^32 bytes the first spot is the one boundary at the position. */
  lemma SpotIsLocated(text: seq<Byte>, pos: Position)
    requires |text| < U32 && 0 <= pos.line < U32 && 0 <= pos.character < U32
    ensures Spot(text, pos) == Located(text, pos)
  {
    forall q ensures IsSpot(text, pos, q) <==> IsAt(text, pos, q) {
      if Boundary(text, q) {
        NoWrap(text, q);
      }
    }
    if Spot(text, pos).Some? {
      LocatedAt(text, pos, Spot(text, pos).value);
    }
  }

  /** No boundary before the start of its line is a spot. */
  lemma NoSpotBefore(text: seq<Byte>, pos: Position, lineStart: nat, q: int)
    requires lineStart <= |text| && At(text, lineStart).pos == lineStart && At(text, lineStart).line == pos.line
    requires At(text, lineStart).col == 0 && q < lineStart
    ensures !IsSpot(text, pos, q)
  {
    if Boundary(text, q) {
      BoundariesForward(text, q, lineStart);
    }
  }

  /** Past the last cursor that may be a spot there is none. */
  lemma NoSpotFrom(text: seq<Byte>, pos: Position, c: Cursor, q: int)
    requires c.pos <= q && c.pos <= |text| && c == At(text, c.pos)
    requires pos.line < c.line || (c.line == pos.line && pos.character < U32 - 1 && pos.character < c.col)
    ensures !IsSpot(text, pos, q)
  {
    if Boundary(text, q) && c.pos < q {
      BoundariesForward(text, c.pos, q);
    }
  }

  /** The offset of a position, or nothing if the position is past its line or the text, or inside a surrogate pair. */
  method ByteOffsetForUTF16Position(text: seq<Byte>, pos: Position) returns (r: Option<nat>)
    requires 0 <= pos.line < U32 && 0 <= pos.character < U32
    ensures r == Spot(text, pos)
    ensures |text| < U32 ==> r == Located(text, pos)
  {
    var i := 0;
    var line := 0;
    while line < pos.line
      invariant i <= |text| && At(text, i) == Cursor(i, line, At(text, i).col) && line <= pos.line
      invariant line == pos.line ==> At(text, i).col == 0
      decreases |text| - i
    {
      if |text| <= i {
        PastTheText(text, pos);
        return None;
      }
      NextOnScan(text, At(text, i));
      var d := DecodeRune(text, i);
      i := i + d.size;
      if d.code == NEWLINE {
        line := line + 1;
      }
    }
    r := FindCharacter(text, pos, i);
    if |text| < U32 {
      SpotIsLocated(text, pos);
    }
  }

  lemma PastTheText(text: seq<Byte>, pos: Position)
    requires Boundary(text, |text|) && At(text, |text|).line < pos.line
    requires 0 <= pos.line < U32 && 0 <= pos.character < U32
    ensures Spot(text, pos) == None && (|text| < U32 ==> Located(text, pos) == None)
  {
    forall q ensures !IsSpot(text, pos, q) {
      if Boundary(text, q) && q < |text| {
        BoundariesForward(text, q, |text|);
      }
    }
    if |text| < U32 {
      SpotIsLocated(text, pos);
    }
  }

  lemma NoSpotStep(text: seq<Byte>, pos: Position, i: nat)
    requires i < |text| && At(text, i).pos == i && NoSpotYet(text, pos, i) && !IsSpot(text, pos, i)
    ensures NoSpotYet(text, pos, Next(text, At(text, i)).pos)
  {
    forall q | q < Next(text, At(text, i)).pos ensures !IsSpot(text, pos, q) {
      if i < q {
        NoBoundaryInside(text, i, q);
      }
    }
  }

  /** The search is over when the next cursor is past every spot. */
  lemma NoSpotAtAll(text: seq<Byte>, pos: Position, c: Cursor)
    requires c.pos <= |text| && c == At(text, c.pos) && NoSpotYet(text, pos, c.pos)
    requires pos.line < c.line || (c.line == pos.line && pos.character < U32 - 1 && pos.character < c.col)
    ensures FirstSpot(text, pos, None)
  {
    forall q ensures !IsSpot(text, pos, q) {
      if c.pos <= q {
        NoSpotFrom(text, pos, c, q);
      }
    }
  }

  /** The column counter, and where it stands relative to the column looked for. */
  ghost predicate Counting(text: seq<Byte>, pos: Position, i: nat, col: int) {
    && i <= |text| && At(text, i).pos == i && At(text, i).line == pos.line && NoSpotYet(text, pos, i)
    && col == At(text, i).col % U32
    && (pos.character < U32 - 1 ==> col == At(text, i).col <= pos.character)
  }

  /** Its second loop: from the start of the line to the column. */
  method FindCharacter(text: seq<Byte>, pos: Position, lineStart: nat) returns (r: Option<nat>)
    requires 0 <= pos.line < U32 && 0 <= pos.character < U32
    requires lineStart <= |text| && At(text, lineStart) == Cursor(lineStart, pos.line, 0)
    ensures FirstSpot(text, pos, r)
  {
    var i := lineStart;
    var col := 0;
    forall q | q < lineStart ensures !IsSpot(text, pos, q) {
      NoSpotBefore(text, pos, lineStart, q);
    }
    while i < |text|
      invariant Counting(text, pos, i, col)
      decreases |text| - i
    {
      var d := DecodeRune(text, i);
      if d.code == NEWLINE {
        break;
      }
      if col == pos.character {
        return Some(i);
      }
      NextOnScan(text, At(text, i));
      NoSpotStep(text, pos, i);
      Add32Wraps(At(text, i).col, Utf16Units(d.code));
      col := Add32(col, Utf16Units(d.code));
      if pos.character < col {
        NoSpotAtAll(text, pos, Next(text, At(text, i)));
        return None;
      }
      i := i + d.size;
    }
    if col == pos.character {
      return Some(i);
    }
    LineEnds(text, pos, i);
    return None;
  }

  /** At the end of the line or of the text, a spot can only be here. */
  lemma LineEnds(text: seq<Byte>, pos: Position, i: nat)
    requires i <= |text| && At(text, i).pos == i && At(text, i).line == pos.line
    requires i < |text| ==> text[i] == NEWLINE
    requires NoSpotYet(text, pos, i) && !IsSpot(text, pos, i)
    ensures FirstSpot(text, pos, None)
  {
    if i < |text| {
      NextOnScan(text, At(text, i));
      NoSpotStep(text, pos, i);
      NoSpotAtAll(text, pos, Next(text, At(text, i)));
    }
  }
}
