/**
 The semantic-token wire format of internal/langfeat/semantic.go: five unsigned 32-bit integers per
 token, each position relative to the previous token (LSP 3.17, "Integer Encoding for Tokens").
 */
module SemanticTokens {
  import opened Text
  import opened Utf8
  import opened Positions

  type UInt32 = x: int | 0 <= x < U32

  datatype Token = Token(start: nat, end: nat, kind: UInt32, modifiers: UInt32)

  /** A token as a client sees it: absolute line, UTF-16 column and UTF-16 length. */
  datatype Decoded = Decoded(line: int, col: int, length: int, kind: int, modifiers: int)

  // ----------------------------------------------------------------- specification

  /** The client's reading of the stream. */
  ghost function Decode(data: seq<int>): seq<Decoded> {
    if |data| < 5 then [] else
      var n := |data| - 5;
      var before := Decode(data[..n]);
      before + [Relative(LastOf(before), data[n], data[n + 1], data[n + 2], data[n + 3], data[n + 4])]
  }

  /** The token a position is relative to: the last one, or the start of the document. */
  ghost function LastOf(tokens: seq<Decoded>): Decoded {
    if tokens == [] then Decoded(0, 0, 0, 0, 0) else tokens[|tokens| - 1]
  }

  /** One group of five numbers, read relative to the previous token. */
  ghost function Relative(prev: Decoded, deltaLine: int, deltaStart: int, length: int, kind: int, mods: int): Decoded {
    Decoded(prev.line + deltaLine, if deltaLine == 0 then prev.col + deltaStart else deltaStart, length, kind, mods)
  }

  /** A token on rune boundaries of one line. */
  ghost predicate OnOneLine(text: seq<Byte>, t: Token) {
    && t.start <= t.end <= |text| && Boundary(text, t.start) && Boundary(text, t.end)
    && At(text, t.start).line == At(text, t.end).line
  }

  /** What Encode asks of its input: tokens of one line each, in order and disjoint. */
  ghost predicate Encodable(text: seq<Byte>, tokens: seq<Token>) {
    && (forall i | 0 <= i < |tokens| :: OnOneLine(text, tokens[i]))
    && (forall i, j | 0 <= i < j < |tokens| :: tokens[i].end <= tokens[j].start)
  }

  /** Where a token really is. */
  ghost function Absolute(text: seq<Byte>, t: Token): Decoded
    requires OnOneLine(text, t)
  {
    var s, e := At(text, t.start), At(text, t.end);
    Decoded(s.line, s.col, e.col - s.col, t.kind, t.modifiers)
  }

  /** Where the first `n` tokens really are. */
  ghost function AbsoluteAll(text: seq<Byte>, tokens: seq<Token>, n: nat): (r: seq<Decoded>)
    requires Encodable(text, tokens) && n <= |tokens|
    ensures |r| == n && (0 < n ==> r[n - 1] == Absolute(text, tokens[n - 1]))
  {
    if n == 0 then [] else AbsoluteAll(text, tokens, n - 1) + [Absolute(text, tokens[n - 1])]
  }

  // -------------------------------------------------------------------- the encoder

  /** Walk forward to a target offset, counting lines and UTF-16 columns. */
  method AdvanceTo(text: seq<Byte>, pos0: nat, line0: int, col0: int, target: nat, ghost c0: Cursor)
    returns (line: int, col: int, pos: nat)
    requires pos0 <= |text| && target <= |text|
    requires c0.pos == pos0 && line0 == c0.line % U32 && col0 == c0.col % U32
    ensures var c := Scan(text, c0, target); pos == c.pos && line == c.line % U32 && col == c.col % U32
  {
    line, col, pos := line0, col0, pos0;
    ghost var c := c0;
    while pos < target
      invariant c.pos == pos <= |text| && line == c.line % U32 && col == c.col % U32
      invariant Scan(text, c, target) == Scan(text, c0, target)
    {
      var r := DecodeRune(text, pos);
      Add32Wraps(c.line, 1);
      Add32Wraps(c.col, Utf16Units(r.code));
      c := Next(text, c);
      pos := pos + r.size;
      if r.code == NEWLINE {
        line := Add32(line, 1);
        col := 0;
      } else {
        col := Add32(col, Utf16Units(r.code));
      }
    }
  }

  /** The UTF-16 length of a range without a newline. */
  method Utf16Length(text: seq<Byte>, start: nat, end: nat, ghost c0: Cursor) returns (n: int)
    requires start <= end <= |text| && c0.pos == start
    requires Scan(text, c0, end).line == c0.line
    ensures c0.col <= Scan(text, c0, end).col && n == (Scan(text, c0, end).col - c0.col) % U32
  {
    n := 0;
    var i := start;
    ghost var c := c0;
    while i < end
      invariant c.pos == i <= |text| && c.line == c0.line && c0.col <= c.col && n == (c.col - c0.col) % U32
      invariant Scan(text, c, end) == Scan(text, c0, end)
    {
      var r := DecodeRune(text, i);
      ScanForward(text, Next(text, c), end);
      Add32Wraps(c.col - c0.col, Utf16Units(r.code));
      c := Next(text, c);
      n := Add32(n, Utf16Units(r.code));
      i := i + r.size;
    }
  }

  /** Appending a token's five numbers appends that token to the decoded stream. */
  lemma DecodePush(data: seq<int>, deltaLine: int, deltaStart: int, length: int, kind: int, mods: int)
    requires |data| % 5 == 0
    ensures Decode(data + [deltaLine, deltaStart, length, kind, mods])
         == Decode(data) + [Relative(LastOf(Decode(data)), deltaLine, deltaStart, length, kind, mods)]
  {
    assert (data + [deltaLine, deltaStart, length, kind, mods])[..|data|] == data;
  }

  /** Where the previous token started, as the stream records it. */
  ghost function Previous(text: seq<Byte>, tokens: seq<Token>, i: nat): Cursor
    requires Encodable(text, tokens) && i <= |tokens|
  {
    if i == 0 then ORIGIN else At(text, tokens[i - 1].start)
  }

  /** Up to where the text has been walked before token `i`. */
  ghost function Walked(tokens: seq<Token>, i: nat): nat
    requires i <= |tokens|
  {
    if i == 0 then 0 else tokens[i - 1].end
  }

  /** Facts about token `i`: it starts no earlier than the previous one, and nothing wraps. */
  lemma TokenFacts(text: seq<Byte>, tokens: seq<Token>, i: nat)
    requires |text| < U32 && Encodable(text, tokens) && i < |tokens|
    ensures
      var t, p, w := tokens[i], Previous(text, tokens, i), Walked(tokens, i);
      var s, e := At(text, t.start), At(text, t.end);
      && w <= t.start && At(text, w).pos == w
      && Scan(text, At(text, w), t.start) == s && Scan(text, s, t.end) == e
      && 0 <= p.line <= s.line < U32 && 0 <= s.col <= e.col < U32
      && (p.line == s.line ==> p.col <= s.col)
  {
    var t, w := tokens[i], Walked(tokens, i);
    ScanResumes(text, ORIGIN, w, t.start);
    ScanResumes(text, ORIGIN, t.start, t.end);
    ScanForward(text, At(text, t.start), t.end);
    NoWrap(text, t.start);
    NoWrap(text, t.end);
    if 0 < i {
      var q := tokens[i - 1];
      ScanResumes(text, ORIGIN, q.start, t.start);
      ScanForward(text, At(text, q.start), t.start);
    }
  }

  /** Every number fits in 32 bits. */
  ghost predicate NoneWraps(data: seq<int>) {
    forall i | 0 <= i < |data| :: 0 <= data[i] < U32
  }

  /** The first `i` tokens have been encoded. */
  ghost predicate Encoded(text: seq<Byte>, tokens: seq<Token>, i: nat, data: seq<int>) {
    && Encodable(text, tokens) && i <= |tokens|
    && |data| == 5 * i && NoneWraps(data) && Decode(data) == AbsoluteAll(text, tokens, i)
  }

  lemma NoneWrapsPush(data: seq<int>, deltaLine: int, deltaCol: int, length: int, kind: UInt32, mods: UInt32)
    requires NoneWraps(data) && 0 <= deltaLine < U32 && 0 <= deltaCol < U32 && 0 <= length < U32
    ensures NoneWraps(data + [deltaLine, deltaCol, length, kind, mods])
  {
  }

  /** Token `i`'s numbers, exactly. */
  ghost predicate AreDeltas(text: seq<Byte>, tokens: seq<Token>, i: nat, deltaLine: int, deltaCol: int, length: int)
    requires Encodable(text, tokens) && i < |tokens|
  {
    var p, s, e := Previous(text, tokens, i), At(text, tokens[i].start), At(text, tokens[i].end);
    && 0 <= deltaLine < U32 && 0 <= deltaCol < U32 && 0 <= length < U32
    && deltaLine == s.line - p.line && length == e.col - s.col
    && deltaCol == if deltaLine == 0 then s.col - p.col else s.col
  }

  /** Read relative to the previous token, they are the token itself. */
  lemma DeltasAreRelative(text: seq<Byte>, tokens: seq<Token>, i: nat, deltaLine: int, deltaCol: int, length: int)
    requires Encodable(text, tokens) && i < |tokens| && AreDeltas(text, tokens, i, deltaLine, deltaCol, length)
    ensures
      var t := tokens[i];
      var prev := LastOf(AbsoluteAll(text, tokens, i));
      Relative(prev, deltaLine, deltaCol, length, t.kind, t.modifiers) == Absolute(text, t)
  {
  }

  /** Those numbers, appended, decode to the token itself. */
  lemma DeltasDecode(text: seq<Byte>, tokens: seq<Token>, i: nat, data: seq<int>, deltaLine: int, deltaCol: int,
                     length: int)
    requires Encoded(text, tokens, i, data) && i < |tokens| && AreDeltas(text, tokens, i, deltaLine, deltaCol, length)
    ensures Encoded(text, tokens, i + 1, data + [deltaLine, deltaCol, length, tokens[i].kind, tokens[i].modifiers])
  {
    var t := tokens[i];
    DeltasAreRelative(text, tokens, i, deltaLine, deltaCol, length);
    DecodePush(data, deltaLine, deltaCol, length, t.kind, t.modifiers);
    NoneWrapsPush(data, deltaLine, deltaCol, length, t.kind, t.modifiers);
  }

  lemma Unwrapped(text: seq<Byte>, pos: nat)
    requires |text| < U32 && pos <= |text|
    ensures At(text, pos).line % U32 == At(text, pos).line && At(text, pos).col % U32 == At(text, pos).col
  {
    NoWrap(text, pos);
  }

  /** Unsigned subtraction gives the true differences. */
  lemma DeltasFit(text: seq<Byte>, tokens: seq<Token>, i: nat)
    requires |text| < U32 && Encodable(text, tokens) && i < |tokens|
    ensures
      var p, s, e := Previous(text, tokens, i), At(text, tokens[i].start), At(text, tokens[i].end);
      var deltaLine := (s.line - p.line) % U32;
      AreDeltas(text, tokens, i, deltaLine, if deltaLine == 0 then (s.col - p.col) % U32 else s.col, e.col - s.col)
  {
    TokenFacts(text, tokens, i);
  }

  /** The numbers of token `i`, given where the text has been walked to and where the previous token started. */
  method Deltas(text: seq<Byte>, ghost tokens: seq<Token>, ghost i: nat, t: Token,
                pos: nat, line: int, col: int, prevLine: int, prevCol: int)
    returns (deltaLine: int, deltaCol: int, length: int, line': int, col': int)
    requires |text| < U32 && Encodable(text, tokens) && i < |tokens| && tokens[i] == t
    requires pos == Walked(tokens, i) && line == At(text, pos).line && col == At(text, pos).col
    requires prevLine == Previous(text, tokens, i).line && prevCol == Previous(text, tokens, i).col
    ensures line' == At(text, t.start).line && col' == At(text, t.start).col
    ensures AreDeltas(text, tokens, i, deltaLine, deltaCol, length)
  {
    TokenFacts(text, tokens, i);
    Unwrapped(text, pos);
    Unwrapped(text, t.start);
    DeltasFit(text, tokens, i);
    var reached;
    line', col', reached := AdvanceTo(text, pos, line, col, t.start, At(text, pos));
    length := Utf16Length(text, t.start, t.end, At(text, t.start));
    deltaLine := (line' - prevLine) % U32;
    deltaCol := col';
    if deltaLine == 0 {
      deltaCol := (col' - prevCol) % U32;
    }
  }

  /** A token never spans a newline, so its end column is its start column plus its length. */
  lemma TokenEnd(text: seq<Byte>, t: Token, length: int)
    requires |text| < U32 && OnOneLine(text, t) && length == At(text, t.end).col - At(text, t.start).col
    ensures Add32(At(text, t.start).col, length) == At(text, t.end).col
  {
    NoWrap(text, t.end);
  }

  /** Decoding the stream gives back every token's true position, length, kind and modifiers; no number wraps. */
  method Encode(text: seq<Byte>, tokens: seq<Token>) returns (data: seq<int>)
    requires |text| < U32 && Encodable(text, tokens)
    ensures |data| == 5 * |tokens| && Decode(data) == AbsoluteAll(text, tokens, |tokens|)
    ensures NoneWraps(data)
  {
    data := [];
    var prevLine, prevCol, line, col, pos := 0, 0, 0, 0, 0;
    for i := 0 to |tokens|
      invariant Encoded(text, tokens, i, data)
      invariant pos == Walked(tokens, i) <= |text| && line == At(text, pos).line && col == At(text, pos).col
      invariant prevLine == Previous(text, tokens, i).line && prevCol == Previous(text, tokens, i).col
    {
      var t := tokens[i];
      var deltaLine, deltaCol, length;
      deltaLine, deltaCol, length, line, col := Deltas(text, tokens, i, t, pos, line, col, prevLine, prevCol);
      DeltasDecode(text, tokens, i, data, deltaLine, deltaCol, length);
      data := data + [deltaLine, deltaCol, length, t.kind, t.modifiers];
      prevLine, prevCol := line, col;
      TokenEnd(text, t, length);
      pos := t.end;
      col := Add32(col, length);
    }
  }

  // -------------------------------------------------------------- multi-line tokens

  ghost predicate Covers(tokens: seq<Token>, p: int) {
    exists i :: 0 <= i < |tokens| && tokens[i].start <= p < tokens[i].end
  }

  /** The pieces of `t` before `upto`: in order, inside the token, with its kind, covering all but the newlines. */
  ghost predicate Pieces(t: Token, text: seq<Byte>, out: seq<Token>, upto: int) {
    && t.start <= upto <= |text|
    && (forall i | 0 <= i < |out| ::
          && t.start <= out[i].start < out[i].end <= upto
          && out[i].kind == t.kind && out[i].modifiers == t.modifiers)
    && (forall i, j | 0 <= i < j < |out| :: out[i].end < out[j].start)
    && (forall p | t.start <= p < upto :: text[p] != NEWLINE <==> Covers(out, p))
  }

  /** A piece starts at the token's start or after a newline, and ends at the token's end or before one. */
  ghost predicate Cut(t: Token, text: seq<Byte>, piece: Token) {
    && piece.start <= piece.end <= |text|
    && (piece.start == t.start || (0 < piece.start && text[piece.start - 1] == NEWLINE))
    && (piece.end == t.end || (piece.end < |text| && text[piece.end] == NEWLINE))
    && (forall p | piece.start <= p < piece.end :: text[p] != NEWLINE)
  }

  lemma PiecesPush(t: Token, text: seq<Byte>, out: seq<Token>, lineStart: nat, end: nat)
    requires Pieces(t, text, out, lineStart) && lineStart < end <= |text|
    requires forall i | 0 <= i < |out| :: out[i].end < lineStart
    requires forall p | lineStart <= p < end :: text[p] != NEWLINE
    ensures Pieces(t, text, out + [Token(lineStart, end, t.kind, t.modifiers)], end)
  {
    var more := out + [Token(lineStart, end, t.kind, t.modifiers)];
    forall p | t.start <= p < end ensures text[p] != NEWLINE <==> Covers(more, p) {
      if p < lineStart {
        if Covers(out, p) {
          var i :| 0 <= i < |out| && out[i].start <= p < out[i].end;
          assert more[i] == out[i];
        }
        if Covers(more, p) {
          var i :| 0 <= i < |more| && more[i].start <= p < more[i].end;
          assert out[i] == more[i];
        }
      } else {
        assert more[|out|].start <= p < more[|out|].end;
      }
    }
  }

  /** A newline belongs to no piece. */
  lemma PiecesSkip(t: Token, text: seq<Byte>, out: seq<Token>, i: nat)
    requires Pieces(t, text, out, i) && i < |text| && text[i] == NEWLINE
    ensures Pieces(t, text, out, i + 1) && forall k | 0 <= k < |out| :: out[k].end < i + 1
  {
  }

  lemma {:induction false} ScanSameLine(text: seq<Byte>, c: Cursor, end: int)
    requires c.pos <= end <= |text| && forall p | c.pos <= p < end :: text[p] != NEWLINE
    ensures Scan(text, c, end).line == c.line
    decreases end - c.pos
  {
    if c.pos < end {
      ScanSameLine(text, Next(text, c), if Next(text, c).pos <= end then end else Next(text, c).pos);
    }
  }

  /** A piece of a token on rune boundaries is on rune boundaries of one line. */
  lemma CutOnOneLine(t: Token, text: seq<Byte>, piece: Token)
    requires t.end <= |text| && Boundary(text, t.start) && Boundary(text, t.end) && Cut(t, text, piece)
    ensures OnOneLine(text, piece)
  {
    if piece.start != t.start {
      NewlineBoundaries(text, piece.start - 1);
    }
    if piece.end != t.end {
      NewlineBoundaries(text, piece.end);
    }
    ScanResumes(text, ORIGIN, piece.start, piece.end);
    ScanSameLine(text, At(text, piece.start), piece.end);
  }

  /** The state of the splitting loop at the start of a line. */
  ghost predicate AtLineStart(t: Token, text: seq<Byte>, out: seq<Token>, lineStart: nat) {
    && Pieces(t, text, out, lineStart)
    && (forall k | 0 <= k < |out| :: out[k].end < lineStart && Cut(t, text, out[k]))
    && (lineStart == t.start || text[lineStart - 1] == NEWLINE)
  }

  /** The pieces once the current line, if it is not empty, ends at `end`. */
  function WithLine(t: Token, out: seq<Token>, lineStart: nat, end: nat): seq<Token> {
    if lineStart < end then out + [Token(lineStart, end, t.kind, t.modifiers)] else out
  }

  /** No newline from `from` to `end`, which ends the line or the token. */
  ghost predicate EndsAt(t: Token, text: seq<Byte>, from: nat, end: nat) {
    && from <= end <= |text| && (forall p | from <= p < end :: text[p] != NEWLINE)
    && (end == t.end || (end < |text| && text[end] == NEWLINE))
  }

  ghost predicate AllCut(t: Token, text: seq<Byte>, out: seq<Token>) {
    forall k | 0 <= k < |out| :: Cut(t, text, out[k])
  }

  lemma PieceOfLine(t: Token, text: seq<Byte>, out: seq<Token>, lineStart: nat, end: nat)
    requires AtLineStart(t, text, out, lineStart) && EndsAt(t, text, lineStart, end)
    ensures Pieces(t, text, WithLine(t, out, lineStart, end), end)
  {
    if lineStart < end {
      PiecesPush(t, text, out, lineStart, end);
    }
  }

  lemma CutOfLine(t: Token, text: seq<Byte>, out: seq<Token>, lineStart: nat, end: nat)
    requires AtLineStart(t, text, out, lineStart) && EndsAt(t, text, lineStart, end)
    ensures AllCut(t, text, WithLine(t, out, lineStart, end))
  {
    if lineStart < end {
      assert Cut(t, text, Token(lineStart, end, t.kind, t.modifiers));
    }
  }

  lemma EndLine(t: Token, text: seq<Byte>, out: seq<Token>, lineStart: nat, end: nat)
    requires AtLineStart(t, text, out, lineStart) && EndsAt(t, text, lineStart, end)
    ensures Pieces(t, text, WithLine(t, out, lineStart, end), end) && AllCut(t, text, WithLine(t, out, lineStart, end))
    ensures end < |text| && text[end] == NEWLINE ==> AtLineStart(t, text, WithLine(t, out, lineStart, end), end + 1)
  {
    PieceOfLine(t, text, out, lineStart, end);
    CutOfLine(t, text, out, lineStart, end);
    if end < |text| && text[end] == NEWLINE {
      PiecesSkip(t, text, WithLine(t, out, lineStart, end), end);
    }
  }

  /**
   One piece per line of a token that spans several: in order, covering the token minus its newlines, and fit for
   Encode.
   */
  method SplitMultilineToken(t: Token, text: seq<Byte>) returns (out: seq<Token>)
    requires t.start <= t.end <= |text|
    ensures Pieces(t, text, out, t.end)
    ensures Boundary(text, t.start) && Boundary(text, t.end) ==> Encodable(text, out)
  {
    out := [];
    var lineStart := t.start;
    for i := t.start to t.end
      invariant lineStart <= i && forall p | lineStart <= p < i :: text[p] != NEWLINE
      invariant AtLineStart(t, text, out, lineStart)
    {
      if text[i] == NEWLINE {
        EndLine(t, text, out, lineStart, i);
        out := WithLine(t, out, lineStart, i);
        lineStart := i + 1;
      }
    }
    EndLine(t, text, out, lineStart, t.end);
    out := WithLine(t, out, lineStart, t.end);
    if Boundary(text, t.start) && Boundary(text, t.end) {
      forall k | 0 <= k < |out| ensures OnOneLine(text, out[k]) {
        CutOnOneLine(t, text, out[k]);
      }
    }
  }
}
