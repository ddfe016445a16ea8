/**
 The message framing of internal/rpc/framing.go: LSP 3.17, "Base Protocol: Header Part", as a printer
 and the parser that reads it back from a byte stream.
 */
module Framing {
  import opened Text
  import opened Utf8

  const COLON: Byte := 58
  const SPACE: Byte := 32
  const CR: Byte := 13
  /** "Content-Length" */
  const NAME: seq<Byte> := [67, 111, 110, 116, 101, 110, 116, 45, 76, 101, 110, 103, 116, 104]
  /** The largest value of a 64-bit int. */
  const MAX_INT := 0x7fff_ffff_ffff_ffff

  /** What one call of readFrame reports; `rest` is what is left on the stream. */
  datatype Outcome =
    | Body(body: seq<Byte>, rest: seq<Byte>)
    | Eof            // io.EOF: the stream ended between frames
    | Truncated      // io.ErrUnexpectedEOF, inside a header line, a header block or a body
    | BadLength      // a Content-Length that is not a number
    | MissingLength  // no Content-Length, or a negative one

  // --------------------------------------------------------------- header lines

  /** The position of the first byte equal to `b`, or the length of the input. */
  function IndexOf(s: seq<Byte>, b: Byte): (i: nat)
    ensures i <= |s| && (i < |s| ==> s[i] == b) && forall j | 0 <= j < i :: s[j] != b
  {
    if s == [] || s[0] == b then 0 else 1 + IndexOf(s[1..], b)
  }

  /** unicode.IsSpace. */
  predicate IsSpace(code: int) {
    || 9 <= code <= 13 || code == SPACE || code == 0x85 || code == 0xa0 || code == 0x1680 || 0x2000 <= code <= 0x200a
    || code == 0x2028 || code == 0x2029 || code == 0x202f || code == 0x205f || code == 0x3000
  }

  /** The last offset from `lim` to `i` at which a rune may start, or the one before `lim`. */
  function LastStart(s: seq<Byte>, i: int, lim: nat): (r: int)
    requires lim <= i + 1 <= |s|
    ensures lim - 1 <= r <= i
    decreases i
  {
    if i < lim || s[i] < 0x80 || 0xc0 <= s[i] then i else LastStart(s, i - 1, lim)
  }

  /** The last rune of a text, as Go's utf8.DecodeLastRune finds it. */
  function DecodeLast(s: seq<Byte>): (r: Rune)
    requires s != []
    ensures 1 <= r.size <= |s|
  {
    var n := |s|;
    if s[n - 1] < 0x80 || n == 1 then DecodeRune(s, n - 1)
    else
      var start := LastStart(s, n - 2, if n < 4 then 0 else n - 4);
      var r := DecodeRune(s, if start < 0 then 0 else start);
      if (if start < 0 then 0 else start) + r.size == n then r else Rune(RUNE_ERROR, 1)
  }

  function TrimLeft(s: seq<Byte>): seq<Byte> {
    if s != [] && IsSpace(DecodeRune(s, 0).code) then TrimLeft(s[DecodeRune(s, 0).size..]) else s
  }

  function TrimRight(s: seq<Byte>): seq<Byte> {
    if s != [] && IsSpace(DecodeLast(s).code) then TrimRight(s[..|s| - DecodeLast(s).size]) else s
  }

  function TrimSpace(s: seq<Byte>): seq<Byte> { TrimRight(TrimLeft(s)) }

  /** Drop every trailing carriage return and newline. */
  function TrimEol(s: seq<Byte>): seq<Byte> {
    if s != [] && (s[|s| - 1] == CR || s[|s| - 1] == NEWLINE) then TrimEol(s[..|s| - 1]) else s
  }

  function Lower(b: Byte): Byte { if 65 <= b <= 90 then b + 32 else b }

  predicate EqualFold(s: seq<Byte>, t: seq<Byte>) {
    |s| == |t| && forall i | 0 <= i < |s| :: Lower(s[i]) == Lower(t[i])
  }

  predicate IsDigit(b: Byte) { 48 <= b <= 57 }

  function Value(s: seq<Byte>): int {
    if s == [] then 0 else 10 * Value(s[..|s| - 1]) + s[|s| - 1] - 48
  }

  datatype Number = Invalid | Number(value: int)

  /** strconv.Atoi: an optional sign and at least one digit, within 64 bits. */
  function Atoi(s: seq<Byte>): Number {
    var digits := if s != [] && (s[0] == 43 || s[0] == 45) then s[1..] else s;
    if digits == [] || exists i | 0 <= i < |digits| :: !IsDigit(digits[i]) then Invalid
    else
      var n := if s[0] == 45 then -Value(digits) else Value(digits);
      if -MAX_INT - 1 <= n <= MAX_INT then Number(n) else Invalid
  }

  datatype Header = Other | Length(value: int) | Malformed

  /** What a nonempty header line says about the length. */
  function ParseHeader(line: seq<Byte>): Header {
    var i := IndexOf(line, COLON);
    if i == |line| || !EqualFold(TrimSpace(line[..i]), NAME) then Other
    else match Atoi(TrimSpace(line[i + 1..]))
      case Invalid => Malformed
      case Number(n) => Length(n)
  }

  // --------------------------------------------------------------------- reading

  /** The rest of a frame, given the length seen so far; `first` until a header line has been read. */
  function ParseFrom(input: seq<Byte>, length: int, first: bool): (r: Outcome)
    ensures r.Body? ==> |r.rest| < |input|
    decreases |input|
  {
    var i := IndexOf(input, NEWLINE);
    if i == |input| then (if first && input == [] then Eof else Truncated)
    else
      var line, rest := TrimEol(input[..i + 1]), input[i + 1..];
      if line == [] then ParseBody(rest, length)
      else match ParseHeader(line)
        case Other => ParseFrom(rest, length, false)
        case Malformed => BadLength
        case Length(n) => ParseFrom(rest, n, false)
  }

  function ParseBody(input: seq<Byte>, length: int): (r: Outcome)
    ensures r.Body? ==> |r.rest| <= |input|
  {
    if length < 0 then MissingLength
    else if |input| < length then Truncated
    else Body(input[..length], input[length..])
  }

  /** One frame off the stream. */
  ghost function Parse(input: seq<Byte>): Outcome { ParseFrom(input, -1, true) }

  method ReadFrame(input: seq<Byte>) returns (r: Outcome)
    ensures r == Parse(input)
  {
    var length, first, rest := -1, true, input;
    while true
      invariant ParseFrom(rest, length, first) == Parse(input)
      decreases |rest|
    {
      var i := IndexOf(rest, NEWLINE);
      if i == |rest| {
        return if first && rest == [] then Eof else Truncated;
      }
      first := false;
      var line := TrimEol(rest[..i + 1]);
      rest := rest[i + 1..];
      if line == [] {
        break;
      }
      match ParseHeader(line) {
        case Other =>
        case Malformed => return BadLength;
        case Length(n) => length := n;
      }
    }
    if length < 0 {
      return MissingLength;
    }
    if |rest| < length {
      return Truncated;
    }
    return Body(rest[..length], rest[length..]);
  }

  // --------------------------------------------------------------------- writing

  /** The decimal digits of a number. */
  function Digits(n: nat): (s: seq<Byte>)
    ensures s != [] && forall i | 0 <= i < |s| :: IsDigit(s[i])
  {
    if n < 10 then [48 + n] else Digits(n / 10) + [48 + n % 10]
  }

  /** The text of a header line, without its end. */
  function HeaderText(n: nat): (t: seq<Byte>)
    ensures |t| > |NAME| + 2 && IsDigit(t[|t| - 1])
    ensures forall j | 0 <= j < |t| :: t[j] != NEWLINE
  {
    NAME + [COLON, SPACE] + Digits(n)
  }

  /** The header line of a body of the given length. */
  function HeaderLine(n: nat): seq<Byte> { HeaderText(n) + [CR, NEWLINE] }

  /** A frame as conn.write puts it on the stream. */
  function Frame(body: seq<Byte>): seq<Byte> { HeaderLine(|body|) + [CR, NEWLINE] + body }

  // ------------------------------------------------------------------ round trips

  lemma {:induction false} ValueOfDigits(n: nat)
    ensures Value(Digits(n)) == n
  {
    if n >= 10 {
      ValueOfDigits(n / 10);
      assert Digits(n)[..|Digits(n)| - 1] == Digits(n / 10);
    }
  }

  /** The number, after its space, is read back. */
  lemma NumberParses(n: nat)
    requires n <= MAX_INT
    ensures Atoi(TrimSpace([SPACE] + Digits(n))) == Number(n)
  {
    NumberTrims([SPACE], n, []);
    assert [SPACE] + Digits(n) + [] == [SPACE] + Digits(n);
  }

  lemma ColonFound(n: nat)
    ensures var line := HeaderText(n);
            IndexOf(line, COLON) == |NAME| && line[..|NAME|] == NAME && line[|NAME| + 1..] == [SPACE] + Digits(n)
  {
    var line := NAME + [COLON, SPACE] + Digits(n);
    assert line[|NAME|] == COLON;
    assert forall j | 0 <= j < |NAME| :: line[j] == NAME[j] && NAME[j] != COLON;
  }

  /** The line conn.write prints says exactly its length. */
  lemma HeaderParses(n: nat)
    requires n <= MAX_INT
    ensures ParseHeader(HeaderText(n)) == Length(n)
  {
    ColonFound(n);
    NumberParses(n);
    assert TrimSpace(NAME) == NAME;
  }

  lemma TrimCrLf(t: seq<Byte>)
    requires t == [] || (t[|t| - 1] != CR && t[|t| - 1] != NEWLINE)
    ensures TrimEol(t + [CR, NEWLINE]) == t
  {
    var u := t + [CR];
    assert (t + [CR, NEWLINE])[..|t| + 1] == u && u[..|t|] == t;
    assert TrimEol(u) == TrimEol(t) == t;
  }

  lemma LineTrims(n: nat)
    ensures TrimEol(HeaderLine(n)) == HeaderText(n)
    ensures IndexOf(HeaderLine(n), NEWLINE) == |HeaderLine(n)| - 1
  {
    TrimCrLf(HeaderText(n));
    var t, i := HeaderText(n), IndexOf(HeaderLine(n), NEWLINE);
    assert HeaderLine(n) == t + [CR, NEWLINE];
    assert forall j | 0 <= j < |t| :: HeaderLine(n)[j] == t[j];
    assert HeaderLine(n)[|t|] == CR && HeaderLine(n)[|t| + 1] == NEWLINE;
  }

  /** A header line's text: not empty, without a newline, not ending in a carriage return. */
  ghost predicate HeaderField(t: seq<Byte>) {
    t != [] && t[|t| - 1] != CR && forall j | 0 <= j < |t| :: t[j] != NEWLINE
  }

  lemma LineOf(t: seq<Byte>, rest: seq<Byte>)
    requires HeaderField(t)
    ensures
      var s, i := t + [CR, NEWLINE] + rest, |t| + 1;
      IndexOf(s, NEWLINE) == i < |s| && TrimEol(s[..i + 1]) == t && s[i + 1..] == rest
  {
    var l, s := t + [CR, NEWLINE], t + [CR, NEWLINE] + rest;
    TrimCrLf(t);
    assert forall j | 0 <= j < |t| :: s[j] == t[j];
    assert s[|t|] == CR && s[|t| + 1] == NEWLINE;
    assert s[..|t| + 2] == l && s[|t| + 2..] == rest;
  }

  /** Reading past a header line goes on with what it says. */
  lemma ParsePastLine(t: seq<Byte>, rest: seq<Byte>, length: int, first: bool)
    requires HeaderField(t)
    ensures
      ParseFrom(t + [CR, NEWLINE] + rest, length, first) ==
      match ParseHeader(t)
      case Other => ParseFrom(rest, length, false)
      case Malformed => BadLength
      case Length(n) => ParseFrom(rest, n, false)
  {
    LineOf(t, rest);
  }

  /** Reading past a header line leaves its length and whatever follows. */
  lemma ParsePastHeader(n: nat, rest: seq<Byte>)
    requires n <= MAX_INT
    ensures Parse(HeaderLine(n) + rest) == ParseFrom(rest, n, false)
  {
    ParsePastLength(n, rest, -1, true);
  }

  lemma ParsePastLength(n: nat, rest: seq<Byte>, length: int, first: bool)
    requires n <= MAX_INT
    ensures ParseFrom(HeaderLine(n) + rest, length, first) == ParseFrom(rest, n, false)
  {
    HeaderParses(n);
    assert HeaderField(HeaderText(n));
    ParsePastLine(HeaderText(n), rest, length, first);
  }

  lemma BlankEnds(rest: seq<Byte>, length: int, first: bool)
    ensures ParseFrom([CR, NEWLINE] + rest, length, first) == ParseBody(rest, length)
  {
    var s := [CR, NEWLINE] + rest;
    assert s[1..][0] == NEWLINE;
    assert IndexOf(s, NEWLINE) == 1;
    assert s[..2] == [CR, NEWLINE] && s[2..] == rest;
    TrimCrLf([]);
    assert [] + [CR, NEWLINE] == [CR, NEWLINE];
  }

  lemma ParsePastBlank(n: nat, rest: seq<Byte>)
    ensures ParseFrom([CR, NEWLINE] + rest, n, false) == ParseBody(rest, n)
  {
    BlankEnds(rest, n, false);
  }

  /** A written frame is read back, whatever follows it. */
  lemma FrameReads(body: seq<Byte>, rest: seq<Byte>)
    requires |body| <= MAX_INT
    ensures Parse(Frame(body) + rest) == Body(body, rest)
  {
    var n := |body|;
    assert Frame(body) + rest == HeaderLine(n) + ([CR, NEWLINE] + (body + rest));
    ParsePastHeader(n, [CR, NEWLINE] + (body + rest));
    ParsePastBlank(n, body + rest);
    assert (body + rest)[..n] == body && (body + rest)[n..] == rest;
  }

  /** Every nonempty proper prefix of a frame reads as truncated: neither a body nor a clean end. */
  lemma PrefixTruncated(body: seq<Byte>, k: nat)
    requires |body| <= MAX_INT && 0 < k < |Frame(body)|
    ensures Parse(Frame(body)[..k]) == Truncated
  {
    var n, f, l := |body|, Frame(body), HeaderLine(|body|);
    LineTrims(n);
    if k < |l| {
      assert forall j | 0 <= j < k :: f[..k][j] == l[j];
      assert IndexOf(f[..k], NEWLINE) == k;
    } else if k < |l| + 2 {
      var q := if k == |l| then [] else [CR];
      assert f[..k] == l + q;
      ParsePastHeader(n, q);
      assert IndexOf(q, NEWLINE) == |q|;
    } else {
      var b := body[..k - |l| - 2];
      assert f[..k] == l + ([CR, NEWLINE] + b);
      ParsePastHeader(n, [CR, NEWLINE] + b);
      ParsePastBlank(n, b);
    }
  }

  /** Read frames until one is not a body. */
  ghost function ReadAll(input: seq<Byte>): (seq<seq<Byte>>, Outcome)
    decreases |input|
  {
    var r := Parse(input);
    if r.Body? then
      var (bodies, end) := ReadAll(r.rest);
      ([r.body] + bodies, end)
    else ([], r)
  }

  ghost function Frames(bodies: seq<seq<Byte>>): seq<Byte> {
    if bodies == [] then [] else Frame(bodies[0]) + Frames(bodies[1..])
  }

  lemma ReadOne(body: seq<Byte>, rest: seq<Byte>)
    requires |body| <= MAX_INT
    ensures ReadAll(Frame(body) + rest) == ([body] + ReadAll(rest).0, ReadAll(rest).1)
  {
    FrameReads(body, rest);
  }

  lemma Associate(a: seq<Byte>, b: seq<Byte>, c: seq<Byte>)
    ensures a + b + c == a + (b + c)
  {
  }

  /** Reading back any sequence of written frames gives the bodies in order, then whatever ends the stream. */
  lemma {:induction false} FramesRead(bodies: seq<seq<Byte>>, tail: seq<Byte>)
    requires forall i | 0 <= i < |bodies| :: |bodies[i]| <= MAX_INT
    requires !Parse(tail).Body?
    ensures ReadAll(Frames(bodies) + tail) == (bodies, Parse(tail))
  {
    if bodies == [] {
      assert Frames(bodies) + tail == tail;
    } else {
      FramesRead(bodies[1..], tail);
      ReadOne(bodies[0], Frames(bodies[1..]) + tail);
      Associate(Frame(bodies[0]), Frames(bodies[1..]), tail);
      assert bodies == [bodies[0]] + bodies[1..];
    }
  }

  /** A stream of whole frames ends cleanly; one cut inside a frame never does. */
  lemma StreamEnds(bodies: seq<seq<Byte>>, last: seq<Byte>, k: nat)
    requires forall i | 0 <= i < |bodies| :: |bodies[i]| <= MAX_INT
    requires |last| <= MAX_INT && k < |Frame(last)|
    ensures ReadAll(Frames(bodies) + Frame(last)[..k]) == (bodies, if k == 0 then Eof else Truncated)
  {
    if k > 0 {
      PrefixTruncated(last, k);
    }
    FramesRead(bodies, Frame(last)[..k]);
  }

  // ----------------------------------------------------------------- other headers

  /** A header line that has no colon, or another name than Content-Length. */
  ghost predicate OtherField(t: seq<Byte>) {
    && HeaderField(t)
    && var i := IndexOf(t, COLON);
    i == |t| || !EqualFold(TrimSpace(t[..i]), NAME)
  }

  ghost function HeaderLines(fields: seq<seq<Byte>>): seq<Byte> {
    if fields == [] then [] else fields[0] + [CR, NEWLINE] + HeaderLines(fields[1..])
  }

  ghost predicate OtherFields(fields: seq<seq<Byte>>) {
    forall i | 0 <= i < |fields| :: OtherField(fields[i])
  }

  /** Other headers leave the length as it is. */
  lemma {:induction false} ParsePastOthers(fields: seq<seq<Byte>>, rest: seq<Byte>, length: int, first: bool)
    requires OtherFields(fields)
    ensures ParseFrom(HeaderLines(fields) + rest, length, first) == ParseFrom(rest, length, first && fields == [])
  {
    if fields == [] {
      assert HeaderLines(fields) + rest == rest;
    } else {
      assert OtherField(fields[0]);
      Associate(fields[0] + [CR, NEWLINE], HeaderLines(fields[1..]), rest);
      ParsePastLine(fields[0], HeaderLines(fields[1..]) + rest, length, first);
      ParsePastOthers(fields[1..], rest, length, false);
    }
  }

  /** A frame with any other headers before and after its length is read like one without. */
  lemma OtherHeadersIgnored(before: seq<seq<Byte>>, after: seq<seq<Byte>>, body: seq<Byte>, rest: seq<Byte>)
    requires OtherFields(before) && OtherFields(after) && |body| <= MAX_INT
    ensures Parse(HeaderLines(before) + (HeaderLine(|body|) + (HeaderLines(after) + ([CR, NEWLINE] + (body + rest)))))
         == Body(body, rest)
  {
    var end := [CR, NEWLINE] + (body + rest);
    ParsePastOthers(before, HeaderLine(|body|) + (HeaderLines(after) + end), -1, true);
    ParsePastLength(|body|, HeaderLines(after) + end, -1, before == []);
    ParsePastOthers(after, end, |body|, false);
    ParsePastBlank(|body|, body + rest);
    assert (body + rest)[..|body|] == body && (body + rest)[|body|..] == rest;
  }

  /** A frame whose headers have no length is rejected, and so is one whose length is not a number. */
  lemma BadHeadersRejected(fields: seq<seq<Byte>>, bad: seq<Byte>, rest: seq<Byte>)
    requires OtherFields(fields)
    ensures Parse(HeaderLines(fields) + ([CR, NEWLINE] + rest)) == MissingLength
    ensures HeaderField(bad) && ParseHeader(bad) == Malformed ==>
              Parse(HeaderLines(fields) + (bad + [CR, NEWLINE] + rest)) == BadLength
  {
    ParsePastOthers(fields, [CR, NEWLINE] + rest, -1, true);
    BlankEnds(rest, -1, fields == []);
    if HeaderField(bad) && ParseHeader(bad) == Malformed {
      ParsePastOthers(fields, bad + [CR, NEWLINE] + rest, -1, true);
      ParsePastLine(bad, rest, -1, fields == []);
    }
  }

  /** Of several lengths the last one counts. */
  lemma LastLengthCounts(m: nat, body: seq<Byte>, rest: seq<Byte>)
    requires m <= MAX_INT && |body| <= MAX_INT
    ensures Parse(HeaderLine(m) + (Frame(body) + rest)) == Body(body, rest)
  {
    var n := |body|;
    assert Frame(body) + rest == HeaderLine(n) + ([CR, NEWLINE] + (body + rest));
    ParsePastLength(m, Frame(body) + rest, -1, true);
    ParsePastLength(n, [CR, NEWLINE] + (body + rest), m, false);
    ParsePastBlank(n, body + rest);
    assert (body + rest)[..n] == body && (body + rest)[n..] == rest;
  }

  // ------------------------------------------------------- what counts as the length

  ghost predicate Blank(pad: seq<Byte>) {
    forall i | 0 <= i < |pad| :: pad[i] == SPACE || pad[i] == 9
  }

  /** A text that begins and ends with printable ASCII. */
  ghost predicate Solid(s: seq<Byte>) {
    s != [] && 33 <= s[0] < 0x80 && 33 <= s[|s| - 1] < 0x80
  }

  lemma {:induction false} TrimsLeft(pad: seq<Byte>, s: seq<Byte>)
    requires Blank(pad) && s != [] && 33 <= s[0] < 0x80
    ensures TrimLeft(pad + s) == s
  {
    if pad == [] {
      assert pad + s == s;
    } else {
      assert (pad + s)[0] == pad[0] && (pad + s)[1..] == pad[1..] + s;
      TrimsLeft(pad[1..], s);
    }
  }

  lemma {:induction false} TrimsRight(s: seq<Byte>, pad: seq<Byte>)
    requires Blank(pad) && s != [] && 33 <= s[|s| - 1] < 0x80
    ensures TrimRight(s + pad) == s
    decreases |pad|
  {
    if pad == [] {
      assert s + pad == s;
    } else {
      var n := |pad| - 1;
      assert (s + pad)[|s| + n] == pad[n] && (s + pad)[..|s| + n] == s + pad[..n];
      TrimsRight(s, pad[..n]);
    }
  }

  lemma Trims(left: seq<Byte>, s: seq<Byte>, right: seq<Byte>)
    requires Blank(left) && Blank(right) && Solid(s)
    ensures TrimSpace(left + s + right) == s
  {
    assert left + s + right == left + (s + right);
    TrimsLeft(left, s + right);
    TrimsRight(s, right);
  }

  /** The name counts in any case, and blanks around name and number do not. */
  lemma LooseHeader(a: seq<Byte>, name: seq<Byte>, b: seq<Byte>, c: seq<Byte>, n: nat, d: seq<Byte>)
    requires Blank(a) && Blank(b) && Blank(c) && Blank(d) && EqualFold(name, NAME) && n <= MAX_INT
    ensures ParseHeader((a + name + b) + [COLON] + (c + Digits(n) + d)) == Length(n)
  {
    NoColon(a, name, b);
    SplitAtColon(a + name + b, c + Digits(n) + d);
    NameTrims(a, name, b);
    NumberTrims(c, n, d);
  }

  /** The text before the first colon is the name. */
  lemma SplitAtColon(left: seq<Byte>, right: seq<Byte>)
    requires forall j | 0 <= j < |left| :: left[j] != COLON
    ensures var line, i := left + [COLON] + right, |left|;
            IndexOf(line, COLON) == i && line[..i] == left && line[i + 1..] == right
  {
    var line := left + [COLON] + right;
    assert forall j | 0 <= j < |left| :: line[j] == left[j];
    assert line[|left|] == COLON;
  }

  lemma NameTrims(a: seq<Byte>, name: seq<Byte>, b: seq<Byte>)
    requires Blank(a) && Blank(b) && EqualFold(name, NAME)
    ensures TrimSpace(a + name + b) == name
  {
    assert Lower(name[0]) == Lower(NAME[0]) && Lower(name[13]) == Lower(NAME[13]);
    Trims(a, name, b);
  }

  lemma NumberTrims(c: seq<Byte>, n: nat, d: seq<Byte>)
    requires Blank(c) && Blank(d) && n <= MAX_INT
    ensures Atoi(TrimSpace(c + Digits(n) + d)) == Number(n)
  {
    assert IsDigit(Digits(n)[0]) && IsDigit(Digits(n)[|Digits(n)| - 1]);
    Trims(c, Digits(n), d);
    DigitsRead(n);
  }

  lemma NoColon(a: seq<Byte>, name: seq<Byte>, b: seq<Byte>)
    requires Blank(a) && Blank(b) && EqualFold(name, NAME)
    ensures forall j | 0 <= j < |a + name + b| :: (a + name + b)[j] != COLON
  {
    forall i | 0 <= i < |name| ensures name[i] != COLON {
      assert Lower(name[i]) == Lower(NAME[i]);
    }
  }

  lemma DigitsRead(n: nat)
    requires n <= MAX_INT
    ensures Atoi(Digits(n)) == Number(n)
  {
    assert IsDigit(Digits(n)[0]);
    ValueOfDigits(n);
  }

  // ---------------------------------------------------------------------- the writer

  /** `cut` is nothing, or the beginning of some frame. */
  ghost predicate CutShort(cut: seq<Byte>) {
    cut == [] || exists body, k: nat :: CutFrom(body, k, cut)
  }

  ghost predicate CutFrom(body: seq<Byte>, k: nat, cut: seq<Byte>) {
    |body| <= MAX_INT && k < |Frame(body)| && cut == Frame(body)[..k]
  }

  lemma {:induction false} FramesPush(bodies: seq<seq<Byte>>, body: seq<Byte>)
    ensures Frames(bodies + [body]) == Frames(bodies) + Frame(body)
  {
    if bodies == [] {
      assert Frames([body]) == Frame(body) + Frames([]);
    } else {
      FramesPush(bodies[1..], body);
      assert (bodies + [body])[1..] == bodies[1..] + [body];
      Associate(Frame(bodies[0]), Frames(bodies[1..]), Frame(body));
    }
  }

  /** Where a stream of frames is cut short, a reader gets what was written whole and then no clean end. */
  lemma ReadsWritten(bodies: seq<seq<Byte>>, cut: seq<Byte>)
    requires (forall i | 0 <= i < |bodies| :: |bodies[i]| <= MAX_INT) && CutShort(cut)
    ensures ReadAll(Frames(bodies) + cut) == (bodies, if cut == [] then Eof else Truncated)
  {
    if cut == [] {
      assert Frame([])[..0] == [];
      StreamEnds(bodies, [], 0);
    } else {
      var body, k: nat :| CutFrom(body, k, cut);
      StreamEnds(bodies, body, k);
    }
  }

  /** What reached the stream is whole frames, and after a failure what of one more was written before it. */
  ghost predicate Holds(out: seq<Byte>, written: seq<seq<Byte>>, cut: seq<Byte>, broken: bool) {
    && out == Frames(written) + cut && (!broken ==> cut == []) && CutShort(cut)
    && forall i | 0 <= i < |written| :: |written[i]| <= MAX_INT
  }

  lemma HoldsWhole(out: seq<Byte>, written: seq<seq<Byte>>, body: seq<Byte>)
    requires Holds(out, written, [], false) && |body| <= MAX_INT
    ensures Holds(out + Frame(body), written + [body], [], false)
  {
    FramesPush(written, body);
    NothingAdded(Frames(written));
    NothingAdded(Frames(written + [body]));
    forall i | 0 <= i < |written + [body]| ensures |(written + [body])[i]| <= MAX_INT {
      assert i < |written| ==> |written[i]| <= MAX_INT;
    }
  }

  lemma NothingAdded(s: seq<Byte>)
    ensures s + [] == s
  {
  }

  lemma HoldsCut(out: seq<Byte>, written: seq<seq<Byte>>, body: seq<Byte>, k: nat)
    requires Holds(out, written, [], false) && |body| <= MAX_INT && k < |Frame(body)|
    ensures Holds(out + Frame(body)[..k], written, Frame(body)[..k], true)
  {
    assert CutFrom(body, k, Frame(body)[..k]);
  }

  /**
   The writing end of a connection: the bytes that reached the stream, and whether it has failed, which is for good.
   */
  class Conn {
    var out: seq<Byte>
    var broken: bool
    /** What has been written whole, and what of a frame was written before the failure. */
    ghost var written: seq<seq<Byte>>
    ghost var cut: seq<Byte>

    ghost predicate Valid()
      reads this
    {
      Holds(out, written, cut, broken)
    }

    constructor ()
      ensures Valid() && written == []
    {
      out, broken, written, cut := [], false, [], [];
    }

    /** The flush: all of a frame, or as much of it as the stream takes. */
    method Emit(ghost body: seq<Byte>, frame: seq<Byte>, accepted: nat)
      requires Valid() && !broken && |body| <= MAX_INT && frame == Frame(body)
      modifies this
      ensures Valid() && (broken <==> accepted < |frame|)
      ensures written == if broken then old(written) else old(written) + [body]
      ensures out == old(out) + if broken then frame[..accepted] else frame
    {
      if |frame| <= accepted {
        HoldsWhole(out, written, body);
        out, written := out + frame, written + [body];
      } else {
        HoldsCut(out, written, body, accepted);
        out, broken, cut := out + frame[..accepted], true, frame[..accepted];
      }
    }

    /**
     Write one frame to a stream that fails after `accepted` more bytes; a reader gets exactly what was
     acknowledged.
     */
    method Write(body: seq<Byte>, accepted: nat) returns (ok: bool)
      requires Valid() && |body| <= MAX_INT
      modifies this
      ensures Valid() && (ok <==> !old(broken) && |Frame(body)| <= accepted) && (ok <==> !broken)
      ensures written == if ok then old(written) + [body] else old(written)
      ensures ok ==> out == old(out) + Frame(body)
      ensures ReadAll(out) == (written, if cut == [] then Eof else Truncated)
    {
      if !broken {
        var frame := HeaderText(|body|) + [CR, NEWLINE] + [CR, NEWLINE];
        frame := frame + body;
        Emit(body, frame, accepted);
      }
      ok := !broken;
      ReadsWritten(written, cut);
    }
  }
}
