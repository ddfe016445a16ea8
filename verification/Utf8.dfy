/**
 UTF-8 decoding as Go's utf8.DecodeRune does it: section 3 of RFC 3629, with every byte that
 does not start a well-formed sequence decoded alone, as U+FFFD. UTF-16 lengths follow section 2.1
 of RFC 2781.
 */
module Utf8 {
  import opened Text

  datatype Rune = Rune(code: int, size: nat)

  const RUNE_ERROR := 0xfffd

  predicate InRange(text: seq<Byte>, i: int, lo: int, hi: int) {
    0 <= i < |text| && lo <= text[i] <= hi
  }

  /**
   The rune at offset `i`. A multi-byte rune never contains a newline, and takes four bytes exactly when it needs a
   surrogate pair.
   */
  function DecodeRune(text: seq<Byte>, i: nat): (r: Rune)
    requires i < |text|
    ensures 1 <= r.size && i + r.size <= |text|
    ensures forall j | i < j < i + r.size :: 0x80 <= text[j]
    ensures r.code == NEWLINE <==> text[i] == NEWLINE
    ensures 0 <= r.code <= 0x10ffff && !(0xd800 <= r.code <= 0xdfff)
    ensures r.code > 0xffff <==> r.size == 4
  {
    var b := text[i];
    if b < 0x80 then Rune(b, 1)
    else if 0xc2 <= b <= 0xdf && InRange(text, i + 1, 0x80, 0xbf) then
      Rune(Join(b - 0xc0, text[i + 1]), 2)
    else if 0xe0 <= b <= 0xef
            && InRange(text, i + 1, if b == 0xe0 then 0xa0 else 0x80, if b == 0xed then 0x9f else 0xbf)
            && InRange(text, i + 2, 0x80, 0xbf) then
      Rune(Join(Join(b - 0xe0, text[i + 1]), text[i + 2]), 3)
    else if 0xf0 <= b <= 0xf4
            && InRange(text, i + 1, if b == 0xf0 then 0x90 else 0x80, if b == 0xf4 then 0x8f else 0xbf)
            && InRange(text, i + 2, 0x80, 0xbf) && InRange(text, i + 3, 0x80, 0xbf) then
      Rune(Join(Join(Join(b - 0xf0, text[i + 1]), text[i + 2]), text[i + 3]), 4)
    else Rune(RUNE_ERROR, 1)
  }

  /** Append the six payload bits of a continuation byte, which is 0x80 plus those bits. */
  function Join(high: int, b: Byte): int { high * 0x40 + (b - 0x80) }

  /** A Unicode scalar value: any code point outside the surrogate range. */
  predicate Scalar(c: int) { 0 <= c <= 0x10ffff && !(0xd800 <= c <= 0xdfff) }

  /** The continuation byte that carries the low six bits. */
  ghost function Tail(c: nat): Byte { 0x80 + c % 0x40 }

  /** The encoding table of section 3 of RFC 3629. */
  ghost function Encode(c: int): seq<Byte>
    requires Scalar(c)
  {
    if c < 0x80 then [c]
    else if c < 0x800 then [0xc0 + c / 0x40, Tail(c)]
    else if c < 0x10000 then [0xe0 + c / 0x40 / 0x40, Tail(c / 0x40), Tail(c)]
    else [0xf0 + c / 0x40 / 0x40 / 0x40, Tail(c / 0x40 / 0x40), Tail(c / 0x40), Tail(c)]
  }

  lemma JoinTail(c: nat)
    ensures 0x80 <= Tail(c) <= 0xbf && Join(c / 0x40, Tail(c)) == c
  {
  }

  lemma SplitJoin(high: nat, b: Byte)
    requires 0x80 <= b <= 0xbf
    ensures Join(high, b) / 0x40 == high && Tail(Join(high, b)) == b
  {
  }

  /** The encoding of `c` stands at offset `i`. */
  ghost predicate EncodedAt(text: seq<Byte>, i: nat, c: int) {
    Scalar(c) && i + |Encode(c)| <= |text| && text[i..i + |Encode(c)|] == Encode(c)
  }

  lemma DecodeTwo(text: seq<Byte>, i: nat, c: int)
    requires EncodedAt(text, i, c) && 0x80 <= c < 0x800
    ensures DecodeRune(text, i) == Rune(c, 2)
  {
    var e := text[i..i + 2];
    assert text[i] == e[0] && text[i + 1] == e[1];
    JoinTail(c);
  }

  lemma DecodeThree(text: seq<Byte>, i: nat, c: int)
    requires EncodedAt(text, i, c) && 0x800 <= c < 0x10000
    ensures DecodeRune(text, i) == Rune(c, 3)
  {
    var e := text[i..i + 3];
    assert text[i] == e[0] && text[i + 1] == e[1] && text[i + 2] == e[2];
    JoinTail(c);
    JoinTail(c / 0x40);
  }

  lemma DecodeFour(text: seq<Byte>, i: nat, c: int)
    requires EncodedAt(text, i, c) && 0x10000 <= c
    ensures DecodeRune(text, i) == Rune(c, 4)
  {
    var e := text[i..i + 4];
    assert text[i] == e[0] && text[i + 1] == e[1] && text[i + 2] == e[2] && text[i + 3] == e[3];
    JoinTail(c);
    JoinTail(c / 0x40);
    JoinTail(c / 0x40 / 0x40);
  }

  /** Decoding an encoded scalar value gives it back, wherever it stands and whatever follows. */
  lemma DecodeEncode(before: seq<Byte>, c: int, after: seq<Byte>)
    requires Scalar(c)
    ensures DecodeRune(before + Encode(c) + after, |before|) == Rune(c, |Encode(c)|)
  {
    var text, i := before + Encode(c) + after, |before|;
    assert text[i..i + |Encode(c)|] == Encode(c);
    if c < 0x80 {
      assert text[i] == Encode(c)[0];
    } else if c < 0x800 {
      DecodeTwo(text, i, c);
    } else if c < 0x10000 {
      DecodeThree(text, i, c);
    } else {
      DecodeFour(text, i, c);
    }
  }

  /** What is decoded is either a well-formed encoding of its rune, or one stray byte. */
  lemma EncodeDecode(text: seq<Byte>, i: nat)
    requires i < |text|
    ensures
      var r := DecodeRune(text, i);
      text[i..i + r.size] == Encode(r.code) || (r == Rune(RUNE_ERROR, 1) && 0x80 <= text[i])
  {
    var r := DecodeRune(text, i);
    if r.size == 2 {
      EncodeTwo(text[i], text[i + 1]);
    } else if r.size == 3 {
      EncodeThree(text[i], text[i + 1], text[i + 2]);
    } else if r.size == 4 {
      EncodeFour(text[i], text[i + 1], text[i + 2], text[i + 3]);
    }
  }

  lemma EncodeTwo(a: Byte, b: Byte)
    requires 0xc2 <= a <= 0xdf && 0x80 <= b <= 0xbf
    ensures Encode(Join(a - 0xc0, b)) == [a, b]
  {
    SplitJoin(a - 0xc0, b);
  }

  lemma EncodeThree(a: Byte, b: Byte, c: Byte)
    requires 0xe0 <= a <= 0xef && 0x80 <= b <= 0xbf && 0x80 <= c <= 0xbf && (a == 0xe0 ==> 0xa0 <= b)
    requires (a == 0xed ==> b <= 0x9f)
    ensures var code := Join(Join(a - 0xe0, b), c); Scalar(code) && Encode(code) == [a, b, c]
  {
    SplitJoin(a - 0xe0, b);
    SplitJoin(Join(a - 0xe0, b), c);
  }

  lemma EncodeFour(a: Byte, b: Byte, c: Byte, d: Byte)
    requires 0xf0 <= a <= 0xf4 && 0x80 <= b <= 0xbf && 0x80 <= c <= 0xbf && 0x80 <= d <= 0xbf
    requires (a == 0xf0 ==> 0x90 <= b) && (a == 0xf4 ==> b <= 0x8f)
    ensures var code := Join(Join(Join(a - 0xf0, b), c), d); Scalar(code) && Encode(code) == [a, b, c, d]
  {
    SplitJoin(a - 0xf0, b);
    SplitJoin(Join(a - 0xf0, b), c);
    SplitJoin(Join(Join(a - 0xf0, b), c), d);
  }

  /** The number of UTF-16 code units of a rune. */
  function Utf16Units(code: int): nat {
    if code > 0xffff then 2 else 1
  }
}
