/** Bytes, and a text as the concatenation of its lines. */
module Text {
  type Byte = x: int | 0 <= x < 256

  const NEWLINE: Byte := 10

  function Concat(lines: seq<seq<Byte>>): seq<Byte> {
    if lines == [] then [] else Concat(lines[..|lines| - 1]) + lines[|lines| - 1]
  }

  /** The byte offset at which line `i` begins. */
  ghost function LineStart(lines: seq<seq<Byte>>, i: nat): nat
    requires i <= |lines|
  {
    |Concat(lines[..i])|
  }

  /** A nonempty line whose only newline, if any, is its last byte. */
  ghost predicate IsLine(line: seq<Byte>) {
    line != [] && forall i | 0 <= i < |line| - 1 :: line[i] != NEWLINE
  }

  /** `lines` is the text cut after each newline. */
  ghost predicate IsSplit(text: seq<Byte>, lines: seq<seq<Byte>>) {
    && Concat(lines) == text
    && (forall i | 0 <= i < |lines| :: IsLine(lines[i]))
    && (forall i | 0 <= i < |lines| - 1 :: lines[i][|lines[i]| - 1] == NEWLINE)
  }

  ghost predicate IsSplitAt(text: seq<Byte>, lines: seq<seq<Byte>>, offsets: seq<nat>) {
    && IsSplit(text, lines)
    && |offsets| == |lines| + 1
    && forall i | 0 <= i < |offsets| :: offsets[i] == LineStart(lines, i)
  }

  lemma ConcatPush(lines: seq<seq<Byte>>, line: seq<Byte>)
    ensures Concat(lines + [line]) == Concat(lines) + line
  {
    assert (lines + [line])[..|lines|] == lines;
  }

  lemma ConcatPrefix(lines: seq<seq<Byte>>, i: nat)
    requires i < |lines|
    ensures Concat(lines[..i + 1]) == Concat(lines[..i]) + lines[i]
  {
    assert lines[..i + 1][..i] == lines[..i];
  }

  lemma SliceOfPrefix(a: seq<Byte>, b: seq<Byte>, s: nat, e: nat)
    requires s <= e <= |a|
    ensures (a + b)[s..e] == a[s..e]
  {
  }

  /** Line `i` is the text between its own start and the next one's. */
  lemma {:induction false} LineAt(lines: seq<seq<Byte>>, i: nat)
    requires i < |lines|
    ensures LineStart(lines, i + 1) == LineStart(lines, i) + |lines[i]| <= |Concat(lines)|
    ensures Concat(lines)[LineStart(lines, i)..LineStart(lines, i + 1)] == lines[i]
    decreases |lines|
  {
    ConcatPrefix(lines, i);
    if i == |lines| - 1 {
      assert lines[..i + 1] == lines;
    } else {
      var init := lines[..|lines| - 1];
      LineAt(init, i);
      assert init[..i] == lines[..i] && init[..i + 1] == lines[..i + 1];
      var s, e := LineStart(lines, i), LineStart(lines, i + 1);
      SliceOfPrefix(Concat(init), lines[|lines| - 1], s, e);
    }
  }

  /** A text has one split only. */
  lemma {:induction false} SplitUnique(text: seq<Byte>, l1: seq<seq<Byte>>, l2: seq<seq<Byte>>)
    requires IsSplit(text, l1) && IsSplit(text, l2)
    ensures l1 == l2
    decreases |l1|
  {
    if l1 != [] && l2 != [] {
      var i1, i2 := l1[..|l1| - 1], l2[..|l2| - 1];
      var e1, e2 := l1[|l1| - 1], l2[|l2| - 1];
      LastNoShorter(text, l1, l2);
      LastNoShorter(text, l2, l1);
      assert |Concat(i1)| == |text| - |e1|;
      assert e1 == text[|text| - |e1|..] == e2;
      assert Concat(i1) == text[..|text| - |e1|] == Concat(i2);
      SplitUnique(Concat(i1), i1, i2);
      assert l1 == i1 + [e1] && l2 == i2 + [e2];
    }
  }

  /** The last line is the suffix after the last newline that is not the final byte. */
  lemma LastLine(text: seq<Byte>, lines: seq<seq<Byte>>, i: int)
    requires IsSplit(text, lines) && lines != []
    ensures |lines[|lines| - 1]| <= |text|
    ensures |text| - |lines[|lines| - 1]| <= i < |text| - 1 ==> text[i] != NEWLINE
    ensures 0 <= i == |text| - |lines[|lines| - 1]| - 1 ==> text[i] == NEWLINE
  {
    var init, last := lines[..|lines| - 1], lines[|lines| - 1];
    assert text == Concat(init) + last;
    if |text| - |last| <= i < |text| - 1 {
      assert text[i] == last[i - |Concat(init)|];
    }
    if init != [] {
      var prev := init[|init| - 1];
      assert prev == lines[|lines| - 2];
    }
  }

  lemma LastNoShorter(text: seq<Byte>, l1: seq<seq<Byte>>, l2: seq<seq<Byte>>)
    requires IsSplit(text, l1) && IsSplit(text, l2) && l1 != [] && l2 != []
    ensures |l1[|l1| - 1]| >= |l2[|l2| - 1]|
  {
    LastLine(text, l1, |text| - |l1[|l1| - 1]| - 1);
    LastLine(text, l2, |text| - |l1[|l1| - 1]| - 1);
  }
}
