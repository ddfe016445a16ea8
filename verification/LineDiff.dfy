/** Byte-range edits at line granularity: internal/diff/diff.go around the search of module Myers. */
module LineDiff {
  import opened Text
  import opened EditGraph
  import Myers

  /** Replace the half-open byte range [start, end) of the "before" text by `text`. */
  datatype Edit = Edit(start: nat, end: nat, text: seq<Byte>)

  /** The edits are in document order and stay inside a text of the given length. */
  ghost predicate Ordered(edits: seq<Edit>, length: nat) {
    && (forall i | 0 <= i < |edits| :: edits[i].start <= edits[i].end <= length)
    && (forall i, j | 0 <= i < j < |edits| :: edits[i].end <= edits[j].start)
  }

  /** How much of the text the edits account for: the end of the last one. */
  ghost function Covered(edits: seq<Edit>): nat {
    if edits == [] then 0 else edits[|edits| - 1].end
  }

  /** The text up to the end of the last edit, with every edit made. */
  ghost function Applied(text: seq<Byte>, edits: seq<Edit>): seq<Byte>
    requires Ordered(edits, |text|)
  {
    if edits == [] then [] else
      var init, last := edits[..|edits| - 1], edits[|edits| - 1];
      Applied(text, init) + text[Covered(init)..last.start] + last.text
  }

  /** The result of making every edit, copying what lies between them. */
  ghost function Apply(text: seq<Byte>, edits: seq<Edit>): seq<Byte>
    requires Ordered(edits, |text|)
  {
    Applied(text, edits) + text[Covered(edits)..]
  }

  /** Every edit changes something, lies on line boundaries, and leaves a line between itself and the next. */
  ghost predicate LineEdits(edits: seq<Edit>, offsets: seq<nat>) {
    && (forall i | 0 <= i < |edits| ::
          && edits[i].start <= edits[i].end
          && edits[i].start in offsets && edits[i].end in offsets
          && (edits[i].start < edits[i].end || edits[i].text != []))
    && (forall i, j | 0 <= i < j < |edits| :: edits[i].end < edits[j].start)
  }

  // -------------------------------------------------------------------- splitting

  method SplitLines(text: seq<Byte>) returns (lines: seq<seq<Byte>>, offsets: seq<nat>)
    ensures IsSplitAt(text, lines, offsets)
  {
    lines, offsets := [], [0];
    var start := 0;
    for i := 0 to |text|
      invariant start <= i && forall j | start <= j < i :: text[j] != NEWLINE
      invariant WholeLines(text[..start], lines, offsets)
    {
      if text[i] == NEWLINE {
        CutLine(text[..start], lines, offsets, text[start..i + 1]);
        assert text[..i + 1] == text[..start] + text[start..i + 1];
        lines := lines + [text[start..i + 1]];
        start := i + 1;
        offsets := offsets + [start];
      }
    }
    if start < |text| {
      CutLine(text[..start], lines, offsets, text[start..]);
      lines := lines + [text[start..]];
      offsets := offsets + [|text|];
    }
    assert text == text[..start] + text[start..];
  }

  /** A split every line of which ends in a newline. */
  ghost predicate WholeLines(text: seq<Byte>, lines: seq<seq<Byte>>, offsets: seq<nat>) {
    && IsSplitAt(text, lines, offsets)
    && forall i | 0 <= i < |lines| :: lines[i][|lines[i]| - 1] == NEWLINE
  }

  /** One more line extends the split of what precedes it. */
  lemma CutLine(text: seq<Byte>, lines: seq<seq<Byte>>, offsets: seq<nat>, line: seq<Byte>)
    requires WholeLines(text, lines, offsets) && IsLine(line)
    ensures IsSplitAt(text + line, lines + [line], offsets + [|text| + |line|])
    ensures line[|line| - 1] == NEWLINE ==> WholeLines(text + line, lines + [line], offsets + [|text| + |line|])
  {
    var more := lines + [line];
    ConcatPush(lines, line);
    forall i | 0 <= i < |offsets| + 1 ensures (offsets + [|text| + |line|])[i] == LineStart(more, i) {
      assert more[..i] == if i < |offsets| then lines[..i] else more;
    }
  }

  // -------------------------------------------------------- from the script to edits

  datatype Pending = Closed | Open(start: nat, end: nat)

  /** The edits once the pending one, if any, is closed. */
  function Flushed(edits: seq<Edit>, pending: Pending, lines: seq<seq<Byte>>): seq<Edit> {
    if pending.Closed? then edits else edits + [Edit(pending.start, pending.end, Concat(lines))]
  }

  /** Where copying resumes: the start of the pending edit, or else the current offset `here`. */
  ghost function CopyTo(pending: Pending, here: nat): nat {
    if pending.Closed? then here else pending.start
  }

  /** Making the edits, copying up to `upto` and adding `more` yields `target`. */
  ghost predicate Produces(text: seq<Byte>, edits: seq<Edit>, upto: nat, more: seq<Byte>, target: seq<Byte>) {
    && Ordered(edits, |text|) && Covered(edits) <= upto <= |text|
    && Applied(text, edits) + text[Covered(edits)..upto] + more == target
  }

  lemma AppliedPush(text: seq<Byte>, edits: seq<Edit>, e: Edit)
    requires Ordered(edits, |text|) && Covered(edits) <= e.start <= e.end <= |text|
    ensures Ordered(edits + [e], |text|)
    ensures Covered(edits + [e]) == e.end
    ensures Applied(text, edits + [e]) == Applied(text, edits) + text[Covered(edits)..e.start] + e.text
  {
    var more := edits + [e];
    forall i, j | 0 <= i < j < |more| ensures more[i].end <= more[j].start {
      if j == |edits| {
        assert edits[i].end <= edits[|edits| - 1].end;
      }
    }
    assert more[..|edits|] == edits;
  }

  lemma ProducesFlush(text: seq<Byte>, edits: seq<Edit>, e: Edit, target: seq<Byte>)
    requires Produces(text, edits, e.start, e.text, target) && e.start <= e.end <= |text|
    ensures Produces(text, edits + [e], e.end, [], target)
  {
    AppliedPush(text, edits, e);
    var out := Applied(text, edits + [e]);
    assert out == target;
    assert out + text[e.end..e.end] + [] == out;
  }

  lemma ProducesCopy(text: seq<Byte>, edits: seq<Edit>, upto: nat, next: nat, target: seq<Byte>)
    requires Produces(text, edits, upto, [], target) && upto <= next <= |text|
    ensures Produces(text, edits, next, [], target + text[upto..next])
  {
    var c := Covered(edits);
    assert text[c..next] == text[c..upto] + text[upto..next];
    CopyMore(Applied(text, edits), text[c..upto], text[upto..next]);
  }

  lemma CopyMore(a: seq<Byte>, b: seq<Byte>, c: seq<Byte>)
    ensures a + (b + c) + [] == a + b + [] + c
  {
  }

  /** The ops so far lead to byte `here` of the text, a line boundary, and produce `target`. */
  ghost predicate Progress(text: seq<Byte>, offsets: seq<nat>, edits: seq<Edit>, pending: Pending,
                           lines: seq<seq<Byte>>, here: nat, target: seq<Byte>)
  {
    var upto := CopyTo(pending, here);
    && upto in offsets && here in offsets && upto <= here <= |text|
    && LineEdits(edits, offsets) && (edits != [] ==> Covered(edits) < upto)
    && (pending.Closed? ==> lines == [])
    && (pending.Open? ==> pending.end == here && (upto < here || Concat(lines) != []))
    && Produces(text, edits, upto, Concat(lines), target)
  }

  lemma LineEditsPush(edits: seq<Edit>, offsets: seq<nat>, e: Edit)
    requires LineEdits(edits, offsets) && (edits != [] ==> Covered(edits) < e.start)
    requires e.start <= e.end && e.start in offsets && e.end in offsets && (e.start < e.end || e.text != [])
    ensures LineEdits(edits + [e], offsets)
  {
    var more := edits + [e];
    forall i, j | 0 <= i < j < |more| ensures more[i].end < more[j].start {
      if j == |edits| {
        assert edits[i].end <= edits[|edits| - 1].end;
      }
    }
  }

  /** Closing the pending edit, if there is one, keeps what is known. */
  lemma FlushKeeps(text: seq<Byte>, offsets: seq<nat>, edits: seq<Edit>, pending: Pending,
                   lines: seq<seq<Byte>>, here: nat, target: seq<Byte>)
    requires Progress(text, offsets, edits, pending, lines, here, target)
    ensures LineEdits(Flushed(edits, pending, lines), offsets)
    ensures Produces(text, Flushed(edits, pending, lines), here, [], target)
  {
    if pending.Open? {
      var e := Edit(pending.start, pending.end, Concat(lines));
      LineEditsPush(edits, offsets, e);
      ProducesFlush(text, edits, e, target);
    }
  }

  lemma OffsetStep(text: seq<Byte>, a: seq<seq<Byte>>, offsets: seq<nat>, x: int)
    requires IsSplitAt(text, a, offsets) && 0 <= x < |a|
    ensures offsets[x] < offsets[x + 1] <= |text| && text[offsets[x]..offsets[x + 1]] == a[x]
  {
    LineAt(a, x);
  }

  /** The locals of the conversion loop. */
  datatype State = State(edits: seq<Edit>, pending: Pending, lines: seq<seq<Byte>>, lastAEnd: int)

  /** The loop invariant: the ops so far have consumed `x` lines of the text and produced `y` lines of `b`. */
  ghost predicate Consumed(text: seq<Byte>, offsets: seq<nat>, b: seq<seq<Byte>>, s: State, x: int, y: int) {
    && 0 <= x < |offsets| && 0 <= y <= |b|
    && (s.pending.Closed? ==> s.lastAEnd == x)
    && Progress(text, offsets, s.edits, s.pending, s.lines, offsets[x], Concat(b[..y]))
  }

  /** The op is a legal next step at line `x` of `a` and line `y` of `b`. */
  ghost predicate Fits(op: Op, a: seq<seq<Byte>>, b: seq<seq<Byte>>, x: int, y: int) {
    match op
    case Equal(i, j) => i == x && j == y && Match(a, b, x, y)
    case Delete(i) => i == x < |a|
    case Insert(j) => j == y < |b|
  }

  function AfterX(op: Op, x: int): int { if op.Insert? then x else x + 1 }
  function AfterY(op: Op, y: int): int { if op.Delete? then y else y + 1 }

  lemma NextOp(a: seq<seq<Byte>>, b: seq<seq<Byte>>, ops: seq<Op>, i: nat, x: int, y: int)
    requires i < |ops| && Transforms(a, b, ops[i..], x, y)
    ensures Fits(ops[i], a, b, x, y) && Transforms(a, b, ops[i + 1..], AfterX(ops[i], x), AfterY(ops[i], y))
    ensures ops[i] in ops
  {
    assert ops[i..][1..] == ops[i + 1..];
  }

  lemma NothingConsumed(text: seq<Byte>, a: seq<seq<Byte>>, offsets: seq<nat>, b: seq<seq<Byte>>)
    requires IsSplitAt(text, a, offsets)
    ensures Consumed(text, offsets, b, State([], Closed, [], 0), 0, 0)
  {
    assert offsets[0] == 0 && 0 in offsets;
    assert text[0..0] == [];
  }

  /** A kept line closes any pending edit and is copied. */
  lemma EqualKeeps(text: seq<Byte>, a: seq<seq<Byte>>, offsets: seq<nat>, b: seq<seq<Byte>>, s: State, x: int, y: int)
    requires IsSplitAt(text, a, offsets) && Consumed(text, offsets, b, s, x, y) && Match(a, b, x, y)
    ensures Consumed(text, offsets, b, State(Flushed(s.edits, s.pending, s.lines), Closed, [], x + 1), x + 1, y + 1)
  {
    OffsetStep(text, a, offsets, x);
    ConcatPrefix(b, y);
    var target := Concat(b[..y]);
    FlushKeeps(text, offsets, s.edits, s.pending, s.lines, offsets[x], target);
    ProducesCopy(text, Flushed(s.edits, s.pending, s.lines), offsets[x], offsets[x + 1], target);
  }

  /** A deleted line opens a pending edit or extends it. */
  lemma DeleteKeeps(text: seq<Byte>, a: seq<seq<Byte>>, offsets: seq<nat>, b: seq<seq<Byte>>, s: State, x: int, y: int)
    requires IsSplitAt(text, a, offsets) && Consumed(text, offsets, b, s, x, y) && x < |a|
    ensures Consumed(text, offsets, b, s.(pending := Open(CopyTo(s.pending, offsets[x]), offsets[x + 1])), x + 1, y)
  {
    OffsetStep(text, a, offsets, x);
  }

  /** An inserted line opens a pending edit or adds to it. */
  lemma InsertKeeps(text: seq<Byte>, offsets: seq<nat>, b: seq<seq<Byte>>, s: State, x: int, y: int)
    requires Consumed(text, offsets, b, s, x, y) && y < |b| && b[y] != []
    ensures
      var pending' := Open(CopyTo(s.pending, offsets[x]), offsets[x]);
      Consumed(text, offsets, b, s.(pending := pending', lines := s.lines + [b[y]]), x, y + 1)
  {
    ConcatPrefix(b, y);
    ConcatPush(s.lines, b[y]);
    var c := Applied(text, s.edits) + text[Covered(s.edits)..CopyTo(s.pending, offsets[x])];
    assert c + (Concat(s.lines) + b[y]) == c + Concat(s.lines) + b[y];
  }

  // --------------------------------------------------------- edits are runs of changes

  /** How many lines of `a`, and of `b`, the first `n` ops account for. */
  ghost function XAt(ops: seq<Op>, n: nat): int
    requires n <= |ops|
  {
    if n == 0 then 0 else AfterX(ops[n - 1], XAt(ops, n - 1))
  }

  ghost function YAt(ops: seq<Op>, n: nat): int
    requires n <= |ops|
  {
    if n == 0 then 0 else AfterY(ops[n - 1], YAt(ops, n - 1))
  }

  /** The ops from `from` up to `to`. */
  datatype Block = Block(from: nat, to: nat)

  ghost predicate AllChanges(ops: seq<Op>, from: nat, to: nat) {
    to <= |ops| && forall n | from <= n < to :: !ops[n].Equal?
  }

  /** A longest run of deletions and insertions: what surrounds it, if anything, is kept. */
  ghost predicate IsRun(ops: seq<Op>, c: Block) {
    && c.from < c.to <= |ops| && AllChanges(ops, c.from, c.to)
    && (c.from == 0 || ops[c.from - 1].Equal?) && (c.to == |ops| || ops[c.to].Equal?)
  }

  /** The edit replaces the lines of `a` that the run accounts for by those of `b` that it accounts for. */
  ghost predicate EditsRun(e: Edit, ops: seq<Op>, offsets: seq<nat>, b: seq<seq<Byte>>, c: Block) {
    && c.from <= c.to <= |ops| && 0 <= XAt(ops, c.from) < |offsets| && 0 <= XAt(ops, c.to) < |offsets|
    && 0 <= YAt(ops, c.from) <= YAt(ops, c.to) <= |b|
    && e == Edit(offsets[XAt(ops, c.from)], offsets[XAt(ops, c.to)], Concat(b[YAt(ops, c.from)..YAt(ops, c.to)]))
  }

  /** The change at `n` is in one of the runs. */
  ghost predicate InSome(blocks: seq<Block>, n: nat) {
    exists k :: 0 <= k < |blocks| && blocks[k].from <= n < blocks[k].to
  }

  /** One edit for each run, in order, up to op `upto`. */
  ghost predicate EditsRuns(edits: seq<Edit>, ops: seq<Op>, offsets: seq<nat>, b: seq<seq<Byte>>, blocks: seq<Block>,
                            upto: nat) {
    && upto <= |ops| && |blocks| == |edits|
    && (forall k {:trigger EditsNth(edits, ops, offsets, b, blocks, k)} | 0 <= k < |edits| ::
          EditsNth(edits, ops, offsets, b, blocks, k))
    && (forall n {:trigger InSome(blocks, n)} | 0 <= n < upto && !ops[n].Equal? :: InSome(blocks, n))
  }

  ghost predicate EditsNth(edits: seq<Edit>, ops: seq<Op>, offsets: seq<nat>, b: seq<seq<Byte>>, blocks: seq<Block>,
                           k: nat) {
    k < |edits| && k < |blocks| && IsRun(ops, blocks[k]) && EditsRun(edits[k], ops, offsets, b, blocks[k])
  }

  /** The script up to op `n` has been turned into edits, and its changes from `from` on into the pending one. */
  ghost predicate Grouped(ops: seq<Op>, n: nat, offsets: seq<nat>, b: seq<seq<Byte>>, s: State, blocks: seq<Block>,
                          from: nat) {
    && from <= n <= |ops| && EditsRuns(s.edits, ops, offsets, b, blocks, from)
    && AllChanges(ops, from, n) && (from == 0 || ops[from - 1].Equal?)
    && (s.pending.Closed? <==> from == n)
    && 0 <= XAt(ops, from) < |offsets| && 0 <= XAt(ops, n) < |offsets| && 0 <= YAt(ops, from) <= YAt(ops, n) <= |b|
    && s.lines == b[YAt(ops, from)..YAt(ops, n)]
    && (s.pending.Open? ==> s.pending == Open(offsets[XAt(ops, from)], offsets[XAt(ops, n)]))
  }

  lemma EditsRunsPush(edits: seq<Edit>, ops: seq<Op>, offsets: seq<nat>, b: seq<seq<Byte>>, blocks: seq<Block>,
                      e: Edit, c: Block)
    requires EditsRuns(edits, ops, offsets, b, blocks, c.from) && IsRun(ops, c) && EditsRun(e, ops, offsets, b, c)
    ensures EditsRuns(edits + [e], ops, offsets, b, blocks + [c], c.to)
  {
    var more := blocks + [c];
    forall k | 0 <= k < |edits + [e]| ensures EditsNth(edits + [e], ops, offsets, b, more, k) {
      assert k < |edits| ==> EditsNth(edits, ops, offsets, b, blocks, k);
    }
    forall n | 0 <= n < c.to && !ops[n].Equal? ensures InSome(more, n) {
      if n < c.from {
        assert InSome(blocks, n);
        var k :| 0 <= k < |blocks| && blocks[k].from <= n < blocks[k].to;
        assert more[k] == blocks[k];
      } else {
        assert more[|blocks|] == c;
      }
    }
  }

  /** Closing the pending edit closes a run. */
  lemma FlushGroups(ops: seq<Op>, n: nat, offsets: seq<nat>, b: seq<seq<Byte>>, s: State, blocks: seq<Block>, from: nat)
    returns (blocks': seq<Block>)
    requires Grouped(ops, n, offsets, b, s, blocks, from) && (n == |ops| || ops[n].Equal?)
    ensures EditsRuns(Flushed(s.edits, s.pending, s.lines), ops, offsets, b, blocks', n)
  {
    blocks' := blocks;
    if s.pending.Open? {
      var e := Edit(s.pending.start, s.pending.end, Concat(s.lines));
      EditsRunsPush(s.edits, ops, offsets, b, blocks, e, Block(from, n));
      blocks' := blocks + [Block(from, n)];
    }
  }

  /** The locals after one op, at line `x` of the text and line `y` of `b`. */
  ghost function Converted(op: Op, offsets: seq<nat>, b: seq<seq<Byte>>, s: State, x: int, y: int): State
    requires 0 <= x < |offsets| && (op.Insert? ==> 0 <= y < |b|) && (op.Delete? ==> x + 1 < |offsets|)
  {
    match op
    case Equal(_, _) => State(Flushed(s.edits, s.pending, s.lines), Closed, [], x + 1)
    case Delete(_) => s.(pending := Open(CopyTo(s.pending, offsets[x]), offsets[x + 1]))
    case Insert(_) => s.(pending := Open(CopyTo(s.pending, offsets[x]), offsets[x]), lines := s.lines + [b[y]])
  }

  lemma NothingGrouped(ops: seq<Op>, offsets: seq<nat>, b: seq<seq<Byte>>)
    requires |offsets| > 0
    ensures Grouped(ops, 0, offsets, b, State([], Closed, [], 0), [], 0)
  {
  }

  /** A kept line closes the pending run. */
  lemma EqualGroups(ops: seq<Op>, n: nat, offsets: seq<nat>, b: seq<seq<Byte>>, s: State, blocks: seq<Block>, from: nat)
    returns (blocks': seq<Block>)
    requires Grouped(ops, n, offsets, b, s, blocks, from) && n < |ops| && ops[n].Equal?
    requires XAt(ops, n) + 1 < |offsets| && YAt(ops, n) < |b|
    ensures Grouped(ops, n + 1, offsets, b, Converted(ops[n], offsets, b, s, XAt(ops, n), YAt(ops, n)), blocks', n + 1)
  {
    blocks' := FlushGroups(ops, n, offsets, b, s, blocks, from);
    var y := YAt(ops, n) + 1;
    assert b[y..y] == [];
  }

  /** A deleted line extends it. */
  lemma DeleteGroups(ops: seq<Op>, n: nat, offsets: seq<nat>, b: seq<seq<Byte>>, s: State, blocks: seq<Block>,
                     from: nat)
    requires Grouped(ops, n, offsets, b, s, blocks, from) && n < |ops| && ops[n].Delete? && XAt(ops, n) + 1 < |offsets|
    ensures Grouped(ops, n + 1, offsets, b, Converted(ops[n], offsets, b, s, XAt(ops, n), YAt(ops, n)), blocks, from)
  {
  }

  /** So does an inserted one. */
  lemma InsertGroups(ops: seq<Op>, n: nat, offsets: seq<nat>, b: seq<seq<Byte>>, s: State, blocks: seq<Block>,
                     from: nat)
    requires Grouped(ops, n, offsets, b, s, blocks, from) && n < |ops| && ops[n].Insert? && YAt(ops, n) < |b|
    ensures Grouped(ops, n + 1, offsets, b, Converted(ops[n], offsets, b, s, XAt(ops, n), YAt(ops, n)), blocks, from)
  {
    var y := YAt(ops, n);
    assert b[YAt(ops, from)..y + 1] == b[YAt(ops, from)..y] + [b[y]];
  }

  lemma GroupNext(ops: seq<Op>, n: nat, a: seq<seq<Byte>>, offsets: seq<nat>, b: seq<seq<Byte>>, s: State,
                  blocks: seq<Block>, from: nat)
    returns (blocks': seq<Block>, from': nat)
    requires Grouped(ops, n, offsets, b, s, blocks, from) && n < |ops| && |offsets| == |a| + 1
    requires Fits(ops[n], a, b, XAt(ops, n), YAt(ops, n))
    ensures Grouped(ops, n + 1, offsets, b, Converted(ops[n], offsets, b, s, XAt(ops, n), YAt(ops, n)), blocks', from')
  {
    blocks', from' := blocks, from;
    match ops[n] {
      case Equal(_, _) =>
        blocks' := EqualGroups(ops, n, offsets, b, s, blocks, from);
        from' := n + 1;
      case Delete(_) => DeleteGroups(ops, n, offsets, b, s, blocks, from);
      case Insert(_) => InsertGroups(ops, n, offsets, b, s, blocks, from);
    }
  }

  /** Where the loop stands after `n` ops. */
  ghost predicate Converting(text: seq<Byte>, a: seq<seq<Byte>>, offsets: seq<nat>, b: seq<seq<Byte>>, ops: seq<Op>,
                             n: nat,
                             s: State, blocks: seq<Block>, from: nat) {
    && n <= |ops| && Transforms(a, b, ops[n..], XAt(ops, n), YAt(ops, n))
    && Consumed(text, offsets, b, s, XAt(ops, n), YAt(ops, n)) && Grouped(ops, n, offsets, b, s, blocks, from)
  }

  method ConvertOp(op: Op, afterLines: seq<seq<Byte>>, beforeOffsets: seq<nat>, s: State,
                   ghost text: seq<Byte>, ghost a: seq<seq<Byte>>, ghost x: int, ghost y: int)
    returns (s': State)
    requires IsSplitAt(text, a, beforeOffsets) && forall i | 0 <= i < |afterLines| :: afterLines[i] != []
    requires Fits(op, a, afterLines, x, y) && Consumed(text, beforeOffsets, afterLines, s, x, y)
    ensures Consumed(text, beforeOffsets, afterLines, s', AfterX(op, x), AfterY(op, y))
    ensures s' == Converted(op, beforeOffsets, afterLines, s, x, y)
  {
    match op {
      case Equal(aIdx, _) =>
        EqualKeeps(text, a, beforeOffsets, afterLines, s, x, y);
        s' := State(Flushed(s.edits, s.pending, s.lines), Closed, [], aIdx + 1);
      case Delete(aIdx) =>
        DeleteKeeps(text, a, beforeOffsets, afterLines, s, x, y);
        if s.pending.Closed? {
          s' := s.(pending := Open(beforeOffsets[aIdx], beforeOffsets[aIdx + 1]));
        } else {
          s' := s.(pending := Open(s.pending.start, beforeOffsets[aIdx + 1]));
        }
      case Insert(bIdx) =>
        InsertKeeps(text, beforeOffsets, afterLines, s, x, y);
        s' := s.(lines := s.lines + [afterLines[bIdx]]);
        if s.pending.Closed? {
          s' := s'.(pending := Open(beforeOffsets[s.lastAEnd], beforeOffsets[s.lastAEnd]));
        }
    }
  }

  /** For some runs of changes. */
  ghost predicate Converts(text: seq<Byte>, a: seq<seq<Byte>>, offsets: seq<nat>, b: seq<seq<Byte>>, ops: seq<Op>,
                           n: nat,
                           s: State) {
    exists blocks, from :: Converting(text, a, offsets, b, ops, n, s, blocks, from)
  }

  lemma NothingConverted(text: seq<Byte>, a: seq<seq<Byte>>, offsets: seq<nat>, b: seq<seq<Byte>>, ops: seq<Op>)
    requires IsSplitAt(text, a, offsets) && Transforms(a, b, ops, 0, 0)
    ensures Converts(text, a, offsets, b, ops, 0, State([], Closed, [], 0))
  {
    NothingConsumed(text, a, offsets, b);
    NothingGrouped(ops, offsets, b);
    assert ops[0..] == ops;
    assert Converting(text, a, offsets, b, ops, 0, State([], Closed, [], 0), [], 0);
  }

  method ConvertNext(ops: seq<Op>, n: nat, afterLines: seq<seq<Byte>>, beforeOffsets: seq<nat>, s: State,
                     ghost text: seq<Byte>, ghost a: seq<seq<Byte>>)
    returns (s': State)
    requires IsSplitAt(text, a, beforeOffsets) && forall i | 0 <= i < |afterLines| :: afterLines[i] != []
    requires n < |ops| && Converts(text, a, beforeOffsets, afterLines, ops, n, s)
    ensures Converts(text, a, beforeOffsets, afterLines, ops, n + 1, s')
  {
    ghost var blocks, from :| Converting(text, a, beforeOffsets, afterLines, ops, n, s, blocks, from);
    NextOp(a, afterLines, ops, n, XAt(ops, n), YAt(ops, n));
    blocks, from := GroupNext(ops, n, a, beforeOffsets, afterLines, s, blocks, from);
    s' := ConvertOp(ops[n], afterLines, beforeOffsets, s, text, a, XAt(ops, n), YAt(ops, n));
    assert Converting(text, a, beforeOffsets, afterLines, ops, n + 1, s', blocks, from);
  }

  method ConvertOps(ops: seq<Op>, afterLines: seq<seq<Byte>>, beforeOffsets: seq<nat>,
                    ghost text: seq<Byte>, ghost a: seq<seq<Byte>>)
    returns (s: State)
    requires IsSplitAt(text, a, beforeOffsets) && Transforms(a, afterLines, ops, 0, 0)
    requires forall i | 0 <= i < |afterLines| :: afterLines[i] != []
    ensures Converts(text, a, beforeOffsets, afterLines, ops, |ops|, s)
  {
    s := State([], Closed, [], 0);
    NothingConverted(text, a, beforeOffsets, afterLines, ops);
    for i := 0 to |ops|
      invariant Converts(text, a, beforeOffsets, afterLines, ops, i, s)
    {
      s := ConvertNext(ops, i, afterLines, beforeOffsets, s, text, a);
    }
  }

  lemma ConvertedAll(text: seq<Byte>, offsets: seq<nat>, s: State, target: seq<Byte>)
    requires Progress(text, offsets, s.edits, s.pending, s.lines, |text|, target)
    ensures
      var edits := Flushed(s.edits, s.pending, s.lines);
      LineEdits(edits, offsets) && Ordered(edits, |text|) && Apply(text, edits) == target
  {
    FlushKeeps(text, offsets, s.edits, s.pending, s.lines, |text|, target);
  }

  method EditsFromOps(ops: seq<Op>, afterLines: seq<seq<Byte>>, beforeOffsets: seq<nat>,
                      ghost text: seq<Byte>, ghost a: seq<seq<Byte>>)
    returns (edits: seq<Edit>, ghost blocks: seq<Block>)
    requires IsSplitAt(text, a, beforeOffsets) && Transforms(a, afterLines, ops, 0, 0)
    requires forall i | 0 <= i < |afterLines| :: afterLines[i] != []
    ensures LineEdits(edits, beforeOffsets) && Ordered(edits, |text|)
    ensures Apply(text, edits) == Concat(afterLines)
    ensures EditsRuns(edits, ops, beforeOffsets, afterLines, blocks, |ops|)
  {
    var s := ConvertOps(ops, afterLines, beforeOffsets, text, a);
    ghost var from;
    blocks, from :| Converting(text, a, beforeOffsets, afterLines, ops, |ops|, s, blocks, from);
    blocks := FlushGroups(ops, |ops|, beforeOffsets, afterLines, s, blocks, from);
    assert beforeOffsets[|a|] == |text| by { assert a[..|a|] == a; }
    assert afterLines[..|afterLines|] == afterLines;
    ConvertedAll(text, beforeOffsets, s, Concat(afterLines));
    edits := Flushed(s.edits, s.pending, s.lines);
  }

  // ------------------------------------------------------------------- the diff

  lemma {:induction false} NoCost(ops: seq<Op>)
    requires Cost(ops) == 0
    ensures forall op | op in ops :: op.Equal?
  {
    if ops != [] {
      NoCost(ops[1..]);
      assert ops == [ops[0]] + ops[1..];
    }
  }

  /** Equal sequences have a script that keeps everything. */
  lemma {:induction false} KeepAll<T>(a: seq<T>, x: nat) returns (ops: seq<Op>)
    requires x <= |a|
    ensures Transforms(a, a, ops, x, x) && Cost(ops) == 0
    decreases |a| - x
  {
    if x == |a| {
      ops := [];
    } else {
      var rest := KeepAll(a, x + 1);
      ops := [Equal(x, x)] + rest;
      assert ops[1..] == rest;
    }
  }

  /** How an answer of Lines came about: both splits, the edit script between them, and its runs of changes. */
  datatype Derivation = Derivation(a: seq<seq<Byte>>, offsets: seq<nat>, b: seq<seq<Byte>>, script: seq<Op>,
                                   runs: seq<Block>)

  /** The script leads from one split to the other, and no script has fewer deletions plus insertions. */
  ghost predicate Shortest(before: seq<Byte>, after: seq<Byte>, d: Derivation) {
    && IsSplitAt(before, d.a, d.offsets) && IsSplit(after, d.b)
    && Transforms(d.a, d.b, d.script, 0, 0)
    && forall other :: Transforms(d.a, d.b, other, 0, 0) ==> Cost(d.script) <= Cost(other)
  }

  /** The edits are the script's longest runs of changes, one each: nothing the script keeps is rewritten. */
  ghost predicate FromScript(edits: seq<Edit>, d: Derivation) {
    EditsRuns(edits, d.script, d.offsets, d.b, d.runs, |d.script|)
  }

  method Lines(before: seq<Byte>, after: seq<Byte>) returns (edits: seq<Edit>, ghost how: Derivation)
    ensures Shortest(before, after, how) && FromScript(edits, how)
    ensures LineEdits(edits, how.offsets) && Ordered(edits, |before|)
    ensures Apply(before, edits) == after
    ensures edits == [] <==> before == after
  {
    var beforeLines, beforeOffsets := SplitLines(before);
    var afterLines, _ := SplitLines(after);
    var ops := Myers.DiffLines(beforeLines, afterLines);
    ghost var runs;
    edits, runs := EditsFromOps(ops, afterLines, beforeOffsets, before, beforeLines);
    how := Derivation(beforeLines, beforeOffsets, afterLines, ops, runs);
    if before == after {
      SplitUnique(before, beforeLines, afterLines);
      var keep := KeepAll(beforeLines, 0);
      NoCost(ops);
      if edits != [] {
        RunHasChange(edits, how);
      }
    }
  }

  lemma RunHasChange(edits: seq<Edit>, how: Derivation)
    requires FromScript(edits, how) && edits != []
    ensures exists op | op in how.script :: !op.Equal?
  {
    assert EditsNth(edits, how.script, how.offsets, how.b, how.runs, 0);
    assert how.script[how.runs[0].from] in how.script;
  }

  // ------------------------------------------------------------- what the edits touch

  lemma {:induction false} CountsGrow(ops: seq<Op>, m: nat, n: nat)
    requires m <= n <= |ops|
    ensures XAt(ops, m) <= XAt(ops, n)
  {
    if m < n {
      CountsGrow(ops, m, n - 1);
    }
  }

  /** A script names its lines in order. */
  lemma {:induction false} NamesLine(a: seq<seq<Byte>>, b: seq<seq<Byte>>, ops: seq<Op>, n: nat, m: nat)
    requires m <= n < |ops| && Transforms(a, b, ops[m..], XAt(ops, m), YAt(ops, m))
    ensures Fits(ops[n], a, b, XAt(ops, n), YAt(ops, n))
    decreases n - m
  {
    NextOp(a, b, ops, m, XAt(ops, m), YAt(ops, m));
    if m < n {
      NamesLine(a, b, ops, n, m + 1);
    }
  }

  lemma {:induction false} OffsetsGrow(text: seq<Byte>, a: seq<seq<Byte>>, offsets: seq<nat>, i: int, j: int)
    requires IsSplitAt(text, a, offsets) && 0 <= i <= j <= |a|
    ensures offsets[i] <= offsets[j]
    decreases j
  {
    if i < j {
      OffsetsGrow(text, a, offsets, i, j - 1);
      OffsetStep(text, a, offsets, j - 1);
    }
  }

  /** Line `i` of the text lies inside the edit. */
  ghost predicate Covers(e: Edit, offsets: seq<nat>, i: int) {
    0 <= i < |offsets| - 1 && e.start <= offsets[i] && offsets[i + 1] <= e.end
  }

  /** Line `i` of the text and the edit have no byte in common. */
  ghost predicate Spares(e: Edit, offsets: seq<nat>, i: int) {
    0 <= i < |offsets| - 1 && (e.end <= offsets[i] || offsets[i + 1] <= e.start)
  }

  /** Every line the script keeps is spared by every edit, and every line it deletes is inside one. */
  lemma TouchesWhatChanged(before: seq<Byte>, after: seq<Byte>, edits: seq<Edit>, how: Derivation, n: nat)
    requires Shortest(before, after, how) && FromScript(edits, how) && n < |how.script|
    ensures how.script[n].Equal? ==> forall e | e in edits :: Spares(e, how.offsets, how.script[n].aIdx)
    ensures how.script[n].Delete? ==> exists e | e in edits :: Covers(e, how.offsets, how.script[n].aIdx)
  {
    var ops, offsets := how.script, how.offsets;
    assert ops[0..] == ops;
    NamesLine(how.a, how.b, ops, n, 0);
    if ops[n].Equal? {
      forall e | e in edits ensures Spares(e, offsets, ops[n].aIdx) {
        var k :| 0 <= k < |edits| && edits[k] == e;
        SparesKept(before, how, edits, k, n);
      }
    } else if ops[n].Delete? {
      assert InSome(how.runs, n);
      var k :| 0 <= k < |how.runs| && how.runs[k].from <= n < how.runs[k].to;
      CoversDeleted(before, how, edits, k, n);
      assert edits[k] in edits;
    }
  }

  lemma SparesKept(before: seq<Byte>, how: Derivation, edits: seq<Edit>, k: nat, n: nat)
    requires IsSplitAt(before, how.a, how.offsets) && FromScript(edits, how) && k < |edits| && n < |how.script|
    requires how.script[n].Equal? && Fits(how.script[n], how.a, how.b, XAt(how.script, n), YAt(how.script, n))
    ensures Spares(edits[k], how.offsets, how.script[n].aIdx)
  {
    var ops, c := how.script, how.runs[k];
    assert EditsNth(edits, ops, how.offsets, how.b, how.runs, k);
    if n < c.from {
      CountsGrow(ops, n + 1, c.from);
      OffsetsGrow(before, how.a, how.offsets, XAt(ops, n + 1), XAt(ops, c.from));
    } else {
      CountsGrow(ops, c.to, n);
      OffsetsGrow(before, how.a, how.offsets, XAt(ops, c.to), XAt(ops, n));
    }
  }

  lemma CoversDeleted(before: seq<Byte>, how: Derivation, edits: seq<Edit>, k: nat, n: nat)
    requires IsSplitAt(before, how.a, how.offsets) && FromScript(edits, how) && k < |edits| && n < |how.script|
    requires how.script[n].Delete? && Fits(how.script[n], how.a, how.b, XAt(how.script, n), YAt(how.script, n))
    requires how.runs[k].from <= n < how.runs[k].to
    ensures Covers(edits[k], how.offsets, how.script[n].aIdx)
  {
    var ops, c := how.script, how.runs[k];
    assert EditsNth(edits, ops, how.offsets, how.b, how.runs, k);
    CountsGrow(ops, c.from, n);
    CountsGrow(ops, n + 1, c.to);
    OffsetsGrow(before, how.a, how.offsets, XAt(ops, c.from), XAt(ops, n));
    OffsetsGrow(before, how.a, how.offsets, XAt(ops, n + 1), XAt(ops, c.to));
  }
}
