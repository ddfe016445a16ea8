/** Unit keys and the key table of one run: internal/index/unitkey.go. */
module UnitKeys {
  import opened Options
  import opened Paths

  /** What a package's files hold, names included; opaque to the index. */
  type Content = string

  /** Export data. */
  type Export = seq<nat>

  /** What type-checking a package produces. */
  datatype Checked = Checked(exported: Export, facts: seq<nat>)

  datatype FileStat = FileStat(size: nat, modTimeNanos: int)

  /** The recorded stat of every file of a package; empty when there is none. */
  type Files = map<string, FileStat>

  /**
   What the index is given: the byte hash, the hash of a package's content, the type-checker, and what
   files with a given stat hold. A hash is an unbounded number, so that a collision-free one exists.
   */
  datatype World = World(hash: seq<nat> -> nat, contentHash: Content -> nat,
                         check: (Content, map<Path, Export>) -> Checked, contentOf: Files -> Content)

  ghost predicate CollisionFree(w: World) {
    && (forall a, b :: w.hash(a) == w.hash(b) ==> a == b)
    && (forall a, b :: w.contentHash(a) == w.contentHash(b) ==> a == b)
  }

  // ---------------------------------------------------------------------- the key

  datatype DepExport = DepExport(path: Path, exportHash: nat)

  const FACTS_SCHEMA_VERSION: nat := 4

  function Bytes(p: Path): seq<nat> {
    seq(|p|, i requires 0 <= i < |p| => p[i] as nat)
  }

  /** The first `n` bytes of a number, lowest first; what does not fit in them stays in the last. */
  function Little(h: nat, n: nat): (r: seq<nat>)
    requires n > 0
    ensures |r| == n
  {
    if n == 1 then [h] else [h % 0x100] + Little(h / 0x100, n - 1)
  }

  /** PutUint64: eight bytes for every hash below 2^64. */
  function Word(h: nat): (r: seq<nat>)
    ensures |r| == 8
  {
    Little(h, 8)
  }

  /** One dependency in the hashed stream. */
  function Entry(p: Path, word: seq<nat>): seq<nat> {
    Bytes(p) + [0] + word + [0]
  }

  /** The schema version and the package's own hash. */
  function HeaderBytes(own: nat): seq<nat> {
    Little(FACTS_SCHEMA_VERSION, 2) + Word(own) + [0]
  }

  function HashAt(hashes: map<Path, nat>, p: Path): nat {
    if p in hashes then hashes[p] else 0
  }

  function Stream(own: nat, order: seq<Path>, hashes: map<Path, nat>): seq<nat> {
    if order == [] then HeaderBytes(own) else
      var last := order[|order| - 1];
      Stream(own, order[..|order| - 1], hashes) + Entry(last, Word(HashAt(hashes, last)))
  }

  /** The stream a unit key hashes: the dependencies in the order of their paths. */
  ghost function PreImage(own: nat, hashes: map<Path, nat>): seq<nat> {
    Stream(own, SortedOf(hashes.Keys), hashes)
  }

  ghost function UnitKey(w: World, own: nat, hashes: map<Path, nat>): nat {
    w.hash(PreImage(own, hashes))
  }

  /** `deps` lists `hashes`, each path once, in any order. */
  ghost predicate Lists(deps: seq<DepExport>, hashes: map<Path, nat>) {
    && (forall i | 0 <= i < |deps| :: deps[i].path in hashes && hashes[deps[i].path] == deps[i].exportHash)
    && (forall p | p in hashes :: exists i :: 0 <= i < |deps| && deps[i].path == p)
    && (forall i, j | 0 <= i < j < |deps| :: deps[i].path != deps[j].path)
  }

  /** The key depends on which dependencies there are and their hashes, not on the order they are listed in. */
  method ComputeUnitKey(w: World, own: nat, deps: seq<DepExport>, ghost hashes: map<Path, nat>) returns (key: nat)
    requires Lists(deps, hashes)
    ensures key == UnitKey(w, own, hashes)
  {
    var exportHash := Gather(deps, hashes);
    var sorted := SortByPath(deps, hashes);
    var stream := HeaderBytes(own);
    for n := 0 to |sorted|
      invariant stream == Stream(own, sorted[..n], hashes)
    {
      StreamNext(own, sorted, n, hashes);
      stream := stream + Entry(sorted[n], Word(HashAt(exportHash, sorted[n])));
    }
    assert sorted[..|sorted|] == sorted;
    key := w.hash(stream);
  }

  lemma StreamNext(own: nat, order: seq<Path>, n: nat, hashes: map<Path, nat>)
    requires n < |order|
    ensures Stream(own, order[..n + 1], hashes)
         == Stream(own, order[..n], hashes) + Entry(order[n], Word(HashAt(hashes, order[n])))
  {
    assert order[..n + 1][..n] == order[..n];
  }

  method SortByPath(deps: seq<DepExport>, ghost hashes: map<Path, nat>) returns (sorted: seq<Path>)
    requires Lists(deps, hashes)
    ensures sorted == SortedOf(hashes.Keys)
  {
    var paths := seq(|deps|, i requires 0 <= i < |deps| => deps[i].path);
    sorted := SortPaths(paths);
    SameOrder(deps, hashes, paths, sorted);
  }

  lemma SameOrder(deps: seq<DepExport>, hashes: map<Path, nat>, paths: seq<Path>, sorted: seq<Path>)
    requires Lists(deps, hashes) && |paths| == |deps| && forall i | 0 <= i < |deps| :: paths[i] == deps[i].path
    requires Sorted(sorted) && Elements(sorted) == Elements(paths)
    ensures sorted == SortedOf(hashes.Keys)
  {
    forall p | p in hashes ensures p in Elements(paths) {
      var i :| 0 <= i < |deps| && deps[i].path == p;
      assert paths[i] == p;
    }
    assert Elements(paths) == hashes.Keys;
    SortedUnique(sorted, SortedOf(hashes.Keys));
  }

  method Gather(deps: seq<DepExport>, ghost hashes: map<Path, nat>) returns (m: map<Path, nat>)
    requires Lists(deps, hashes)
    ensures m == hashes
  {
    m := map[];
    for n := 0 to |deps|
      invariant m.Keys <= hashes.Keys && forall p | p in m :: m[p] == hashes[p]
      invariant forall i | 0 <= i < n :: deps[i].path in m
    {
      m := m[deps[n].path := deps[n].exportHash];
    }
  }

  // ------------------------------------------------------- the stream can be read back

  /** Import paths hold no zero byte. */
  predicate Printable(p: Path) {
    0 as char !in p
  }

  /** A number can be read back from its bytes. */
  lemma {:induction false} LittleInjective(h: nat, k: nat, n: nat)
    requires n > 0 && Little(h, n) == Little(k, n)
    ensures h == k
  {
    if n == 1 {
      assert Little(h, n)[0] == h && Little(k, n)[0] == k;
    } else {
      var a, b := Little(h, n), Little(k, n);
      assert a[0] == h % 0x100 && b[0] == k % 0x100;
      assert a[1..] == Little(h / 0x100, n - 1) && b[1..] == Little(k / 0x100, n - 1);
      LittleInjective(h / 0x100, k / 0x100, n - 1);
    }
  }

  function Power(n: nat): nat { if n == 0 then 1 else 0x100 * Power(n - 1) }

  /** A number below 256^n has n bytes. */
  lemma {:induction false} LittleBytes(h: nat, n: nat)
    requires n > 0 && h < Power(n)
    ensures forall i | 0 <= i < n :: Little(h, n)[i] < 0x100
  {
    if n > 1 {
      LittleBytes(h / 0x100, n - 1);
    } else {
      assert Power(1) == 0x100 * Power(0);
    }
  }

  /** The parts of an entry at the end of a stream. */
  lemma EntryParts(s: seq<nat>, p: Path, word: seq<nat>)
    requires |word| == 8
    ensures
      var a, n := s + Entry(p, word), |s| + |p|;
      |a| == n + 10 && a[..|s|] == s && a[|s|..n] == Bytes(p) && a[n + 1..n + 9] == word
  {
  }

  /** The last entry of a stream, from its end: eight bytes between zeros, and a path that reaches back to a zero. */
  lemma LastEntry(s: seq<nat>, t: seq<nat>, p: Path, q: Path, h: seq<nat>, k: seq<nat>)
    requires s != [] && t != [] && s[|s| - 1] == 0 == t[|t| - 1] && Printable(p) && Printable(q) && |h| == |k| == 8
    requires s + Entry(p, h) == t + Entry(q, k)
    ensures s == t && p == q && h == k
  {
    EntryParts(s, p, h);
    EntryParts(t, q, k);
    SameLength(s, t, p, q, h, k);
    SameLength(t, s, q, p, k, h);
    BytesInjective(p, q);
  }

  lemma BytesInjective(p: string, q: string)
    requires Bytes(p) == Bytes(q)
    ensures p == q
  {
    forall i | 0 <= i < |p| ensures |q| == |p| && p[i] == q[i] {
      assert Bytes(p)[i] == p[i] as nat && Bytes(q)[i] == q[i] as nat;
    }
  }

  lemma SameLength(s: seq<nat>, t: seq<nat>, p: Path, q: Path, h: seq<nat>, k: seq<nat>)
    requires s != [] && s[|s| - 1] == 0 && Printable(q) && |h| == |k| == 8
    requires s + Entry(p, h) == t + Entry(q, k)
    ensures |q| <= |p|
  {
    var a, b := s + Entry(p, h), t + Entry(q, k);
    assert |a| == |s| + |p| + 10 && |b| == |t| + |q| + 10;
    if |p| < |q| {
      // The zero that ends `s` would be one of the characters of `q`.
      assert a[|s| - 1] == 0;
      NoZero(t, q, k, |s| - 1);
      assert false;
    }
  }

  lemma NoZero(t: seq<nat>, q: Path, k: seq<nat>, j: nat)
    requires Printable(q) && |t| <= j < |t| + |q|
    ensures (t + Entry(q, k))[j] != 0
  {
    assert (t + Entry(q, k))[j] == q[j - |t|] as nat;
    assert q[j - |t|] in q;
  }

  ghost predicate AllPrintable(paths: seq<Path>) {
    forall i | 0 <= i < |paths| :: Printable(paths[i])
  }

  /** A header and then one entry for each path. */
  function Entries(head: seq<nat>, order: seq<Path>, words: Path -> seq<nat>): seq<nat> {
    if order == [] then head else
      var last := order[|order| - 1];
      Entries(head, order[..|order| - 1], words) + Entry(last, words(last))
  }

  function WordsOf(hashes: map<Path, nat>): Path -> seq<nat> {
    (p: Path) => Word(HashAt(hashes, p))
  }

  lemma {:induction false} StreamIsEntries(own: nat, order: seq<Path>, hashes: map<Path, nat>)
    ensures Stream(own, order, hashes) == Entries(HeaderBytes(own), order, WordsOf(hashes))
  {
    if order != [] {
      StreamIsEntries(own, order[..|order| - 1], hashes);
    }
  }

  /** A header of eleven bytes that ends in a zero, and words of eight bytes. */
  ghost predicate Regular(head: seq<nat>, words: Path -> seq<nat>) {
    |head| == 11 && head[10] == 0 && forall p :: |words(p)| == 8
  }

  lemma {:induction false} EntriesShape(head: seq<nat>, order: seq<Path>, words: Path -> seq<nat>)
    requires Regular(head, words)
    ensures var s := Entries(head, order, words);
            |s| >= 11 && s[..11] == head && s[|s| - 1] == 0 && (|s| == 11 <==> order == [])
  {
    if order != [] {
      EntriesShape(head, order[..|order| - 1], words);
    }
  }

  lemma EntriesPush(head: seq<nat>, init: seq<Path>, last: Path, words: Path -> seq<nat>)
    ensures Entries(head, init + [last], words) == Entries(head, init, words) + Entry(last, words(last))
  {
    assert (init + [last])[..|init|] == init;
  }

  lemma LastRead(h1: seq<nat>, i1: seq<Path>, l1: Path, w1: Path -> seq<nat>,
                 h2: seq<nat>, i2: seq<Path>, l2: Path, w2: Path -> seq<nat>)
    requires Regular(h1, w1) && Regular(h2, w2) && Printable(l1) && Printable(l2)
    requires Entries(h1, i1 + [l1], w1) == Entries(h2, i2 + [l2], w2)
    ensures Entries(h1, i1, w1) == Entries(h2, i2, w2) && l1 == l2 && w1(l1) == w2(l2)
  {
    EntriesPush(h1, i1, l1, w1);
    EntriesPush(h2, i2, l2, w2);
    EntriesShape(h1, i1, w1);
    EntriesShape(h2, i2, w2);
    LastEntry(Entries(h1, i1, w1), Entries(h2, i2, w2), l1, l2, w1(l1), w2(l2));
  }

  /** The entries can be read back. */
  lemma {:induction false} EntriesInjective(h1: seq<nat>, o1: seq<Path>, w1: Path -> seq<nat>,
                                           h2: seq<nat>, o2: seq<Path>, w2: Path -> seq<nat>)
    requires Regular(h1, w1) && Regular(h2, w2) && AllPrintable(o1) && AllPrintable(o2)
    requires Entries(h1, o1, w1) == Entries(h2, o2, w2)
    ensures h1 == h2 && o1 == o2 && forall i | 0 <= i < |o1| :: w1(o1[i]) == w2(o1[i])
    decreases |o1|
  {
    HeadRead(h1, o1, w1, h2, o2, w2);
    if o1 != [] {
      var i1, l1 := SplitLast(o1);
      var i2, l2 := SplitLast(o2);
      LastRead(h1, i1, l1, w1, h2, i2, l2, w2);
      EntriesInjective(h1, i1, w1, h2, i2, w2);
    }
  }

  lemma SplitLast(s: seq<Path>) returns (init: seq<Path>, last: Path)
    requires s != []
    ensures s == init + [last]
  {
    init, last := s[..|s| - 1], s[|s| - 1];
  }

  lemma HeadRead(h1: seq<nat>, o1: seq<Path>, w1: Path -> seq<nat>, h2: seq<nat>, o2: seq<Path>, w2: Path -> seq<nat>)
    requires Regular(h1, w1) && Regular(h2, w2) && Entries(h1, o1, w1) == Entries(h2, o2, w2)
    ensures h1 == h2 && (o1 == [] <==> o2 == [])
  {
    EntriesShape(h1, o1, w1);
    EntriesShape(h2, o2, w2);
  }

  lemma HeaderInjective(a: nat, b: nat)
    requires HeaderBytes(a) == HeaderBytes(b)
    ensures a == b
  {
    assert HeaderBytes(a)[2..10] == Word(a) && HeaderBytes(b)[2..10] == Word(b);
    LittleInjective(a, b, 8);
  }

  ghost predicate SameAt(order: seq<Path>, m1: map<Path, nat>, m2: map<Path, nat>) {
    forall i | 0 <= i < |order| :: HashAt(m1, order[i]) == HashAt(m2, order[i])
  }

  /** So can the whole stream, byte for byte: own hash, paths and export hashes. */
  lemma StreamInjective(a: nat, o1: seq<Path>, m1: map<Path, nat>, b: nat, o2: seq<Path>, m2: map<Path, nat>)
    requires AllPrintable(o1) && AllPrintable(o2) && Stream(a, o1, m1) == Stream(b, o2, m2)
    ensures a == b && o1 == o2 && SameAt(o1, m1, m2)
  {
    StreamIsEntries(a, o1, m1);
    StreamIsEntries(b, o2, m2);
    EntriesInjective(HeaderBytes(a), o1, WordsOf(m1), HeaderBytes(b), o2, WordsOf(m2));
    HeaderInjective(a, b);
    forall i | 0 <= i < |o1| ensures HashAt(m1, o1[i]) == HashAt(m2, o1[i]) {
      LittleInjective(HashAt(m1, o1[i]), HashAt(m2, o1[i]), 8);
    }
  }

  ghost predicate AllBytes(s: seq<nat>) {
    forall i | 0 <= i < |s| :: s[i] < 0x100
  }

  ghost predicate PathOfBytes(p: Path) {
    forall i | 0 <= i < |p| :: (p[i] as int) < 0x100
  }

  lemma {:induction false} EntriesBytes(head: seq<nat>, order: seq<Path>, words: Path -> seq<nat>)
    requires AllBytes(head) && forall i | 0 <= i < |order| :: PathOfBytes(order[i]) && AllBytes(words(order[i]))
    ensures AllBytes(Entries(head, order, words))
  {
    if order != [] {
      EntriesBytes(head, order[..|order| - 1], words);
    }
  }

  /** With 64-bit hashes and paths of bytes, the stream is bytes. */
  lemma StreamBytes(own: nat, order: seq<Path>, hashes: map<Path, nat>)
    requires own < Power(8)
    requires forall i | 0 <= i < |order| :: HashAt(hashes, order[i]) < Power(8) && PathOfBytes(order[i])
    ensures AllBytes(Stream(own, order, hashes))
  {
    StreamIsEntries(own, order, hashes);
    LittleBytes(own, 8);
    assert Little(FACTS_SCHEMA_VERSION, 2) == [4, 0];
    forall i | 0 <= i < |order| ensures AllBytes(WordsOf(hashes)(order[i])) {
      LittleBytes(HashAt(hashes, order[i]), 8);
    }
    EntriesBytes(HeaderBytes(own), order, WordsOf(hashes));
  }

  lemma SameHashes(order: seq<Path>, m1: map<Path, nat>, m2: map<Path, nat>)
    requires Elements(order) == m1.Keys == m2.Keys && SameAt(order, m1, m2)
    ensures m1 == m2
  {
    forall p | p in m1 ensures m1[p] == m2[p] {
      assert p in Elements(order);
      var i :| 0 <= i < |order| && order[i] == p;
      assert HashAt(m1, order[i]) == HashAt(m2, order[i]);
    }
  }

  lemma PrintableKeys(m: map<Path, nat>)
    requires forall p | p in m :: Printable(p)
    ensures AllPrintable(SortedOf(m.Keys))
  {
    var order := SortedOf(m.Keys);
    assert forall i | 0 <= i < |order| :: order[i] in Elements(order);
  }

  /** Equal keys come from equal content hashes and equal dependency hashes. */
  lemma UnitKeyInjective(w: World, a: nat, m1: map<Path, nat>, b: nat, m2: map<Path, nat>)
    requires CollisionFree(w) && (forall p | p in m1 :: Printable(p)) && (forall p | p in m2 :: Printable(p))
    requires UnitKey(w, a, m1) == UnitKey(w, b, m2)
    ensures a == b && m1 == m2
  {
    assert w.hash(PreImage(a, m1)) == w.hash(PreImage(b, m2));
    PrintableKeys(m1);
    PrintableKeys(m2);
    StreamInjective(a, SortedOf(m1.Keys), m1, b, SortedOf(m2.Keys), m2);
    SameHashes(SortedOf(m1.Keys), m1, m2);
  }

  // ---------------------------------------------------------------- the key table

  datatype Record = Record(blobKey: nat, exportHash: nat)

  /** What the database keeps per package. */
  datatype Pointer = Pointer(blobKey: nat, contentHash: nat, exportHash: nat, fingerprint: nat, files: Files)

  function RecordOf(p: Pointer): Record { Record(p.blobKey, p.exportHash) }

  /** The record of a package: this run's if it has one, none if it failed, else the database's. */
  function Lookup(m: map<Path, Record>, failed: set<Path>, db: map<Path, Pointer>, p: Path): Option<Record> {
    if p in m then Some(m[p])
    else if p in failed then None
    else if p in db then Some(RecordOf(db[p]))
    else None
  }

  class KeyTable {
    var m: map<Path, Record>
    var failed: set<Path>

    constructor ()
      ensures m == map[] && failed == {}
    {
      m, failed := map[], {};
    }

    method Set(p: Path, rec: Record)
      modifies this`m
      ensures m == old(m)[p := rec]
    {
      m := m[p := rec];
    }

    method Fail(p: Path)
      modifies this`failed
      ensures failed == old(failed) + {p}
    {
      failed := failed + {p};
    }

    /** What is found is remembered, so that nobody's lookup changes. */
    method Get(p: Path, db: map<Path, Pointer>) returns (rec: Option<Record>)
      modifies this`m
      ensures rec == Lookup(old(m), failed, db, p)
      ensures m == if rec.Some? then old(m)[p := rec.value] else old(m)
      ensures forall q :: Lookup(m, failed, db, q) == Lookup(old(m), failed, db, q)
    {
      if p in m {
        return Some(m[p]);
      }
      if p in failed || p !in db {
        return None;
      }
      rec := Some(RecordOf(db[p]));
      Set(p, rec.value);
    }
  }
}
