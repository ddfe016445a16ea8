/**
 The pin-counted LRU of internal/depcheck/lru.go.

 Every cached entry pins its own dependencies, and callers may pin paths too. A pinned entry is never
 removed; a delete that finds its entry pinned is deferred until the last pin is released, and removing
 an entry releases its own pins in turn.
 */
module PinnedLru {
  import opened Options
  import opened Paths

  /** A cached package and the paths its own put pinned. */
  datatype Entry<P> = Entry(pkg: P, deps: seq<Path>)

  function PinCount(pins: map<Path, int>, p: Path): int {
    if p in pins then pins[p] else 0
  }

  /** The pins the listed entries hold on their dependencies, leaving out the entry `skip`. */
  ghost function Claims<P>(order: seq<Path>, index: map<Path, Entry<P>>, skip: Option<Path>): multiset<Path> {
    if order == [] then multiset{} else
      Claim(order[0], index, skip) + Claims(order[1..], index, skip)
  }

  ghost function Claim<P>(p: Path, index: map<Path, Entry<P>>, skip: Option<Path>): multiset<Path> {
    if p in index && skip != Some(p) then multiset(index[p].deps) else multiset{}
  }

  function Without(order: seq<Path>, p: Path): (r: seq<Path>) {
    if order == [] then []
    else if order[0] == p then order[1..]
    else [order[0]] + Without(order[1..], p)
  }

  // ------------------------------------------------------------------- claims

  lemma {:induction false} WithoutRemoves(order: seq<Path>, p: Path)
    requires p in order
    ensures multiset(order) == multiset(Without(order, p)) + multiset{p}
    ensures |Without(order, p)| == |order| - 1
  {
    assert order == [order[0]] + order[1..];
    if order[0] != p {
      WithoutRemoves(order[1..], p);
    }
  }

  /** `order` lists every cached path once. */
  ghost predicate Listed<P>(order: seq<Path>, index: map<Path, Entry<P>>) {
    multiset(order) == multiset(index.Keys)
  }

  lemma ListedMembers<P>(order: seq<Path>, index: map<Path, Entry<P>>, p: Path)
    requires Listed(order, index)
    ensures p in order <==> p in index
  {
    assert p in order <==> p in multiset(order);
  }

  lemma ListedInsert<P>(order: seq<Path>, index: map<Path, Entry<P>>, p: Path, e: Entry<P>)
    requires Listed(order, index) && p !in index
    ensures Listed([p] + order, index[p := e])
  {
    assert index[p := e].Keys == index.Keys + {p};
    assert multiset(index.Keys + {p}) == multiset(index.Keys) + multiset{p};
  }

  lemma ListedWithout<P>(order: seq<Path>, index: map<Path, Entry<P>>, p: Path)
    requires Listed(order, index) && p in index
    ensures p in order && p !in Without(order, p) && |Without(order, p)| == |order| - 1
    ensures Listed(Without(order, p), index - {p}) && Listed([p] + Without(order, p), index)
  {
    ListedMembers(order, index, p);
    WithoutRemoves(order, p);
    assert multiset(order)[p] == multiset(index.Keys)[p] == 1;
    assert (index - {p}).Keys == index.Keys - {p};
    assert multiset(index.Keys - {p}) == multiset(index.Keys) - multiset{p};
  }

  lemma {:induction false} ClaimsWithout<P>(order: seq<Path>, index: map<Path, Entry<P>>, skip: Option<Path>, p: Path)
    requires p in order
    ensures Claims(order, index, skip) == Claims(Without(order, p), index, skip) + Claim(p, index, skip)
  {
    if order[0] != p {
      ClaimsWithout(order[1..], index, skip, p);
      var r := [order[0]] + Without(order[1..], p);
      assert r[1..] == Without(order[1..], p);
      assert Claims(r, index, skip) == Claim(order[0], index, skip) + Claims(Without(order[1..], p), index, skip);
    }
  }

  /** Claims depend only on what the listed entries hold. */
  lemma {:induction false} ClaimsSame<P>(order: seq<Path>, index: map<Path, Entry<P>>, skip: Option<Path>,
                                        index': map<Path, Entry<P>>, skip': Option<Path>)
    requires forall p | p in order :: Claim(p, index, skip) == Claim(p, index', skip')
    ensures Claims(order, index, skip) == Claims(order, index', skip')
  {
    if order != [] {
      ClaimsSame(order[1..], index, skip, index', skip');
    }
  }

  lemma {:induction false} ClaimsInclude<P>(order: seq<Path>, index: map<Path, Entry<P>>, skip: Option<Path>, p: Path)
    requires p in order
    ensures Claim(p, index, skip) <= Claims(order, index, skip)
  {
    if order[0] != p {
      ClaimsInclude(order[1..], index, skip, p);
    }
  }

  // -------------------------------------------------------------------- the cache

  /**
   The state is consistent while `owed` pins are still to be released and the entry `skip` holds none of its own:
   each count is the number of cached entries that depend on the path, plus the callers' pins, plus what is owed.
   */
  ghost predicate Consistent<P>(order: seq<Path>, index: map<Path, Entry<P>>, pins: map<Path, int>, pending: set<Path>,
                                held: multiset<Path>, rank: Path -> nat, owed: multiset<Path>, skip: Option<Path>)
  {
    && Listed(order, index)
    && (forall p {:trigger PinCount(pins, p)} :: PinCount(pins, p) == Claims(order, index, skip)[p] + held[p] + owed[p])
    && (forall p | p in pins :: 0 < pins[p])
    && (forall p | p in pending :: 0 < PinCount(pins, p))
    && (forall p, d {:trigger d in index[p].deps} | p in index && d in index[p].deps :: rank(d) < rank(p))
  }

  /** `index'` is `index` with some entries removed, none of them pinned or `skip`. */
  ghost predicate Shrunk<P>(index: map<Path, Entry<P>>, index': map<Path, Entry<P>>,
                            pins: map<Path, int>, pins': map<Path, int>, skip: Option<Path>)
  {
    && (skip.Some? && skip.value in index ==> skip.value in index')
    && (forall p | p in index' :: p in index && index'[p] == index[p])
    && (forall p | p in index && p !in index' :: PinCount(pins', p) == 0)
    && (forall p {:trigger PinCount(pins', p)} :: PinCount(pins', p) <= PinCount(pins, p))
  }

  /** A resident dependency of any entry but `replaced` that stays cached stays resident. */
  ghost predicate KeepsDependencies<P>(index: map<Path, Entry<P>>, index': map<Path, Entry<P>>,
                                       replaced: Option<Path>) {
    forall q, d {:trigger d in index[q].deps} |
      q in index && q in index' && replaced != Some(q) && d in index[q].deps && d in index :: d in index'
  }

  /** The members of `keys` in a list, in the order of the list. */
  ghost function Kept(order: seq<Path>, keys: set<Path>): seq<Path> {
    if order == [] then []
    else if order[0] in keys then [order[0]] + Kept(order[1..], keys)
    else Kept(order[1..], keys)
  }

  lemma {:induction false} KeptAll(order: seq<Path>, keys: set<Path>)
    requires forall p | p in order :: p in keys
    ensures Kept(order, keys) == order
  {
    if order != [] {
      KeptAll(order[1..], keys);
    }
  }

  lemma {:induction false} KeptTwice(order: seq<Path>, keys: set<Path>, fewer: set<Path>)
    requires fewer <= keys
    ensures Kept(Kept(order, keys), fewer) == Kept(order, fewer)
  {
    if order != [] {
      KeptTwice(order[1..], keys, fewer);
      if order[0] in keys {
        assert Kept(order, keys)[1..] == Kept(order[1..], keys);
      }
    }
  }

  /** A path that is listed once is taken out. */
  lemma {:induction false} WithoutIsKept(order: seq<Path>, keys: set<Path>, p: Path)
    requires multiset(order)[p] <= 1 && forall q | q in order :: q in keys
    ensures Without(order, p) == Kept(order, keys - {p})
  {
    if order != [] {
      assert order == [order[0]] + order[1..];
      if order[0] == p {
        assert p !in multiset(order[1..]);
        KeptAll(order[1..], keys - {p});
      } else {
        WithoutIsKept(order[1..], keys, p);
      }
    }
  }

  lemma {:induction false} KeptWithout(order: seq<Path>, keys: set<Path>, p: Path)
    requires p !in keys
    ensures Kept(Without(order, p), keys) == Kept(order, keys)
  {
    if order != [] && order[0] != p {
      KeptWithout(order[1..], keys, p);
      assert Without(order, p)[1..] == Without(order[1..], p);
    }
  }

  /**
   What a release or a removal does to the rest of the cache: beyond the entry in `also`, only entries with a
   pending delete go; a delete that is no longer pending has been carried out; the recency order is kept.
   */
  ghost predicate Cascades<P>(order: seq<Path>, index: map<Path, Entry<P>>, pending: set<Path>,
                              order': seq<Path>, index': map<Path, Entry<P>>, pending': set<Path>, also: set<Path>)
  {
    && pending' <= pending && index'.Keys <= index.Keys
    && (forall q | q in pending && q !in pending' :: q !in index')
    && (forall q | q in index && q !in index' :: q in pending || q in also)
    && order' == Kept(order, index'.Keys)
  }

  lemma NoCascade<P>(order: seq<Path>, index: map<Path, Entry<P>>, pending: set<Path>)
    requires Listed(order, index)
    ensures Cascades(order, index, pending, order, index, pending, {})
  {
    forall p | p in order ensures p in index {
      ListedMembers(order, index, p);
    }
    KeptAll(order, index.Keys);
  }

  lemma CascadesTwice<P>(o0: seq<Path>, i0: map<Path, Entry<P>>, e0: set<Path>, o1: seq<Path>, i1: map<Path,
                         Entry<P>>, e1: set<Path>,
                         o2: seq<Path>, i2: map<Path, Entry<P>>, e2: set<Path>, also: set<Path>)
    requires Cascades(o0, i0, e0, o1, i1, e1, also) && Cascades(o1, i1, e1, o2, i2, e2, also)
    ensures Cascades(o0, i0, e0, o2, i2, e2, also)
  {
    KeptTwice(o0, i1.Keys, i2.Keys);
  }

  /** Carrying out the pending delete of `p` is part of the cascade. */
  lemma PendingCascade<P>(order: seq<Path>, index: map<Path, Entry<P>>, pending: set<Path>, p: Path,
                          order': seq<Path>, index': map<Path, Entry<P>>, pending': set<Path>)
    requires p in pending && p !in index' && Cascades(order, index, pending - {p}, order', index', pending', {p})
    ensures Cascades(order, index, pending, order', index', pending', {})
  {
  }

  /** A cascade after `p` itself was taken out. */
  lemma CascadesFrom<P>(order: seq<Path>, index: map<Path, Entry<P>>, pending: set<Path>, p: Path,
                        order': seq<Path>, index': map<Path, Entry<P>>, pending': set<Path>)
    requires Cascades(Without(order, p), index - {p}, pending, order', index', pending', {})
    ensures Cascades(order, index, pending, order', index', pending', {p}) && p !in index'
  {
    KeptWithout(order, index'.Keys, p);
  }

  /** What a put of `p` does: `p` comes first, and the rest is a cascade. */
  ghost predicate Puts<P>(order: seq<Path>, index: map<Path, Entry<P>>, pending: set<Path>,
                          order': seq<Path>, index': map<Path, Entry<P>>, pending': set<Path>, p: Path, also: set<Path>)
  {
    && pending' <= pending
    && (forall q | q in pending && q !in pending' && q != p :: q !in index')
    && (forall q | q in index && q !in index' :: q in pending || q in also)
    && order' == [p] + Kept(order, index'.Keys - {p})
  }

  lemma PutReplaces<P>(order: seq<Path>, index: map<Path, Entry<P>>, pending: set<Path>,
                       order1: seq<Path>, index1: map<Path, Entry<P>>, pending1: set<Path>, p: Path, e: Entry<P>)
    requires Cascades(order, index, pending, order1, index1, pending1, {}) && Listed(order1, index1) && p in index1
    ensures Puts(order, index, pending, [p] + Without(order1, p), index1[p := e], pending1, p, {})
  {
    forall q | q in order1 ensures q in index1 {
      ListedMembers(order1, index1, q);
    }
    WithoutIsKept(order1, index1.Keys, p);
    KeptTwice(order, index1.Keys, index1.Keys - {p});
    assert index1[p := e].Keys - {p} == index1.Keys - {p};
  }

  lemma PutInserts<P>(order: seq<Path>, index: map<Path, Entry<P>>, pending: set<Path>,
                      order1: seq<Path>, index1: map<Path, Entry<P>>, pending1: set<Path>, p: Path, e: Entry<P>,
                      also: set<Path>)
    requires Cascades(order, index, pending, order1, index1, pending1, also) && p !in index1
    ensures Puts(order, index, pending, [p] + order1, index1[p := e], pending1, p, also)
  {
    assert index1[p := e].Keys - {p} == index1.Keys;
  }

  /**
   What a put of `p` evicts: the least recently used entry without a pin, if `p` is new, the cache is full, and
   there is one.
   */
  ghost predicate Evicts<P>(order: seq<Path>, index: map<Path, Entry<P>>, pins: map<Path, int>, capacity: int, p: Path,
                            evicted: set<Path>) {
    if p in index || |order| < capacity || AllPinned(order, pins) then evicted == {}
    else exists q :: LeastRecent(order, pins, q) && evicted == {q}
  }

  lemma ShrunkTwice<P>(i0: map<Path, Entry<P>>, i1: map<Path, Entry<P>>, i2: map<Path, Entry<P>>,
                       p0: map<Path, int>, p1: map<Path, int>, p2: map<Path, int>, skip: Option<Path>)
    requires Shrunk(i0, i1, p0, p1, skip) && Shrunk(i1, i2, p1, p2, skip)
    requires forall p | p in p2 :: 0 < p2[p]
    ensures Shrunk(i0, i2, p0, p2, skip)
  {
    forall p | p in i0 && p !in i2 ensures PinCount(p2, p) == 0 {
      if p !in i1 {
        assert PinCount(p1, p) == 0 && PinCount(p2, p) <= PinCount(p1, p);
      }
    }
  }

  // ------------------------------------------------------------------- whole caches

  /** The state of the cache at one moment. */
  datatype Cache<P> = Cache(order: seq<Path>, index: map<Path, Entry<P>>, pins: map<Path, int>, pending: set<Path>)

  /** What releases and removals do: nothing pinned goes, and nothing but the cascade and the entry in `also`. */
  ghost predicate Removes<P>(c: Cache<P>, c': Cache<P>, skip: Option<Path>, also: set<Path>) {
    && Shrunk(c.index, c'.index, c.pins, c'.pins, skip)
    && Cascades(c.order, c.index, c.pending, c'.order, c'.index, c'.pending, also)
  }

  lemma RemovesNothing<P>(c: Cache<P>, skip: Option<Path>)
    requires Listed(c.order, c.index)
    ensures Removes(c, c, skip, {})
  {
    NoCascade(c.order, c.index, c.pending);
  }

  lemma RemovesTwice<P>(c0: Cache<P>, c1: Cache<P>, c2: Cache<P>, skip: Option<Path>, also: set<Path>)
    requires Removes(c0, c1, skip, also) && Removes(c1, c2, skip, also) && forall p | p in c2.pins :: 0 < c2.pins[p]
    ensures Removes(c0, c2, skip, also)
  {
    ShrunkTwice(c0.index, c1.index, c2.index, c0.pins, c1.pins, c2.pins, skip);
    CascadesTwice(c0.order, c0.index, c0.pending, c1.order, c1.index, c1.pending, c2.order, c2.index, c2.pending, also);
  }

  lemma RemovesMore<P>(c0: Cache<P>, c1: Cache<P>, c2: Cache<P>, held: multiset<Path>, rank: Path -> nat,
                       owed: multiset<Path>, skip: Option<Path>)
    requires Removes(c0, c1, skip, {}) && Removes(c1, c2, skip, {})
    requires Consistent(c2.order, c2.index, c2.pins, c2.pending, held, rank, owed, skip)
    ensures Removes(c0, c2, skip, {})
  {
    RemovesTwice(c0, c1, c2, skip, {});
  }

  /** Releasing a pin that leaves no delete to carry out. */
  lemma ReleaseOnly<P>(c: Cache<P>, p: Path, skip: Option<Path>)
    requires Listed(c.order, c.index) && forall q | q in c.pins :: 0 < c.pins[q]
    ensures Removes(c, c.(pins := Released(c.pins, p)), skip, {})
  {
    NoCascade(c.order, c.index, c.pending);
  }

  /** Releasing the last pin of a path whose delete is pending, and carrying the delete out. */
  lemma ReleaseAndRemove<P>(c: Cache<P>, p: Path, c': Cache<P>, skip: Option<Path>)
    requires p in c.pending && p !in c'.index && (forall q | q in c'.pins :: 0 < c'.pins[q])
    requires Removes(c, c.(pins := Released(c.pins, p)), skip, {})
    requires Removes(c.(pins := Released(c.pins, p), pending := c.pending - {p}), c', skip, {p})
    ensures Removes(c, c', skip, {})
  {
    ShrunkTwice(c.index, c.index, c'.index, c.pins, Released(c.pins, p), c'.pins, skip);
    PendingCascade(c.order, c.index, c.pending, p, c'.order, c'.index, c'.pending);
  }

  /** Taking `p` out and releasing the pins it held. */
  lemma DetachAndRelease<P>(c: Cache<P>, p: Path, c': Cache<P>, skip: Option<Path>)
    requires p in c.index && PinCount(c.pins, p) == 0 && skip != Some(p) && (forall q | q in c'.pins :: 0 < c'.pins[q])
    requires Removes(c.(order := Without(c.order, p), index := c.index - {p}), c', skip, {})
    ensures Removes(c, c', skip, {p}) && p !in c'.index
  {
    ShrinkOne(c.index, c.pins, skip, p);
    ShrunkTwice(c.index, c.index - {p}, c'.index, c.pins, c.pins, c'.pins, skip);
    CascadesFrom(c.order, c.index, c.pending, p, c'.order, c'.index, c'.pending);
  }

  /** `p` holds its new contents, every other entry that stays is as it was, and so are their resident dependencies. */
  ghost predicate PutsEntry<P>(c: Cache<P>, c': Cache<P>, p: Path, e: Entry<P>, also: set<Path>) {
    && p in c'.index && c'.index[p] == e && also !! c'.index.Keys
    && (forall q | q in c'.index && q != p :: q in c.index && c'.index[q] == c.index[q])
    && KeepsDependencies(c.index, c'.index, Some(p))
    && Puts(c.order, c.index, c.pending, c'.order, c'.index, c'.pending, p, also)
  }

  lemma ReplacesEntry<P>(c: Cache<P>, c1: Cache<P>, p: Path, e: Entry<P>, pins: map<Path, int>)
    requires Removes(c, c1, Some(p), {}) && KeepsDependencies(c.index, c1.index, Some(p))
    requires Listed(c1.order, c1.index) && p in c1.index
    ensures PutsEntry(c, Cache([p] + Without(c1.order, p), c1.index[p := e], pins, c1.pending), p, e, {})
  {
    PutReplaces(c.order, c.index, c.pending, c1.order, c1.index, c1.pending, p, e);
  }

  lemma InsertsEntry<P>(c: Cache<P>, c1: Cache<P>, p: Path, e: Entry<P>, pins: map<Path, int>, also: set<Path>)
    requires Removes(c, c1, None, also) && KeepsDependencies(c.index, c1.index, None)
    requires p !in c.index && p !in also && also !! c1.index.Keys
    ensures PutsEntry(c, Cache([p] + c1.order, c1.index[p := e], pins, c1.pending), p, e, also)
  {
    PutInserts(c.order, c.index, c.pending, c1.order, c1.index, c1.pending, p, e, also);
  }

  lemma NextOwed(after: multiset<Path>, paths: seq<Path>, i: nat)
    requires i < |paths|
    ensures after + multiset(paths[i..]) == after + multiset(paths[i + 1..]) + multiset{paths[i]}
  {
    assert paths[i..] == [paths[i]] + paths[i + 1..];
  }

  /** The pins once one pin on `p` is released. */
  function Released(pins: map<Path, int>, p: Path): map<Path, int> {
    if PinCount(pins, p) > 1 then pins[p := pins[p] - 1] else pins - {p}
  }

  /** Releasing one owed pin; a pending delete goes with the last one. */
  lemma Release<P>(order: seq<Path>, index: map<Path, Entry<P>>, pins: map<Path, int>, pending: set<Path>,
                   held: multiset<Path>, rank: Path -> nat, owed: multiset<Path>, skip: Option<Path>, p: Path)
    requires Consistent(order, index, pins, pending, held, rank, owed + multiset{p}, skip)
    ensures
      var pending' := if PinCount(pins, p) > 1 then pending else pending - {p};
      Consistent(order, index, Released(pins, p), pending', held, rank, owed, skip)
    ensures Shrunk(index, index, pins, Released(pins, p), skip)
  {
    var claims := Claims(order, index, skip);
    assert PinCount(pins, p) == claims[p] + held[p] + (owed + multiset{p})[p];
    forall q ensures PinCount(Released(pins, p), q) == claims[q] + held[q] + owed[q] {
      assert PinCount(pins, q) == claims[q] + held[q] + (owed + multiset{p})[q];
    }
  }

  /** Releasing a pin is all there is to do, unless it was the last one of a path whose delete is due. */
  lemma ReleaseKeeps<P>(c: Cache<P>, held: multiset<Path>, rank: Path -> nat, owed: multiset<Path>,
                        skip: Option<Path>, p: Path)
    requires Consistent(c.order, c.index, c.pins, c.pending, held, rank, owed + multiset{p}, skip)
    ensures Removes(c, c.(pins := Released(c.pins, p)), skip, {})
    ensures
      var due := PinCount(c.pins, p) <= 1 && p in c.pending;
      var pending := if due then c.pending - {p} else c.pending;
      Consistent(c.order, c.index, Released(c.pins, p), pending, held, rank, owed, skip)
    ensures PinCount(c.pins, p) <= 1 ==> PinCount(Released(c.pins, p), p) == 0
  {
    Release(c.order, c.index, c.pins, c.pending, held, rank, owed, skip, p);
    ReleaseOnly(c, p, skip);
    if p !in c.pending {
      assert c.pending - {p} == c.pending;
    }
  }

  /** Taking an unpinned entry out turns the pins it holds into pins that are owed. */
  lemma Detach<P>(order: seq<Path>, index: map<Path, Entry<P>>, pins: map<Path, int>, pending: set<Path>,
                  held: multiset<Path>, rank: Path -> nat, owed: multiset<Path>, skip: Option<Path>, p: Path)
    requires Consistent(order, index, pins, pending, held, rank, owed, skip) && p in index
    requires PinCount(pins, p) == 0 && (skip.Some? ==> rank(p) < rank(skip.value))
    ensures Consistent(Without(order, p), index - {p}, pins, pending, held, rank, owed + multiset(index[p].deps), skip)
    ensures Shrunk(index, index - {p}, pins, pins, skip) && |Without(order, p)| < |order|
    ensures skip.Some? ==> forall d | d in index[p].deps :: rank(d) < rank(skip.value)
  {
    ShrinkOne(index, pins, skip, p);
    var claims, claims' := Claims(order, index, skip), Claims(Without(order, p), index - {p}, skip);
    ListedWithout(order, index, p);
    ClaimsWithout(order, index, skip, p);
    ClaimsSame(Without(order, p), index, skip, index - {p}, skip);
    assert claims == claims' + multiset(index[p].deps);
    forall q ensures PinCount(pins, q) == claims'[q] + held[q] + (owed + multiset(index[p].deps))[q] {
      assert PinCount(pins, q) == claims[q] + held[q] + owed[q];
    }
  }

  lemma ShrinkOne<P>(index: map<Path, Entry<P>>, pins: map<Path, int>, skip: Option<Path>, p: Path)
    requires p in index && PinCount(pins, p) == 0 && skip != Some(p)
    ensures Shrunk(index, index - {p}, pins, pins, skip)
  {
    assert (index - {p}).Keys == index.Keys - {p};
  }

  /** The pins once one more pin on `p` is counted. */
  function Counted(pins: map<Path, int>, p: Path): map<Path, int> {
    pins[p := PinCount(pins, p) + 1]
  }

  /** Counting one more pin. */
  lemma PinOne<P>(order: seq<Path>, index: map<Path, Entry<P>>, pins: map<Path, int>, pending: set<Path>,
                  held: multiset<Path>, rank: Path -> nat, owed: multiset<Path>, skip: Option<Path>, p: Path)
    requires Consistent(order, index, pins, pending, held, rank, owed, skip)
    ensures Consistent(order, index, Counted(pins, p), pending, held, rank, owed + multiset{p}, skip)
  {
    var claims, pins' := Claims(order, index, skip), Counted(pins, p);
    assert 0 <= PinCount(pins, p);
    forall q ensures PinCount(pins', q) == claims[q] + held[q] + (owed + multiset{p})[q] {
      assert PinCount(pins, q) == claims[q] + held[q] + owed[q];
    }
  }

  /** A caller's pin counts the same whether it is held or owed. */
  lemma HeldOrOwed<P>(order: seq<Path>, index: map<Path, Entry<P>>, pins: map<Path, int>, pending: set<Path>,
                      held: multiset<Path>, rank: Path -> nat, p: Path)
    ensures Consistent(order, index, pins, pending, held + multiset{p}, rank, multiset{}, None)
       <==> Consistent(order, index, pins, pending, held, rank, multiset{} + multiset{p}, None)
  {
    var one: multiset<Path> := multiset{} + multiset{p};
    assert forall q :: (held + multiset{p})[q] == held[q] + one[q];
  }

  lemma NextPinned(paths: seq<Path>, i: nat)
    requires i < |paths|
    ensures multiset(paths[..i + 1]) == multiset(paths[..i]) + multiset{paths[i]}
  {
    assert paths[..i + 1] == paths[..i] + [paths[i]];
  }

  lemma ClaimsAside<P>(order: seq<Path>, index: map<Path, Entry<P>>, p: Path)
    requires Listed(order, index) && p in index
    ensures Claims(order, index, None) == Claims(order, index, Some(p)) + multiset(index[p].deps)
  {
    ListedWithout(order, index, p);
    var rest := Without(order, p);
    ClaimsWithout(order, index, None, p);
    ClaimsWithout(order, index, Some(p), p);
    ClaimsSame(rest, index, None, index, Some(p));
    assert Claims(order, index, Some(p)) == Claims(rest, index, Some(p));
  }

  /** An entry's own pins can be counted as owed instead, and back. */
  lemma SetAside<P>(order: seq<Path>, index: map<Path, Entry<P>>, pins: map<Path, int>, pending: set<Path>,
                    held: multiset<Path>, rank: Path -> nat, p: Path)
    requires p in index
    ensures Consistent(order, index, pins, pending, held, rank, multiset{}, None)
       <==> Consistent(order, index, pins, pending, held, rank, multiset(index[p].deps), Some(p))
  {
    if Listed(order, index) {
      ClaimsAside(order, index, p);
      var all, rest, deps := Claims(order, index, None), Claims(order, index, Some(p)), multiset(index[p].deps);
      assert forall q :: all[q] == rest[q] + deps[q];
    }
  }

  /** An entry whose pins are set aside can be given other contents. */
  lemma ReplaceEntry<P>(order: seq<Path>, index: map<Path, Entry<P>>, pins: map<Path, int>, pending: set<Path>,
                        held: multiset<Path>, rank: Path -> nat, p: Path, e: Entry<P>)
    requires Consistent(order, index, pins, pending, held, rank, multiset{}, Some(p))
    requires p in index && forall d | d in e.deps :: rank(d) < rank(p)
    ensures Consistent(order, index[p := e], pins, pending, held, rank, multiset{}, Some(p))
  {
    ClaimsSame(order, index, Some(p), index[p := e], Some(p));
    assert index[p := e].Keys == index.Keys;
    StaysConsistent(order, index, pins, pending, held, rank, Some(p), order, index[p := e], Some(p));
  }

  /** Consistency depends on the claims, not on which entries make them. */
  lemma StaysConsistent<P>(order: seq<Path>, index: map<Path, Entry<P>>, pins: map<Path, int>, pending: set<Path>,
                           held: multiset<Path>, rank: Path -> nat, skip: Option<Path>,
                           order': seq<Path>, index': map<Path, Entry<P>>, skip': Option<Path>)
    requires Consistent(order, index, pins, pending, held, rank, multiset{}, skip) && Listed(order', index')
    requires Claims(order', index', skip') == Claims(order, index, skip)
    requires forall q, d {:trigger d in index'[q].deps} | q in index' && d in index'[q].deps :: rank(d) < rank(q)
    ensures Consistent(order', index', pins, pending, held, rank, multiset{}, skip')
  {
  }

  lemma ClaimsInsert<P>(order: seq<Path>, index: map<Path, Entry<P>>, p: Path, e: Entry<P>)
    requires p !in order
    ensures Claims([p] + order, index[p := e], Some(p)) == Claims(order, index, None)
  {
    ClaimsSame(order, index, None, index[p := e], Some(p));
    assert ([p] + order)[1..] == order;
  }

  /** A new entry can be inserted with its pins set aside. */
  lemma InsertEntry<P>(order: seq<Path>, index: map<Path, Entry<P>>, pins: map<Path, int>, pending: set<Path>,
                       held: multiset<Path>, rank: Path -> nat, p: Path, e: Entry<P>)
    requires Consistent(order, index, pins, pending, held, rank, multiset{}, None)
    requires p !in index && forall d | d in e.deps :: rank(d) < rank(p)
    ensures Consistent([p] + order, index[p := e], pins, pending, held, rank, multiset{}, Some(p))
  {
    ListedMembers(order, index, p);
    ListedInsert(order, index, p, e);
    ClaimsInsert(order, index, p, e);
    StaysConsistent(order, index, pins, pending, held, rank, None, [p] + order, index[p := e], Some(p));
  }

  /** `p` is not pinned, and everything used less recently is. */
  ghost predicate LeastRecent(order: seq<Path>, pins: map<Path, int>, p: Path) {
    exists i :: LeastRecentAt(order, pins, p, i)
  }

  ghost predicate LeastRecentAt(order: seq<Path>, pins: map<Path, int>, p: Path, i: int) {
    && 0 <= i < |order| && order[i] == p && PinCount(pins, p) <= 0
    && forall j | i < j < |order| :: 0 < PinCount(pins, order[j])
  }

  ghost predicate AllPinned(order: seq<Path>, pins: map<Path, int>) {
    forall j | 0 <= j < |order| :: 0 < PinCount(pins, order[j])
  }

  lemma NotAllPinned(order: seq<Path>, pins: map<Path, int>, p: Path)
    requires LeastRecent(order, pins, p)
    ensures !AllPinned(order, pins)
  {
    var i :| LeastRecentAt(order, pins, p, i);
    assert PinCount(pins, order[i]) <= 0;
  }

  /** What is in the list is cached, and without a pin its count is zero. */
  lemma VictimCached<P>(order: seq<Path>, index: map<Path, Entry<P>>, pins: map<Path, int>, pending: set<Path>,
                        held: multiset<Path>, rank: Path -> nat, p: Path)
    requires Consistent(order, index, pins, pending, held, rank, multiset{}, None) && LeastRecent(order, pins, p)
    ensures p in index && PinCount(pins, p) == 0
  {
    var i :| LeastRecentAt(order, pins, p, i);
    assert order[i] in order;
    ListedMembers(order, index, p);
  }

  lemma MoveFront<P>(order: seq<Path>, index: map<Path, Entry<P>>, pins: map<Path, int>, pending: set<Path>,
                     held: multiset<Path>, rank: Path -> nat, p: Path)
    requires Consistent(order, index, pins, pending, held, rank, multiset{}, None) && p in index
    ensures Consistent([p] + Without(order, p), index, pins, pending, held, rank, multiset{}, None)
  {
    var order' := [p] + Without(order, p);
    ListedWithout(order, index, p);
    ClaimsWithout(order, index, None, p);
    assert order'[1..] == Without(order, p);
  }

  /** What some cached entry depends on is pinned, so shrinking keeps it. */
  lemma DependenciesKept<P>(index0: map<Path, Entry<P>>, pins0: map<Path, int>, order: seq<Path>, index: map<Path,
                            Entry<P>>,
                            pins: map<Path, int>, pending: set<Path>, held: multiset<Path>, rank: Path -> nat,
                            owed: multiset<Path>, skip: Option<Path>)
    requires Consistent(order, index, pins, pending, held, rank, owed, skip) && Shrunk(index0, index, pins0, pins, skip)
    ensures KeepsDependencies(index0, index, skip)
  {
    forall q, d | q in index0 && q in index && skip != Some(q) && d in index0[q].deps && d in index0
      ensures d in index
    {
      ListedMembers(order, index, q);
      ClaimsInclude(order, index, skip, q);
      assert d in Claim(q, index, skip);
      assert 0 < PinCount(pins, d);
    }
  }

  class LruCache<P> {
    const capacity: int
    /** Import acyclicity: every package ranks above what it imports. */
    ghost const rank: Path -> nat

    var order: seq<Path>  // most recently used first
    var index: map<Path, Entry<P>>
    var pins: map<Path, int>
    var pending: set<Path>
    /** The pins callers have taken and not yet released. */
    ghost var held: multiset<Path>

    ghost predicate Releasing(owed: multiset<Path>, skip: Option<Path>)
      reads this
    {
      Consistent(order, index, pins, pending, held, rank, owed, skip)
    }

    ghost predicate Valid()
      reads this
    {
      Releasing(multiset{}, None)
    }

    constructor (capacity: int, ghost rank: Path -> nat)
      ensures Valid() && index == map[] && held == multiset{}
      ensures this.capacity == capacity && this.rank == rank
    {
      this.capacity, this.rank := capacity, rank;
      order, index, pins, pending, held := [], map[], map[], {}, multiset{};
    }

    ghost function Now(): Cache<P>
      reads this
    {
      Cache(order, index, pins, pending)
    }

    method UnpinAll(paths: seq<Path>, ghost owed: multiset<Path>, ghost skip: Option<Path>)
      requires Releasing(owed + multiset(paths), skip)
      requires skip.Some? ==> forall p | p in paths :: rank(p) < rank(skip.value)
      modifies this`order, this`index, this`pins, this`pending
      ensures Releasing(owed, skip) && Removes(old(Now()), Now(), skip, {}) && |order| <= |old(order)|
      decreases |order|, 4
    {
      assert paths[0..] == paths;
      RemovesNothing(Now(), skip);
      for i := 0 to |paths|
        invariant Releasing(owed + multiset(paths[i..]), skip)
        invariant Removes(old(Now()), Now(), skip, {}) && |order| <= |old(order)|
      {
        NextOwed(owed, paths, i);
        ghost var c1 := Now();
        Unpin(paths[i], owed + multiset(paths[i + 1..]), skip);
        RemovesMore(old(Now()), c1, Now(), held, rank, owed + multiset(paths[i + 1..]), skip);
      }
      assert owed + multiset(paths[|paths|..]) == owed;
    }

    method Unpin(p: Path, ghost owed: multiset<Path>, ghost skip: Option<Path>)
      requires Releasing(owed + multiset{p}, skip)
      requires skip.Some? ==> rank(p) < rank(skip.value)
      modifies this`order, this`index, this`pins, this`pending
      ensures Releasing(owed, skip) && Removes(old(Now()), Now(), skip, {}) && |order| <= |old(order)|
      decreases |order|, 3
    {
      ghost var c := Now();
      ReleaseKeeps(c, held, rank, owed, skip, p);
      var due := PinCount(pins, p) <= 1 && p in pending;
      pins := Released(pins, p);
      if due {
        pending := pending - {p};
        CarryOut(p, owed, skip, c);
      }
    }

    /** Carry out the pending delete of a path whose last pin, in the state `c`, has just been released. */
    method CarryOut(p: Path, ghost owed: multiset<Path>, ghost skip: Option<Path>, ghost c: Cache<P>)
      requires Releasing(owed, skip) && PinCount(pins, p) == 0 && (skip.Some? ==> rank(p) < rank(skip.value))
      requires p in c.pending && Now() == c.(pins := Released(c.pins, p), pending := c.pending - {p})
      requires Removes(c, c.(pins := Released(c.pins, p)), skip, {})
      modifies this`order, this`index, this`pins, this`pending
      ensures Releasing(owed, skip) && Removes(c, Now(), skip, {}) && |order| <= |old(order)|
      decreases |order|, 2, 1
    {
      RemoveIfPresent(p, owed, skip);
      ReleaseAndRemove(c, p, Now(), skip);
    }

    method RemoveIfPresent(p: Path, ghost owed: multiset<Path>, ghost skip: Option<Path>)
      requires Releasing(owed, skip) && PinCount(pins, p) == 0
      requires skip.Some? ==> rank(p) < rank(skip.value)
      modifies this`order, this`index, this`pins, this`pending
      ensures Releasing(owed, skip) && Removes(old(Now()), Now(), skip, {p}) && p !in index && |order| <= |old(order)|
      decreases |order|, 2, 0
    {
      RemovesNothing(Now(), skip);
      if p in index {
        RemoveElement(p, owed, skip);
      }
    }

    method RemoveElement(p: Path, ghost owed: multiset<Path>, ghost skip: Option<Path>)
      requires Releasing(owed, skip) && p in index && PinCount(pins, p) == 0
      requires skip.Some? ==> rank(p) < rank(skip.value)
      modifies this`order, this`index, this`pins, this`pending
      ensures Releasing(owed, skip) && Removes(old(Now()), Now(), skip, {p}) && p !in index && |order| <= |old(order)|
      decreases |order|, 1
    {
      ghost var c := Now();
      Detach(order, index, pins, pending, held, rank, owed, skip, p);
      var entry := index[p];
      index := index - {p};
      order := Without(order, p);
      UnpinAll(entry.deps, owed, skip);
      DetachAndRelease(c, p, Now(), skip);
    }

    /** Walk from the least recently used end to the first entry that is not pinned. */
    method FindVictim() returns (r: Option<Path>)
      ensures r.None? ==> AllPinned(order, pins)
      ensures r.Some? ==> LeastRecent(order, pins, r.value)
    {
      var i := |order|;
      while 0 < i
        invariant 0 <= i <= |order| && forall j | i <= j < |order| :: 0 < PinCount(pins, order[j])
      {
        i := i - 1;
        if PinCount(pins, order[i]) <= 0 {
          assert LeastRecentAt(order, pins, order[i], i);
          return Some(order[i]);
        }
      }
      return None;
    }

    /** Remove the least recently used entry that is not pinned, if there is one. */
    method EvictOldest() returns (ghost victim: Option<Path>)
      requires Valid()
      modifies this`order, this`index, this`pins, this`pending
      ensures Valid() && KeepsDependencies(old(index), index, None)
      ensures victim.None? ==> AllPinned(old(order), old(pins)) && Now() == old(Now())
      ensures victim.Some? ==>
                && LeastRecent(old(order), old(pins), victim.value) && victim.value in old(index)
                && victim.value !in index && Removes(old(Now()), Now(), None, {victim.value})
    {
      var found := FindVictim();
      victim := found;
      if found.Some? {
        VictimCached(order, index, pins, pending, held, rank, found.value);
        RemoveElement(found.value, multiset{}, None);
        DependenciesKept(old(index), old(pins), order, index, pins, pending, held, rank, multiset{}, None);
      }
    }

    method CountPin(p: Path, ghost owed: multiset<Path>, ghost skip: Option<Path>)
      requires Releasing(owed, skip)
      modifies this`pins
      ensures Releasing(owed + multiset{p}, skip)
    {
      PinOne(order, index, pins, pending, held, rank, owed, skip, p);
      pins := Counted(pins, p);
    }

    /** Count one more pin on each path. */
    method PinAll(paths: seq<Path>, ghost skip: Option<Path>)
      requires Releasing(multiset{}, skip)
      modifies this`pins
      ensures Releasing(multiset(paths), skip)
    {
      for i := 0 to |paths|
        invariant Releasing(multiset(paths[..i]), skip)
      {
        CountPin(paths[i], multiset(paths[..i]), skip);
        NextPinned(paths, i);
      }
      assert paths[..|paths|] == paths;
    }

    /** Insert or replace an entry, pinning its dependencies and releasing those of the entry it replaces. */
    method Put(p: Path, pkg: P, deps: seq<Path>) returns (ghost evicted: set<Path>)
      requires Valid() && forall d | d in deps :: rank(d) < rank(p)
      modifies this`order, this`index, this`pins, this`pending
      ensures Valid() && Evicts(old(order), old(index), old(pins), capacity, p, evicted)
      ensures PutsEntry(old(Now()), Now(), p, Entry(pkg, deps), evicted)
    {
      if p in index {
        Replace(p, pkg, deps);
        evicted := {};
      } else {
        evicted := Insert(p, pkg, deps);
      }
    }

    /** Release the pins of an entry that is about to be given other contents. */
    method DropPins(p: Path)
      requires Valid() && p in index
      modifies this`order, this`index, this`pins, this`pending
      ensures Releasing(multiset{}, Some(p)) && p in index
      ensures Removes(old(Now()), Now(), Some(p), {}) && KeepsDependencies(old(index), index, Some(p))
    {
      SetAside(order, index, pins, pending, held, rank, p);
      var entry := index[p];
      assert multiset{} + multiset(entry.deps) == multiset(entry.deps);
      UnpinAll(entry.deps, multiset{}, Some(p));
      DependenciesKept(old(index), old(pins), order, index, pins, pending, held, rank, multiset{}, Some(p));
    }

    /** Pin the dependencies of a cached entry that holds no pins yet. */
    method TakePins(p: Path, deps: seq<Path>)
      requires Releasing(multiset{}, Some(p)) && p in index && index[p].deps == deps
      modifies this`pins
      ensures Valid()
    {
      PinAll(deps, Some(p));
      SetAside(order, index, pins, pending, held, rank, p);
    }

    method MoveToFront(p: Path)
      requires Valid() && p in index
      modifies this`order
      ensures Valid() && order == [p] + Without(old(order), p)
    {
      MoveFront(order, index, pins, pending, held, rank, p);
      order := [p] + Without(order, p);
    }

    /** Put, for a path that is cached already. */
    method Replace(p: Path, pkg: P, deps: seq<Path>)
      requires Valid() && p in index && forall d | d in deps :: rank(d) < rank(p)
      modifies this`order, this`index, this`pins, this`pending
      ensures Valid() && PutsEntry(old(Now()), Now(), p, Entry(pkg, deps), {})
    {
      DropPins(p);
      ghost var c1 := Now();
      Refill(p, pkg, deps);
      ReplacesEntry(old(Now()), c1, p, Entry(pkg, deps), pins);
    }

    /** Give an entry whose pins are released other contents, and move it to the front. */
    method Refill(p: Path, pkg: P, deps: seq<Path>)
      requires Releasing(multiset{}, Some(p)) && p in index && forall d | d in deps :: rank(d) < rank(p)
      modifies this`order, this`index, this`pins
      ensures Valid() && order == [p] + Without(old(order), p) && index == old(index)[p := Entry(pkg, deps)]
    {
      ReplaceEntry(order, index, pins, pending, held, rank, p, Entry(pkg, deps));
      index := index[p := Entry(pkg, deps)];
      TakePins(p, deps);
      MoveToFront(p);
    }

    /** Evict an entry if the cache is full. */
    method MakeRoom(ghost p: Path) returns (ghost evicted: set<Path>)
      requires Valid() && p !in index
      modifies this`order, this`index, this`pins, this`pending
      ensures Valid() && KeepsDependencies(old(index), index, None)
      ensures Evicts(old(order), old(index), old(pins), capacity, p, evicted)
      ensures evicted !! index.Keys && p !in evicted && Removes(old(Now()), Now(), None, evicted)
    {
      RemovesNothing(Now(), None);
      evicted := {};
      if |order| >= capacity {
        ghost var victim := EvictOldest();
        if victim.Some? {
          NotAllPinned(old(order), old(pins), victim.value);
          evicted := {victim.value};
        }
      }
    }

    /** Add a new entry as the most recently used. */
    method PushFront(p: Path, pkg: P, deps: seq<Path>)
      requires Valid() && p !in index && forall d | d in deps :: rank(d) < rank(p)
      modifies this`order, this`index, this`pins
      ensures Valid() && order == [p] + old(order) && index == old(index)[p := Entry(pkg, deps)]
    {
      InsertEntry(order, index, pins, pending, held, rank, p, Entry(pkg, deps));
      order := [p] + order;
      index := index[p := Entry(pkg, deps)];
      TakePins(p, deps);
    }

    /** Put, for a path that is not cached. */
    method Insert(p: Path, pkg: P, deps: seq<Path>) returns (ghost evicted: set<Path>)
      requires Valid() && p !in index && forall d | d in deps :: rank(d) < rank(p)
      modifies this`order, this`index, this`pins, this`pending
      ensures Valid() && Evicts(old(order), old(index), old(pins), capacity, p, evicted)
      ensures PutsEntry(old(Now()), Now(), p, Entry(pkg, deps), evicted)
    {
      evicted := MakeRoom(p);
      ghost var c1 := Now();
      PushFront(p, pkg, deps);
      InsertsEntry(old(Now()), c1, p, Entry(pkg, deps), pins, evicted);
    }

    method Get(p: Path) returns (r: Option<P>)
      requires Valid()
      modifies this`order
      ensures Valid()
      ensures r == if p in index then Some(index[p].pkg) else None
      ensures order == if p in index then [p] + Without(old(order), p) else old(order)
    {
      if p !in index {
        return None;
      }
      MoveToFront(p);
      return Some(index[p].pkg);
    }

    /** A caller takes a pin. */
    method Pin(p: Path)
      requires Valid()
      modifies this`pins, this`held
      ensures Valid() && held == old(held) + multiset{p}
    {
      CountPin(p, multiset{}, None);
      HeldOrOwed(order, index, pins, pending, held, rank, p);
      held := held + multiset{p};
    }

    /** A caller gives back a pin it holds. */
    method ReleasePin(p: Path)
      requires Valid() && p in held
      modifies this
      ensures Valid() && held == old(held) - multiset{p}
      ensures Removes(old(Now()), Now(), None, {}) && KeepsDependencies(old(index), index, None)
    {
      held := held - multiset{p};
      assert old(held) == held + multiset{p};
      HeldOrOwed(order, index, pins, pending, held, rank, p);
      Unpin(p, multiset{}, None);
      DependenciesKept(old(index), old(pins), order, index, pins, pending, held, rank, multiset{}, None);
    }

    /** Remove an entry, at once if it is not pinned, otherwise when its last pin is released. */
    method Delete(p: Path)
      requires Valid()
      modifies this`order, this`index, this`pins, this`pending
      ensures Valid()
      ensures PinCount(old(pins), p) > 0 ==> Now() == old(Now()).(pending := old(pending) + {p})
      ensures PinCount(old(pins), p) == 0 ==> p !in index && Removes(old(Now()), Now(), None, {p})
      ensures KeepsDependencies(old(index), index, None)
    {
      if PinCount(pins, p) > 0 {
        pending := pending + {p};
        return;
      }
      RemoveIfPresent(p, multiset{}, None);
      DependenciesKept(old(index), old(pins), order, index, pins, pending, held, rank, multiset{}, None);
    }
  }
}
