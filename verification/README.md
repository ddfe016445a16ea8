# A verified model of golance's core

golance is a memory-bounded Go language server. This project models the parts of it that are algorithms and
protocols rather than mappings over go/types, and proves what they are for:

- **The line diff** (`EditGraph`, `Myers`, `Text`, `LineDiff`). Myers' greedy search over an in-place V array,
  the backtrack over its saved rounds, and the conversion to byte edits. For all texts the edits turn one text
  into the other, and the script behind them is shortest among *all* scripts.
- **The incremental index** (`UnitKeys`, `Units`, `Processing`, `Building`, `Interleaving`, `Completion`,
  `Reindexing`, `Revalidation`). A content-addressed cache with early cutoff. Whatever mixture of stat skips, blob hits and
  type-checks a run takes, under every schedule and every interleaving, it leaves what a from-scratch build would.
- **Topological order and the scheduler** (`Paths`, `Kahn`, `Graph`, `Scheduler`). The two-pass order with its
  fallback for test-only cycles, and the atomic-counter scheduler as a transition system whose steps are the
  single atomic operations of interleaved `finish` calls.
- **The pin-counted LRU** (`PinnedLru`), a class with the release cascade as mutually recursive methods.
- **Generation gates** (`Generations`), **per-document queues** (`NotifyQueues`) and **framing** (`Framing`).
- **UTF-16 positions, formatting edits, semantic tokens** (`Utf8`, `Positions`, `Formatting`, `SemanticTokens`).

`dafny verify dfyconfig.toml` checks everything.

## How the pieces fit

*Diff.* `EditGraph.Reach` says which points of the edit graph can be reached with `d` edits, points beyond the
grid included, since V runs past it. A round stores the furthest reaching column of each diagonal; the
search stops first at the far corner; and every script is a path, so no script is cheaper.

*Index.* `UnitKeys.World` holds the byte hash, the content hash, the type-checker (a function of a package's
content and its direct dependencies' exports) and what files with a given stat hold. Hashes are collision-free;
they are unbounded numbers so that such hashes exist. `Units.Scratch` is the from-scratch build, by recursion
along the topological order. A database and a blob store are consistent when every trusted pointer and every
blob is true of *some* content and exports; nothing is assumed about how they came about. The stream
that `computeUnitKey` hashes is proved to be readable backwards, so a key determines content and dependency
exports, and a consistent record with the right key is the right record. `Processing.Processes` says what
processing one package does, `Processing.Run.ProcessUnit` is proved to do that, and `ProcessesSound` proves
that it keeps the index right. `Building.Build` then takes any complete run of `Scheduler`, any fault at any
package and any batching of the database writes. There a package is processed in one step; `Interleaving` takes
`processUnit` apart into its single reads and writes and proves the refinement for every interleaving of those
of all jobs, the unlocked database read inside `keyTable.get` included, and `Completion` that such a run can always
be finished and what in it fails, is skipped or is type-checked. `Assumptions` shows that all this can be
met together: a collision-free world exists, every graph has a complete schedule, and empty stores are consistent
over any graph from which nothing is dropped.

*Scheduler.* The invariant is that every unit is in exactly one of three states (waiting, about to be sent by
one worker, sent), that each counter is the number of dependencies still to be paid off, and that the channel is
closed by the last to leave. Safety, no deadlock, a bound on the length of every run, and the order of the jobs
that `Build` relies on follow.

*LRU.* `held` is a ghost multiset of the pins callers have taken. `Consistent` counts pins exactly while a
cascade is under way: cached entries' dependencies, plus callers' pins, plus what is still owed.

Where code and comments differ, the code is followed. The comment on `Revalidate` speaks of packages that need a
parse or type-check. The code reports every package that `Build` would not *skip*, among them one whose new key is
already in the blob store. So the documented property fails: `Assumptions.RevisitBranch` goes back to a branch that
was visited before, with the blobs of both branches in the store, and `Revalidate` reports a change although `Build`
type-checks nothing. `Revalidation.RevalidateThenBuild` proves that from consistent stores a needed type-check is
never missed, and that the answer is the documented one exactly if every package is current or some unit is not in
the blob store.

## Model

| member | source | states |
|---|---|---|
| `EditGraph.SlideIsFurthest` | internal/diff/diff.go:97-115 | Entering a diagonal from the better neighbour and sliding to the first mismatch gives the furthest column any path with that many edits reaches on it. |
| `EditGraph.CornerWithin` | internal/diff/diff.go:111-114 | A path that has left the grid on both sides passed the far corner with edits to spare, so the first stop is exactly at the corner. |
| `EditGraph.AllEdits` | internal/diff/diff.go:92-121 | Deleting and inserting everything reaches any point, so the search ends within n+m rounds. |
| `EditGraph.ScriptReaches` | internal/diff/diff.go:86-121 | Every edit script is a path to the far corner of its own cost: the reference that minimality is measured against. |
| `Myers.FollowDiagonal` | internal/diff/diff.go:99-110 | One inner step of the search finds the furthest reaching column, reading V only within range. |
| `Myers.SearchRound` | internal/diff/diff.go:97-117 | A round updates V in place to the next layer of furthest columns, or stops, and then at the far corner. |
| `Myers.ShortestEditTrace` | internal/diff/diff.go:92-121 | The trace holds the layers of all rounds up to the first that reaches the corner; the return after the loop is unreachable. |
| `Myers.Backtrack` | internal/diff/diff.go:126-159 | The script transforms one line list into the other at a cost of exactly the last round. |
| `Myers.Reverse` | internal/diff/diff.go:155-158 | Swapping from both ends reverses the script. |
| `Myers.DiffLines` | internal/diff/diff.go:81-84 | The script is valid, and no valid script has fewer deletions plus insertions. |
| `Text.SplitUnique` | internal/diff/diff.go:38-43 | A text has exactly one split into lines that keep their newline. |
| `LineDiff.SplitLines` | internal/diff/diff.go:44-59 | The lines are that split, and the offsets are their starts and the end of the text. |
| `LineDiff.EditsFromOps` | internal/diff/diff.go:167-203 | Applying the edits gives the concatenated new lines; there is one edit for each longest run of deletions and insertions in the script, with exactly the offsets of the lines it deletes and the text of those it inserts; edits are ordered, on line boundaries, none empty, separated by at least one kept line. |
| `LineDiff.Lines` | internal/diff/diff.go:31-36 | Applying the edits to `before` yields exactly `after`; they are the longest runs of changes of one shortest script, nothing more and nothing less; they are empty exactly when the texts are equal. |
| `LineDiff.TouchesWhatChanged` | internal/diff/diff.go:161-203 | So every line the script keeps is spared by every edit, and every line it deletes is inside one. |
| `UnitKeys.ComputeUnitKey` | internal/index/unitkey.go:100-120 | The key hashes the dependencies sorted by path, so it does not depend on the order they are listed in. |
| `UnitKeys.StreamInjective` | internal/index/unitkey.go:104-118 | The hashed stream, eight little-endian bytes per hash, can be read back: own hash, paths and export hashes are determined by it, without any assumption about the hash. |
| `UnitKeys.StreamBytes` | internal/index/unitkey.go:104-118 | With hashes below 2^64 and paths of bytes, every element of that stream is a byte. |
| `UnitKeys.UnitKeyInjective` | internal/index/unitkey.go:69-120 | Equal keys come from equal content hashes and equal dependency hashes. |
| `UnitKeys.KeyTable.Set` | internal/index/unitkey.go:171-175 | Records a package for this run and touches nothing else. |
| `UnitKeys.KeyTable.Fail` | internal/index/unitkey.go:182-189 | Records a failed package and touches nothing else. |
| `UnitKeys.KeyTable.Get` | internal/index/unitkey.go:210-229 | This run's record first, nothing for a package that failed, else the database's, which is remembered without changing any later lookup. |
| `Units.AcyclicDropsNone` | internal/index/unit.go:284-315 | Without import cycles, test imports included, no dependency is dropped from the key. |
| `Units.DirectDepsAre` | internal/index/unit.go:300-315 | The dependencies that go into a key are exactly the workspace packages with Go files that are imported, in production or in the tests, and come before the package. |
| `Units.OriginUnique` | internal/index/unitkey.go:69-92 | A key determines the content and the dependency exports it was made from. |
| `Units.OwnHashIsContentHash` | internal/index/unit.go:155-160 | The stat fast path reuses exactly the hash a recomputation would give. |
| `Units.CombinedIsScratch` | internal/index/unit.go:106-116 | The key a run computes from its lookups is the from-scratch key. |
| `Units.BlobIsScratch` | internal/index/unit.go:195-208 | The blob found under that key holds the from-scratch export and facts. |
| `Units.VisibleIsScratch` | internal/index/export_source.go:87-113 | What the type-checker sees of the imports, from memory or from the blob store, is their from-scratch exports. |
| `Processing.Run.DirectDepImports` | internal/index/unit.go:300-315 | Exactly the workspace imports with Go files that come before the package, once each. |
| `Processing.Run.DirectDepExports` | internal/index/unit.go:259-272 | The export hash of every dependency, or which dependency has none: one that failed this run, or one never indexed. |
| `Processing.Run.ExportDataOf` | internal/index/export_source.go:87-113 | Export data put this run, else that of the current record's blob; an empty blob is a miss. |
| `Processing.Run.UnchangedOutcome` | internal/index/unit.go:167-193 | The old record stands; its stat is refreshed exactly if stat may be trusted, can be read and did not already match. |
| `Processing.Run.CasHitOutcome` | internal/index/unit.go:198-208 | Record, export and pointer come from the blob under the combined key. |
| `Processing.Run.CheckAndStoreOutcome` | internal/index/unit.go:213-237 | Exactly without a fault of check or store, the check result is stored under the combined key, with the stat if it is trusted; a failure stores nothing. |
| `Processing.Run.ProcessUnit` | internal/index/unit.go:80-149 | The three paths are taken exactly under their conditions, with nothing changed beyond the package itself and remembered lookups; it fails exactly if a dependency has no record or a fault lies on the path taken; where stat is trusted, what is skipped or type-checked is recorded with the stat just read. |
| `Processing.Run.ProcessUnitRecovered` | internal/index/index.go:370-382 | Any failure, a recovered panic included, is recorded, so the package is either set or failed. |
| `Processing.ProcessesSound` | internal/index/unit.go:80-237 | From a right state, whichever path is taken and even on failure, the state stays right, and the record and pointer of a resolved package are the from-scratch ones. |
| `Building.CommitKeepsLatest` | internal/index/results.go:71-90 | Flushing any batch of queued writes changes nothing but where the newest pointers are. |
| `Building.AccountedNext` | internal/index/index.go:346-382 | Every processed package has a record or an error, and no error says that a dependency was out of order. |
| `Building.SpreadNext` | internal/index/unitkey.go:139-156 | A package with a dependency that failed this run fails too, instead of being keyed from an old record. |
| `Building.QuietNext` | internal/index/unit.go:118-120 | So long as everything is skipped the key table repeats the old records; a package is then skipped exactly if it was current. |
| `Building.JobReady` | internal/index/scheduler.go:96-127 | The dependencies folded into a key are among those the scheduler has waited for. |
| `Building.CheckedIfNew` | internal/index/unit.go:118-148 | A package that is resolved is type-checked exactly if its from-scratch key was not in the blob store when it was processed. |
| `Building.TracedNext` | internal/index/index.go:346-382 | Every error has a fault of its own package behind it, or the error of a dependency. |
| `Building.RunJobs` | internal/index/index.go:251-273 | All of this holds after the worker loop and the final flush, and what was skipped or type-checked has its stat recorded. |
| `Building.Build` | internal/index/index.go:208-296 | Under any schedule, faults and batching: no out-of-order error; failures spread to dependents and have faults behind them; from consistent stores every package that did not fail agrees with a from-scratch build, the stores stay consistent, and one package is type-checked for each unit new to the blob store; without failures everything is skipped exactly if every package was current, and nothing is type-checked exactly if the store had every unit. Whatever is skipped or type-checked has exactly the stat just read in its pointer, if that could be read and its refresh was not lost. |
| `Building.NoFaultsNoError` | internal/index/index.go:198-207 | Without a fault no package fails. |
| `Interleaving.StepKeeps` | internal/index/unit.go:80-237 | Every single read or write of any job, between any of those of the others, and every flush, keeps what each job has read true and the stores right. |
| `Interleaving.NeverFalls` | internal/index/unitkey.go:210-229 | No lookup of a job gets as far as the unlocked database read, so none overwrites a record of this run with an older one. |
| `Interleaving.AnyInterleaving` | internal/index/index.go:259-273 | Under every interleaving of the single steps of all jobs: stores consistent at every moment, failures spread, and in the end every package that did not fail agrees with a from-scratch build. |
| `Completion.FailuresTraced` | internal/index/unitkey.go:139-156 | A package fails only by a fault of its own or by a failed dependency; without faults none fails. |
| `Completion.OnlyNewChecked` | internal/index/unit.go:118-148 | Only packages whose unit the store did not have at the start are type-checked, and the store gains exactly the keys of those. |
| `Completion.SkipsIfCurrent` | internal/index/unit.go:118-120 | A job stops at its old record exactly if that has the from-scratch key and the current fingerprint and the blob is there; it then writes no entry. |
| `Completion.CanComplete` | internal/index/index.go:259-273 | From wherever such a run has got, faultless steps bring every package through and every queued write into the database: no job waits for ever. |
| `Reindexing.Unaffected` | internal/graph/graph.go:557-602 | A change of one package's content changes no unit outside its reverse closure. |
| `Reindexing.EarlyCutoff` | internal/index/unitkey.go:77-86 | If the changed package's export data stays the same, no other unit changes. |
| `Reindexing.KeyChanges` | internal/index/unitkey.go:77-92 | A key changes exactly if the content or the export data of some dependency that goes into it does. |
| `Reindexing.KeyFollowsImports` | internal/index/unitkey.go:77-92 | Without import cycles: exactly if the content or the export data of some workspace import does, test imports included. |
| `Reindexing.OrderedReverseClosure` | internal/index/reindex.go:115-127 | Everything else that reaches the changed package, once each, in topological order. |
| `Reindexing.AcyclicInOrder` | internal/graph/graph.go:545-555 | Without import cycles, test imports included, every import comes before its importer, which is what the next rows assume. |
| `Reindexing.ReindexOne` | internal/index/reindex.go:155-190 | One hop keeps the walk's invariant; it reports an error only for a fault, a failing write or a failed dependency; a failing write is fatal, a lost stat refresh and any other failure are not, and the stores stay consistent. |
| `Reindexing.Reindex` | internal/index/reindex.go:32-110 | If only the changed package's content differs from an agreed state, every error has a fault, a failing write or the error of a dependency behind it, and an error-free run restores agreement for the whole workspace and lists exactly the units whose key changed. Without faults and failing writes there is no error, so all of this holds. |
| `Reindexing.NoCauseNoError` | internal/index/reindex.go:155-190 | Without faults and failing writes behind them, no package is among the errors. |
| `Reindexing.ListsExportChanges` | internal/index/reindex.go:84-110 | So every unit whose export data changed is listed, and no unit but the changed package is if its own export data did not. |
| `Revalidation.PackageChanged` | internal/index/revalidate.go:227-274 | Whether the package is stale by the recorded pointers alone; an error exactly if its record cannot be read, or its files have to be and cannot. |
| `Revalidation.RevalidateStale` | internal/index/revalidate.go:149-215 | Exactly the stale units, sorted; the whole database and nothing else when the fingerprint does not match; an error, and nothing else, exactly if the fingerprint or some unit cannot be read. |
| `Revalidation.Revalidate` | internal/index/revalidate.go:40-46 | True under another fingerprint; under a matching one false exactly when every unit is current. |
| `Revalidation.RevalidateThenBuild` | internal/index/revalidate.go:16-46 | False exactly when an error-free `Build` of the same stores, under any schedule, skips every package; a needed type-check is never missed; and "changed" means "something is type-checked" exactly if every package is current or some unit is not in the blob store. |
| `Assumptions.BothBranchesStored` | internal/index/revalidate.go:16-22 | An input for which the documented meaning fails: consistent stores in which every unit is stored and a record is not current. |
| `Assumptions.RevisitBranch` | internal/index/revalidate.go:16-22 | On it, under any schedule, `Revalidate` reports a change and `Build` type-checks nothing. |
| `Kahn.KahnPass` | internal/graph/graph.go:484-525 | The pass yields the greedy order (always the least ready path of those released), whatever order maps are iterated in. |
| `Kahn.PassUnique` | internal/graph/graph.go:473-525 | There is only one such order. |
| `Kahn.GreedyForward` | internal/graph/graph.go:484-525 | A placed path comes after each of its dependencies in scope, cycles elsewhere or not. |
| `Kahn.PassComplete` | internal/graph/graph.go:484-525 | Over acyclic edges a pass places everything. |
| `Paths.LessMeans` | internal/graph/graph.go:484-525 | The order on paths is decided by the first character in which they differ, the smaller one first; a proper prefix comes first. |
| `Graph.TopoOrder` | internal/graph/graph.go:448-471 | The two passes, the second over production imports of what the first left over. |
| `Graph.TopoOrderUnique` | internal/graph/graph.go:420-471 | The order does not depend on map iteration. |
| `Graph.TopoOrderForward` | internal/graph/graph.go:448-471 | With production imports acyclic the order is a permutation that puts every production import first, even when test imports stall the first pass. |
| `Graph.TopoOrderForwardBoth` | internal/graph/graph.go:448-471 | With both kinds acyclic together, test imports come first too. |
| `Graph.NewSnapshot` | internal/graph/graph.go:391-418 | The snapshot's order, positions and reverse edges are those of its packages, and every list of importers is sorted. |
| `Graph.ImportsBefore` | internal/graph/graph.go:545-555 | `Before` holds of every production import. |
| `Graph.TestImportsBefore` | internal/graph/graph.go:545-555 | And of every test import when there is no test-only cycle. |
| `Graph.ClosureUnits` | internal/graph/graph.go:583-602 | Exactly the packages that reach the target through production or test imports, sorted. |
| `Scheduler.SchedulableDepsOf` | internal/index/scheduler.go:112-127 | Exactly the workspace imports that come before the package, once each. |
| `Scheduler.SchedulableDepsAre` | internal/index/scheduler.go:112-127 | Those are exactly the workspace packages imported, in production or in the tests, that come before the package. |
| `Scheduler.ComputeDependents` | internal/index/scheduler.go:136-147 | The exact reverse lists, without repetition. |
| `Scheduler.NewScheduler` | internal/index/scheduler.go:45-80 | However maps are iterated, a valid plan and an initial state with exactly the units without dependencies sent. |
| `Scheduler.StepKeeps` | internal/index/scheduler.go:85-94 | Every atomic step of every interleaved `finish` keeps the invariant. |
| `Scheduler.RunKeeps` | internal/index/scheduler.go:85-94 | So does every run. |
| `Scheduler.SentAfterDependencies` | internal/index/scheduler.go:82-94 | In every run each unit is sent at most once, and only after all its dependencies were processed. |
| `Scheduler.SendsFit` | internal/index/scheduler.go:66-94 | A send finds the channel open and room in the buffer, and its unit was never sent before. |
| `Scheduler.ClosesLast` | internal/index/scheduler.go:91-93 | The close happens once, after every unit has been sent, received and has left. |
| `Scheduler.NeverStuck` | internal/index/scheduler.go:96-111 | Until everything is done and the channel closed, some step can be taken. |
| `Scheduler.RunsEnd` | internal/index/scheduler.go:85-94 | No run is longer than a bound fixed by the plan. |
| `Scheduler.CanComplete` | internal/index/scheduler.go:85-94 | Every state a run reaches can be completed: all units processed and the channel closed. |
| `Scheduler.JobsInOrder` | internal/index/index.go:259-271 | The jobs of any run are distinct units, each after its dependencies; those of a complete run are all units. |
| `PinnedLru.DependenciesKept` | internal/depcheck/lru.go:59-88 | Whatever a cached entry depends on is pinned, so no removal takes it away. |
| `PinnedLru.LruCache.Put` | internal/depcheck/lru.go:89-106 | The entry is in front with its new contents; what is evicted is exactly the least recently used unpinned entry if a new one comes into a full cache, every entry behind it being pinned, and nothing otherwise; beyond that only pending deletes are carried out; recency order, pin counts and resident dependencies are kept. |
| `PinnedLru.LruCache.Get` | internal/depcheck/lru.go:49-57 | The cached package, moved to the front; nothing else changes. |
| `PinnedLru.LruCache.Pin` | internal/depcheck/lru.go:127-129 | One more pin held by callers, and counts stay exact. |
| `PinnedLru.LruCache.PinAll` | internal/depcheck/lru.go:132-136 | One more pin counted on each path. |
| `PinnedLru.LruCache.UnpinAll` | internal/depcheck/lru.go:139-143 | Releases what is owed on each path, with all cascades; nothing pinned is removed. |
| `PinnedLru.LruCache.Unpin` | internal/depcheck/lru.go:148-158 | Releases one pin; the last one carries out a pending delete; terminates because the cache shrinks. |
| `PinnedLru.LruCache.ReleasePin` | internal/depcheck/lru.go:148-158 | A caller gives back a pin it holds: counts stay exact and nothing but pending deletes is removed. |
| `PinnedLru.LruCache.EvictOldest` | internal/depcheck/lru.go:166-175 | An unpinned entry behind which every entry is pinned goes, or nothing changes when all are pinned. |
| `PinnedLru.LruCache.RemoveElement` | internal/depcheck/lru.go:181-186 | The entry goes and the pins it held are released in turn. |
| `PinnedLru.LruCache.RemoveIfPresent` | internal/depcheck/lru.go:190-196 | The same, or nothing if it is not cached. |
| `PinnedLru.LruCache.Delete` | internal/depcheck/lru.go:202-208 | At once if unpinned; otherwise only recorded as pending, with no entry touched. |
| `Generations.StepKeeps` | internal/check/check.go:640-714 | Every step of every recheck keeps both gates' invariants, across units and evictions. |
| `Generations.RunKeeps` | internal/check/check.go:640-714 | So does every run, and what was published stays published. |
| `Generations.ActionsDetermine` | internal/check/check.go:640-691 | After any run the newest generation of a unit is the highest its commits name, and each recheck started was given a generation of its own. |
| `Generations.NewestIsCached` | internal/check/check.go:681-689 | A commit not older than all earlier ones of its unit is cached; an older one changes nothing in the cache. |
| `Generations.CommitEvicts` | internal/check/check.go:664-691 | A commit evicts at most one entry, never one of the focused directory, and keeps to the limit if it can. |
| `Generations.NeverStuck` | internal/check/check.go:664-714 | A recheck under way always has a next step towards its end, and one that has not committed can commit. |
| `Generations.RecheckAlone` | internal/check/check.go:640-714 | On a live engine a recheck that runs alone is cached and published. |
| `Generations.Ordered` | internal/check/check.go:664-714 | In every interleaving published generations strictly increase, never overtake commits, and a cached entry has the highest generation committed in the run. |
| `Generations.NothingLeftUnpublished` | internal/check/check.go:692-714 | Once all rechecks of a unit have finished on a live engine, the highest generation committed in the run is the last thing published. |
| `NotifyQueues.StepKeeps` | internal/rpc/notifyqueue.go:14-52 | Every push, drainer start, drain step and return keeps every queue's invariant. |
| `NotifyQueues.RunsInOrder` | internal/rpc/notifyqueue.go:14-52 | At most one drainer; pending work has one; functions run once each, in push order, without overlap. |
| `NotifyQueues.BarrierHolds` | internal/rpc/server.go:413-445 | A request's handler, which may start as soon as its barrier function is called, starts only after everything earlier on the wire for its document has returned. |
| `NotifyQueues.RunsEnd` | internal/rpc/notifyqueue.go:39-52 | No run is longer than a bound fixed by where it starts. |
| `NotifyQueues.NeverStuck` | internal/rpc/notifyqueue.go:14-52 | Until every function has returned and every request has started, some step can be taken. |
| `NotifyQueues.CanFinish` | internal/rpc/server.go:413-445 | Every state a run reaches can be brought to that end. |
| `Framing.ReadFrame` | internal/rpc/framing.go:32-74 | The reading loop is the recursive parse. |
| `Framing.Conn.Write` | internal/rpc/framing.go:103-113 | Appends exactly one frame, or, when the stream fails, a proper prefix of it and nothing ever after; a reader gets exactly the bodies whose write succeeded, and a clean end only if nothing was cut. |
| `Framing.FrameReads` | internal/rpc/framing.go:32-113 | A written frame is read back, whatever follows. |
| `Framing.PrefixTruncated` | internal/rpc/framing.go:32-74 | Every nonempty proper prefix of a frame is reported truncated: neither a body nor a clean end. |
| `Framing.OtherHeadersIgnored` | internal/rpc/framing.go:49-56 | Any further header lines, before or after the length, leave what is read unchanged. |
| `Framing.BadHeadersRejected` | internal/rpc/framing.go:57-65 | A header block without a length is rejected, and so is a length that is not a number. |
| `Framing.LastLengthCounts` | internal/rpc/framing.go:57-61 | Of two lengths the later one counts. |
| `Framing.LooseHeader` | internal/rpc/framing.go:53-61 | The name of the length header counts in any case, and blanks around name and number do not. |
| `Framing.StreamEnds` | internal/rpc/framing.go:32-113 | Any concatenation of frames reads as its bodies in order and then clean EOF; cut inside a frame it never ends cleanly. |
| `Utf8.DecodeRune` | internal/overlay/position.go:43-74 | Sizes, surrogate-pair need, newlines and the one-byte treatment of invalid input, as Go decodes UTF-8. |
| `Utf8.DecodeEncode` | internal/overlay/position.go:43-74 | Decoding a scalar value encoded by the table of section 3 of RFC 3629 gives it back in any context. |
| `Utf8.EncodeDecode` | internal/overlay/position.go:43-74 | What is decoded is a well-formed encoding of its rune or one stray byte. |
| `Positions.LocatedAt` | internal/overlay/position.go:43-101 | Under 2^32 bytes rune boundaries and accepted positions are in bijection. |
| `Positions.NewlineBoundaries` | internal/overlay/position.go:43-101 | Both sides of a newline are rune boundaries, even in invalid UTF-8. |
| `Positions.UTF16PositionForByteOffset` | internal/overlay/position.go:80-101 | The wrapped position of the rune boundary at or after the offset; none exactly when out of range. |
| `Positions.ByteOffsetForUTF16Position` | internal/overlay/position.go:43-74 | In a text of any length, the first boundary the position fits, counter wrap-around included, or none if there is none; under 2^32 bytes, the one boundary with that position. |
| `Positions.UTF16PositionConverter.Position` | internal/overlay/position.go:129-147 | For any sequence of offsets, backwards and inside runes too, the stateless answer. |
| `Formatting.LineStartBoundary` | internal/server/handlers_langfeat.go:546-558 | Every line start is a rune boundary. |
| `Formatting.FormattingTextEdits` | internal/server/handlers_langfeat.go:546-558 | Conversion never fails, every edit is on the wire as the diff made it, and the edits are the longest runs of changes of a shortest script. |
| `Formatting.ApplyContentChanges` | internal/overlay/position.go:13-37 | Applies the changes in order to the text, or rejects them at the first bad range. |
| `Formatting.FormatInPlace` | internal/server/handlers_langfeat.go:546-558 | A client that makes the edits in place, bottom-up, ends with exactly the formatted text, however long that and the texts on the way are. |
| `SemanticTokens.AdvanceTo` | internal/langfeat/semantic.go:520-532 | Walks to the target, counting lines and columns as the reference scan does. |
| `SemanticTokens.Utf16Length` | internal/langfeat/semantic.go:536-544 | The difference of the columns at both ends. |
| `SemanticTokens.Encode` | internal/langfeat/semantic.go:490-515 | Decoding the stream recovers every token's line, column, length, kind and modifiers, and every number fits in 32 bits. |
| `SemanticTokens.SplitMultilineToken` | internal/langfeat/semantic.go:221-237 | Single-line pieces in order, covering the token minus its newlines, fit for `Encode`. |

## Left out

- go/types, go/parser, gcexportdata, bbolt and file I/O: the type-checker, the stores and the disk are functions and maps; a panic in the checker counts as a failed check.
- Language features (hover, completion, code actions, symbols, lenses), capabilities, memory limits and process watching: thin mappings over libraries.
- Positions and index entries within a blob (`Index`, `Incomplete`, `FirstError`), progress and heap statistics: they do not influence what is keyed or stored.
- Withheld exports (a package whose export data fails its round trip, or one of cgo files only): the refinement assumes that checking always yields export data; an empty blob is still modelled as a miss.
- Test imports dropped from the order: the refinement assumes that none is; the code accepts a gap there.
- A change of build flags or of the toolchain behind the same blob store: the content hash and the checker are fixed; pointers with another fingerprint are untrusted and nothing is assumed about them.
- Other faults of the index: a database read that fails counts as a missing record, except for a unit's own record in `Revalidation`; a failing commit of unit entries, a cancelled context, and a blob that cannot be read while an import is resolved are not modelled.
- Building.RunJobs: a package is processed in one step; the interleaving of single reads and writes is the subject of `Interleaving` and `Completion`, where the read of one import's export data is one step.
- Concurrent `Reindex` calls: `tryCommit` always succeeds, as it does for one call at a time.
- UnitKeys.ComputeUnitKey: hashes are unbounded numbers; one of 2^64 or more keeps its excess in the eighth element of its word. Characters stand for the bytes of a path.
- Content hashing: `contentHash` is an injective function of what the files hold, file names included; its own byte stream is not modelled.
- Scheduler.NewScheduler: relies on imports without duplicates, which `importPaths` and `extraImports` guarantee; the 32-bit width of the counters is not modelled.
- Scheduler, Generations and NotifyQueues are state machines over values, one step per atomic or locked operation; objects and aliasing are not part of them.
- PinnedLru.LruCache.Put: relies on acyclic imports (a ghost rank); pin counts are unbounded; `types.Unsafe` is filtered by the caller.
- PinnedLru.LruCache.ReleasePin: relies on callers releasing only pins they hold; the Provider's own waiter and birth-pin accounting is not modelled.
- Generations: the victim of an eviction is any entry but the focused one; timers, flights, `pendingWG` and panics while publishing are not modelled.
- NotifyQueues: messages that the lifecycle state rejects, cancellation and worker pools are not modelled; the barrier is one more queued function.
- Framing.ReadFrame: takes the whole stream as one sequence, and does not model the error texts or the allocation of very long bodies.
- Formatting.FormatInPlace: stated for original texts of fewer than 2^32 lines whose last line has fewer than 2^32 UTF-16 units, in which no position on the wire wraps; every text under 2^32 bytes is one.
- CAS garbage collection, and patches from `organizeImportsEdit`.
