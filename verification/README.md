# ChunkHound, verified

A Dafny model of the parts of ChunkHound whose correctness rests on interleavings, arithmetic or on one package
reading what another one printed, with proofs of what those parts promise.

| modules | component |
|---|---|
| ProjectRoots, StartupProtocol, StartupInvariant, StartupProgress, StartupRaces, StartupSafety, StartupLiveness, StartupMoves, StartupAttach, StartupOutcomes, StartupSchedules, StartupCleanup | daemon startup: proxies racing to find or start one daemon per project root |
| PoiPool, PoiSchedules, PoiPipeline | the point-of-interest worker pool with back-off to serial, and its retry pass |
| ChunkSplitter, SplitterLaws, SplitterLimits, SplitterCuts | the recursive chunk splitter with its character fallback |
| IdleShutdown | the daemon's delayed shutdown when the last client leaves |
| TreeCache, TreeCacheLaws | the LRU cache of syntax trees |
| TopicIndex, TopicIndexLaws | topic files and the index document, printed by the mapper and read by AutoDoc |
| MetadataBlock, MetadataLaws, MetadataFidelity, MetadataRoundTrip | the metadata comment, printed by the mapper and read by AutoDoc |
| SourcesTree, SourcesTreeLaws, SourcesTreeExact | the sources tree, printed by the research footer and flattened by AutoDoc |
| HydeSampling, HydeExact | the budgeted sampling of source text for the scope prompt |
| Text, Sorting, Wrappers | splitting, joining, stripping, numerals and lines; stable sorting; optional values |

`dafny verify dfyconfig.toml` checks the whole project.

## Daemon startup: granularity and assumptions

The state holds the running processes with their program counters, the PID lock files (absent, created but
unwritten, or holding a pid), the daemon lock files and the user-wide registry. A step changes at most one file, except
that a retiring daemon's two removals may count as one (below). Processes interleave freely, time-outs and sleeps are
steps that may happen at any time, and a process may crash or be cancelled wherever the assumptions below do not forbid
it. A run may begin with any lock files and registry entries that earlier sessions left behind.

Judging one file is one step: reading it, testing whether the pid it names is alive and, for a registry entry, reading
the daemon lock that it names (chunkhound/daemon/discovery.py:777-806). Releasing an own PID lock is two steps, the read
and the unlink.

Five read-then-unlink pairs on files of others carry a flag that says whether they are indivisible: reclaiming a PID
lock (chunkhound/daemon/discovery.py:865-872), removing the own daemon lock when it is stale
(chunkhound/daemon/discovery.py:954-1001), a stale lock file met by the overlap gate
(chunkhound/daemon/discovery.py:524-556), a stale registry entry met there (chunkhound/daemon/discovery.py:760-816), and
a daemon's removal of its lock file and its registry entry (chunkhound/daemon/server.py:447-466). The safety theorem is
an equivalence over these flags. In the source each pair is several file-system calls, so the property its comments
claim fails in the interleavings that the five `Divided...Clashes` lemmas exhibit; it holds when all five are
indivisible.

Assumptions: path hashes are injective and pids are not reused; a starter neither crashes nor is cancelled between
spawning a daemon and publishing it; terminating a failed child succeeds; no process dies between creating a PID lock
file and writing it. A daemon counts as live until it begins to
remove its artifacts, and accepts connections from the time at which it has written its lock until then.

## Where the source and its promises differ

- The splitter does not end on a text it has to split when safe_token_limit is zero or negative, which the configuration
  accepts (`SplitterLaws.SplitEndsExactlyWhen`).
- Pieces can exceed max_chunk_size when min_chunk_size and the search window both do, which the configuration accepts
  (`SplitterLimits.FitsExactlyWhen`).
- Putting a tree into the cache does not end when max_entries is negative, which the constructor accepts
  (`TreeCache.PutEndsExactlyWhen`).
- A file name with white space before an opening parenthesis, or a heading with "](" inside, is not read back
  (`SourcesTreeLaws.FileLineReadBackExactlyWhen`, `TopicIndexLaws.LinkReadBackExactlyWhen`).
- An empty path component behind a named one makes the sources tree read back wrongly: every file behind it is listed
  under another path, and files beside it can be (`SourcesTreeExact.ReadBackExactlyWhen`,
  `SourcesTreeExact.EmptyComponentLost`, `SourcesTreeExact.SiblingMisplaced`).
- Of the statistics in the metadata only scalars, dictionaries of scalars and empty lists survive
  (`MetadataFidelity.FaithfulExactlyWhen`, `MetadataFidelity.LostItems`).

## Model

| member | source | states |
|---|---|---|
| `StartupSafety.SafeExactlyWhenIndivisible` | chunkhound/daemon/discovery.py:1150-1322 | In every run of any number of proxies over any roots and runtime directories no two live daemons have identical or nested roots, if and only if no other process can act inside any of the five read-then-unlink pairs on files of others. |
| `StartupAttach.EveryScheduleAttaches` | chunkhound/daemon/discovery.py:954-1148 | At the end of any run, when a daemon accepts connections for the runtime directory and root of a proxy that is anywhere in the call before its decision (just arrived, or refused an outer lock), every schedule of all processes in which that daemon stays and the proxy meets no abort, crash, failed poll or failed write gives the proxy at most 28 steps of its own more than there are files to visit, three if it has just arrived; it can take one until it has ended, and it ends attached to that daemon, or as its starter if it was polling for it. |
| `StartupSchedules.EveryScheduleEnds` | chunkhound/daemon/discovery.py:1150-1330 | From any quiet end of a run, every schedule of an arriving proxy and its child without an abort, crash, failed poll or failed write is bounded by the files in its way, and one that cannot go on has ended the call: attached to the daemon that served the root; or, if there was none, with its own daemon published if nothing live overlapped the root, and else with a conflict that names a live daemon which does. |
| `StartupOutcomes.EndNamesLiveDaemon` | chunkhound/daemon/discovery.py:954-1330 | In every run a call that returns the address of a daemon got that of one which, in some state of the run, accepted connections for exactly its runtime directory and root, and was its child if it started it; a conflict names a daemon that ran elsewhere on an overlapping root. |
| `StartupOutcomes.EndsWithDaemon` | chunkhound/daemon/discovery.py:954-1330 | A call that meets no abort, crash, failed poll, failed write or vanished process ends with such a daemon or such a conflict, never by giving up. |
| `StartupCleanup.StaleMetadataGone` | chunkhound/daemon/discovery.py:524-849 | When nothing live overlaps the root, a schedule of an arriving proxy that cannot go on has left no stale lock file of its runtime directory and no unbacked registry entry. |
| `StartupSafety.NoPathServedTwice` | chunkhound/daemon/discovery.py:818-849 | With indivisible pairs no path ever lies under the roots of two live daemons, starting or published. |
| `StartupSafety.PublishedArtifactsStand` | chunkhound/daemon/discovery.py:760-816 | Every live daemon keeps the lock file it wrote and, once its starter has let go, a registry entry that names and is backed by that file, whatever clean-up other proxies perform. |
| `StartupSafety.LockDiscipline` | chunkhound/daemon/discovery.py:1159-1226 | Each PID lock has at most one running holder and its file says so; starter implies global implies cross-runtime in the same process; the "starter lock unavailable" branch is unreachable; a daemon that re-reads its own lock always finds itself. |
| `StartupSafety.RunKeepsInv` | chunkhound/daemon/discovery.py:1150-1330 | The inductive invariant holds in every state of every run. |
| `StartupSafety.ReachableInv` | chunkhound/daemon/discovery.py:1150-1330 | Every reachable state satisfies the invariant. |
| `StartupInvariant.InitialInv` | chunkhound/daemon/discovery.py:524-556 | Arbitrary lock files, registry entries and PID locks left by processes that are gone satisfy the invariant. |
| `StartupInvariant.StepKeeps` | chunkhound/daemon/discovery.py:1114-1330 | Every step of every process preserves the invariant. |
| `StartupInvariant.OneInsider` | chunkhound/daemon/discovery.py:915-921 | Two processes that both count the user-wide lock as held are the same process. |
| `StartupInvariant.OthersPublished` | chunkhound/daemon/discovery.py:1275-1299 | Inside the user-wide lock every live daemon except the watched child has its lock file and its registry entry in place. |
| `StartupInvariant.StarterFileStale` | chunkhound/daemon/discovery.py:1215-1226 | A starter-lock file found under the two outer locks always belongs to a process that is gone. |
| `StartupInvariant.ReclaimKeeps` | chunkhound/daemon/discovery.py:865-872 | Unlinking the PID lock of a dead process takes no lock away from a live one. |
| `StartupInvariant.VisitLockKeeps` | chunkhound/daemon/discovery.py:524-568 | The first pass of the overlap gate never removes the lock file of a live daemon. |
| `StartupInvariant.VisitedClear` | chunkhound/daemon/discovery.py:818-849 | A registry entry that raised no conflict belongs to no live daemon overlapping this root. |
| `StartupInvariant.VisitEntryKeeps` | chunkhound/daemon/discovery.py:760-849 | The second pass never removes the entry of a published live daemon and shrinks the set of possible overlaps. |
| `StartupInvariant.SpawnKeeps` | chunkhound/daemon/discovery.py:1228-1233 | Spawning a daemon after the gate keeps all live roots disjoint. |
| `StartupInvariant.PublishKeeps` | chunkhound/daemon/discovery.py:1275-1303 | The authoritative registry write names the spawned child and leaves every other daemon published. |
| `StartupInvariant.ReleaseKeeps` | chunkhound/daemon/discovery.py:879-887 | Reading a PID lock that it counts as held, a process always finds its own pid in it. |
| `StartupInvariant.FinishReleaseKeeps` | chunkhound/daemon/discovery.py:879-887 | When the unlink follows as a step of its own, the file is still the own one, at every level of the nested `finally` blocks. |
| `StartupInvariant.VerifyLockKeeps` | chunkhound/daemon/server.py:133-150 | Re-reading the lock after writing it keeps the invariant. |
| `StartupInvariant.RetireKeeps` | chunkhound/daemon/server.py:447-466 | A daemon removing its artifacts as one step removes its lock file and entry and never those of another live daemon. |
| `StartupInvariant.CrashKeeps` | chunkhound/daemon/discovery.py:1317-1322 | A proxy that dies anywhere outside the protected stretches leaves a state that still satisfies the invariant. |
| `StartupSchedules.LoneStepKeeps` | chunkhound/daemon/discovery.py:1150-1322 | Every step on a schedule of one proxy and its child keeps what is known and lowers the measure of what is left to do. |
| `StartupSchedules.NeverStuck` | chunkhound/daemon/discovery.py:1150-1322 | Until the call has ended and a daemon it started serves, the proxy or its child can run. |
| `StartupMoves.ProxyCanMove` | chunkhound/daemon/discovery.py:1150-1330 | In every reachable state a proxy that has not ended, and neither waits for a daemon nor polls for its child, can take a step of its own. |
| `StartupMoves.OtherStays` | chunkhound/daemon/discovery.py:1114-1330 | No step of another process changes what a proxy does next. |
| `StartupAttach.OwnMoveCloser` | chunkhound/daemon/discovery.py:954-1330 | Every step that a proxy takes while a daemon serves its root brings it closer to that daemon; the gate finds no conflict and its own path is never taken for free. |
| `StartupAttach.HeadingCanMove` | chunkhound/daemon/discovery.py:975-1000 | Such a proxy can always take a step until it has ended. |
| `StartupOutcomes.StepDecides` | chunkhound/daemon/discovery.py:954-1330 | Whatever a step of any process makes a proxy decide is true in the state in which the step was taken. |
| `StartupOutcomes.GivesUpOnlyWhen` | chunkhound/daemon/discovery.py:975-1000 | Apart from aborts and failed children, a proxy gives up only when the process that it waits for is gone. |
| `StartupCleanup.StepSwept` | chunkhound/daemon/discovery.py:524-849 | Every step on a schedule of one proxy and its child keeps visited metadata good: a visited lock file or entry is good or gone, and new ones are good. |
| `StartupLiveness.QuietStart` | chunkhound/daemon/discovery.py:1150-1303 | At the end of any run, when no process holds or is acquiring a PID lock and no live daemon has an overlapping root, a lone proxy can go on to publish its daemon and release all locks over any stale PID locks, lock files and registry entries, and every live daemon stays published. |
| `StartupLiveness.RunTraced` | chunkhound/daemon/discovery.py:524-556 | In every run a lock file that names a running process is the own lock file of a live daemon. |
| `StartupProgress.StartRun` | chunkhound/daemon/discovery.py:1150-1303 | With the three locks free or stale and no conflict for the gate, a run exists to the published daemon that changes nothing else but stale files. |
| `StartupProgress.AcquireRun` | chunkhound/daemon/discovery.py:855-877 | A PID lock that is absent or left by a dead process can be taken, reclaiming it if need be. |
| `StartupProgress.ScanLocksRun` | chunkhound/daemon/discovery.py:558-568 | The first pass of the gate gets through any set of lock files without overlap, removing bad ones and keeping good ones. |
| `StartupProgress.ScanRegistryRun` | chunkhound/daemon/discovery.py:830-849 | The second pass gets through any registry without a conflicting backed entry. |
| `StartupProgress.UnwindRun` | chunkhound/daemon/discovery.py:1317-1322 | Unwinding releases every lock of the nest. |
| `StartupRaces.DividedReclaimClashes` | chunkhound/daemon/discovery.py:863-872 | If others may act between judging a PID lock stale and unlinking it, a run reaches two live daemons on one root. |
| `StartupRaces.DividedCleanReuseClashes` | chunkhound/daemon/discovery.py:954-1001 | If others may act between judging the own daemon lock stale and unlinking it, a run reaches two live daemons on one root. |
| `StartupRaces.DividedDropLockClashes` | chunkhound/daemon/discovery.py:524-556 | The same for a lock file that the overlap gate judges stale. |
| `StartupRaces.DividedDropEntryClashes` | chunkhound/daemon/discovery.py:760-816 | The same for a registry entry that the overlap gate judges stale. |
| `StartupRaces.DividedRetireClashes` | chunkhound/daemon/server.py:447-466 | If others may act between a daemon's removal of its lock file and of its registry entry, a run reaches two live daemons on one root. |
| `ProjectRoots.OverlapMeansSharedPath` | chunkhound/daemon/discovery.py:190-205 | Two roots overlap exactly when some path lies under both; the test is symmetric. |
| `PoiPool.StepKeeps` | chunkhound/code_mapper/service.py:408-534 | Every worker step keeps: points handed out in order, each taken point in exactly one place, in_flight equal to the number of workers between pop and done, and only worker 0 waiting. |
| `PoiSchedules.NeverStuck` | chunkhound/code_mapper/service.py:408-428 | Under every schedule and oracle no pop meets an empty deque, in_flight is exact, and until all workers have exited some worker can run. |
| `PoiPool.StepAgrees` | chunkhound/code_mapper/service.py:507-523 | Sections carry the content that was returned, retry candidates the error, and back-off is set exactly when a candidate met a retryable error. |
| `PoiSchedules.TakesExactlyWhen` | chunkhound/code_mapper/service.py:408-421 | Under every schedule a worker that asks for a point while some are left gets the first of them if and only if no retryable error was met, or it is worker 0 and no call is in flight; otherwise worker 0 waits and any other worker stops. |
| `PoiSchedules.ExitsExactlyWhen` | chunkhound/code_mapper/service.py:408-534 | A worker stops if and only if it asks when no point is left, or it is not worker 0 and a retryable error was met; a worker done with a point asks for another one. |
| `PoiSchedules.SerialAfterBackoff` | chunkhound/code_mapper/service.py:408-421 | Once a retryable error was met, every point is taken by worker 0 with nothing else in flight. |
| `PoiSchedules.ScheduleKeepsInv` | chunkhound/code_mapper/service.py:525-538 | Both invariants hold along every schedule. |
| `PoiSchedules.StepLowersMeasure` | chunkhound/code_mapper/service.py:525-538 | Every step of every worker lowers one measure of remaining work. |
| `PoiSchedules.ScheduleBounded` | chunkhound/code_mapper/service.py:525-538 | Every schedule is finite, bounded by the initial work. |
| `PoiSchedules.FirstPassComplete` | chunkhound/code_mapper/service.py:507-538 | When all workers have exited the queue is empty, every point was taken once in order, and each is recorded once or due for exactly one retry. |
| `PoiPipeline.Pipeline.NextPending` | chunkhound/code_mapper/service.py:408-421 | The new shared state is the one the specification gives, for every worker number, back-off flag and queue. |
| `PoiPipeline.Pipeline.AfterWait` | chunkhound/code_mapper/service.py:414-421 | After its wait worker 0 re-tests only in_flight, then pops; the caller guarantees a point is there. |
| `PoiPipeline.Pipeline.ProcessItem` | chunkhound/code_mapper/service.py:507-523 | Content is recorded as a section, anything else becomes a retry candidate, and only a retryable error sets back-off. |
| `PoiPipeline.Pipeline.MarkItemDone` | chunkhound/code_mapper/service.py:423-428 | The in-flight counter drops and waiters wake exactly when it reaches zero. |
| `PoiPipeline.Pipeline.RunWorkers` | chunkhound/code_mapper/service.py:525-543 | For every event-loop order the first pass ends with the invariants and all workers exited, or some point had a fatal error. |
| `PoiPipeline.Pipeline.RunWorker` | chunkhound/code_mapper/service.py:525-534 | One turn of the event loop is one step of the specification. |
| `PoiPipeline.Pipeline.RecordRetry` | chunkhound/code_mapper/service.py:568-592 | A retried point gets its section, or a failure carrying both error summaries, and nothing else changes. |
| `PoiPipeline.Pipeline.RetryPass` | chunkhound/code_mapper/service.py:545-592 | The pass ends normally exactly when no call is fatal; then exactly the points without content were attempted again, ascending, and the recovered sections and failure reports are those the oracle determines. |
| `PoiPipeline.Pipeline.Run` | chunkhound/code_mapper/service.py:356-598 | For every event-loop order the pipeline ends normally if and only if no call it makes is fatal; then the queue is empty and both result lists are those that the oracle alone determines, after one attempt at each point in order and one more at each that needs it. |
| `PoiPipeline.ResultsPartition` | chunkhound/code_mapper/service.py:545-598 | Those lists are strictly ascending, hold exactly the points that succeed and that fail with their texts and errors, and together have n entries when none aborts. |
| `PoiPipeline.ResultsInWords` | chunkhound/code_mapper/service.py:487-598 | In terms of the answers alone: which points have a section and with which text, which have a failure report and in which words it gives both errors, and exactly when the pipeline ends early. |
| `PoiPipeline.SortGivesSections` | chunkhound/code_mapper/service.py:594 | Sorting what both passes recorded, in whatever order, gives the sections in order. |
| `PoiPipeline.FirstPassResults` | chunkhound/code_mapper/service.py:507-538 | After the first pass exactly the points with content are recorded, and exactly the others are due for a retry with their errors. |
| `Sorting.SortMeaning` | chunkhound/code_mapper/service.py:594 | Sorting orders the elements and neither loses nor repeats any. |
| `Sorting.SortedUnique` | chunkhound/code_mapper/service.py:594 | A strictly ascending list is the only ascending list of its elements. |
| `PoiPipeline.ResolveConcurrency` | chunkhound/code_mapper/service.py:122-138 | An accepted setting gives as many workers as it asks for, four by default, but no more than points and at least one; only a non-integer or a number below one is refused. |
| `SplitterLaws.TerminatesExactlyWhen` | chunkhound/parsers/chunk_splitter.py:345-416 | The character splitter ends on a text if and only if it need not split it or the token limit is positive. |
| `SplitterLaws.SplitEndsExactlyWhen` | chunkhound/parsers/chunk_splitter.py:244-321 | The whole recursive splitter ends on a chunk if and only if its text is empty or fits, or the token limit is positive. |
| `SplitterCuts.RecursiveSplitRight` | chunkhound/parsers/chunk_splitter.py:244-418 | Every split is the one that conditions on the text alone demand: a chunk within the limits stays whole; one of at least three lines, none too long, whose range reaches far enough is halved at the middle line, each half with its range; any other is cut into numbered parts, each with its proportional lines. |
| `SplitterCuts.CutMeaning` | chunkhound/parsers/chunk_splitter.py:358-388 | Each piece ends behind the most preferred character that allows a fitting cut in the window, and only if none does at the window halved the least number of times after which the piece fits or reaches the minimum. |
| `SplitterCuts.PiecesWellCut` | chunkhound/parsers/chunk_splitter.py:345-416 | So does every piece of a text, counted from its own start. |
| `SplitterCuts.PartRange` | chunkhound/parsers/chunk_splitter.py:431-447 | A part starts at the line that its first character has in proportion and spans its proportional number of lines, at least one and not beyond the end. |
| `SplitterCuts.HalvesExactlyWhen` | chunkhound/parsers/chunk_splitter.py:261-314 | A chunk is halved by lines if and only if it exceeds a limit, has three lines or more, none over a fifth of the chunk size, and a range that reaches beyond the first line of the second half; the halves have the lines before and from the middle and adjacent ranges. |
| `SplitterCuts.FitsMeaning` | chunkhound/parsers/chunk_splitter.py:131-134 | A text fits if and only if its characters other than white space are within one limit and its length is below three times the token limit plus one. |
| `SplitterCuts.NonSpaceMeaning` | chunkhound/parsers/chunk_splitter.py:69 | Removing white space keeps every other character as often as it was. |
| `SplitterLaws.SplitRebuilds` | chunkhound/parsers/chunk_splitter.py:244-321 | For every chunk the pieces in order, with nothing or one newline between neighbours, are the original text. |
| `SplitterLaws.EmergencyConcat` | chunkhound/parsers/chunk_splitter.py:323-418 | Inside a character split the pieces concatenate to the original with nothing between them. |
| `SplitterLaws.NonSpacePreserved` | chunkhound/parsers/chunk_splitter.py:244-418 | The sequence of non-whitespace characters is preserved exactly. |
| `SplitterLaws.PreferredCutMeaning` | chunkhound/parsers/chunk_splitter.py:359-375 | The cut is after the last occurrence, within the window, of the most preferred character that gives a fitting piece; there is none exactly when no character does. |
| `SplitterLaws.ForcedCutMeaning` | chunkhound/parsers/chunk_splitter.py:378-388 | A forced cut is the window halved the least number of times after which the piece fits or the minimum size is reached. |
| `SplitterLaws.PiecesConcat` | chunkhound/parsers/chunk_splitter.py:345-416 | The contents cut off by the loop concatenate to the text. |
| `SplitterLimits.FitsExactlyWhen` | chunkhound/parsers/chunk_splitter.py:53-55 | Every piece of every chunk meets both limits if and only if the minimum size, or else the search window, is at most the maximum size. |
| `SplitterLimits.SplitFits` | chunkhound/parsers/chunk_splitter.py:345-416 | Under that condition every piece of a chunk, through all nested splits, meets both limits. |
| `SplitterLimits.OversizedPiece` | chunkhound/parsers/chunk_splitter.py:389-401 | Otherwise a concrete text comes back as an oversized piece. |
| `SplitterLimits.SplitLinesOrdered` | chunkhound/parsers/chunk_splitter.py:275-321 | For start_line <= end_line every piece has a well-formed line range inside the original and consecutive pieces satisfy end <= next start. |
| `SplitterLimits.HalvesTile` | chunkhound/parsers/chunk_splitter.py:281-314 | A line split that does not fall back covers the range with two adjacent ranges. |
| `SplitterLimits.LineSplitTiles` | chunkhound/parsers/chunk_splitter.py:244-321 | When no character splitting happens below a chunk its pieces tile the range with no gap and no overlap. |
| `SplitterLimits.PartLines` | chunkhound/parsers/chunk_splitter.py:431-447 | A part starts at the proportional line of its first character and ends no later than that of the character after it, within the original range. |
| `SplitterLimits.SplitNamesDistinct` | chunkhound/parsers/chunk_splitter.py:298-321 | The names of all pieces across nested splits are pairwise distinct and extend the chunk's name; concept, metadata and node type carry over. |
| `SplitterLimits.PartNamesDistinct` | chunkhound/parsers/chunk_splitter.py:453-461 | The names of the parts of one character split are pairwise distinct. |
| `ChunkSplitter.FindPreferredCut` | chunkhound/parsers/chunk_splitter.py:359-375 | The loop over split characters finds the specified preferred cut. |
| `ChunkSplitter.FindCut` | chunkhound/parsers/chunk_splitter.py:358-388 | The halving loop finds the specified cut. |
| `ChunkSplitter.RunEmergencySplit` | chunkhound/parsers/chunk_splitter.py:323-418 | The loop, with its part counter and position tracker, produces exactly the specified chunks. |
| `ChunkSplitter.CutProgress` | chunkhound/parsers/chunk_splitter.py:345-416 | With a positive token limit every cut takes at least one character and stays inside the text and the window. |
| `ChunkSplitter.HalvesShrink` | chunkhound/parsers/chunk_splitter.py:275-279 | Both halves have fewer lines than the chunk and, joined by a newline, are its text. |
| `IdleShutdown.IdleLeadsToShutdown` | chunkhound/daemon/server.py:202-227 | In every event order, when a client was ever registered and none remain, shutdown is set or exactly one delayed task is pending, and its firing sets shutdown. |
| `IdleShutdown.SchedulesExactlyWhen` | chunkhound/daemon/server.py:202-216 | In every event order a delayed-shutdown task is created exactly by a removal that leaves no client while none is pending, after every such removal one is pending, and a pending one stays until its delay is over. |
| `IdleShutdown.ShutdownExactlyWhen` | chunkhound/daemon/server.py:220-227 | In every event order shutdown is set if and only if the history holds a signal, a failed startup, or a delay that ended while no client was registered; at most one delayed task is ever pending. |
| `IdleShutdown.SessionsAre` | chunkhound/daemon/client_manager.py:36-48 | The session table holds exactly the clients registered and not removed since. |
| `IdleShutdown.StepKeeps` | chunkhound/daemon/server.py:202-227 | Every event keeps the invariant relating sessions, tasks and the shutdown flag. |
| `IdleShutdown.RunKeepsInv` | chunkhound/daemon/client_manager.py:36-48 | The invariant holds after every sequence of events. |
| `IdleShutdown.IdleDaemon.RegisterClient` | chunkhound/daemon/client_manager.py:36-42 | Registering adds the session and keeps the invariant. |
| `IdleShutdown.IdleDaemon.RemoveClient` | chunkhound/daemon/client_manager.py:44-48 | Removing the last session, or an unknown one when none is left, schedules shutdown unless it is pending, and keeps the invariant. |
| `IdleShutdown.IdleDaemon.OnEmpty` | chunkhound/daemon/server.py:202-214 | A new task is created exactly when none is pending. |
| `IdleShutdown.IdleDaemon.DelayedShutdown` | chunkhound/daemon/server.py:220-227 | The task sets shutdown only when no session remains, and keeps the invariant. |
| `IdleShutdown.IdleDaemon.ClearDelayedShutdownTask` | chunkhound/daemon/server.py:216-218 | A finished task clears the field only if the field still names it. |
| `TreeCache.EnforceMeaning` | chunkhound/tree_cache.py:206-233 | Enforcing the limits keeps the longest suffix of the recency order that is within both. |
| `TreeCache.EnforceIs` | chunkhound/tree_cache.py:206-233 | A suffix with that property is the one that is kept. |
| `TreeCache.SyntaxTreeCache.EnforceLimits` | chunkhound/tree_cache.py:206-218 | The two eviction loops, with a running estimate that equals the true sum, leave exactly that suffix and count every eviction. |
| `TreeCache.SyntaxTreeCache.GetTree` | chunkhound/tree_cache.py:82-115 | The answer, the new recency order and the hit, miss and invalidation counters. |
| `TreeCache.SyntaxTreeCache.PutTree` | chunkhound/tree_cache.py:143-178 | On the limits for which it ends, an effective put replaces the entry, makes it the most recent and enforces the limits; otherwise nothing changes. |
| `TreeCache.CountLoopEndsExactlyWhen` | chunkhound/tree_cache.py:206-212 | The loop over the entry limit ends if and only if the limit is not negative. |
| `TreeCache.PutEndsExactlyWhen` | chunkhound/tree_cache.py:143-178 | A put ends if and only if it has no effect or the entry limit is not negative. |
| `TreeCache.SyntaxTreeCache.EvictLru` | chunkhound/tree_cache.py:220-233 | The least recent entry goes and is returned and counted; an empty dictionary is left alone. |
| `TreeCache.SyntaxTreeCache.InvalidateKey` | chunkhound/tree_cache.py:180-197 | Only the entry of the key goes, and the result says whether there was one. |
| `TreeCache.SyntaxTreeCache.CleanupStaleEntries` | chunkhound/tree_cache.py:271-291 | Exactly the entries whose files changed or vanished go, and their number is returned. |
| `TreeCacheLaws.CacheWithinStore` | chunkhound/tree_cache.py:82-204 | After every history each cached entry is the entry a plain dictionary would hold for its key. |
| `TreeCacheLaws.CacheIsStore` | chunkhound/tree_cache.py:82-204 | When no insertion exceeded a limit the cache holds exactly what the plain dictionary holds. |
| `TreeCacheLaws.GetAgreesWithStore` | chunkhound/tree_cache.py:82-115 | `get` answers what the plain dictionary would or nothing, and without evictions exactly that. |
| `TreeCacheLaws.GetIsFresh` | chunkhound/tree_cache.py:38-49 | Over every history `get` returns a tree only if it came from the latest effective put for that path, with no later invalidation or clear, and the file still has the recorded time and size. |
| `TreeCacheLaws.HitExactlyWhen` | chunkhound/tree_cache.py:38-115 | Over every history in which no insertion exceeded a limit, `get` answers with the tree of the latest effective put if and only if the file has the modification time and size it had then, and had them at every check in between. |
| `TreeCacheLaws.StoreHoldsExactly` | chunkhound/tree_cache.py:82-204 | The plain dictionary holds exactly the latest effective puts that no check found changed. |
| `TreeCacheLaws.TotalSizeAdds` | chunkhound/tree_cache.py:212-218 | The memory estimate is the sum of the file sizes. |
| `TreeCacheLaws.StoreIsLatest` | chunkhound/tree_cache.py:143-204 | An entry of the plain dictionary is the latest effective put not followed by an invalidation or a clear. |
| `TreeCacheLaws.RunByUse` | chunkhound/tree_cache.py:109-111 | In every run the dictionary order is the order of last use. |
| `TreeCacheLaws.EvictsLeastRecent` | chunkhound/tree_cache.py:164-233 | After every effective put the cache is the longest suffix within both limits and every evicted key was last used before every survivor. |
| `TopicIndexLaws.TopicsComeBack` | chunkhound/code_mapper/render.py:82-170 | For any points of interest, reading the index printed for them gives one topic per point, at its place (architectural first), with its order, heading and file name. |
| `TopicIndexLaws.IndexComesBack` | chunkhound/autodoc/index_loader.py:46-73 | Reading any printed index gives exactly its links, architectural then operational, numbered from 1, its scope label, and a metadata text that says what the metadata says. |
| `TopicIndexLaws.TitleComesBack` | chunkhound/autodoc/markdown_utils.py:151-155 | A trimmed scope label is read back from the title line. |
| `TopicIndexLaws.LinkReadBackExactlyWhen` | chunkhound/autodoc/index_loader.py:22 | A printed link with trimmed heading and file name is read back if and only if the heading has no "](" behind its first character. |
| `TopicIndexLaws.TopicFilesDistinct` | chunkhound/code_mapper/render.py:117-126 | Topic file names are pairwise distinct, whatever the slugs are. |
| `TopicIndexLaws.FileNameTells` | chunkhound/code_mapper/render.py:120-125 | A topic file name determines the mode and the number. |
| `TopicIndexLaws.FileNameForm` | chunkhound/code_mapper/render.py:117-126 | How the name is put together, with at least two digits. |
| `TopicIndexLaws.LinksUnderHeadings` | chunkhound/code_mapper/render.py:142-170 | Each link stands below the heading of its mode, with its number within the mode in front. |
| `TopicIndexLaws.FirstHeadingMeaning` | chunkhound/autodoc/markdown_utils.py:65-70 | The title of any document is its first line that is a top-level heading, if there is one. |
| `TopicIndexLaws.EveryTopicListed` | chunkhound/code_mapper/render.py:117-131 | Every entry has one file, listed under its heading in the index of its mode, and numbers follow the order of entries. |
| `TopicIndexLaws.EntriesOrdered` | chunkhound/code_mapper/render.py:113 | Entries are handled in ascending number order and none is lost or repeated. |
| `TopicIndexLaws.BodyRead` | chunkhound/code_mapper/render.py:142-170 | Headings, prose, blank lines and the unreferenced-files line are never read as topics. |
| `TopicIndex.BuildTopicArtifacts` | chunkhound/code_mapper/render.py:82-131 | The loop with its two counters produces the specified files and index lists. |
| `TopicIndex.RenderIndexDocument` | chunkhound/code_mapper/render.py:134-170 | The document is the metadata comment, the fixed lines and the numbered links of both modes. |
| `TopicIndex.ParseIndexFile` | chunkhound/autodoc/index_loader.py:46-73 | The index read is the one specified: title, scope label, metadata text and topics. |
| `TopicIndex.CollectTopics` | chunkhound/autodoc/index_loader.py:53-65 | The loop collects the matching lines in order, each numbered after those before it. |
| `TopicIndex.SafeScope` | chunkhound/utils/text.py:4-7 | A scope label for file names keeps every character but its slashes, which become underscores, and is never empty. |
| `MetadataRoundTrip.MetadataComesBack` | chunkhound/autodoc/site_writer_metadata.py:6-58 | After printing, removal from any document and parsing, every top-level field and model setting is back, each statistic is back faithfully if and only if it is flat, nothing else is there, and the rest of the document is left alone. |
| `MetadataRoundTrip.MetadataReadBack` | chunkhound/code_mapper/metadata.py:12-52 | For values nested to any depth the data read back is exactly the expected data, with deeper levels flattened into the first sub-dictionary. |
| `MetadataRoundTrip.CommentRemoved` | chunkhound/autodoc/markdown_utils.py:52-62 | Removing the comment yields exactly its inner text and what follows it, whatever follows. |
| `MetadataRoundTrip.UncommentedKept` | chunkhound/autodoc/markdown_utils.py:52-59 | A document that does not begin with a comment, or closes none, is left as it is. |
| `MetadataFidelity.FaithfulExactlyWhen` | chunkhound/code_mapper/metadata.py:15-32 | A statistic is read back with every text under its own path and nothing else, if and only if it is a scalar, a dictionary of scalars or an empty list. |
| `MetadataFidelity.LostItems` | chunkhound/code_mapper/metadata.py:23-31 | A list with one item reads back like an empty list, and a nested dictionary like a flat one. |
| `MetadataFidelity.OneLevelReadBack` | chunkhound/code_mapper/metadata.py:17-22 | A one-level sub-dictionary comes back with exactly its keys and texts. |
| `MetadataRoundTrip.ExpectedSays` | chunkhound/code_mapper/metadata.py:34-52 | The expected data says what the metadata says, including when a part is left out. |
| `MetadataLaws.DeepEntries` | chunkhound/autodoc/site_writer_metadata.py:51-56 | Lines at indentation 6 or more below a statistic land in its table in order, later ones overwriting earlier ones. |
| `MetadataLaws.StatEntries` | chunkhound/autodoc/site_writer_metadata.py:36-44 | Statistics with distinct keys each come back under their own key. |
| `MetadataLaws.LineParsed` | chunkhound/autodoc/site_writer_metadata.py:12-20 | Each kind of printed line parses to the field it stands for, or to none. |
| `MetadataLaws.FieldLineReadBackExactlyWhen` | chunkhound/autodoc/site_writer_metadata.py:12-20 | A printed field line is read back if and only if its key has no colon and neither key nor value has white space at an end. |
| `MetadataBlock.EmitInto` | chunkhound/code_mapper/metadata.py:15-32 | The recursive emitter appends exactly the specified lines. |
| `MetadataBlock.FormatMetadataBlock` | chunkhound/code_mapper/metadata.py:12-52 | The printed block is the comment around the specified lines followed by two newlines. |
| `MetadataBlock.ParseMetadataBlock` | chunkhound/autodoc/site_writer_metadata.py:6-58 | The loop with its current section and sub-section computes the specified data. |
| `SourcesTreeLaws.SourcesRoundTrip` | chunkhound/autodoc/references.py:108-140 | For every tree, of relative or absolute paths, reading the printed block gives exactly the referenced leaves in order, each with the path a recursive walk computes, its reference number and its details. |
| `SourcesTreeLaws.ItemTells` | chunkhound/autodoc/references.py:135-139 | What an item looks like; it tells its number, its path and its details as long as the path has no backtick. |
| `SourcesTreeExact.ReadBackExactlyWhen` | chunkhound/services/research/shared/citation_manager.py:350-412 | For every forest in which each directory has a referenced file below it, the printed block reads back as the walk over all full paths if and only if no path has an empty component behind a named one. |
| `SourcesTreeExact.EmptyComponentLost` | chunkhound/services/research/shared/citation_manager.py:400-410 | In every forest each referenced file gives exactly one item, in order, and every file behind an inner empty component is listed under a path that is not its own. |
| `SourcesTreeExact.SiblingMisplaced` | chunkhound/services/research/shared/citation_manager.py:400-410 | With `a//x/f` and `a/z` in one tree, `z` is listed below `x`. |
| `SourcesTreeExact.ReadForest` | chunkhound/autodoc/references.py:108-140 | From any clean stack, the lines of any forest add one item for each referenced file, under a path with no more slashes than its printed depth. |
| `SourcesTreeLaws.PlainSkippedExactlyWhen` | chunkhound/autodoc/references.py:126-128 | A file printed without a reference number is skipped if and only if its name does not itself look like a reference. |
| `SourcesTreeLaws.FileLineReadBackExactlyWhen` | chunkhound/autodoc/references.py:8-10 | A printed file line is read back if and only if its name has no white space directly before an opening parenthesis. |
| `SourcesTreeLaws.ReadNode` | chunkhound/services/research/shared/citation_manager.py:350-412 | After the lines of one subtree the reader stands below the same directories again and has added exactly the subtree's leaves. |
| `SourcesTreeLaws.ReadDir` | chunkhound/autodoc/references.py:118-124 | A directory line replaces the stack from its depth on. |
| `SourcesTree.FlattenSourcesBlock` | chunkhound/autodoc/references.py:108-140 | The loop over lines with its stack computes the specified items. |
| `HydeExact.SampledExactly` | chunkhound/code_mapper/hyde.py:213-263 | Each sampled file has exactly the share that its size, the budget of four characters a token, the total size of the usable files and the limit per file determine; its pieces are the whole text, one window in the middle, or a prefix, a window in the middle and a suffix of equal lengths; and their characters fill the share up to the remainder by three. |
| `HydeExact.SampleCount` | chunkhound/code_mapper/hyde.py:213-230 | There is one list of pieces for each usable file up to the limit on files, and none without a budget. |
| `HydeExact.InfosExactly` | chunkhound/code_mapper/hyde.py:195-211 | The files considered are exactly the usable ones (readable size, no binary suffix, one byte to a million), in order. |
| `HydeSampling.BudgetKept` | chunkhound/code_mapper/hyde.py:213-263 | In exact arithmetic the characters sampled over all files never exceed the snippet budget. |
| `HydeSampling.FileLimitsKept` | chunkhound/code_mapper/hyde.py:217-230 | No file gives more than the per-file limit or its own size, and the limit on files is kept. |
| `HydeSampling.ThreeWindows` | chunkhound/code_mapper/hyde.py:246-263 | Three windows have equal positive length, lie inside the text, are pairwise disjoint, and the first is a prefix and the last a suffix. |
| `HydeSampling.PiecesWithin` | chunkhound/code_mapper/hyde.py:243-263 | The windows of one file never exceed its share. |
| `HydeSampling.WholeWhenEnough` | chunkhound/code_mapper/hyde.py:216-244 | With enough budget and no limits every usable text no longer than its file is taken whole. |
| `HydeSampling.SampleText` | chunkhound/code_mapper/hyde.py:243-263 | The window loop takes exactly the specified pieces. |
| `HydeSampling.CollectInfos` | chunkhound/code_mapper/hyde.py:195-211 | The first loop keeps exactly the eligible files, in order, and their total size. |
| `HydeSampling.SampleInfos` | chunkhound/code_mapper/hyde.py:219-263 | The second loop samples the considered files in order, each with its share. |
| `HydeSampling.SampleFiles` | chunkhound/code_mapper/hyde.py:195-263 | Sampling happens exactly when there is a budget and something to sample. |
| `Text.JoinSplit` | chunkhound/parsers/chunk_splitter.py:261-279 | Splitting a text on a character and joining the parts gives the text back. |
| `Text.SplitJoin` | chunkhound/parsers/chunk_splitter.py:261-279 | Joining parts free of the separator and splitting gives the parts back. |
| `Text.SplitJoinedLines` | chunkhound/autodoc/index_loader.py:54 | Lines joined by line feeds, with one at the end, split back into the same lines. |
| `Text.DecimalInjective` | chunkhound/parsers/chunk_splitter.py:455 | Different numbers have different numerals. |
| `Text.DecimalValue` | chunkhound/parsers/chunk_splitter.py:455 | A numeral stands for its number and has no leading zero. |
| `Text.StripEmpty` | chunkhound/code_mapper/hyde.py:240 | Stripping leaves nothing if and only if every character is white space. |

## Left out

- Finer interleavings and crashes that the startup assumptions exclude: a starter that dies between spawn and publish, a process that dies between creating and writing a PID lock.
- `stop_daemon`, Windows port selection, sockets, frames, signals, logs and process inspection: only their outcome (alive or dead, connectable or not) appears.
- An unreadable or malformed daemon lock or registry file is treated as absent or stale by the source; the model has well-formed contents only, though a lock may record another root than its path.
- PoiPipeline.Pipeline.Run: does not say what the lists hold when a fatal error ends the pipeline, since the source then raises and drops them; cancellation and progress events are not modelled.
- PoiPipeline.Pipeline.RetryPass: visits the candidates by counting up through their numbers instead of sorting the keys of a dictionary.
- SplitterLaws.SplitRebuilds: is stated for a positive token limit, as are the other laws about whole splits, because the splitter does not end otherwise.
- SplitterLimits.SplitLinesOrdered: uses exact quotients where the source divides floating-point numbers.
- `validate_text_content` and the conversions between chunk types, which wrap the splitter without further logic.
- ChunkSplitter.RunEmergencySplit: does not model the warning logged for an oversized piece.
- IdleShutdown.IdleDaemon.RemoveClient: covers events before teardown; `close_all` and the cancellation of a pending task during teardown are not modelled.
- TreeCache.SyntaxTreeCache.PutTree: requires a limit for which it ends; one key stands for one resolved path, and locks and hit-rate reports are not modelled.
- TreeCacheLaws.GetIsFresh: for a negative entry limit, as for the other laws over histories, a put counts as returning though the source would not come back.
- TopicIndexLaws.TopicsComeBack: headings and slugs are inputs that must be single-line, and headings trimmed and without "](" behind the first character; deriving them from the text of the point is not modelled.
- MetadataRoundTrip.MetadataComesBack: keys and values must be trimmed, non-empty (for one line the exact condition is `MetadataLaws.FieldLineReadBackExactlyWhen`), on one line and without the closing mark, keys without a colon, and the keys of the statistics and of the model settings distinct, as in a dictionary.
- SourcesTreeLaws.SourcesRoundTrip: names are trimmed and on one line, every file has details, the name of a referenced file has no white space before an opening parenthesis and that of another does not look like a reference (each condition is exact for its line), and no node is both a file and a directory; how the footer derives the details text is not modelled.
- SourcesTreeExact.ReadBackExactlyWhen: assumes a referenced file below every directory; without one, an empty component can go unnoticed.
- HydeSampling.SampleFiles: reading files, decoding and the binary test are inputs, the budget ratio is exact where the source uses floating point, and the text around the samples is not modelled.
- `clear` and `get_for_comparison` of the tree cache appear as operations of a history, not as methods of the class.
- The file discovery cache, database and server wiring, prompts, site writing, the native scanner and the command line.
