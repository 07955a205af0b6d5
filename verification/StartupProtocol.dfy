/** The daemon startup protocol as a transition system over shared files.

    Any number of proxy processes, under any runtime directories and project roots, run
    `find_or_start_daemon` (chunkhound/daemon/discovery.py:1150-1330); the daemons they spawn run
    the publish and teardown sequence of chunkhound/daemon/server.py.  A step changes at most one file
    (a retiring daemon's artifacts apart, see `Atomicity`) and the steps of different processes
    interleave freely.  Judging one file is one step: reading it, testing whether the pid it names is alive and, for a
    registry entry, reading the daemon lock that it names. */
module StartupProtocol {
  import opened ProjectRoots

  type Pid = nat
  type RuntimeDir = string

  /** The three PID locks: one per user, one per runtime directory, one per runtime and root. */
  datatype LockName =
    | CrossRuntime
    | GlobalStartup(runtime: RuntimeDir)
    | Starter(runtime: RuntimeDir, root: Root)

  /** A PID lock file that exists: created but not yet written (its creator is recorded only so
      that the model can name it), or holding a pid. */
  datatype PidFile = Blank(creator: Pid) | Holds(pid: Pid)

  /** The daemon lock file lives under the runtime directory, named by the root's hash. */
  datatype LockPath = LockPath(runtime: RuntimeDir, root: Root)
  datatype LockEntry = LockEntry(pid: Pid, root: Root)
  datatype RegistryEntry = RegistryEntry(pid: Pid, root: Root, lockPath: LockPath)

  /** Stages of one attempt of `_acquire_pid_lock`. */
  datatype Stage = Open | Write | Inspect

  /** How the call ends: with the address of a daemon that was running, or of one that the proxy started, or with
      an error that names an overlapping daemon, or with any other error. */
  datatype Outcome = Attached(pid: Pid) | Spawned(pid: Pid) | Conflicting(pid: Pid) | GaveUp

  /** What follows once the locks are released: another turn of the deadline loop, or the end of the call. */
  datatype Onward = Again | Return(outcome: Outcome)

  /** Program counter of a proxy inside `find_or_start_daemon`. */
  datatype Pc =
    | Reuse                                       // about to read its own daemon lock
    | Waiting(recorded: Pid)                      // a running process is recorded; polling its socket
    | Loop                                        // at the head of the deadline loop
    | Acquire(attempt: nat, stage: Stage)         // acquiring the next lock of the nest
    | ScanLocks(rest: set<Root>)                  // overlap gate, first pass
    | ScanRegistry(entries: set<Root>)            // overlap gate, second pass
    | StarterUnavailable                          // the AssertionError branch
    | Spawn                                       // holds all three locks, about to start the child
    | Poll(child: Pid)                            // waiting for the child to publish
    | Publish(child: Pid, found: Pid)             // about to write the registry entry
    | Release(next: Onward)                       // unwinding the `finally` blocks
    | Unlock(next: Onward)                        // found its own pid in a PID lock, about to unlink it
    | Done(result: Outcome)
    | Reclaim(attempt: nat)                       // judged a PID lock stale, about to unlink it
    | CleanReuse                                  // judged its daemon lock stale, about to unlink it
    | DropLock(victim: Root, rest: set<Root>)     // judged a lock file stale, about to unlink it
    | DropEntry(victim: Root, entries: set<Root>) // judged a registry entry stale, about to unlink it

  /** `held` counts the locks of the nest this proxy has acquired: cross, global, starter. */
  datatype Proxy = Proxy(runtime: RuntimeDir, root: Root, held: nat, pc: Pc)

  /** A daemon process: booting, lock written, lock verified, serving; then past the removal of its
      lock file (Retiring) or of all its artifacts (Retired) while its process still exists. */
  datatype Phase = Booting | Locked | Verified | Serving | Retiring | Retired

  datatype Daemon = Daemon(runtime: RuntimeDir, root: Root, phase: Phase, starter: Pid)

  /** The shared state.  `proxies` and `daemons` hold running processes only; `used` holds every pid
      ever given out, since pids are not reused. */
  datatype World = World(
    used: set<Pid>,
    proxies: map<Pid, Proxy>,
    daemons: map<Pid, Daemon>,
    pidFiles: map<LockName, PidFile>,
    locks: map<LockPath, LockEntry>,
    registry: map<Root, RegistryEntry>)

  /** Which read-then-unlink pairs on somebody else's file are taken to be indivisible: reclaiming a PID lock
      (discovery.py:865-872); removing the own daemon lock when it is stale (discovery.py:954-1001), a
      stale lock file met by the overlap gate (discovery.py:524-556) and a stale registry entry met there
      (discovery.py:760-816); and a daemon removing its lock file and its registry entry (server.py:447-466).  When
      a flag is false the unlink is a separate step, so that other processes may run in between. */
  datatype Atomicity = Atomicity(reclaim: bool, cleanReuse: bool, dropLock: bool, dropEntry: bool, retire: bool)

  predicate Alive(w: World, pid: Pid) {
    pid in w.proxies || pid in w.daemons
  }

  /** A live daemon, starting or published: its process runs and it has not begun to remove its
      published artifacts. */
  predicate Live(d: Daemon) {
    d.phase != Retiring && d.phase != Retired
  }

  /** The process is a daemon whose socket accepts connections. */
  predicate Connectable(w: World, pid: Pid) {
    pid in w.daemons && Live(w.daemons[pid]) && w.daemons[pid].phase != Booting
  }

  function OwnPath(runtime: RuntimeDir, root: Root): LockPath {
    LockPath(runtime, root)
  }

  /** The lock this proxy acquires when it already holds the first `i` of the nest. */
  function LockAt(me: Proxy, i: nat): LockName {
    if i == 0 then CrossRuntime
    else if i == 1 then GlobalStartup(me.runtime)
    else Starter(me.runtime, me.root)
  }

  function SetPc(w: World, p: Pid, pc: Pc): World
    requires p in w.proxies
  {
    w.(proxies := w.proxies[p := w.proxies[p].(pc := pc)])
  }

  // ----- Steps of a proxy -----

  predicate Arrive(w: World, w': World, p: Pid, runtime: RuntimeDir, root: Root) {
    && p !in w.used
    && w' == w.(used := w.used + {p}, proxies := w.proxies[p := Proxy(runtime, root, 0, Reuse)])
  }

  /** Where `_reuse_live_daemon` returns to when it found nothing to reuse: with both outer locks
      held the overlap gate comes next; after a failed acquisition the attempt is abandoned. */
  function AfterReuse(w: World, me: Proxy): Pc {
    if me.held == 2 then ScanLocks(LockRoots(w, me.runtime))
    else if me.held == 0 then Loop
    else Release(Again)
  }

  /** The directory listing of one runtime's lock files. */
  function LockRoots(w: World, runtime: RuntimeDir): set<Root> {
    set path | path in w.locks && path.runtime == runtime :: path.root
  }

  predicate ReuseLock(g: Atomicity, w: World, w': World, p: Pid) {
    && p in w.proxies && w.proxies[p].pc == Reuse
    && var me := w.proxies[p];
       var own := OwnPath(me.runtime, me.root);
       if own !in w.locks then
         w' == SetPc(w, p, AfterReuse(w, me))
       else if Alive(w, w.locks[own].pid) then
         w' == SetPc(w, p, Waiting(w.locks[own].pid))
       else
         var cleaned := w.(locks := w.locks - {own});
         || w' == SetPc(cleaned, p, AfterReuse(cleaned, me))
         || (!g.cleanReuse && w' == SetPc(w, p, CleanReuse))
  }

  predicate FinishCleanReuse(w: World, w': World, p: Pid) {
    && p in w.proxies && w.proxies[p].pc == CleanReuse
    && var me := w.proxies[p];
       var cleaned := w.(locks := w.locks - {OwnPath(me.runtime, me.root)});
       w' == SetPc(cleaned, p, AfterReuse(cleaned, me))
  }

  /** Polling ends when the socket accepts a connection, or when the process is gone; a time-out is an `Abort`. */
  predicate EndWait(w: World, w': World, p: Pid) {
    && p in w.proxies && w.proxies[p].pc.Waiting?
    && var pid := w.proxies[p].pc.recorded;
       if Connectable(w, pid) then w' == SetPc(w, p, Release(Return(Attached(pid))))
       else !Alive(w, pid) && w' == SetPc(w, p, Release(Return(GaveUp)))
  }

  predicate LoopTurn(w: World, w': World, p: Pid) {
    && p in w.proxies && w.proxies[p].pc == Loop
    && w' == SetPc(w, p, Acquire(0, Open))
  }

  /** `open(path, "x")`. */
  predicate AcquireOpen(w: World, w': World, p: Pid) {
    && p in w.proxies && w.proxies[p].pc.Acquire? && w.proxies[p].pc.stage == Open
    && var me := w.proxies[p];
       var name := LockAt(me, me.held);
       if name in w.pidFiles then
         w' == SetPc(w, p, Acquire(me.pc.attempt, Inspect))
       else
         w' == SetPc(w.(pidFiles := w.pidFiles[name := Blank(p)]), p, Acquire(me.pc.attempt, Write))
  }

  /** `json.dump` of the own pid; the acquisition has succeeded. */
  predicate AcquireWrite(w: World, w': World, p: Pid) {
    && p in w.proxies && w.proxies[p].pc.Acquire? && w.proxies[p].pc.stage == Write
    && var me := w.proxies[p];
       var name := LockAt(me, me.held);
       var next := if me.held == 0 then Acquire(0, Open) else if me.held == 1 then Reuse else Spawn;
       w' == w.(pidFiles := w.pidFiles[name := Holds(p)],
                proxies := w.proxies[p := me.(held := me.held + 1, pc := next)])
  }

  /** Where `_acquire_pid_lock` goes after an attempt that neither took nor refused the lock. */
  function NextAttempt(w: World, me: Proxy, attempt: nat): Pc {
    if attempt == 0 then Acquire(1, Open) else Refused(w, me)
  }

  /** The lock was not obtained: outer locks fall back to the overlap gate, the starter lock raises. */
  function Refused(w: World, me: Proxy): Pc {
    if me.held >= 2 then StarterUnavailable else ScanLocks(LockRoots(w, me.runtime))
  }

  predicate AcquireInspect(g: Atomicity, w: World, w': World, p: Pid) {
    && p in w.proxies && w.proxies[p].pc.Acquire? && w.proxies[p].pc.stage == Inspect
    && var me := w.proxies[p];
       var name := LockAt(me, me.held);
       var attempt := me.pc.attempt;
       if name !in w.pidFiles || w.pidFiles[name].Blank? then
         w' == SetPc(w, p, NextAttempt(w, me, attempt))
       else if Alive(w, w.pidFiles[name].pid) then
         w' == SetPc(w, p, Refused(w, me))
       else
         || w' == SetPc(w.(pidFiles := w.pidFiles - {name}), p, NextAttempt(w, me, attempt))
         || (!g.reclaim && w' == SetPc(w, p, Reclaim(attempt)))
  }

  predicate FinishReclaim(w: World, w': World, p: Pid) {
    && p in w.proxies && w.proxies[p].pc.Reclaim?
    && var me := w.proxies[p];
       w' == SetPc(w.(pidFiles := w.pidFiles - {LockAt(me, me.held)}), p,
                   NextAttempt(w, me, me.pc.attempt))
  }

  /** `_validated_lock_entry` on one file of the runtime's lock directory. */
  predicate VisitLock(g: Atomicity, w: World, w': World, p: Pid, root: Root) {
    && p in w.proxies && w.proxies[p].pc.ScanLocks? && root in w.proxies[p].pc.rest
    && var me := w.proxies[p];
       var path := LockPath(me.runtime, root);
       var rest := me.pc.rest - {root};
       if path !in w.locks then
         w' == SetPc(w, p, ScanLocks(rest))
       else if w.locks[path].root != root || !Alive(w, w.locks[path].pid) then
         || w' == SetPc(w.(locks := w.locks - {path}), p, ScanLocks(rest))
         || (!g.dropLock && w' == SetPc(w, p, DropLock(root, rest)))
       else if root != me.root && RootsOverlap(me.root, root) then
         w' == SetPc(w, p, Release(Return(Conflicting(w.locks[path].pid))))
       else
         w' == SetPc(w, p, ScanLocks(rest))
  }

  predicate FinishDropLock(w: World, w': World, p: Pid) {
    && p in w.proxies && w.proxies[p].pc.DropLock?
    && var me := w.proxies[p];
       w' == SetPc(w.(locks := w.locks - {LockPath(me.runtime, me.pc.victim)}), p, ScanLocks(me.pc.rest))
  }

  predicate StartRegistryScan(w: World, w': World, p: Pid) {
    && p in w.proxies && w.proxies[p].pc == ScanLocks({})
    && w' == SetPc(w, p, ScanRegistry(w.registry.Keys))
  }

  /** `_validated_registry_entry`: the entry is backed by a live pid and by the lock file it names. */
  predicate EntryBacked(w: World, e: RegistryEntry) {
    && Alive(w, e.pid)
    && e.lockPath in w.locks
    && w.locks[e.lockPath].pid == e.pid
    && w.locks[e.lockPath].root == e.root
  }

  predicate VisitEntry(g: Atomicity, w: World, w': World, p: Pid, root: Root) {
    && p in w.proxies && w.proxies[p].pc.ScanRegistry? && root in w.proxies[p].pc.entries
    && var me := w.proxies[p];
       var rest := me.pc.entries - {root};
       if root !in w.registry then
         w' == SetPc(w, p, ScanRegistry(rest))
       else if !EntryBacked(w, w.registry[root]) then
         || w' == SetPc(w.(registry := w.registry - {root}), p, ScanRegistry(rest))
         || (!g.dropEntry && w' == SetPc(w, p, DropEntry(root, rest)))
       else if w.registry[root].lockPath == OwnPath(me.runtime, me.root) then
         w' == SetPc(w, p, ScanRegistry(rest))
       else if RootsOverlap(me.root, w.registry[root].root) then
         w' == SetPc(w, p, Release(Return(Conflicting(w.registry[root].pid))))
       else
         w' == SetPc(w, p, ScanRegistry(rest))
  }

  predicate FinishDropEntry(w: World, w': World, p: Pid) {
    && p in w.proxies && w.proxies[p].pc.DropEntry?
    && var me := w.proxies[p];
       w' == SetPc(w.(registry := w.registry - {me.pc.victim}), p, ScanRegistry(me.pc.entries))
  }

  /** No conflict was found: under both outer locks the starter lock comes next. */
  predicate GatePassed(w: World, w': World, p: Pid) {
    && p in w.proxies && w.proxies[p].pc == ScanRegistry({})
    && w' == SetPc(w, p, if w.proxies[p].held == 2 then Acquire(0, Open) else Reuse)
  }

  predicate SpawnChild(w: World, w': World, p: Pid, child: Pid) {
    && p in w.proxies && w.proxies[p].pc == Spawn && child !in w.used
    && var me := w.proxies[p];
       w' == SetPc(w, p, Poll(child)).(
             used := w.used + {child},
             daemons := w.daemons[child := Daemon(me.runtime, me.root, Booting, p)])
  }

  /** The process that the published lock names accepts connections while the child still runs. */
  predicate PollFound(w: World, w': World, p: Pid) {
    && p in w.proxies && w.proxies[p].pc.Poll?
    && var me := w.proxies[p];
       var own := OwnPath(me.runtime, me.root);
       && own in w.locks && Connectable(w, w.locks[own].pid)
       && me.pc.child in w.daemons
       && w' == SetPc(w, p, Publish(me.pc.child, w.locks[own].pid))
  }

  /** The child exited, or the deadline passed and the child was terminated. */
  predicate PollFailed(w: World, w': World, p: Pid) {
    && p in w.proxies && w.proxies[p].pc.Poll?
    && w' == SetPc(w.(daemons := w.daemons - {w.proxies[p].pc.child}), p, Release(Return(GaveUp)))
  }

  predicate PublishEntry(w: World, w': World, p: Pid) {
    && p in w.proxies && w.proxies[p].pc.Publish?
    && var me := w.proxies[p];
       var entry := RegistryEntry(me.pc.found, me.root, OwnPath(me.runtime, me.root));
       w' == SetPc(w.(registry := w.registry[me.root := entry]), p, Release(Return(Spawned(me.pc.found))))
  }

  /** Writing the registry entry raised: the child is terminated first. */
  predicate PublishFailed(w: World, w': World, p: Pid) {
    && p in w.proxies && w.proxies[p].pc.Publish?
    && w' == SetPc(w.(daemons := w.daemons - {w.proxies[p].pc.child}), p, Release(Return(GaveUp)))
  }

  function AfterUnwind(next: Onward): Pc {
    match next
    case Again => Loop
    case Return(outcome) => Done(outcome)
  }

  /** One `finally` block: `_release_pid_lock` reads the file and unlinks it only if it holds the own pid. */
  predicate ReleaseLock(w: World, w': World, p: Pid) {
    && p in w.proxies && w.proxies[p].pc.Release?
    && var me := w.proxies[p];
       if me.held == 0 then
         w' == SetPc(w, p, AfterUnwind(me.pc.next))
       else
         var name := LockAt(me, me.held - 1);
         if name in w.pidFiles && w.pidFiles[name] == Holds(p) then
           w' == SetPc(w, p, Unlock(me.pc.next))
         else
           w' == w.(proxies := w.proxies[p := me.(held := me.held - 1)])
  }

  predicate FinishRelease(w: World, w': World, p: Pid) {
    && p in w.proxies && w.proxies[p].pc.Unlock? && w.proxies[p].held > 0
    && var me := w.proxies[p];
       w' == w.(pidFiles := w.pidFiles - {LockAt(me, me.held - 1)},
                proxies := w.proxies[p := me.(held := me.held - 1, pc := Release(me.pc.next))])
  }

  /** Steps at which the assumptions rule out an exception, a cancellation or a crash: between
      creating a lock file and writing it, and between spawning a child and publishing it. */
  predicate Protected(pc: Pc) {
    pc.Poll? || pc.Publish? || (pc.Acquire? && pc.stage == Write)
  }

  /** An expired deadline, an exception or a cancellation anywhere else unwinds the locks. */
  predicate Abort(w: World, w': World, p: Pid) {
    && p in w.proxies && !Protected(w.proxies[p].pc) && !w.proxies[p].pc.Done?
    && w' == SetPc(w, p, Release(Return(GaveUp)))
  }

  /** The process exits or is killed, leaving its files behind. */
  predicate Crash(w: World, w': World, p: Pid) {
    && p in w.proxies && !Protected(w.proxies[p].pc)
    && w' == w.(proxies := w.proxies - {p})
  }

  // ----- Steps of a daemon -----

  function SetPhase(w: World, d: Pid, phase: Phase): World
    requires d in w.daemons
  {
    w.(daemons := w.daemons[d := w.daemons[d].(phase := phase)])
  }

  predicate WriteLock(w: World, w': World, d: Pid) {
    && d in w.daemons && w.daemons[d].phase == Booting
    && var me := w.daemons[d];
       w' == SetPhase(w.(locks := w.locks[OwnPath(me.runtime, me.root) := LockEntry(d, me.root)]), d, Locked)
  }

  /** Re-reading the lock after writing it: a daemon that lost the race leaves without cleaning up. */
  predicate VerifyLock(w: World, w': World, d: Pid) {
    && d in w.daemons && w.daemons[d].phase == Locked
    && w' == SetPhase(w, d, if WonRace(w, d) then Verified else Retired)
  }

  predicate WonRace(w: World, d: Pid)
    requires d in w.daemons
  {
    var own := OwnPath(w.daemons[d].runtime, w.daemons[d].root);
    own in w.locks && w.locks[own].pid == d
  }

  /** The daemon's own registry write is best effort. */
  predicate RegisterSelf(w: World, w': World, d: Pid, written: bool) {
    && d in w.daemons && w.daemons[d].phase == Verified
    && var me := w.daemons[d];
       var entry := RegistryEntry(d, me.root, OwnPath(me.runtime, me.root));
       w' == SetPhase(if written then w.(registry := w.registry[me.root := entry]) else w, d, Serving)
  }

  /** Removal of the published artifacts, by path and whatever they contain. */
  predicate Retire(w: World, w': World, d: Pid) {
    && d in w.daemons && w.daemons[d].phase == Serving
    && var me := w.daemons[d];
       w' == SetPhase(w.(locks := w.locks - {OwnPath(me.runtime, me.root)},
                         registry := w.registry - {me.root}), d, Retired)
  }

  predicate RetireLock(w: World, w': World, d: Pid) {
    && d in w.daemons && w.daemons[d].phase == Serving
    && var me := w.daemons[d];
       w' == SetPhase(w.(locks := w.locks - {OwnPath(me.runtime, me.root)}), d, Retiring)
  }

  predicate RetireEntry(w: World, w': World, d: Pid) {
    && d in w.daemons && w.daemons[d].phase == Retiring
    && w' == SetPhase(w.(registry := w.registry - {w.daemons[d].root}), d, Retired)
  }

  predicate Exit(w: World, w': World, d: Pid) {
    && d in w.daemons
    && w' == w.(daemons := w.daemons - {d})
  }

  // ----- Runs -----

  datatype Step =
    | LockStep(p: Pid, lockMove: LockMove)
    | GateStep(p: Pid, gateMove: GateMove)
    | ChildStep(p: Pid, childMove: ChildMove)
    | DaemonStep(d: Pid, daemonMove: DaemonMove)
    | UnlinkStep(pid: Pid, unlinkMove: UnlinkMove)

  datatype LockMove =
    | DoArrive(runtime: RuntimeDir, root: Root)
    | DoReuse | DoEndWait | DoLoop | DoOpen | DoWrite | DoInspect | DoRelease | DoFinishRelease | DoAbort | DoCrash

  datatype GateMove =
    | DoVisitLock(visitedLock: Root) | DoStartRegistryScan | DoVisitEntry(visitedEntry: Root) | DoGatePassed

  datatype ChildMove = DoSpawn(child: Pid) | DoPollFound | DoPollFailed | DoPublish | DoPublishFailed

  datatype DaemonMove = DoWriteLock | DoVerifyLock | DoRegisterSelf(written: bool) | DoRetire | DoExit

  /** The second halves of divided read-then-unlink pairs. */
  datatype UnlinkMove =
    | DoFinishCleanReuse | DoFinishReclaim | DoFinishDropLock | DoFinishDropEntry | DoRetireLock | DoRetireEntry

  predicate LockNext(g: Atomicity, w: World, w': World, p: Pid, move: LockMove) {
    match move
    case DoArrive(runtime, root) => Arrive(w, w', p, runtime, root)
    case DoReuse => ReuseLock(g, w, w', p)
    case DoEndWait => EndWait(w, w', p)
    case DoLoop => LoopTurn(w, w', p)
    case DoOpen => AcquireOpen(w, w', p)
    case DoWrite => AcquireWrite(w, w', p)
    case DoInspect => AcquireInspect(g, w, w', p)
    case DoRelease => ReleaseLock(w, w', p)
    case DoFinishRelease => FinishRelease(w, w', p)
    case DoAbort => Abort(w, w', p)
    case DoCrash => Crash(w, w', p)
  }

  predicate GateNext(g: Atomicity, w: World, w': World, p: Pid, move: GateMove) {
    match move
    case DoVisitLock(root) => VisitLock(g, w, w', p, root)
    case DoStartRegistryScan => StartRegistryScan(w, w', p)
    case DoVisitEntry(root) => VisitEntry(g, w, w', p, root)
    case DoGatePassed => GatePassed(w, w', p)
  }

  predicate ChildNext(w: World, w': World, p: Pid, move: ChildMove) {
    match move
    case DoSpawn(child) => SpawnChild(w, w', p, child)
    case DoPollFound => PollFound(w, w', p)
    case DoPollFailed => PollFailed(w, w', p)
    case DoPublish => PublishEntry(w, w', p)
    case DoPublishFailed => PublishFailed(w, w', p)
  }

  predicate DaemonNext(w: World, w': World, d: Pid, move: DaemonMove) {
    match move
    case DoWriteLock => WriteLock(w, w', d)
    case DoVerifyLock => VerifyLock(w, w', d)
    case DoRegisterSelf(written) => RegisterSelf(w, w', d, written)
    case DoRetire => Retire(w, w', d)
    case DoExit => Exit(w, w', d)
  }

  predicate UnlinkNext(g: Atomicity, w: World, w': World, pid: Pid, move: UnlinkMove) {
    match move
    case DoFinishCleanReuse => FinishCleanReuse(w, w', pid)
    case DoFinishReclaim => FinishReclaim(w, w', pid)
    case DoFinishDropLock => FinishDropLock(w, w', pid)
    case DoFinishDropEntry => FinishDropEntry(w, w', pid)
    case DoRetireLock => !g.retire && RetireLock(w, w', pid)
    case DoRetireEntry => RetireEntry(w, w', pid)
  }

  predicate NextStep(g: Atomicity, w: World, w': World, step: Step) {
    match step
    case LockStep(p, move) => LockNext(g, w, w', p, move)
    case GateStep(p, move) => GateNext(g, w, w', p, move)
    case ChildStep(p, move) => ChildNext(w, w', p, move)
    case DaemonStep(d, move) => DaemonNext(w, w', d, move)
    case UnlinkStep(pid, move) => UnlinkNext(g, w, w', pid, move)
  }

  ghost predicate Next(g: Atomicity, w: World, w': World) {
    exists step :: NextStep(g, w, w', step)
  }

  /** Before any process runs: whatever lock files and registry entries earlier sessions left
      behind, and PID locks of processes that are gone. */
  predicate Initial(w: World) {
    && w.proxies == map[] && w.daemons == map[]
    && forall name :: name in w.pidFiles ==> w.pidFiles[name].Holds? && w.pidFiles[name].pid in w.used
  }

  const EMPTY := World({}, map[], map[], map[], map[], map[])

  /** A run of the protocol: every state follows from the one before by one step of one process. */
  ghost predicate IsRun(g: Atomicity, run: seq<World>) {
    && |run| > 0 && Initial(run[0])
    && forall i :: Follows(g, run, i)
  }

  ghost predicate Follows(g: Atomicity, run: seq<World>, i: int) {
    0 <= i < |run| - 1 ==> Next(g, run[i], run[i + 1])
  }

  ghost predicate Reachable(g: Atomicity, w: World) {
    exists run :: IsRun(g, run) && run[|run| - 1] == w
  }

  lemma EmptyReachable(g: Atomicity)
    ensures Reachable(g, EMPTY)
  {
    assert IsRun(g, [EMPTY]);
  }

  lemma ExtendRun(g: Atomicity, w: World, w': World, step: Step)
    requires Reachable(g, w) && NextStep(g, w, w', step)
    ensures Reachable(g, w')
  {
    var run :| IsRun(g, run) && run[|run| - 1] == w;
    var longer := run + [w'];
    forall i
      ensures Follows(g, longer, i)
    {
      assert Follows(g, run, i);
      if i == |run| - 1 {
        assert longer[i] == w && longer[i + 1] == w';
      }
    }
    assert IsRun(g, longer);
  }
}
