/** A proxy whose daemon lock names a running daemon ends up with the address of that daemon, however the steps of other
    processes come in between. */
module StartupAttach {
  import opened ProjectRoots
  import opened StartupProtocol
  import opened StartupInvariant
  import opened StartupSafety
  import opened StartupLiveness
  import opened StartupMoves

  /** The daemon runs under this runtime directory and root and accepts connections. */
  predicate Serves(w: World, d: Pid, runtime: RuntimeDir, root: Root) {
    Connectable(w, d) && w.daemons[d].runtime == runtime && w.daemons[d].root == root
  }

  /** Its lock file stands on the own path of every proxy of that runtime directory and root. */
  lemma ServesRecorded(w: World, d: Pid, runtime: RuntimeDir, root: Root)
    requires Inv(w) && Serves(w, d, runtime, root)
    ensures var own := OwnPath(runtime, root); own in w.locks && w.locks[own] == LockEntry(d, root)
  {
    assert DaemonOk(w, d, w.daemons[d]);
  }

  // ----- How the call will end -----

  /** A proxy that polls its own child ends with it, one that has decided ends as it decided, and any other one
      ends attached to `d`. */
  function EndOf(pc: Pc, d: Pid): Outcome {
    match pc
    case Poll(child) => Spawned(child)
    case Publish(_, found) => Spawned(found)
    case Release(Return(outcome)) => outcome
    case Unlock(Return(outcome)) => outcome
    case Done(outcome) => outcome
    case _ => Attached(d)
  }

  /** A daemon serves the root of the proxy, and the proxy neither waits for another one nor has decided to
      end otherwise. */
  predicate Heading(w: World, p: Pid, d: Pid) {
    && p in w.proxies && Serves(w, d, w.proxies[p].runtime, w.proxies[p].root)
    && EndOf(w.proxies[p].pc, d) in {Attached(d), Spawned(d)}
    && (w.proxies[p].pc.Waiting? ==> w.proxies[p].pc.recorded == d)
  }

  // ----- How many steps of its own are left -----

  function StageSteps(attempt: nat, stage: Stage): nat {
    match stage
    case Write => 0
    case Inspect => if attempt == 0 then 3 else 1
    case Open => if attempt == 0 then 4 else 2
  }

  /** The steps that a proxy has left when no listing has more than `files` lock files and `entries` registry
      entries. */
  function Steps(me: Proxy, files: nat, entries: nat): nat {
    match me.pc
    case Done(_) => 0
    case Unlock(Return(_)) => 2 * me.held
    case Release(Return(_)) => 2 * me.held + 1
    case Waiting(_) => 2 * me.held + 2
    case Reuse => 2 * me.held + 3
    case Publish(_, _) => 8
    case Poll(_) => 9
    case ScanRegistry(rest) => 8 + |rest|
    case ScanLocks(rest) => 9 + entries + |rest|
    case Acquire(attempt, stage) =>
      StageSteps(attempt, stage) + files + entries + (if me.held == 0 then 15 else 10)
    case Loop => 20 + files + entries
    case Unlock(Again) => 21 + files + entries + 2 * me.held
    case Release(Again) => 22 + files + entries + 2 * me.held
    case _ => 0
  }

  predicate SizesWithin(w: World, runtime: RuntimeDir, files: nat, entries: nat) {
    |LockRoots(w, runtime)| <= files && |w.registry| <= entries
  }

  // ----- Every step of its own brings the proxy closer -----

  /** The proxy is closer to the same end. */
  predicate Closer(me: Proxy, me': Proxy, d: Pid, files: nat, entries: nat) {
    && me'.runtime == me.runtime && me'.root == me.root && EndOf(me'.pc, d) == EndOf(me.pc, d)
    && (me'.pc.Waiting? ==> me'.pc.recorded == d)
    && Steps(me', files, entries) < Steps(me, files, entries)
  }

  /** While the daemon serves its root, a proxy never gets to where the gate has shown its own path to be free. */
  lemma NotPastReuse(w: World, p: Pid, d: Pid)
    requires Inv(w) && Heading(w, p, d)
    ensures var me := w.proxies[p];
            && me.held <= 3
            && (me.pc.Acquire? || me.pc.ScanLocks? || me.pc.ScanRegistry? ==> me.held <= 1)
            && (me.pc.Reuse? || me.pc.Waiting? ==> me.held <= 2)
            && (me.pc.Loop? ==> me.held == 0) && (me.pc.Unlock? ==> me.held >= 1)
            && me.pc != Spawn && me.pc != StarterUnavailable
            && (me.pc.Acquire? ==> me.pc.attempt <= 1)
  {
    ServesRecorded(w, d, w.proxies[p].runtime, w.proxies[p].root);
    assert ProxyOk(w, p, w.proxies[p]);
  }

  lemma ReuseCloser(w: World, w': World, p: Pid, d: Pid, files: nat, entries: nat)
    requires Inv(w) && Heading(w, p, d) && ReuseLock(INDIVISIBLE, w, w', p)
    ensures p in w'.proxies && Closer(w.proxies[p], w'.proxies[p], d, files, entries)
  {
    ServesRecorded(w, d, w.proxies[p].runtime, w.proxies[p].root);
  }

  lemma EndWaitCloser(w: World, w': World, p: Pid, d: Pid, files: nat, entries: nat)
    requires Heading(w, p, d) && EndWait(w, w', p)
    ensures p in w'.proxies && Closer(w.proxies[p], w'.proxies[p], d, files, entries)
  {
  }

  lemma LoopCloser(w: World, w': World, p: Pid, d: Pid, files: nat, entries: nat)
    requires Inv(w) && Heading(w, p, d) && LoopTurn(w, w', p)
    ensures p in w'.proxies && Closer(w.proxies[p], w'.proxies[p], d, files, entries)
  {
    NotPastReuse(w, p, d);
  }

  lemma OpenCloser(w: World, w': World, p: Pid, d: Pid, files: nat, entries: nat)
    requires Inv(w) && Heading(w, p, d) && AcquireOpen(w, w', p)
    ensures p in w'.proxies && Closer(w.proxies[p], w'.proxies[p], d, files, entries)
  {
    NotPastReuse(w, p, d);
  }

  lemma WriteCloser(w: World, w': World, p: Pid, d: Pid, files: nat, entries: nat)
    requires Inv(w) && Heading(w, p, d) && AcquireWrite(w, w', p)
    ensures p in w'.proxies && Closer(w.proxies[p], w'.proxies[p], d, files, entries)
  {
    NotPastReuse(w, p, d);
  }

  lemma InspectCloser(w: World, w': World, p: Pid, d: Pid, files: nat, entries: nat)
    requires Inv(w) && Heading(w, p, d) && AcquireInspect(INDIVISIBLE, w, w', p)
    requires SizesWithin(w, w.proxies[p].runtime, files, entries)
    ensures p in w'.proxies && Closer(w.proxies[p], w'.proxies[p], d, files, entries)
  {
    NotPastReuse(w, p, d);
  }

  lemma ReleaseCloser(w: World, w': World, p: Pid, d: Pid, files: nat, entries: nat)
    requires Inv(w) && Heading(w, p, d) && ReleaseLock(w, w', p)
    ensures p in w'.proxies && Closer(w.proxies[p], w'.proxies[p], d, files, entries)
  {
    var me := w.proxies[p];
    NotPastReuse(w, p, d);
    assert me.held > 0 ==> FileIs(w, LockAt(me, me.held - 1), p) by {
      assert ProxyOk(w, p, me);
    }
  }

  lemma FinishReleaseCloser(w: World, w': World, p: Pid, d: Pid, files: nat, entries: nat)
    requires Heading(w, p, d) && FinishRelease(w, w', p)
    ensures p in w'.proxies && Closer(w.proxies[p], w'.proxies[p], d, files, entries)
  {
  }

  lemma LockMoveCloser(w: World, w': World, p: Pid, d: Pid, move: LockMove, files: nat, entries: nat)
    requires Inv(w) && Heading(w, p, d) && OwnMove(p, LockStep(p, move)) && LockNext(INDIVISIBLE, w, w', p, move)
    requires SizesWithin(w, w.proxies[p].runtime, files, entries)
    ensures p in w'.proxies && Closer(w.proxies[p], w'.proxies[p], d, files, entries)
  {
    match move
    case DoReuse => ReuseCloser(w, w', p, d, files, entries);
    case DoEndWait => EndWaitCloser(w, w', p, d, files, entries);
    case DoLoop => LoopCloser(w, w', p, d, files, entries);
    case DoOpen => OpenCloser(w, w', p, d, files, entries);
    case DoWrite => WriteCloser(w, w', p, d, files, entries);
    case DoInspect => InspectCloser(w, w', p, d, files, entries);
    case DoRelease => ReleaseCloser(w, w', p, d, files, entries);
    case DoFinishRelease => FinishReleaseCloser(w, w', p, d, files, entries);
  }

  /** A running process named by a lock file of another root does not overlap the root that the daemon serves. */
  lemma NoConflictBeside(w: World, p: Pid, d: Pid, path: LockPath)
    requires Inv(w) && Traced(w) && Heading(w, p, d) && path in w.locks && Alive(w, w.locks[path].pid)
    requires path != OwnPath(w.proxies[p].runtime, w.proxies[p].root)
    ensures !RootsOverlap(w.proxies[p].root, w.locks[path].root)
  {
    assert LockTraced(w, path);
    assert w.locks[path].pid != d;
  }

  lemma VisitLockCloser(w: World, w': World, p: Pid, d: Pid, root: Root, files: nat, entries: nat)
    requires Inv(w) && Traced(w) && Heading(w, p, d) && VisitLock(INDIVISIBLE, w, w', p, root)
    ensures p in w'.proxies && Closer(w.proxies[p], w'.proxies[p], d, files, entries)
  {
    var path := LockPath(w.proxies[p].runtime, root);
    if path in w.locks && Alive(w, w.locks[path].pid) && root != w.proxies[p].root {
      NoConflictBeside(w, p, d, path);
    }
  }

  lemma VisitEntryCloser(w: World, w': World, p: Pid, d: Pid, root: Root, files: nat, entries: nat)
    requires Inv(w) && Traced(w) && Heading(w, p, d) && VisitEntry(INDIVISIBLE, w, w', p, root)
    ensures p in w'.proxies && Closer(w.proxies[p], w'.proxies[p], d, files, entries)
  {
    var own := OwnPath(w.proxies[p].runtime, w.proxies[p].root);
    if root in w.registry && EntryBacked(w, w.registry[root]) && w.registry[root].lockPath != own {
      NoConflictBeside(w, p, d, w.registry[root].lockPath);
    }
  }

  lemma GateMoveCloser(w: World, w': World, p: Pid, d: Pid, move: GateMove, files: nat, entries: nat)
    requires Inv(w) && Traced(w) && Heading(w, p, d) && GateNext(INDIVISIBLE, w, w', p, move)
    requires SizesWithin(w, w.proxies[p].runtime, files, entries)
    ensures p in w'.proxies && Closer(w.proxies[p], w'.proxies[p], d, files, entries)
  {
    match move
    case DoVisitLock(root) => VisitLockCloser(w, w', p, d, root, files, entries);
    case DoVisitEntry(root) => VisitEntryCloser(w, w', p, d, root, files, entries);
    case DoStartRegistryScan => assert |w.registry.Keys| == |w.registry|;
    case DoGatePassed => NotPastReuse(w, p, d);
  }

  /** A proxy that watches a child watches the daemon itself: no other one could serve the root meanwhile. */
  lemma WatchesThis(w: World, p: Pid, d: Pid)
    requires Inv(w) && Heading(w, p, d) && (w.proxies[p].pc.Poll? || w.proxies[p].pc.Publish?)
    ensures w.proxies[p].pc.child == d && w.proxies[p].held == 3
    ensures w.proxies[p].pc.Publish? ==> w.proxies[p].pc.found == d
  {
    assert ProxyOk(w, p, w.proxies[p]);
    assert RootsOverlap(w.daemons[d].root, w.proxies[p].root);
  }

  lemma PollFoundCloser(w: World, w': World, p: Pid, d: Pid, files: nat, entries: nat)
    requires Inv(w) && Heading(w, p, d) && PollFound(w, w', p)
    ensures p in w'.proxies && Closer(w.proxies[p], w'.proxies[p], d, files, entries)
  {
    WatchesThis(w, p, d);
    ServesRecorded(w, d, w.proxies[p].runtime, w.proxies[p].root);
  }

  lemma PublishCloser(w: World, w': World, p: Pid, d: Pid, files: nat, entries: nat)
    requires Inv(w) && Heading(w, p, d) && PublishEntry(w, w', p)
    ensures p in w'.proxies && Closer(w.proxies[p], w'.proxies[p], d, files, entries)
  {
    WatchesThis(w, p, d);
  }

  lemma ChildMoveCloser(w: World, w': World, p: Pid, d: Pid, move: ChildMove, files: nat, entries: nat)
    requires Inv(w) && Heading(w, p, d) && OwnMove(p, ChildStep(p, move)) && ChildNext(w, w', p, move)
    ensures p in w'.proxies && Closer(w.proxies[p], w'.proxies[p], d, files, entries)
  {
    match move
    case DoSpawn(_) => NotPastReuse(w, p, d);
    case DoPollFound => PollFoundCloser(w, w', p, d, files, entries);
    case DoPublish => PublishCloser(w, w', p, d, files, entries);
  }

  lemma OwnMoveCloser(w: World, w': World, p: Pid, d: Pid, step: Step, files: nat, entries: nat)
    requires Inv(w) && Traced(w) && Heading(w, p, d) && OwnMove(p, step) && NextStep(INDIVISIBLE, w, w', step)
    requires SizesWithin(w, w.proxies[p].runtime, files, entries)
    ensures p in w'.proxies && Closer(w.proxies[p], w'.proxies[p], d, files, entries)
  {
    match step
    case LockStep(_, move) => LockMoveCloser(w, w', p, d, move, files, entries);
    case GateStep(_, move) => GateMoveCloser(w, w', p, d, move, files, entries);
    case ChildStep(_, move) => ChildMoveCloser(w, w', p, d, move, files, entries);
  }

  // ----- Every schedule in which the daemon stays -----

  /** Any step of any process, but for an abort, a crash, a failed poll or a failed write of `p`, after which the daemon
      still accepts connections. */
  ghost predicate CalmNext(w: World, w': World, p: Pid, d: Pid) {
    && d in w'.daemons && Live(w'.daemons[d])
    && exists step :: (ByProxy(p, step) ==> OwnMove(p, step)) && NextStep(INDIVISIBLE, w, w', step)
  }

  /** The states that follow `w` one by one. */
  ghost predicate CalmRun(w: World, rest: seq<World>, p: Pid, d: Pid)
    decreases rest
  {
    rest == [] || (CalmNext(w, rest[0], p, d) && CalmRun(rest[0], rest[1..], p, d))
  }

  function Last(w: World, rest: seq<World>): World {
    if rest == [] then w else rest[|rest| - 1]
  }

  /** In how many of the steps the proxy itself moved. */
  function OwnMoves(w: World, rest: seq<World>, p: Pid): nat
    decreases rest
  {
    if rest == [] then 0
    else (if p in w.proxies && p in rest[0].proxies && w.proxies[p] == rest[0].proxies[p] then 0 else 1)
         + OwnMoves(rest[0], rest[1..], p)
  }

  lemma CalmStep(w: World, w': World, p: Pid, d: Pid, files: nat, entries: nat)
    requires Inv(w) && Traced(w) && Heading(w, p, d) && CalmNext(w, w', p, d)
    requires SizesWithin(w, w.proxies[p].runtime, files, entries)
    ensures Inv(w') && Traced(w') && Heading(w', p, d)
    ensures w'.proxies[p] == w.proxies[p] || Closer(w.proxies[p], w'.proxies[p], d, files, entries)
  {
    var step :| (ByProxy(p, step) ==> OwnMove(p, step)) && NextStep(INDIVISIBLE, w, w', step);
    StepKeeps(w, w', step);
    StepTraced(w, w', step);
    DaemonStays(w, w', step, d);
    if ByProxy(p, step) {
      OwnMoveCloser(w, w', p, d, step, files, entries);
    } else {
      OtherStays(w, w', step, p);
    }
  }

  ghost predicate AllWithin(w: World, rest: seq<World>, runtime: RuntimeDir, files: nat, entries: nat) {
    SizesWithin(w, runtime, files, entries)
    && forall i :: 0 <= i < |rest| ==> SizesWithin(rest[i], runtime, files, entries)
  }

  /** What a schedule keeps: the proxy is heading for the same end, after `moves` steps of its own. */
  ghost predicate HeadingAfter(w: World, last: World, p: Pid, d: Pid, moves: nat, files: nat, entries: nat)
    requires p in w.proxies
  {
    && Inv(last) && Traced(last) && Heading(last, p, d)
    && last.proxies[p].runtime == w.proxies[p].runtime && last.proxies[p].root == w.proxies[p].root
    && EndOf(last.proxies[p].pc, d) == EndOf(w.proxies[p].pc, d)
    && moves + Steps(last.proxies[p], files, entries) <= Steps(w.proxies[p], files, entries)
  }

  lemma {:induction false} CalmRunBounded(w: World, rest: seq<World>, p: Pid, d: Pid, files: nat, entries: nat)
    requires Inv(w) && Traced(w) && Heading(w, p, d) && CalmRun(w, rest, p, d)
    requires AllWithin(w, rest, w.proxies[p].runtime, files, entries)
    ensures HeadingAfter(w, Last(w, rest), p, d, OwnMoves(w, rest, p), files, entries)
    decreases rest
  {
    if rest != [] {
      CalmStep(w, rest[0], p, d, files, entries);
      assert SizesWithin(rest[0], w.proxies[p].runtime, files, entries);
      CalmRunBounded(rest[0], rest[1..], p, d, files, entries);
      assert Last(rest[0], rest[1..]) == Last(w, rest);
      HeadingAfterStep(w, rest[0], Last(w, rest), p, d, OwnMoves(rest[0], rest[1..], p), files, entries);
    }
  }

  lemma HeadingAfterStep(w: World, w': World, last: World, p: Pid, d: Pid, moves: nat, files: nat, entries: nat)
    requires p in w.proxies && p in w'.proxies && HeadingAfter(w', last, p, d, moves, files, entries)
    requires w'.proxies[p] == w.proxies[p] || Closer(w.proxies[p], w'.proxies[p], d, files, entries)
    ensures HeadingAfter(w, last, p, d, (if w.proxies[p] == w'.proxies[p] then 0 else 1) + moves, files, entries)
  {
  }

  lemma HeadingCanMove(w: World, p: Pid, d: Pid)
    requires Inv(w) && Heading(w, p, d) && !w.proxies[p].pc.Done?
    ensures CanMove(w, p)
  {
    var me := w.proxies[p];
    if me.pc.Waiting? {
      Moves(w, SetPc(w, p, Release(Return(Attached(d)))), p, LockStep(p, DoEndWait));
    } else if me.pc.Poll? {
      WatchesThis(w, p, d);
      ServesRecorded(w, d, me.runtime, me.root);
      Moves(w, SetPc(w, p, Publish(d, d)), p, ChildStep(p, DoPollFound));
    } else {
      ProxyCanMove(w, p);
    }
  }

  function Most(w: World, rest: seq<World>, size: World -> nat): (most: nat)
    ensures size(w) <= most && forall i :: 0 <= i < |rest| ==> size(rest[i]) <= most
    decreases rest
  {
    if rest == [] then size(w)
    else
      var most := Most(rest[0], rest[1..], size);
      if most < size(w) then size(w) else most
  }

  /** The greatest number of lock files of this runtime directory, and of registry entries, in any of the states. */
  function MostFiles(w: World, rest: seq<World>, runtime: RuntimeDir): nat {
    Most(w, rest, (x: World) => |LockRoots(x, runtime)|)
  }

  function MostEntries(w: World, rest: seq<World>): nat {
    Most(w, rest, (x: World) => |x.registry|)
  }

  /** The names that a proxy in the overlap gate has listed and not visited yet. */
  function Listed(pc: Pc): nat {
    match pc
    case ScanLocks(rest) => |rest|
    case ScanRegistry(rest) => |rest|
    case _ => 0
  }

  lemma StepsBounded(w: World, p: Pid, d: Pid, files: nat, entries: nat)
    requires Inv(w) && Heading(w, p, d)
    ensures Steps(w.proxies[p], files, entries) <= 28 + files + entries + Listed(w.proxies[p].pc)
  {
    NotPastReuse(w, p, d);
  }

  /** Where a schedule leads from a state in which the proxy heads for the daemon. */
  ghost predicate Attaches(w: World, rest: seq<World>, p: Pid, d: Pid)
    requires p in w.proxies
  {
    var me, last := w.proxies[p], Last(w, rest);
    && p in last.proxies && Serves(last, d, me.runtime, me.root)
    && OwnMoves(w, rest, p) <= 28 + MostFiles(w, rest, me.runtime) + MostEntries(w, rest) + Listed(me.pc)
    && (me.pc == Reuse && me.held == 0 ==> OwnMoves(w, rest, p) <= 3)
    && (CanMove(last, p) || last.proxies[p].pc == Done(EndOf(me.pc, d)))
  }

  lemma CalmRunAttaches(w: World, rest: seq<World>, p: Pid, d: Pid)
    requires Inv(w) && Traced(w) && Heading(w, p, d) && CalmRun(w, rest, p, d)
    ensures Attaches(w, rest, p, d)
  {
    var files, entries := MostFiles(w, rest, w.proxies[p].runtime), MostEntries(w, rest);
    assert AllWithin(w, rest, w.proxies[p].runtime, files, entries);
    CalmRunBounded(w, rest, p, d, files, entries);
    StepsBounded(w, p, d, files, entries);
    LastDecided(Last(w, rest), p, d);
  }

  lemma LastDecided(w: World, p: Pid, d: Pid)
    requires Inv(w) && Heading(w, p, d)
    ensures CanMove(w, p) || w.proxies[p].pc == Done(EndOf(w.proxies[p].pc, d))
  {
    if !w.proxies[p].pc.Done? {
      HeadingCanMove(w, p, d);
    }
  }

  /** At the end of any run in which the files left over at its beginning name pids that had been given out, let a
      daemon accept connections for the runtime directory and root of a proxy that is anywhere in
      `find_or_start_daemon` before its decision: one that has just arrived, say, or one that was refused a lock. In
      every schedule of all processes throughout which that daemon stays and the proxy meets no abort, crash, failed
      poll or failed write, the proxy takes a bounded number of steps of its own, three if it has just arrived; it can
      always take one until it has ended; and then it has ended with that daemon: as its starter if it was polling for
      it, attached otherwise. */
  lemma EveryScheduleAttaches(before: seq<World>, rest: seq<World>, p: Pid, d: Pid)
    requires IsRun(INDIVISIBLE, before) && LocksUsed(before[0])
    requires Heading(before[|before| - 1], p, d) && CalmRun(before[|before| - 1], rest, p, d)
    ensures var w := before[|before| - 1];
            var me, last := w.proxies[p], Last(w, rest);
            && p in last.proxies && Serves(last, d, me.runtime, me.root)
            && OwnMoves(w, rest, p) <= 28 + MostFiles(w, rest, me.runtime) + MostEntries(w, rest) + Listed(me.pc)
            && (me.pc == Reuse && me.held == 0 ==> OwnMoves(w, rest, p) <= 3)
            && (CanMove(last, p) || last.proxies[p].pc == Done(EndOf(me.pc, d)))
  {
    RunKeepsInv(before, |before| - 1);
    RunTraced(before, |before| - 1);
    CalmRunAttaches(before[|before| - 1], rest, p, d);
  }
}
