/** A proxy that gets through the overlap gate and starts its daemon leaves no stale metadata behind. */
module StartupCleanup {
  import opened ProjectRoots
  import opened StartupProtocol
  import opened StartupInvariant
  import opened StartupProgress
  import opened StartupSafety
  import opened StartupLiveness
  import opened StartupMoves
  import opened StartupAttach
  import opened StartupSchedules

  /** Every lock file of the runtime directory, other than those still to be visited, names its own root and a running
      process. */
  ghost predicate LocksSwept(w: World, runtime: RuntimeDir, rest: set<Root>) {
    forall path :: path in w.locks && path.runtime == runtime && path.root !in rest ==> LockGood(w, path)
  }

  /** Every registry entry, other than those still to be visited, is backed by a running process and its lock file. */
  ghost predicate EntriesSwept(w: World, rest: set<Root>) {
    forall r :: r in w.registry && r !in rest ==> EntryBacked(w, w.registry[r])
  }

  /** How far the metadata has been cleaned up when a proxy is at this point. */
  ghost predicate Swept(w: World, me: Proxy) {
    match me.pc
    case ScanLocks(rest) => LocksSwept(w, me.runtime, rest)
    case ScanRegistry(rest) => LocksSwept(w, me.runtime, {}) && EntriesSwept(w, rest)
    case _ => Behind(me) ==> LocksSwept(w, me.runtime, {}) && EntriesSwept(w, {})
  }

  /** The proxy has passed the gate under both outer locks, or has started its daemon. */
  predicate Behind(me: Proxy) {
    match me.pc
    case Acquire(_, _) => me.held == 2
    case Spawn => true
    case Poll(_) => true
    case Publish(_, _) => true
    case Release(next) => next.Return? && next.outcome.Spawned?
    case Unlock(next) => next.Return? && next.outcome.Spawned?
    case Done(outcome) => outcome.Spawned?
    case _ => false
  }

  /** Files that stay good when nothing is taken away and no process leaves. */
  lemma SweptStays(w: World, w': World, runtime: RuntimeDir, rest: set<Root>)
    requires w'.locks == w.locks && w'.registry == w.registry
    requires w.proxies.Keys <= w'.proxies.Keys && w.daemons.Keys <= w'.daemons.Keys
    ensures LocksSwept(w, runtime, rest) ==> LocksSwept(w', runtime, rest)
    ensures EntriesSwept(w, rest) ==> EntriesSwept(w', rest)
  {
    if LocksSwept(w, runtime, rest) {
      forall path | path in w'.locks && path.runtime == runtime && path.root !in rest
        ensures LockGood(w', path)
      {
        assert LockGood(w, path);
      }
    }
  }

  /** A step that moves only the program counter, the PID locks or the daemons. */
  lemma QuietSwept(w: World, w': World, p: Pid)
    requires p in w.proxies && p in w'.proxies && Swept(w, w.proxies[p])
    requires w'.locks == w.locks && w'.registry == w.registry
    requires w.proxies.Keys <= w'.proxies.Keys && w.daemons.Keys <= w'.daemons.Keys
    requires w'.proxies[p].runtime == w.proxies[p].runtime
    requires !w'.proxies[p].pc.ScanLocks? && !w'.proxies[p].pc.ScanRegistry?
    requires Behind(w'.proxies[p]) ==> Behind(w.proxies[p]) || w.proxies[p].pc == ScanRegistry({})
    ensures Swept(w', w'.proxies[p])
  {
    SweptStays(w, w', w.proxies[p].runtime, {});
  }

  lemma ReuseSwept(w: World, w': World, p: Pid)
    requires Lone(w, p) && ReuseLock(INDIVISIBLE, w, w', p)
    ensures Swept(w', w'.proxies[p])
  {
    ReuseMoves(w, w', p);
  }

  lemma OpenSwept(w: World, w': World, p: Pid)
    requires Lone(w, p) && Swept(w, w.proxies[p]) && AcquireOpen(w, w', p)
    ensures Swept(w', w'.proxies[p])
  {
    QuietSwept(w, w', p);
  }

  lemma WriteSwept(w: World, w': World, p: Pid)
    requires Lone(w, p) && Swept(w, w.proxies[p]) && AcquireWrite(w, w', p)
    ensures Swept(w', w'.proxies[p])
  {
    assert ProxyOk(w, p, w.proxies[p]);
    QuietSwept(w, w', p);
  }

  lemma InspectSwept(w: World, w': World, p: Pid)
    requires Lone(w, p) && Swept(w, w.proxies[p]) && AcquireInspect(INDIVISIBLE, w, w', p)
    ensures Swept(w', w'.proxies[p])
  {
    QuietSwept(w, w', p);
  }

  lemma ReleaseSwept(w: World, w': World, p: Pid)
    requires Lone(w, p) && Swept(w, w.proxies[p]) && ReleaseLock(w, w', p)
    ensures Swept(w', w'.proxies[p])
  {
    ReleaseMoves(w, w', p, w.proxies[p].pc.next.outcome);
    QuietSwept(w, w', p);
  }

  lemma FinishReleaseSwept(w: World, w': World, p: Pid)
    requires Lone(w, p) && Swept(w, w.proxies[p]) && FinishRelease(w, w', p)
    ensures Swept(w', w'.proxies[p])
  {
    QuietSwept(w, w', p);
  }

  lemma LockMoveSwept(w: World, w': World, p: Pid, move: LockMove)
    requires Lone(w, p) && Swept(w, w.proxies[p])
    requires OwnMove(p, LockStep(p, move)) && LockNext(INDIVISIBLE, w, w', p, move)
    ensures p in w'.proxies && Swept(w', w'.proxies[p])
  {
    match move
    case DoReuse => ReuseSwept(w, w', p);
    case DoEndWait =>
    case DoLoop =>
      assert ProxyOk(w, p, w.proxies[p]);
      QuietSwept(w, w', p);
    case DoOpen => OpenSwept(w, w', p);
    case DoWrite => WriteSwept(w, w', p);
    case DoInspect => InspectSwept(w, w', p);
    case DoRelease => ReleaseSwept(w, w', p);
    case DoFinishRelease => FinishReleaseSwept(w, w', p);
  }

  /** A visited lock file is good or gone. */
  lemma LockVisited(w: World, w': World, runtime: RuntimeDir, root: Root, rest: set<Root>)
    requires LocksSwept(w, runtime, rest) && Within(w'.locks, w.locks)
    requires w'.proxies.Keys == w.proxies.Keys && w'.daemons == w.daemons
    requires var path := LockPath(runtime, root); path in w'.locks ==> LockGood(w, path)
    ensures LocksSwept(w', runtime, rest - {root})
  {
    forall path | path in w'.locks && path.runtime == runtime && path.root !in rest - {root}
      ensures LockGood(w', path)
    {
      assert path.root == root ==> path == LockPath(runtime, root);
      assert LockGood(w, path);
    }
  }

  lemma VisitLockShape(w: World, w': World, p: Pid, root: Root)
    requires VisitLock(INDIVISIBLE, w, w', p, root)
    ensures w'.proxies.Keys == w.proxies.Keys && w'.daemons == w.daemons && Within(w'.locks, w.locks)
    ensures w'.proxies[p].runtime == w.proxies[p].runtime
    ensures if w'.proxies[p].pc.ScanLocks? then w'.proxies[p].pc.rest == w.proxies[p].pc.rest - {root}
            else !Behind(w'.proxies[p]) && !w'.proxies[p].pc.ScanRegistry?
    ensures var path := LockPath(w.proxies[p].runtime, root); path in w'.locks ==> LockGood(w, path)
  {
  }

  lemma VisitLockSwept(w: World, w': World, p: Pid, root: Root)
    requires p in w.proxies && Swept(w, w.proxies[p]) && VisitLock(INDIVISIBLE, w, w', p, root)
    ensures p in w'.proxies && Swept(w', w'.proxies[p])
  {
    VisitLockShape(w, w', p, root);
    LockVisited(w, w', w.proxies[p].runtime, root, w.proxies[p].pc.rest);
  }

  /** A visited registry entry is backed or gone. */
  lemma EntryVisited(w: World, w': World, root: Root, rest: set<Root>)
    requires EntriesSwept(w, rest) && Within(w'.registry, w.registry) && w'.locks == w.locks
    requires w'.proxies.Keys == w.proxies.Keys && w'.daemons == w.daemons
    requires root in w'.registry ==> EntryBacked(w, w.registry[root])
    ensures EntriesSwept(w', rest - {root})
  {
    forall r | r in w'.registry && r !in rest - {root}
      ensures EntryBacked(w', w'.registry[r])
    {
      assert EntryBacked(w, w.registry[r]);
    }
  }

  lemma LocksStaySwept(w: World, w': World, runtime: RuntimeDir)
    requires LocksSwept(w, runtime, {}) && w'.locks == w.locks
    requires w'.proxies.Keys == w.proxies.Keys && w'.daemons == w.daemons
    ensures LocksSwept(w', runtime, {})
  {
    forall path | path in w'.locks && path.runtime == runtime
      ensures LockGood(w', path)
    {
      assert LockGood(w, path);
    }
  }

  lemma VisitEntrySwept(w: World, w': World, p: Pid, root: Root)
    requires p in w.proxies && Swept(w, w.proxies[p]) && VisitEntry(INDIVISIBLE, w, w', p, root)
    ensures Swept(w', w'.proxies[p])
  {
    if w'.proxies[p].pc.ScanRegistry? {
      LocksStaySwept(w, w', w.proxies[p].runtime);
      EntryVisited(w, w', root, w.proxies[p].pc.entries);
    }
  }

  lemma GateMoveSwept(w: World, w': World, p: Pid, move: GateMove)
    requires Lone(w, p) && Swept(w, w.proxies[p]) && GateNext(INDIVISIBLE, w, w', p, move)
    ensures p in w'.proxies && Swept(w', w'.proxies[p])
  {
    match move
    case DoVisitLock(root) => VisitLockSwept(w, w', p, root);
    case DoVisitEntry(root) => VisitEntrySwept(w, w', p, root);
    case DoStartRegistryScan => SweptStays(w, w', w.proxies[p].runtime, {});
    case DoGatePassed => QuietSwept(w, w', p);
  }

  /** Writing a backed entry. */
  lemma EntryWrittenSwept(w: World, w': World, runtime: RuntimeDir, root: Root, entry: RegistryEntry)
    requires LocksSwept(w, runtime, {}) && EntriesSwept(w, {}) && EntryBacked(w, entry)
    requires w'.locks == w.locks && w'.registry == w.registry[root := entry]
    requires w'.proxies.Keys == w.proxies.Keys && w'.daemons.Keys == w.daemons.Keys
    ensures LocksSwept(w', runtime, {}) && EntriesSwept(w', {})
  {
    forall path | path in w'.locks && path.runtime == runtime
      ensures LockGood(w', path)
    {
      assert LockGood(w, path);
    }
    forall r | r in w'.registry
      ensures EntryBacked(w', w'.registry[r])
    {
      if r != root {
        assert EntryBacked(w, w.registry[r]);
      }
    }
  }

  lemma PublishSwept(w: World, w': World, p: Pid)
    requires Lone(w, p) && Swept(w, w.proxies[p]) && PublishEntry(w, w', p)
    ensures Swept(w', w'.proxies[p])
  {
    var me := w.proxies[p];
    assert ProxyOk(w, p, me);
    assert DaemonOk(w, me.pc.child, w.daemons[me.pc.child]);
    var entry := RegistryEntry(me.pc.found, me.root, OwnPath(me.runtime, me.root));
    EntryWrittenSwept(w, w', me.runtime, me.root, entry);
  }

  lemma ChildMoveSwept(w: World, w': World, p: Pid, move: ChildMove)
    requires Lone(w, p) && Swept(w, w.proxies[p])
    requires OwnMove(p, ChildStep(p, move)) && ChildNext(w, w', p, move)
    ensures p in w'.proxies && Swept(w', w'.proxies[p])
  {
    match move
    case DoSpawn(_) => QuietSwept(w, w', p);
    case DoPollFound => QuietSwept(w, w', p);
    case DoPublish => PublishSwept(w, w', p);
  }

  /** While a child runs, its proxy is behind the gate. */
  lemma BehindWithChild(w: World, p: Pid, d: Pid)
    requires Lone(w, p) && d in w.daemons && w.daemons[d].starter == p && w.daemons[d].phase != Serving
    ensures Behind(w.proxies[p]) && Has(w, p, w.proxies[p], d)
  {
    assert d in Children(w, p);
  }

  lemma WriteLockSwept(w: World, w': World, p: Pid, d: Pid)
    requires Lone(w, p) && Swept(w, w.proxies[p]) && w.proxies[p].pc.Poll? && w.proxies[p].pc.child == d
    requires WriteLock(w, w', d) && Has(w, p, w.proxies[p], d)
    ensures Swept(w', w'.proxies[p])
  {
    var me := w.proxies[p];
    assert ProxyOk(w, p, me);
    forall path | path in w'.locks && path.runtime == me.runtime
      ensures LockGood(w', path)
    {
      assert path in w.locks ==> LockGood(w, path);
    }
    forall r | r in w'.registry
      ensures EntryBacked(w', w'.registry[r])
    {
      assert EntryBacked(w, w.registry[r]);
    }
  }

  lemma RegisterSelfSwept(w: World, w': World, p: Pid, d: Pid, written: bool)
    requires Lone(w, p) && Swept(w, w.proxies[p]) && Behind(w.proxies[p]) && Has(w, p, w.proxies[p], d)
    requires RegisterSelf(w, w', d, written)
    ensures Swept(w', w'.proxies[p])
  {
    var me := w.daemons[d];
    assert DaemonOk(w, d, me);
    if written {
      EntryWrittenSwept(w, w', me.runtime, me.root, RegistryEntry(d, me.root, OwnPath(me.runtime, me.root)));
    } else {
      SweptStays(w, w', w.proxies[p].runtime, {});
    }
  }

  lemma DaemonMoveSwept(w: World, w': World, p: Pid, d: Pid, move: DaemonMove)
    requires Lone(w, p) && Swept(w, w.proxies[p]) && Allowed(w, p, DaemonStep(d, move)) && DaemonNext(w, w', d, move)
    ensures p in w'.proxies && Swept(w', w'.proxies[p])
  {
    BehindWithChild(w, p, d);
    match move
    case DoWriteLock =>
      assert OnTrack(w, p, w.proxies[p]);
      WriteLockSwept(w, w', p, d);
    case DoVerifyLock => SweptStays(w, w', w.proxies[p].runtime, {});
    case DoRegisterSelf(written) => RegisterSelfSwept(w, w', p, d, written);
  }

  lemma StepSwept(w: World, w': World, p: Pid, step: Step)
    requires Lone(w, p) && Swept(w, w.proxies[p]) && Allowed(w, p, step) && NextStep(INDIVISIBLE, w, w', step)
    ensures p in w'.proxies && Swept(w', w'.proxies[p])
  {
    match step
    case LockStep(_, move) => LockMoveSwept(w, w', p, move);
    case GateStep(_, move) => GateMoveSwept(w, w', p, move);
    case ChildStep(_, move) => ChildMoveSwept(w, w', p, move);
    case DaemonStep(d, move) => DaemonMoveSwept(w, w', p, d, move);
  }

  lemma LoneNextSwept(w: World, w': World, p: Pid)
    requires Lone(w, p) && Swept(w, w.proxies[p]) && LoneNext(w, w', p)
    ensures Lone(w', p) && Swept(w', w'.proxies[p])
  {
    var step :| Allowed(w, p, step) && NextStep(INDIVISIBLE, w, w', step);
    StepSwept(w, w', p, step);
    LoneStepKeeps(w, w', p);
  }

  lemma {:induction false} LoneRunSwept(w: World, rest: seq<World>, p: Pid)
    requires Lone(w, p) && Swept(w, w.proxies[p]) && LoneRun(w, rest, p)
    ensures var last := Last(w, rest); p in last.proxies && Swept(last, last.proxies[p])
    decreases rest
  {
    if rest != [] {
      LoneNextSwept(w, rest[0], p);
      LoneRunSwept(rest[0], rest[1..], p);
      assert Last(rest[0], rest[1..]) == Last(w, rest);
    }
  }

  /** Only good metadata is left: every lock file of the runtime directory names its own root and a running process,
      and every registry entry names a running process that the lock file of the entry names too. */
  ghost predicate MetadataGood(w: World, runtime: RuntimeDir) {
    && (forall path :: path in w.locks && path.runtime == runtime ==>
          w.locks[path].root == path.root && Alive(w, w.locks[path].pid))
    && (forall r :: r in w.registry ==>
          && Alive(w, w.registry[r].pid) && w.registry[r].lockPath in w.locks
          && w.locks[w.registry[r].lockPath].pid == w.registry[r].pid
          && w.locks[w.registry[r].lockPath].root == w.registry[r].root)
  }

  lemma SweptIsGood(w: World, runtime: RuntimeDir)
    requires LocksSwept(w, runtime, {}) && EntriesSwept(w, {})
    ensures MetadataGood(w, runtime)
  {
    forall path | path in w.locks && path.runtime == runtime
      ensures w.locks[path].root == path.root && Alive(w, w.locks[path].pid)
    {
      assert LockGood(w, path);
    }
    forall r | r in w.registry
      ensures EntryBacked(w, w.registry[r])
    {
    }
  }

  /** In the setting of `EveryScheduleEnds`, when no live daemon overlaps the root, a schedule that cannot be continued
      has left only good metadata. */
  lemma StaleMetadataGone(before: seq<World>, w: World, rest: seq<World>, p: Pid, runtime: RuntimeDir, root: Root)
    requires IsRun(INDIVISIBLE, before) && LocksUsed(before[0]) && Quiet(before[|before| - 1])
    requires Arrive(before[|before| - 1], w, p, runtime, root) && LoneRun(w, rest, p) && NoLiveOverlap(w, root)
    ensures CanContinue(Last(w, rest), p) || MetadataGood(Last(w, rest), runtime)
  {
    RunKeepsInv(before, |before| - 1);
    RunTraced(before, |before| - 1);
    CallSweeps(before[|before| - 1], w, rest, p, runtime, root);
  }

  lemma CallSweeps(b: World, w: World, rest: seq<World>, p: Pid, runtime: RuntimeDir, root: Root)
    requires Inv(b) && Traced(b) && Quiet(b) && Arrive(b, w, p, runtime, root) && LoneRun(w, rest, p)
    requires NoLiveOverlap(w, root)
    ensures CanContinue(Last(w, rest), p) || MetadataGood(Last(w, rest), runtime)
  {
    assert RootsOverlap(root, root);
    ArrivedLone(b, w, p, runtime, root);
    LoneRunSwept(w, rest, p);
    LoneRunBounded(w, rest, p);
    CallEnds(b, w, rest, p, runtime, root);
    LastSwept(w, Last(w, rest), p, runtime, root);
  }

  lemma LastSwept(w: World, last: World, p: Pid, runtime: RuntimeDir, root: Root)
    requires p in last.proxies && last.proxies[p].runtime == runtime
    requires Swept(last, last.proxies[p]) && NoLiveOverlap(w, root)
    requires CanContinue(last, p) || CallEnded(w, last, p, runtime, root)
    ensures CanContinue(last, p) || MetadataGood(last, runtime)
  {
    if !CanContinue(last, p) {
      SweptIsGood(last, runtime);
    }
  }
}
