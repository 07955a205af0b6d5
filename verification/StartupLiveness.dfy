/** In a quiet state nothing but a live daemon with an overlapping root keeps a lone proxy from publishing its own. */
module StartupLiveness {
  import opened ProjectRoots
  import opened StartupProtocol
  import opened StartupInvariant
  import opened StartupProgress
  import opened StartupSafety

  // ----- Whose lock files name running processes -----

  /** As pids are not reused, every pid that a lock file names has been given out. */
  ghost predicate LocksUsed(w: World) {
    forall path :: path in w.locks ==> w.locks[path].pid in w.used
  }

  /** A lock file that names a running process is the own lock file of a live daemon. */
  predicate LockTraced(w: World, path: LockPath)
    requires path in w.locks
  {
    var pid := w.locks[path].pid;
    Alive(w, pid) ==>
      && pid in w.daemons && Live(w.daemons[pid])
      && path == OwnPath(w.daemons[pid].runtime, w.daemons[pid].root) && w.locks[path].root == w.daemons[pid].root
  }

  ghost predicate Traced(w: World) {
    LocksUsed(w) && forall path :: path in w.locks ==> LockTraced(w, path)
  }

  /** A step that writes no lock file and takes no live daemon out of service while its process runs on. */
  ghost predicate Mild(w: World, w': World) {
    && Within(w'.locks, w.locks) && w.used <= w'.used
    && (forall q :: q in w'.proxies ==> q in w.proxies || q !in w.used)
    && (forall d :: d in w'.daemons ==> d !in w.used || MildOn(w, w', d))
  }

  predicate MildOn(w: World, w': World, d: Pid)
    requires d in w'.daemons
  {
    && d in w.daemons && w'.daemons[d].runtime == w.daemons[d].runtime && w'.daemons[d].root == w.daemons[d].root
    && (Live(w.daemons[d]) ==> Live(w'.daemons[d]))
  }

  lemma MildKeeps(w: World, w': World)
    requires PidsOk(w) && Traced(w) && Mild(w, w')
    ensures Traced(w')
  {
    forall path | path in w'.locks
      ensures LockTraced(w', path) && w'.locks[path].pid in w'.used
    {
      assert LockTraced(w, path) && w.locks[path].pid in w.used;
    }
  }

  lemma ArriveMild(w: World, w': World, p: Pid, runtime: RuntimeDir, root: Root)
    requires Arrive(w, w', p, runtime, root)
    ensures Mild(w, w')
  {
  }

  lemma ReuseMild(w: World, w': World, p: Pid)
    requires ReuseLock(INDIVISIBLE, w, w', p)
    ensures Mild(w, w')
  {
  }

  lemma AcquireMild(w: World, w': World, p: Pid)
    requires AcquireOpen(w, w', p) || AcquireWrite(w, w', p) || AcquireInspect(INDIVISIBLE, w, w', p)
    ensures Mild(w, w')
  {
    assert w'.locks == w.locks && w'.daemons == w.daemons && w'.used == w.used;
  }

  lemma ReleaseMild(w: World, w': World, p: Pid)
    requires ReleaseLock(w, w', p) || FinishRelease(w, w', p) || Crash(w, w', p)
    ensures Mild(w, w')
  {
    assert w'.locks == w.locks && w'.daemons == w.daemons && w'.used == w.used;
  }

  lemma LockMoveMild(w: World, w': World, p: Pid, move: LockMove)
    requires LockNext(INDIVISIBLE, w, w', p, move)
    ensures Mild(w, w')
  {
    match move
    case DoArrive(runtime, root) => ArriveMild(w, w', p, runtime, root);
    case DoReuse => ReuseMild(w, w', p);
    case DoOpen => AcquireMild(w, w', p);
    case DoWrite => AcquireMild(w, w', p);
    case DoInspect => AcquireMild(w, w', p);
    case DoRelease => ReleaseMild(w, w', p);
    case DoFinishRelease => ReleaseMild(w, w', p);
    case DoCrash => ReleaseMild(w, w', p);
    case DoEndWait => assert w'.locks == w.locks;
    case DoLoop => assert w'.locks == w.locks;
    case DoAbort => assert w'.locks == w.locks;
  }

  lemma VisitLockMild(w: World, w': World, p: Pid, root: Root)
    requires VisitLock(INDIVISIBLE, w, w', p, root)
    ensures Mild(w, w')
  {
  }

  lemma VisitEntryMild(w: World, w': World, p: Pid, root: Root)
    requires VisitEntry(INDIVISIBLE, w, w', p, root)
    ensures Mild(w, w')
  {
    assert w'.locks == w.locks && w'.daemons == w.daemons && w'.used == w.used;
  }

  lemma GateMoveMild(w: World, w': World, p: Pid, move: GateMove)
    requires GateNext(INDIVISIBLE, w, w', p, move)
    ensures Mild(w, w')
  {
    match move
    case DoVisitLock(root) => VisitLockMild(w, w', p, root);
    case DoVisitEntry(root) => VisitEntryMild(w, w', p, root);
    case DoStartRegistryScan => assert w'.locks == w.locks;
    case DoGatePassed => assert w'.locks == w.locks;
  }

  lemma ChildMoveMild(w: World, w': World, p: Pid, move: ChildMove)
    requires ChildNext(w, w', p, move)
    ensures Mild(w, w')
  {
  }

  lemma WriteLockTraced(w: World, w': World, d: Pid)
    requires Inv(w) && Traced(w) && WriteLock(w, w', d)
    ensures Traced(w')
  {
    var own := OwnPath(w.daemons[d].runtime, w.daemons[d].root);
    forall path | path in w'.locks
      ensures LockTraced(w', path) && w'.locks[path].pid in w'.used
    {
      if path != own {
        assert LockTraced(w, path) && w.locks[path].pid in w.used;
      }
    }
  }

  lemma RetireTraced(w: World, w': World, d: Pid)
    requires Inv(w) && Traced(w) && Retire(w, w', d)
    ensures Traced(w')
  {
    forall path | path in w'.locks
      ensures LockTraced(w', path) && w'.locks[path].pid in w'.used
    {
      assert LockTraced(w, path) && w.locks[path].pid in w.used;
    }
  }

  lemma DaemonMoveTraced(w: World, w': World, d: Pid, move: DaemonMove)
    requires Inv(w) && Traced(w) && DaemonNext(w, w', d, move)
    ensures Traced(w')
  {
    match move
    case DoWriteLock => WriteLockTraced(w, w', d);
    case DoRetire => RetireTraced(w, w', d);
    case DoVerifyLock =>
      VerifyLockKeeps(w, w', d);
      MildKeeps(w, w');
    case DoRegisterSelf(written) =>
      RegisterSelfMild(w, w', d, written);
      MildKeeps(w, w');
    case DoExit => MildKeeps(w, w');
  }

  lemma RegisterSelfMild(w: World, w': World, d: Pid, written: bool)
    requires RegisterSelf(w, w', d, written)
    ensures Mild(w, w')
  {
  }

  lemma StepTraced(w: World, w': World, step: Step)
    requires Inv(w) && Traced(w) && NextStep(INDIVISIBLE, w, w', step)
    ensures Traced(w')
  {
    match step
    case LockStep(p, move) =>
      LockMoveMild(w, w', p, move);
      MildKeeps(w, w');
    case GateStep(p, move) =>
      GateMoveMild(w, w', p, move);
      MildKeeps(w, w');
    case ChildStep(p, move) =>
      ChildMoveMild(w, w', p, move);
      MildKeeps(w, w');
    case DaemonStep(d, move) => DaemonMoveTraced(w, w', d, move);
    case UnlinkStep(pid, move) => NoUnlinkStep(w, w', pid, move);
  }

  lemma InitialTraced(w: World)
    requires Initial(w) && LocksUsed(w)
    ensures Traced(w)
  {
  }

  lemma NextTraced(w: World, w': World)
    requires Inv(w) && Traced(w) && Next(INDIVISIBLE, w, w')
    ensures Traced(w')
  {
    var step :| NextStep(INDIVISIBLE, w, w', step);
    StepTraced(w, w', step);
  }

  /** In every run, a lock file that names a running process is the own lock file of a live daemon. */
  lemma {:induction false} RunTraced(run: seq<World>, i: nat)
    requires IsRun(INDIVISIBLE, run) && LocksUsed(run[0]) && i < |run|
    ensures Traced(run[i])
  {
    if i == 0 {
      InitialTraced(run[0]);
    } else {
      RunTraced(run, i - 1);
      RunKeepsInv(run, i - 1);
      assert Follows(INDIVISIBLE, run, i - 1);
      NextTraced(run[i - 1], run[i]);
    }
  }

  // ----- A quiet state -----

  /** No process holds a PID lock or is acquiring one. */
  ghost predicate Quiet(w: World) {
    forall p :: p in w.proxies ==> w.proxies[p].held == 0 && !w.proxies[p].pc.Acquire?
  }

  lemma QuietFree(w: World, name: LockName)
    requires Inv(w) && Quiet(w)
    ensures Free(w, name)
  {
    if name in w.pidFiles {
      assert FileOk(w, name, w.pidFiles[name]);
    }
  }

  lemma QuietCanStart(w: World, p: Pid, d: Pid, runtime: RuntimeDir, root: Root)
    requires Inv(w) && Traced(w) && Quiet(w) && NoLiveOverlap(w, root)
    requires p !in w.used && d !in w.used && p != d
    ensures CanStart(w, p, d, runtime, root)
  {
    QuietFree(w, CrossRuntime);
    QuietFree(w, GlobalStartup(runtime));
    QuietFree(w, Starter(runtime, root));
    forall name | name in w.pidFiles
      ensures w.pidFiles[name] != Holds(p)
    {
      assert FileOk(w, name, w.pidFiles[name]);
    }
    forall path | path in w.locks
      ensures w.locks[path].pid != p
      ensures Alive(w, w.locks[path].pid) ==> !RootsOverlap(root, w.locks[path].root)
    {
      assert LockTraced(w, path) && w.locks[path].pid in w.used;
      OverlapMeansSharedPath(root, w.locks[path].root);
    }
    assert RootsOverlap(root, root);
  }

  /** At the end of any run in which the files left over at its beginning name pids that had been given out: when no
      process holds or is acquiring a PID lock and no live daemon has an overlapping root, a lone proxy for that root
      can go on to a state in which its daemon is published and all locks are released; every live daemon stays
      published, whatever stale files were in the way. */
  lemma QuietStart(run: seq<World>, p: Pid, d: Pid, runtime: RuntimeDir, root: Root) returns (w': World)
    requires IsRun(INDIVISIBLE, run) && LocksUsed(run[0])
    requires var w := run[|run| - 1]; Quiet(w) && NoLiveOverlap(w, root) && p !in w.used && d !in w.used && p != d
    ensures Reachable(INDIVISIBLE, w') && IsStarted(run[|run| - 1], w', p, d, runtime, root)
    ensures forall e :: e in w'.daemons && Live(w'.daemons[e]) ==>
              OwnLockStands(w', e, w'.daemons[e]) && OwnEntryStands(w', e, w'.daemons[e])
  {
    var w := run[|run| - 1];
    RunKeepsInv(run, |run| - 1);
    RunTraced(run, |run| - 1);
    QuietCanStart(w, p, d, runtime, root);
    w' := StartRun(INDIVISIBLE, w, p, d, runtime, root);
    forall e | e in w'.daemons && Live(w'.daemons[e])
      ensures OwnLockStands(w', e, w'.daemons[e]) && OwnEntryStands(w', e, w'.daemons[e])
    {
      StaysPublished(w, w', p, d, runtime, root, e);
    }
  }

  lemma StaysPublished(w: World, w': World, p: Pid, d: Pid, runtime: RuntimeDir, root: Root, e: Pid)
    requires Inv(w) && Quiet(w) && Reachable(INDIVISIBLE, w') && IsStarted(w, w', p, d, runtime, root)
    requires e in w'.daemons && Live(w'.daemons[e])
    ensures OwnLockStands(w', e, w'.daemons[e]) && OwnEntryStands(w', e, w'.daemons[e])
  {
    ReachableInv(w');
    assert DaemonOk(w', e, w'.daemons[e]);
    forall q | q in w.proxies
      ensures !w.proxies[q].pc.Poll? && !w.proxies[q].pc.Publish?
    {
      assert ProxyOk(w, q, w.proxies[q]);
    }
  }
}
