/** Runs that reach two live daemons on one root, one for each read-then-unlink pair that others may interrupt. */
module StartupRaces {
  import opened ProjectRoots
  import opened StartupProtocol
  import opened StartupProgress

  const RUNTIME_A: RuntimeDir := "a"
  const RUNTIME_B: RuntimeDir := "b"
  const REPO: Root := ["repo"]
  const OTHER: Root := ["other"]
  const REPO_LOCK := LockPath(RUNTIME_A, REPO)

  /** Two live daemons on the same root. */
  ghost predicate Clash(w: World) {
    exists d, e :: d in w.daemons && e in w.daemons && d != e && Live(w.daemons[d]) && Live(w.daemons[e])
                && w.daemons[d].root == w.daemons[e].root
  }

  lemma InitialReachable(g: Atomicity, w: World)
    requires Initial(w)
    ensures Reachable(g, w)
  {
    assert IsRun(g, [w]);
  }

  /** A live daemon on the repository, with at most its own two files left. */
  ghost predicate Serves(w: World, d: Pid) {
    && d in w.daemons && Live(w.daemons[d]) && w.daemons[d].root == REPO && d in w.used
    && w.pidFiles == map[] && w.locks.Keys <= {REPO_LOCK} && w.registry.Keys <= {REPO}
    && (REPO_LOCK in w.locks ==> w.locks[REPO_LOCK].pid in w.used)
  }

  /** Once one of the two files is gone, the gate of another runtime directory sees nothing. */
  lemma SecondStart(g: Atomicity, w: World, live: Pid, p: Pid, d: Pid)
    requires Reachable(g, w) && Serves(w, live) && p !in w.used && d !in w.used && p != d
    requires REPO in w.registry ==> REPO_LOCK !in w.locks && w.registry[REPO].lockPath == REPO_LOCK
    ensures exists w' :: Reachable(g, w') && Clash(w')
  {
    var w' := SpawnRun(g, w, p, d, RUNTIME_B, REPO);
    assert Live(w'.daemons[live]) && Live(w'.daemons[d]);
  }

  /** Proxy `p` starts daemon `d` on the repository over whatever an earlier session left there. */
  lemma FirstStart(g: Atomicity, w: World, p: Pid, d: Pid) returns (w': World)
    requires Reachable(g, w) && p !in w.used && d !in w.used && p != d
    requires w.pidFiles.Keys <= {CrossRuntime} && Free(w, CrossRuntime)
    requires CrossRuntime in w.pidFiles ==> w.pidFiles[CrossRuntime] != Holds(p)
    requires w.locks.Keys <= {REPO_LOCK} && w.registry.Keys <= {REPO}
    requires REPO_LOCK in w.locks ==> !Alive(w, w.locks[REPO_LOCK].pid) && w.locks[REPO_LOCK].pid != p
    requires REPO in w.registry ==> w.registry[REPO].lockPath == REPO_LOCK
    ensures Reachable(g, w') && IsStarted(w, w', p, d, RUNTIME_A, REPO) && Serves(w', d)
  {
    w' := StartRun(g, w, p, d, RUNTIME_A, REPO);
    assert w'.pidFiles == map[];
    assert w'.locks.Keys <= {REPO_LOCK} by {
      assert forall path :: path in w'.locks && path != REPO_LOCK ==> path in w'.locks - {REPO_LOCK};
    }
    assert w'.registry.Keys <= {REPO} by {
      assert forall r :: r in w'.registry && r != REPO ==> r in w'.registry - {REPO};
    }
  }

  // ----- A daemon's own removal -----

  /** Daemon 1 removes its lock file; daemon 3 starts and publishes; daemon 1 removes the registry entry,
      which is now daemon 3's; a proxy under another runtime directory sees no conflict and starts
      daemon 5 on the same root. */
  lemma DividedRetireClashes(g: Atomicity)
    requires !g.retire
    ensures exists w :: Reachable(g, w) && Clash(w)
  {
    EmptyReachable(g);
    var w := FirstStart(g, EMPTY, 0, 1);
    RetireBegins(g, w);
  }

  lemma RetireBegins(g: Atomicity, w: World)
    requires !g.retire && Reachable(g, w) && w.used == {0, 1} && w.pidFiles == map[]
    requires w.daemons == map[1 := Daemon(RUNTIME_A, REPO, Serving, 0)]
    requires w.locks.Keys <= {REPO_LOCK} && w.registry.Keys == {REPO} && w.registry[REPO].lockPath == REPO_LOCK
    ensures exists w' :: Reachable(g, w') && Clash(w')
  {
    var w1 := SetPhase(w.(locks := map[]), 1, Retiring);
    assert w.locks - {REPO_LOCK} == map[];
    ExtendRun(g, w, w1, UnlinkStep(1, DoRetireLock));
    RetireOvertaken(g, w1);
  }

  lemma RetireOvertaken(g: Atomicity, w: World)
    requires Reachable(g, w) && w.used == {0, 1} && w.pidFiles == map[] && w.locks == map[]
    requires w.daemons == map[1 := Daemon(RUNTIME_A, REPO, Retiring, 0)]
    requires w.registry.Keys == {REPO} && w.registry[REPO].lockPath == REPO_LOCK
    ensures exists w' :: Reachable(g, w') && Clash(w')
  {
    var w1 := FirstStart(g, w, 2, 3);
    RetireFinishes(g, w1);
  }

  lemma RetireFinishes(g: Atomicity, w: World)
    requires Reachable(g, w) && Serves(w, 3) && w.used == {0, 1, 2, 3}
    requires 1 in w.daemons && w.daemons[1] == Daemon(RUNTIME_A, REPO, Retiring, 0)
    ensures exists w' :: Reachable(g, w') && Clash(w')
  {
    var w1 := SetPhase(w.(registry := map[]), 1, Retired);
    assert w.registry - {REPO} == map[];
    ExtendRun(g, w, w1, UnlinkStep(1, DoRetireEntry));
    SecondStart(g, w1, 3, 4, 5);
  }

  // ----- The own stale daemon lock -----

  /** A lock file of the repository, left by a daemon that is gone. */
  const LEFT_LOCK := World({1}, map[], map[], map[], map[REPO_LOCK := LockEntry(1, REPO)], map[])

  /** Proxy 2 judges the leftover lock stale; daemon 4 starts and publishes at the same path; proxy 2 removes
      daemon 4's lock; under another runtime directory daemon 4's registry entry then looks stale, and
      daemon 6 starts on the same root. */
  lemma DividedCleanReuseClashes(g: Atomicity)
    requires !g.cleanReuse
    ensures exists w :: Reachable(g, w) && Clash(w)
  {
    InitialReachable(g, LEFT_LOCK);
    var w1 := LEFT_LOCK.(used := {1, 2}, proxies := map[2 := Proxy(RUNTIME_A, REPO, 0, Reuse)]);
    assert LEFT_LOCK.used + {2} == {1, 2};
    ExtendRun(g, LEFT_LOCK, w1, LockStep(2, DoArrive(RUNTIME_A, REPO)));
    var w2 := SetPc(w1, 2, CleanReuse);
    ExtendRun(g, w1, w2, LockStep(2, DoReuse));
    CleanReuseOvertaken(g, w2);
  }

  lemma CleanReuseOvertaken(g: Atomicity, w: World)
    requires Reachable(g, w) && w.used == {1, 2} && w.daemons == map[] && w.pidFiles == map[] && w.registry == map[]
    requires w.proxies == map[2 := Proxy(RUNTIME_A, REPO, 0, CleanReuse)]
    requires w.locks == map[REPO_LOCK := LockEntry(1, REPO)]
    ensures exists w' :: Reachable(g, w') && Clash(w')
  {
    var w1 := FirstStart(g, w, 3, 4);
    CleanReuseFinishes(g, w1);
  }

  lemma CleanReuseFinishes(g: Atomicity, w: World)
    requires Reachable(g, w) && Serves(w, 4) && w.used == {1, 2, 3, 4}
    requires 2 in w.proxies && w.proxies[2] == Proxy(RUNTIME_A, REPO, 0, CleanReuse)
    requires REPO in w.registry && w.registry[REPO].lockPath == REPO_LOCK
    ensures exists w' :: Reachable(g, w') && Clash(w')
  {
    var w1 := SetPc(w.(locks := map[]), 2, Loop);
    assert w.locks - {REPO_LOCK} == map[];
    ExtendRun(g, w, w1, UnlinkStep(2, DoFinishCleanReuse));
    SecondStart(g, w1, 4, 5, 6);
  }

  // ----- The two passes of the overlap gate -----

  /** Proxy 3, on another root, was refused the outermost lock by proxy 2 and is in the overlap gate at `pc`. */
  function InGate(w: World, pc: Pc): World {
    World({1, 2, 3},
          map[2 := Proxy(RUNTIME_A, OTHER, 1, Acquire(0, Open)), 3 := Proxy(RUNTIME_A, OTHER, 0, pc)],
          w.daemons, map[CrossRuntime := Holds(2)], w.locks, w.registry)
  }

  lemma RefusedRun(g: Atomicity, w: World)
    requires Reachable(g, w) && w.used == {1} && w.pidFiles == map[] && w.proxies == map[]
    requires LockPath(RUNTIME_A, OTHER) !in w.locks
    ensures Reachable(g, InGate(w, ScanLocks(LockRoots(w, RUNTIME_A))))
  {
    InsideRun(g, w, 2, RUNTIME_A, OTHER);
    var w1 := Inside(w, 2, RUNTIME_A, OTHER);
    QueueRun(g, w1, 3, RUNTIME_A, OTHER);
    var w2 := Entered(w1, 3, RUNTIME_A, OTHER, Acquire(0, Open));
    RefuseRun(g, w2, 3);
    RefusedInGate(w, SetPc(w2, 3, ScanLocks(LockRoots(w2, RUNTIME_A))));
  }

  lemma RefusedInGate(w: World, w': World)
    requires w.used == {1} && w.pidFiles == map[] && w.proxies == map[] && LockPath(RUNTIME_A, OTHER) !in w.locks
    requires var w2 := Entered(Inside(w, 2, RUNTIME_A, OTHER), 3, RUNTIME_A, OTHER, Acquire(0, Open));
             w' == SetPc(w2, 3, ScanLocks(LockRoots(w2, RUNTIME_A)))
    ensures w' == InGate(w, ScanLocks(LockRoots(w, RUNTIME_A)))
  {
    assert w.locks - {LockPath(RUNTIME_A, OTHER)} == w.locks;
    assert {1} + {2} + {3} == {1, 2, 3};
  }

  /** A lock held by a running process sends the proxy to the gate. */
  lemma RefuseRun(g: Atomicity, w: World, p: Pid)
    requires Reachable(g, w) && p in w.proxies && w.proxies[p].held == 0 && w.proxies[p].pc == Acquire(0, Open)
    requires CrossRuntime in w.pidFiles && w.pidFiles[CrossRuntime].Holds? && Alive(w, w.pidFiles[CrossRuntime].pid)
    ensures Reachable(g, SetPc(w, p, ScanLocks(LockRoots(w, w.proxies[p].runtime))))
  {
    var w1 := SetPc(w, p, Acquire(0, Inspect));
    ExtendRun(g, w, w1, LockStep(p, DoOpen));
    var w2 := SetPc(w, p, ScanLocks(LockRoots(w, w.proxies[p].runtime)));
    assert w2.proxies == w1.proxies[p := w2.proxies[p]];
    assert LockRoots(w1, w.proxies[p].runtime) == LockRoots(w, w.proxies[p].runtime);
    ExtendRun(g, w1, w2, LockStep(p, DoInspect));
  }

  /** Proxy 3 stalls in the gate at `pc` while proxy 2 dies, leaving its lock behind. */
  function Stalled(w: World, pc: Pc): World {
    InGate(w, pc).(proxies := map[3 := Proxy(RUNTIME_A, OTHER, 0, pc)])
  }

  lemma HolderDies(g: Atomicity, w: World, pc: Pc)
    requires Reachable(g, InGate(w, pc))
    ensures Reachable(g, Stalled(w, pc))
  {
    assert InGate(w, pc).proxies - {2} == Stalled(w, pc).proxies;
    ExtendRun(g, InGate(w, pc), Stalled(w, pc), LockStep(2, DoCrash));
  }

  /** Proxy 3 judges the leftover lock file stale and stalls; daemon 5 starts and publishes at the same path; proxy 3
      removes daemon 5's lock, and daemon 7 starts on the same root. */
  lemma DividedDropLockClashes(g: Atomicity)
    requires !g.dropLock
    ensures exists w :: Reachable(g, w) && Clash(w)
  {
    InitialReachable(g, LEFT_LOCK);
    RefusedRun(g, LEFT_LOCK);
    assert LockRoots(LEFT_LOCK, RUNTIME_A) == {REPO};
    LockJudged(g);
    HolderDies(g, LEFT_LOCK, DropLock(REPO, {}));
    DropLockOvertaken(g, Stalled(LEFT_LOCK, DropLock(REPO, {})));
  }

  lemma LockJudged(g: Atomicity)
    requires !g.dropLock && Reachable(g, InGate(LEFT_LOCK, ScanLocks({REPO})))
    ensures Reachable(g, InGate(LEFT_LOCK, DropLock(REPO, {})))
  {
    var w := InGate(LEFT_LOCK, ScanLocks({REPO}));
    assert {REPO} - {REPO} == {};
    assert InGate(LEFT_LOCK, DropLock(REPO, {})) == SetPc(w, 3, DropLock(REPO, {}));
    ExtendRun(g, w, InGate(LEFT_LOCK, DropLock(REPO, {})), GateStep(3, DoVisitLock(REPO)));
  }

  lemma DropLockOvertaken(g: Atomicity, w: World)
    requires Reachable(g, w) && w == Stalled(LEFT_LOCK, DropLock(REPO, {}))
    ensures exists w' :: Reachable(g, w') && Clash(w')
  {
    var w1 := FirstStart(g, w, 4, 5);
    DropLockFinishes(g, w1);
  }

  lemma DropLockFinishes(g: Atomicity, w: World)
    requires Reachable(g, w) && Serves(w, 5) && w.used == {1, 2, 3, 4, 5}
    requires 3 in w.proxies && w.proxies[3] == Proxy(RUNTIME_A, OTHER, 0, DropLock(REPO, {}))
    requires REPO in w.registry && w.registry[REPO].lockPath == REPO_LOCK
    ensures exists w' :: Reachable(g, w') && Clash(w')
  {
    var w1 := SetPc(w.(locks := map[]), 3, ScanLocks({}));
    assert w.locks - {REPO_LOCK} == map[];
    ExtendRun(g, w, w1, UnlinkStep(3, DoFinishDropLock));
    SecondStart(g, w1, 5, 6, 7);
  }

  /** A registry entry of the repository, left by a daemon that is gone. */
  const LEFT_ENTRY := World({1}, map[], map[], map[], map[], map[REPO := RegistryEntry(1, REPO, REPO_LOCK)])

  /** Proxy 3 judges the leftover registry entry stale and stalls; daemon 5 starts and publishes its own entry there;
      proxy 3 removes it, and daemon 7 starts on the same root. */
  lemma DividedDropEntryClashes(g: Atomicity)
    requires !g.dropEntry
    ensures exists w :: Reachable(g, w) && Clash(w)
  {
    InitialReachable(g, LEFT_ENTRY);
    RefusedRun(g, LEFT_ENTRY);
    assert LockRoots(LEFT_ENTRY, RUNTIME_A) == {};
    EntryJudged(g);
    HolderDies(g, LEFT_ENTRY, DropEntry(REPO, {}));
    DropEntryOvertaken(g, Stalled(LEFT_ENTRY, DropEntry(REPO, {})));
  }

  lemma EntryJudged(g: Atomicity)
    requires !g.dropEntry && Reachable(g, InGate(LEFT_ENTRY, ScanLocks({})))
    ensures Reachable(g, InGate(LEFT_ENTRY, DropEntry(REPO, {})))
  {
    var w := InGate(LEFT_ENTRY, ScanLocks({}));
    var w1 := InGate(LEFT_ENTRY, ScanRegistry({REPO}));
    assert w.registry.Keys == {REPO} && {REPO} - {REPO} == {};
    assert w1 == SetPc(w, 3, ScanRegistry({REPO}));
    ExtendRun(g, w, w1, GateStep(3, DoStartRegistryScan));
    assert InGate(LEFT_ENTRY, DropEntry(REPO, {})) == SetPc(w1, 3, DropEntry(REPO, {}));
    ExtendRun(g, w1, InGate(LEFT_ENTRY, DropEntry(REPO, {})), GateStep(3, DoVisitEntry(REPO)));
  }

  lemma DropEntryOvertaken(g: Atomicity, w: World)
    requires Reachable(g, w) && w == Stalled(LEFT_ENTRY, DropEntry(REPO, {}))
    ensures exists w' :: Reachable(g, w') && Clash(w')
  {
    var w1 := FirstStart(g, w, 4, 5);
    DropEntryFinishes(g, w1);
  }

  lemma DropEntryFinishes(g: Atomicity, w: World)
    requires Reachable(g, w) && Serves(w, 5) && w.used == {1, 2, 3, 4, 5}
    requires 3 in w.proxies && w.proxies[3] == Proxy(RUNTIME_A, OTHER, 0, DropEntry(REPO, {}))
    ensures exists w' :: Reachable(g, w') && Clash(w')
  {
    var w1 := SetPc(w.(registry := map[]), 3, ScanRegistry({}));
    assert w.registry - {REPO} == map[];
    ExtendRun(g, w, w1, UnlinkStep(3, DoFinishDropEntry));
    SecondStart(g, w1, 5, 6, 7);
  }

  // ----- Reclaiming a PID lock -----

  /** The outermost lock of a process that is gone. */
  const LEFT_PID := World({0}, map[], map[], map[CrossRuntime := Holds(0)], map[], map[])

  /** A proxy that found the outermost lock held by a process that is gone, about to unlink it. */
  function Judging(w: World, p: Pid, runtime: RuntimeDir): World {
    Entered(w, p, runtime, REPO, Reclaim(0))
  }

  lemma JudgeRun(g: Atomicity, w: World, p: Pid, runtime: RuntimeDir)
    requires Reachable(g, w) && !g.reclaim && p !in w.used && w.locks == map[]
    requires CrossRuntime in w.pidFiles && Free(w, CrossRuntime) && w.pidFiles[CrossRuntime].pid != p
    ensures Reachable(g, Judging(w, p, runtime))
  {
    QueueRun(g, w, p, runtime, REPO);
    var w1 := Entered(w, p, runtime, REPO, Acquire(0, Open));
    var w2 := SetPc(w1, p, Acquire(0, Inspect));
    ExtendRun(g, w1, w2, LockStep(p, DoOpen));
    var w3 := Judging(w, p, runtime);
    assert w3.proxies == w2.proxies[p := w3.proxies[p]];
    ExtendRun(g, w2, w3, LockStep(p, DoInspect));
  }

  /** The judging proxy unlinks whatever is there by now, and takes the lock. */
  function Seized(w: World, p: Pid): World
    requires p in w.proxies
  {
    w.(pidFiles := w.pidFiles[CrossRuntime := Holds(p)],
       proxies := w.proxies[p := w.proxies[p].(held := 1, pc := Acquire(0, Open))])
  }

  lemma SeizeRun(g: Atomicity, w: World, p: Pid)
    requires Reachable(g, w) && p in w.proxies && w.proxies[p].held == 0 && w.proxies[p].pc == Reclaim(0)
    ensures Reachable(g, Seized(w, p))
  {
    var w1 := Reclaimed(w, p);
    ExtendRun(g, w, w1, UnlinkStep(p, DoFinishReclaim));
    CreateRun(g, w1, p);
    assert Acquired(w1, p).pidFiles == Seized(w, p).pidFiles;
    assert Acquired(w1, p).proxies == Seized(w, p).proxies;
  }

  /** Proxies 1 and 2 both judge the outermost lock of the dead process 0 stale; 1 reclaims it, then 2
      unlinks 1's lock and takes it too; both start a daemon on the same root. */
  lemma DividedReclaimClashes(g: Atomicity)
    requires !g.reclaim
    ensures exists w :: Reachable(g, w) && Clash(w)
  {
    InitialReachable(g, LEFT_PID);
    JudgeRun(g, LEFT_PID, 1, RUNTIME_A);
    var w1 := Judging(LEFT_PID, 1, RUNTIME_A);
    assert w1.locks == map[];
    JudgeRun(g, w1, 2, RUNTIME_B);
    var w2 := Judging(w1, 2, RUNTIME_B);
    assert w2.locks == map[];
    BothSeize(g, w2);
  }

  lemma BothSeize(g: Atomicity, w: World)
    requires Reachable(g, w) && w.used == {0, 1, 2} && w.daemons == map[] && w.locks == map[] && w.registry == map[]
    requires w.pidFiles.Keys == {CrossRuntime}
    requires 1 in w.proxies && w.proxies[1] == Proxy(RUNTIME_A, REPO, 0, Reclaim(0))
    requires 2 in w.proxies && w.proxies[2] == Proxy(RUNTIME_B, REPO, 0, Reclaim(0))
    ensures exists w' :: Reachable(g, w') && Clash(w')
  {
    SeizeRun(g, w, 1);
    var w1 := Seized(w, 1);
    SeizeRun(g, w1, 2);
    BothLaunch(g, Seized(w1, 2));
  }

  lemma BothLaunch(g: Atomicity, w: World)
    requires Reachable(g, w) && w.used == {0, 1, 2} && w.locks == map[] && w.registry == map[]
    requires w.pidFiles.Keys == {CrossRuntime}
    requires 1 in w.proxies && w.proxies[1] == Proxy(RUNTIME_A, REPO, 1, Acquire(0, Open))
    requires 2 in w.proxies && w.proxies[2] == Proxy(RUNTIME_B, REPO, 1, Acquire(0, Open))
    ensures exists w' :: Reachable(g, w') && Clash(w')
  {
    var w1 := LaunchRun(g, w, 1, 3);
    var w2 := LaunchRun(g, w1, 2, 4);
    assert Live(w2.daemons[3]) && Live(w2.daemons[4]);
  }
}
