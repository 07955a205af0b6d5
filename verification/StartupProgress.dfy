/** A proxy that nobody disturbs gets its daemon published, whatever stale files it finds. */
module StartupProgress {
  import opened ProjectRoots
  import opened StartupProtocol

  // ----- One lock of the nest -----

  /** A PID lock that is free to take: absent, or left behind by a process that is gone. */
  predicate Free(w: World, name: LockName) {
    name in w.pidFiles ==> w.pidFiles[name].Holds? && !Alive(w, w.pidFiles[name].pid)
  }

  /** The state after `p` created and wrote the next lock of its nest. */
  function Acquired(w: World, p: Pid): World
    requires p in w.proxies
  {
    var me := w.proxies[p];
    var next := if me.held == 0 then Acquire(0, Open) else if me.held == 1 then Reuse else Spawn;
    w.(pidFiles := w.pidFiles[LockAt(me, me.held) := Holds(p)],
       proxies := w.proxies[p := me.(held := me.held + 1, pc := next)])
  }

  lemma CreateRun(g: Atomicity, w: World, p: Pid)
    requires Reachable(g, w) && p in w.proxies
    requires w.proxies[p].pc.Acquire? && w.proxies[p].pc.stage == Open
    requires LockAt(w.proxies[p], w.proxies[p].held) !in w.pidFiles
    ensures Reachable(g, Acquired(w, p))
  {
    var me := w.proxies[p];
    var name := LockAt(me, me.held);
    var w1 := SetPc(w.(pidFiles := w.pidFiles[name := Blank(p)]), p, Acquire(me.pc.attempt, Write));
    ExtendRun(g, w, w1, LockStep(p, DoOpen));
    var w2 := Acquired(w, p);
    assert w2.pidFiles == w1.pidFiles[name := Holds(p)];
    assert w2.proxies == w1.proxies[p := w2.proxies[p]];
    ExtendRun(g, w1, w2, LockStep(p, DoWrite));
  }

  /** The state after `p` unlinked the lock file of a dead holder. */
  function Reclaimed(w: World, p: Pid): World
    requires p in w.proxies
  {
    SetPc(w.(pidFiles := w.pidFiles - {LockAt(w.proxies[p], w.proxies[p].held)}), p, Acquire(1, Open))
  }

  lemma ReclaimRun(g: Atomicity, w: World, p: Pid)
    requires Reachable(g, w) && p in w.proxies && w.proxies[p].pc == Acquire(0, Open)
    requires var name := LockAt(w.proxies[p], w.proxies[p].held); name in w.pidFiles && Free(w, name)
    ensures Reachable(g, Reclaimed(w, p))
  {
    var w1 := SetPc(w, p, Acquire(0, Inspect));
    ExtendRun(g, w, w1, LockStep(p, DoOpen));
    var w2 := Reclaimed(w, p);
    assert w2.proxies == w1.proxies[p := w2.proxies[p]];
    ExtendRun(g, w1, w2, LockStep(p, DoInspect));
  }

  lemma ReclaimedAcquired(w: World, p: Pid)
    requires p in w.proxies
    ensures Acquired(Reclaimed(w, p), p) == Acquired(w, p)
  {
    assert Acquired(Reclaimed(w, p), p).pidFiles == Acquired(w, p).pidFiles;
    assert Acquired(Reclaimed(w, p), p).proxies == Acquired(w, p).proxies;
  }

  /** Taking a lock, over the file of a dead holder if need be. */
  lemma AcquireRun(g: Atomicity, w: World, p: Pid)
    requires Reachable(g, w) && p in w.proxies && w.proxies[p].pc == Acquire(0, Open)
    requires Free(w, LockAt(w.proxies[p], w.proxies[p].held))
    ensures Reachable(g, Acquired(w, p))
  {
    if LockAt(w.proxies[p], w.proxies[p].held) in w.pidFiles {
      ReclaimRun(g, w, p);
      CreateRun(g, Reclaimed(w, p), p);
      ReclaimedAcquired(w, p);
    } else {
      CreateRun(g, w, p);
    }
  }

  // ----- Arriving -----

  /** A fresh proxy that found no live daemon of its own; its own stale daemon lock, if any, is gone. */
  function Entered(w: World, p: Pid, runtime: RuntimeDir, root: Root, pc: Pc): World {
    w.(used := w.used + {p},
       proxies := w.proxies[p := Proxy(runtime, root, 0, pc)],
       locks := w.locks - {OwnPath(runtime, root)})
  }

  ghost predicate CanEnter(w: World, p: Pid, runtime: RuntimeDir, root: Root) {
    var own := OwnPath(runtime, root);
    p !in w.used && (own in w.locks ==> !Alive(w, w.locks[own].pid) && w.locks[own].pid != p)
  }

  lemma EnterRun(g: Atomicity, w: World, p: Pid, runtime: RuntimeDir, root: Root)
    requires Reachable(g, w) && CanEnter(w, p, runtime, root)
    ensures Reachable(g, Entered(w, p, runtime, root, Loop))
  {
    var own := OwnPath(runtime, root);
    var w1 := w.(used := w.used + {p}, proxies := w.proxies[p := Proxy(runtime, root, 0, Reuse)]);
    ExtendRun(g, w, w1, LockStep(p, DoArrive(runtime, root)));
    var w2 := Entered(w, p, runtime, root, Loop);
    assert own !in w1.locks ==> w1.locks - {own} == w1.locks;
    assert w2.proxies == w1.proxies[p := w2.proxies[p]];
    ExtendRun(g, w1, w2, LockStep(p, DoReuse));
  }

  lemma QueueRun(g: Atomicity, w: World, p: Pid, runtime: RuntimeDir, root: Root)
    requires Reachable(g, w) && CanEnter(w, p, runtime, root)
    ensures Reachable(g, Entered(w, p, runtime, root, Acquire(0, Open)))
  {
    EnterRun(g, w, p, runtime, root);
    var w1 := Entered(w, p, runtime, root, Loop);
    var w2 := Entered(w, p, runtime, root, Acquire(0, Open));
    assert w2.proxies == w1.proxies[p := w2.proxies[p]];
    ExtendRun(g, w1, w2, LockStep(p, DoLoop));
  }

  // ----- The overlap gate -----

  predicate Within<K(==), V(==)>(small: map<K, V>, large: map<K, V>) {
    forall k :: k in small ==> k in large && small[k] == large[k]
  }

  /** A lock file that the gate keeps: it names its own root and a running process. */
  predicate LockGood(w: World, path: LockPath) {
    path in w.locks && w.locks[path].root == path.root && Alive(w, w.locks[path].pid)
  }

  /** No running daemon recorded under this runtime directory has a root, other than this one, that overlaps it. */
  ghost predicate LocksClear(w: World, runtime: RuntimeDir, root: Root) {
    forall path :: LockGood(w, path) && path.runtime == runtime && path.root != root ==> !RootsOverlap(root, path.root)
  }

  /** No backed registry entry, other than that of the own lock file, overlaps the root. */
  ghost predicate EntriesClear(w: World, runtime: RuntimeDir, root: Root) {
    forall r :: r in w.registry && EntryBacked(w, w.registry[r]) && w.registry[r].lockPath != OwnPath(runtime, root)
                ==> !RootsOverlap(root, w.registry[r].root)
  }

  /** Visiting one lock file: a bad one goes, a good one raises no conflict. */
  lemma VisitLockRun(g: Atomicity, w: World, p: Pid, root: Root) returns (w': World)
    requires Reachable(g, w) && p in w.proxies && w.proxies[p].pc.ScanLocks? && root in w.proxies[p].pc.rest
    requires LocksClear(w, w.proxies[p].runtime, w.proxies[p].root)
    ensures Reachable(g, w') && w' == SetPc(w.(locks := w'.locks), p, ScanLocks(w.proxies[p].pc.rest - {root}))
    ensures Within(w'.locks, w.locks) && forall path :: LockGood(w, path) ==> path in w'.locks
  {
    var me := w.proxies[p];
    var path := LockPath(me.runtime, root);
    var rest := me.pc.rest - {root};
    if path in w.locks && !LockGood(w, path) {
      w' := SetPc(w.(locks := w.locks - {path}), p, ScanLocks(rest));
    } else {
      w' := SetPc(w, p, ScanLocks(rest));
    }
    ExtendRun(g, w, w', GateStep(p, DoVisitLock(root)));
  }

  /** The first pass of the gate, over any set of lock files. */
  lemma {:induction false} ScanLocksRun(g: Atomicity, w: World, p: Pid) returns (w': World)
    requires Reachable(g, w) && p in w.proxies && w.proxies[p].pc.ScanLocks?
    requires LocksClear(w, w.proxies[p].runtime, w.proxies[p].root)
    ensures Reachable(g, w') && w' == SetPc(w.(locks := w'.locks), p, ScanLocks({}))
    ensures Within(w'.locks, w.locks) && forall path :: LockGood(w, path) ==> path in w'.locks
    decreases w.proxies[p].pc.rest
  {
    var rest := w.proxies[p].pc.rest;
    if rest == {} {
      w' := w;
      assert w.proxies == w.proxies[p := w.proxies[p]];
    } else {
      var root :| root in rest;
      var w1 := VisitLockRun(g, w, p, root);
      w' := ScanLocksRun(g, w1, p);
      assert w'.proxies == w.proxies[p := w'.proxies[p]];
      forall path | LockGood(w, path)
        ensures path in w'.locks
      {
        assert LockGood(w1, path);
      }
    }
  }

  /** Visiting one registry entry: an unbacked one goes, a backed one raises no conflict. */
  lemma VisitEntryRun(g: Atomicity, w: World, p: Pid, root: Root) returns (w': World)
    requires Reachable(g, w) && p in w.proxies && w.proxies[p].pc.ScanRegistry? && root in w.proxies[p].pc.entries
    requires EntriesClear(w, w.proxies[p].runtime, w.proxies[p].root)
    ensures Reachable(g, w')
    ensures w' == SetPc(w.(registry := w'.registry), p, ScanRegistry(w.proxies[p].pc.entries - {root}))
    ensures Within(w'.registry, w.registry)
  {
    var rest := w.proxies[p].pc.entries - {root};
    if root in w.registry && !EntryBacked(w, w.registry[root]) {
      w' := SetPc(w.(registry := w.registry - {root}), p, ScanRegistry(rest));
    } else {
      w' := SetPc(w, p, ScanRegistry(rest));
    }
    ExtendRun(g, w, w', GateStep(p, DoVisitEntry(root)));
  }

  /** The second pass, over any registry. */
  lemma {:induction false} ScanRegistryRun(g: Atomicity, w: World, p: Pid) returns (w': World)
    requires Reachable(g, w) && p in w.proxies && w.proxies[p].pc.ScanRegistry?
    requires EntriesClear(w, w.proxies[p].runtime, w.proxies[p].root)
    ensures Reachable(g, w') && w' == SetPc(w.(registry := w'.registry), p, ScanRegistry({}))
    ensures Within(w'.registry, w.registry)
    decreases w.proxies[p].pc.entries
  {
    var rest := w.proxies[p].pc.entries;
    if rest == {} {
      w' := w;
      assert w.proxies == w.proxies[p := w.proxies[p]];
    } else {
      var root :| root in rest;
      var w1 := VisitEntryRun(g, w, p, root);
      w' := ScanRegistryRun(g, w1, p);
      assert w'.proxies == w.proxies[p := w'.proxies[p]];
    }
  }

  /** From the listing of the lock files through both passes to the starter lock. */
  lemma GateRun(g: Atomicity, w: World, p: Pid) returns (w': World)
    requires Reachable(g, w) && p in w.proxies && w.proxies[p].pc.ScanLocks? && w.proxies[p].held == 2
    requires LocksClear(w, w.proxies[p].runtime, w.proxies[p].root)
    requires EntriesClear(w, w.proxies[p].runtime, w.proxies[p].root)
    ensures Reachable(g, w')
    ensures w' == SetPc(w.(locks := w'.locks, registry := w'.registry), p, Acquire(0, Open))
    ensures Within(w'.locks, w.locks) && Within(w'.registry, w.registry)
    ensures forall path :: LockGood(w, path) ==> path in w'.locks
  {
    var w1 := ScanLocksRun(g, w, p);
    var w2 := SetPc(w1, p, ScanRegistry(w1.registry.Keys));
    ExtendRun(g, w1, w2, GateStep(p, DoStartRegistryScan));
    EntriesStayClear(w, w2, p);
    var w3 := ScanRegistryRun(g, w2, p);
    w' := SetPc(w3, p, Acquire(0, Open));
    ExtendRun(g, w3, w', GateStep(p, DoGatePassed));
    assert w'.proxies == w.proxies[p := w'.proxies[p]];
  }

  /** Fewer lock files back fewer entries. */
  lemma EntriesStayClear(w: World, w': World, p: Pid)
    requires p in w.proxies && p in w'.proxies && EntriesClear(w, w.proxies[p].runtime, w.proxies[p].root)
    requires w'.proxies.Keys == w.proxies.Keys && w'.daemons == w.daemons && w'.registry == w.registry
    requires w'.proxies[p].runtime == w.proxies[p].runtime && w'.proxies[p].root == w.proxies[p].root
    requires Within(w'.locks, w.locks)
    ensures EntriesClear(w', w'.proxies[p].runtime, w'.proxies[p].root)
  {
    forall r | r in w'.registry && EntryBacked(w', w'.registry[r])
      ensures EntryBacked(w, w.registry[r])
    {
    }
  }

  // ----- Starting the daemon -----

  /** A proxy inside the outermost lock meets no conflict and no live holder of its inner locks. */
  ghost predicate CanLaunch(w: World, p: Pid, d: Pid) {
    && p in w.proxies && w.proxies[p].held == 1 && w.proxies[p].pc == Acquire(0, Open) && d !in w.used
    && var me := w.proxies[p];
       && Free(w, GlobalStartup(me.runtime)) && Free(w, Starter(me.runtime, me.root))
       && OwnPath(me.runtime, me.root) !in w.locks
       && LocksClear(w, me.runtime, me.root) && EntriesClear(w, me.runtime, me.root)
  }

  /** The second lock is taken, and nothing is there to be reused. */
  lemma ReachGateRun(g: Atomicity, w: World, p: Pid, d: Pid) returns (w': World)
    requires Reachable(g, w) && CanLaunch(w, p, d)
    ensures Reachable(g, w') && w'.proxies.Keys == w.proxies.Keys
    ensures var me := w.proxies[p];
            && w'.proxies[p].pc.ScanLocks?
            && w' == w.(pidFiles := w.pidFiles[GlobalStartup(me.runtime) := Holds(p)],
                        proxies := w.proxies[p := me.(held := 2, pc := w'.proxies[p].pc)])
  {
    AcquireRun(g, w, p);
    var w1 := Acquired(w, p);
    w' := SetPc(w1, p, ScanLocks(LockRoots(w1, w.proxies[p].runtime)));
    ExtendRun(g, w1, w', LockStep(p, DoReuse));
    assert w'.proxies == w.proxies[p := w'.proxies[p]];
  }

  /** The gate is passed under both outer locks. */
  lemma PassGateRun(g: Atomicity, w: World, p: Pid, d: Pid) returns (w': World)
    requires Reachable(g, w) && CanLaunch(w, p, d)
    ensures Reachable(g, w')
    ensures var me := w.proxies[p];
            w' == w.(pidFiles := w.pidFiles[GlobalStartup(me.runtime) := Holds(p)],
                     proxies := w.proxies[p := me.(held := 2, pc := Acquire(0, Open))],
                     locks := w'.locks, registry := w'.registry)
    ensures Within(w'.locks, w.locks) && Within(w'.registry, w.registry)
    ensures forall path :: LockGood(w, path) ==> path in w'.locks
  {
    var w1 := ReachGateRun(g, w, p, d);
    ClearAcross(w, w1, p);
    w' := GateRun(g, w1, p);
    assert w'.proxies == w.proxies[p := w'.proxies[p]];
    forall path | LockGood(w, path)
      ensures path in w'.locks
    {
      assert LockGood(w1, path);
    }
  }

  lemma ClearAcross(w: World, w': World, p: Pid)
    requires p in w.proxies && p in w'.proxies && w'.proxies.Keys == w.proxies.Keys && w'.daemons == w.daemons
    requires w'.locks == w.locks && w'.registry == w.registry
    requires w'.proxies[p].runtime == w.proxies[p].runtime && w'.proxies[p].root == w.proxies[p].root
    requires LocksClear(w, w.proxies[p].runtime, w.proxies[p].root)
    requires EntriesClear(w, w.proxies[p].runtime, w.proxies[p].root)
    ensures LocksClear(w', w'.proxies[p].runtime, w'.proxies[p].root)
    ensures EntriesClear(w', w'.proxies[p].runtime, w'.proxies[p].root)
  {
    forall path | LockGood(w', path)
      ensures LockGood(w, path)
    {
    }
    EntriesStayClear(w, w', p);
  }

  function Launched(w: World, p: Pid, d: Pid, locks: map<LockPath, LockEntry>,
                    registry: map<Root, RegistryEntry>): World
    requires p in w.proxies
  {
    var me := w.proxies[p];
    World(w.used + {d},
          w.proxies[p := me.(held := 3, pc := Poll(d))],
          w.daemons[d := Daemon(me.runtime, me.root, Booting, p)],
          w.pidFiles[GlobalStartup(me.runtime) := Holds(p)][Starter(me.runtime, me.root) := Holds(p)],
          locks, registry)
  }

  /** A lone proxy inside the outermost lock starts its daemon. */
  lemma LaunchRun(g: Atomicity, w: World, p: Pid, d: Pid) returns (w': World)
    requires Reachable(g, w) && CanLaunch(w, p, d)
    ensures Reachable(g, w') && w' == Launched(w, p, d, w'.locks, w'.registry)
    ensures Within(w'.locks, w.locks) && Within(w'.registry, w.registry)
    ensures forall path :: LockGood(w, path) ==> path in w'.locks
  {
    var me := w.proxies[p];
    var w1 := PassGateRun(g, w, p, d);
    assert Free(w1, Starter(me.runtime, me.root));
    AcquireRun(g, w1, p);
    var w2 := Acquired(w1, p);
    w' := Launched(w, p, d, w1.locks, w1.registry);
    assert w'.proxies == w2.proxies[p := w'.proxies[p]];
    ExtendRun(g, w2, w', ChildStep(p, DoSpawn(d)));
  }

  /** The child writes its lock, verifies it and registers itself. */
  function Served(w: World, d: Pid): World
    requires d in w.daemons
  {
    var me := w.daemons[d];
    var own := OwnPath(me.runtime, me.root);
    w.(locks := w.locks[own := LockEntry(d, me.root)],
       registry := w.registry[me.root := RegistryEntry(d, me.root, own)],
       daemons := w.daemons[d := me.(phase := Serving)])
  }

  lemma ServeRun(g: Atomicity, w: World, d: Pid)
    requires Reachable(g, w) && d in w.daemons && w.daemons[d].phase == Booting
    ensures Reachable(g, Served(w, d))
  {
    var me := w.daemons[d];
    var own := OwnPath(me.runtime, me.root);
    var w1 := SetPhase(w.(locks := w.locks[own := LockEntry(d, me.root)]), d, Locked);
    ExtendRun(g, w, w1, DaemonStep(d, DoWriteLock));
    var w2 := SetPhase(w1, d, Verified);
    ExtendRun(g, w1, w2, DaemonStep(d, DoVerifyLock));
    var w3 := Served(w, d);
    assert w3.daemons == w2.daemons[d := w3.daemons[d]];
    ExtendRun(g, w2, w3, DaemonStep(d, DoRegisterSelf(true)));
  }

  function HeldNames(me: Proxy): set<LockName> {
    (if me.held >= 1 then {CrossRuntime} else {})
    + (if me.held >= 2 then {GlobalStartup(me.runtime)} else {})
    + (if me.held >= 3 then {Starter(me.runtime, me.root)} else {})
  }

  predicate HoldsAll(w: World, p: Pid)
    requires p in w.proxies
  {
    forall name :: name in HeldNames(w.proxies[p]) ==> name in w.pidFiles && w.pidFiles[name] == Holds(p)
  }

  function Unwound(w: World, p: Pid, outcome: Outcome): World
    requires p in w.proxies
  {
    w.(pidFiles := w.pidFiles - HeldNames(w.proxies[p]),
       proxies := w.proxies[p := w.proxies[p].(held := 0, pc := Done(outcome))])
  }

  /** Reading and unlinking the innermost lock of the nest. */
  lemma UnlockRun(g: Atomicity, w: World, p: Pid, outcome: Outcome) returns (w': World)
    requires Reachable(g, w) && p in w.proxies
    requires w.proxies[p].pc == Release(Return(outcome)) && 0 < w.proxies[p].held <= 3
    requires HoldsAll(w, p)
    ensures var me := w.proxies[p];
            && Reachable(g, w')
            && w' == w.(pidFiles := w.pidFiles - {LockAt(me, me.held - 1)},
                        proxies := w.proxies[p := me.(held := me.held - 1)])
  {
    var me := w.proxies[p];
    assert LockAt(me, me.held - 1) in HeldNames(me);
    var w1 := SetPc(w, p, Unlock(Return(outcome)));
    ExtendRun(g, w, w1, LockStep(p, DoRelease));
    w' := w.(pidFiles := w.pidFiles - {LockAt(me, me.held - 1)}, proxies := w.proxies[p := me.(held := me.held - 1)]);
    assert w'.proxies == w1.proxies[p := w'.proxies[p]];
    ExtendRun(g, w1, w', LockStep(p, DoFinishRelease));
  }

  /** Unwinding releases every lock of the nest. */
  lemma {:induction false} UnwindRun(g: Atomicity, w: World, p: Pid, outcome: Outcome)
    requires Reachable(g, w) && p in w.proxies
    requires w.proxies[p].pc == Release(Return(outcome)) && w.proxies[p].held <= 3
    requires HoldsAll(w, p)
    ensures Reachable(g, Unwound(w, p, outcome))
    decreases w.proxies[p].held
  {
    var me := w.proxies[p];
    if me.held == 0 {
      assert w.pidFiles - {} == w.pidFiles;
      ExtendRun(g, w, Unwound(w, p, outcome), LockStep(p, DoRelease));
    } else {
      var w1 := UnlockRun(g, w, p, outcome);
      OneFewer(w, w1, p, outcome);
      UnwindRun(g, w1, p, outcome);
    }
  }

  lemma OneFewer(w: World, w': World, p: Pid, outcome: Outcome)
    requires p in w.proxies && 0 < w.proxies[p].held <= 3 && HoldsAll(w, p)
    requires var me := w.proxies[p];
             w' == w.(pidFiles := w.pidFiles - {LockAt(me, me.held - 1)},
                      proxies := w.proxies[p := me.(held := me.held - 1)])
    ensures HoldsAll(w', p) && Unwound(w', p, outcome) == Unwound(w, p, outcome)
  {
    var me := w.proxies[p];
    assert HeldNames(me) == HeldNames(me.(held := me.held - 1)) + {LockAt(me, me.held - 1)};
    assert Unwound(w', p, outcome).pidFiles == Unwound(w, p, outcome).pidFiles;
    assert Unwound(w', p, outcome).proxies == Unwound(w, p, outcome).proxies;
  }

  /** The starter sees the served child, publishes it and unwinds. */
  lemma PublishRun(g: Atomicity, w: World, p: Pid, d: Pid)
    requires Reachable(g, w) && p in w.proxies && Connectable(w, d)
    requires var me := w.proxies[p];
             var own := OwnPath(me.runtime, me.root);
             && me.held == 3 && me.pc == Poll(d)
             && own in w.locks && w.locks[own].pid == d
             && me.root in w.registry && w.registry[me.root] == RegistryEntry(d, me.root, own)
    requires HoldsAll(w, p)
    ensures Reachable(g, Unwound(w, p, Spawned(d)))
  {
    var w1 := SetPc(w, p, Publish(d, d));
    ExtendRun(g, w, w1, ChildStep(p, DoPollFound));
    var w2 := SetPc(w, p, Release(Return(Spawned(d))));
    assert w2.registry == w1.registry[w.proxies[p].root := w.registry[w.proxies[p].root]];
    assert w2.proxies == w1.proxies[p := w2.proxies[p]];
    ExtendRun(g, w1, w2, ChildStep(p, DoPublish));
    UnwindRun(g, w2, p, Spawned(d));
    assert Unwound(w2, p, Spawned(d)).proxies == Unwound(w, p, Spawned(d)).proxies;
  }

  // ----- The whole start -----

  /** Nobody is in the way of proxy `p` and its daemon `d`: the three locks are free, its own daemon lock is absent
      or stale, and the gate will find no conflict.  Everything else may be there, stale or live.  As pids are not
      reused, no file names `p` before it arrives. */
  ghost predicate CanStart(w: World, p: Pid, d: Pid, runtime: RuntimeDir, root: Root) {
    && p !in w.used && d !in w.used && p != d
    && Free(w, CrossRuntime) && Free(w, GlobalStartup(runtime)) && Free(w, Starter(runtime, root))
    && (forall name :: name in w.pidFiles ==> w.pidFiles[name] != Holds(p))
    && (forall path :: path in w.locks ==> w.locks[path].pid != p)
    && (OwnPath(runtime, root) in w.locks ==> !Alive(w, w.locks[OwnPath(runtime, root)].pid))
    && LocksClear(w, runtime, root) && EntriesClear(w, runtime, root)
  }

  /** The state in which `p` has started its daemon and is about to wait for it. */
  ghost predicate IsSpawned(w: World, w': World, p: Pid, d: Pid, runtime: RuntimeDir, root: Root) {
    && w'.used == w.used + {p} + {d}
    && w'.proxies == w.proxies[p := Proxy(runtime, root, 3, Poll(d))]
    && w'.daemons == w.daemons[d := Daemon(runtime, root, Booting, p)]
    && w'.pidFiles == w.pidFiles[CrossRuntime := Holds(p)]
                                [GlobalStartup(runtime) := Holds(p)]
                                [Starter(runtime, root) := Holds(p)]
    && Within(w'.locks, w.locks) && OwnPath(runtime, root) !in w'.locks
    && Within(w'.registry, w.registry)
    && forall path :: LockGood(w, path) && path != OwnPath(runtime, root) ==> path in w'.locks
  }

  /** The proxy inside the outermost lock. */
  function Inside(w: World, p: Pid, runtime: RuntimeDir, root: Root): World {
    Acquired(Entered(w, p, runtime, root, Acquire(0, Open)), p)
  }

  lemma InsideRun(g: Atomicity, w: World, p: Pid, runtime: RuntimeDir, root: Root)
    requires Reachable(g, w) && CanEnter(w, p, runtime, root) && Free(w, CrossRuntime)
    requires CrossRuntime in w.pidFiles ==> w.pidFiles[CrossRuntime] != Holds(p)
    ensures Reachable(g, Inside(w, p, runtime, root))
  {
    QueueRun(g, w, p, runtime, root);
    AcquireRun(g, Entered(w, p, runtime, root, Acquire(0, Open)), p);
  }

  lemma SpawnRun(g: Atomicity, w: World, p: Pid, d: Pid, runtime: RuntimeDir, root: Root) returns (w': World)
    requires Reachable(g, w) && CanStart(w, p, d, runtime, root)
    ensures Reachable(g, w') && IsSpawned(w, w', p, d, runtime, root)
  {
    InsideRun(g, w, p, runtime, root);
    var w1 := Inside(w, p, runtime, root);
    EnteredCanLaunch(w, w1, p, d, runtime, root);
    w' := LaunchRun(g, w1, p, d);
    LaunchedIsSpawned(w, w1, w', p, d, runtime, root);
  }

  lemma LaunchedIsSpawned(w: World, w1: World, w': World, p: Pid, d: Pid, runtime: RuntimeDir, root: Root)
    requires CanStart(w, p, d, runtime, root) && w1 == Inside(w, p, runtime, root)
    requires w' == Launched(w1, p, d, w'.locks, w'.registry)
    requires Within(w'.locks, w1.locks) && Within(w'.registry, w1.registry)
    requires forall path :: LockGood(w1, path) ==> path in w'.locks
    ensures IsSpawned(w, w', p, d, runtime, root)
  {
    assert w'.proxies == w.proxies[p := w'.proxies[p]];
    forall path | LockGood(w, path) && path != OwnPath(runtime, root)
      ensures path in w'.locks
    {
      assert LockGood(w1, path);
    }
  }

  lemma EnteredCanLaunch(w: World, w': World, p: Pid, d: Pid, runtime: RuntimeDir, root: Root)
    requires CanStart(w, p, d, runtime, root) && w' == Inside(w, p, runtime, root)
    ensures CanLaunch(w', p, d)
  {
    forall path | LockGood(w', path)
      ensures LockGood(w, path)
    {
    }
    forall r | r in w'.registry && EntryBacked(w', w'.registry[r])
      ensures EntryBacked(w, w.registry[r])
    {
    }
  }

  /** The state in which `p` has started and published its daemon and released its locks: stale files may be gone, and
      nothing else has changed. */
  ghost predicate IsStarted(w: World, w': World, p: Pid, d: Pid, runtime: RuntimeDir, root: Root) {
    && w'.used == w.used + {p} + {d}
    && w'.proxies == w.proxies[p := Proxy(runtime, root, 0, Done(Spawned(d)))]
    && w'.daemons == w.daemons[d := Daemon(runtime, root, Serving, p)]
    && w'.pidFiles == w.pidFiles - {CrossRuntime, GlobalStartup(runtime), Starter(runtime, root)}
    && FilesStarted(w, w', d, runtime, root)
  }

  /** The new daemon's files stand, and of the others only bad ones may be gone. */
  ghost predicate FilesStarted(w: World, w': World, d: Pid, runtime: RuntimeDir, root: Root) {
    var own := OwnPath(runtime, root);
    && own in w'.locks && w'.locks[own] == LockEntry(d, root) && Within(w'.locks - {own}, w.locks)
    && root in w'.registry && w'.registry[root] == RegistryEntry(d, root, own)
    && Within(w'.registry - {root}, w.registry)
    && forall path :: LockGood(w, path) && path != own ==> path in w'.locks
  }

  /** Liveness of the undisturbed case: from any reachable state in which nobody is in the way, with any stale PID
      locks, daemon locks and registry entries, the protocol can run to a published daemon. */
  lemma StartRun(g: Atomicity, w: World, p: Pid, d: Pid, runtime: RuntimeDir, root: Root) returns (w': World)
    requires Reachable(g, w) && CanStart(w, p, d, runtime, root)
    ensures Reachable(g, w') && IsStarted(w, w', p, d, runtime, root)
  {
    var w1 := SpawnRun(g, w, p, d, runtime, root);
    ServeRun(g, w1, d);
    var w2 := Served(w1, d);
    assert HoldsAll(w2, p);
    PublishRun(g, w2, p, d);
    w' := Unwound(w2, p, Spawned(d));
    UnwoundIsStarted(w, w1, w', p, d, runtime, root);
  }

  lemma UnwoundIsStarted(w: World, w1: World, w': World, p: Pid, d: Pid, runtime: RuntimeDir, root: Root)
    requires CanStart(w, p, d, runtime, root) && IsSpawned(w, w1, p, d, runtime, root)
    requires w' == Unwound(Served(w1, d), p, Spawned(d))
    ensures IsStarted(w, w', p, d, runtime, root)
  {
    assert w'.proxies == w.proxies[p := Proxy(runtime, root, 0, Done(Spawned(d)))];
    assert w'.daemons == w.daemons[d := Daemon(runtime, root, Serving, p)];
    ServedFiles(w, w1, p, d, runtime, root);
    assert w'.locks == Served(w1, d).locks && w'.registry == Served(w1, d).registry;
    LocksReleased(w.pidFiles, w1.pidFiles, p, runtime, root);
    assert w'.pidFiles == w1.pidFiles - {CrossRuntime, GlobalStartup(runtime), Starter(runtime, root)};
  }

  lemma ServedFiles(w: World, w1: World, p: Pid, d: Pid, runtime: RuntimeDir, root: Root)
    requires IsSpawned(w, w1, p, d, runtime, root)
    ensures FilesStarted(w, Served(w1, d), d, runtime, root)
  {
  }

  lemma LocksReleased(before: map<LockName, PidFile>, held: map<LockName, PidFile>,
                      p: Pid, runtime: RuntimeDir, root: Root)
    requires held == before[CrossRuntime := Holds(p)]
                           [GlobalStartup(runtime) := Holds(p)]
                           [Starter(runtime, root) := Holds(p)]
    ensures var names := {CrossRuntime, GlobalStartup(runtime), Starter(runtime, root)}; held - names == before - names
  {
  }
}
