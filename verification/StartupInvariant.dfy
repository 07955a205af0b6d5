/** The inductive invariant of the startup protocol when every read-then-unlink pair is indivisible,
    and one preservation lemma per kind of step. */
module StartupInvariant {
  import opened ProjectRoots
  import opened StartupProtocol

  const INDIVISIBLE := Atomicity(true, true, true, true, true)

  /** The lock file `name` is one of the locks that `me` counts as held. */
  predicate Owns(me: Proxy, name: LockName) {
    || (me.held >= 1 && name == CrossRuntime)
    || (me.held >= 2 && name == GlobalStartup(me.runtime))
    || (me.held >= 3 && name == Starter(me.runtime, me.root))
  }

  /** Every PID file belongs to a process that is gone, or to one whose program counter says so. */
  predicate FileOk(w: World, name: LockName, file: PidFile) {
    match file
    case Holds(q) => q in w.used && q !in w.daemons && (q in w.proxies ==> Owns(w.proxies[q], name))
    case Blank(q) => && q in w.proxies && w.proxies[q].pc.Acquire? && w.proxies[q].pc.stage == Write
                     && name == LockAt(w.proxies[q], w.proxies[q].held)
  }

  ghost predicate FilesOk(w: World) {
    forall name :: name in w.pidFiles ==> FileOk(w, name, w.pidFiles[name])
  }

  predicate PidsOk(w: World) {
    && w.proxies.Keys <= w.used && w.daemons.Keys <= w.used && w.proxies.Keys !! w.daemons.Keys
    && forall d :: d in w.daemons ==> w.daemons[d].starter in w.used
  }

  predicate FileIs(w: World, name: LockName, p: Pid) {
    name in w.pidFiles && w.pidFiles[name] == Holds(p)
  }

  predicate HoldsNest(w: World, p: Pid, me: Proxy) {
    && me.held <= 3
    && (me.held >= 1 ==> FileIs(w, CrossRuntime, p))
    && (me.held >= 2 ==> FileIs(w, GlobalStartup(me.runtime), p))
    && (me.held >= 3 ==> FileIs(w, Starter(me.runtime, me.root), p))
  }

  ghost predicate NoLiveOverlap(w: World, root: Root) {
    forall d :: d in w.daemons && Live(w.daemons[d]) ==> !RootsOverlap(w.daemons[d].root, root)
  }

  ghost predicate LiveOverlapsWithin(w: World, root: Root, rest: set<Root>) {
    forall d :: d in w.daemons && Live(w.daemons[d]) && RootsOverlap(w.daemons[d].root, root)
             ==> w.daemons[d].root in rest
  }

  /** What a proxy knows at each program counter.  The last five counters are never reached. */
  ghost predicate ProxyOk(w: World, p: Pid, me: Proxy) {
    var own := OwnPath(me.runtime, me.root);
    && HoldsNest(w, p, me)
    && match me.pc
       case Reuse => me.held <= 2
       case Waiting(_) => me.held <= 2
       case Loop => me.held == 0
       case Acquire(attempt, stage) =>
         var name := LockAt(me, me.held);
         && me.held <= 2 && attempt <= 1
         && (stage == Write ==> name in w.pidFiles && w.pidFiles[name] == Blank(p))
         && (me.held == 2 ==>
               && own !in w.locks && NoLiveOverlap(w, me.root)
               && (stage == Inspect ==> attempt == 0 && name in w.pidFiles)
               && (stage == Open && attempt == 1 ==> name !in w.pidFiles))
       case ScanLocks(_) => me.held <= 2 && (me.held == 2 ==> own !in w.locks)
       case ScanRegistry(entries) =>
         me.held <= 2 && (me.held == 2 ==> own !in w.locks && LiveOverlapsWithin(w, me.root, entries))
       case Spawn => me.held == 3 && own !in w.locks && NoLiveOverlap(w, me.root)
       case Poll(child) => me.held == 3 && Watches(w, p, me, child)
       case Publish(child, found) => me.held == 3 && found == child && Watches(w, p, me, child)
       case Release(_) => true
       case Unlock(_) => me.held >= 1
       case Done(_) => me.held == 0
       case StarterUnavailable => false
       case Reclaim(_) => false
       case CleanReuse => false
       case DropLock(_, _) => false
       case DropEntry(_, _) => false
  }

  /** A starter's child is its own, nobody else's entry is at the child's lock path, and no other
      live daemon overlaps the root. */
  ghost predicate Watches(w: World, p: Pid, me: Proxy, child: Pid) {
    var own := OwnPath(me.runtime, me.root);
    && child in w.used && child !in w.proxies
    && (own in w.locks ==> w.locks[own].pid == child)
    && (child in w.daemons ==>
          && w.daemons[child].runtime == me.runtime && w.daemons[child].root == me.root
          && w.daemons[child].starter == p
          && (w.daemons[child].phase == Booting ==> me.pc.Poll? && own !in w.locks))
    && forall d :: d in w.daemons && Live(w.daemons[d]) && d != child ==> !RootsOverlap(w.daemons[d].root, me.root)
  }

  ghost predicate ProxiesOk(w: World) {
    forall p :: p in w.proxies ==> ProxyOk(w, p, w.proxies[p])
  }

  /** The starter of `d` is still between spawning and publishing it. */
  predicate HasStarter(w: World, d: Pid, me: Daemon) {
    && me.starter in w.proxies
    && var pc := w.proxies[me.starter].pc; (pc.Poll? || pc.Publish?) && pc.child == d
  }

  predicate OwnLockStands(w: World, d: Pid, me: Daemon) {
    var own := OwnPath(me.runtime, me.root);
    own in w.locks && w.locks[own] == LockEntry(d, me.root)
  }

  predicate OwnEntryStands(w: World, d: Pid, me: Daemon) {
    && me.root in w.registry
    && w.registry[me.root] == RegistryEntry(d, me.root, OwnPath(me.runtime, me.root))
  }

  predicate DaemonOk(w: World, d: Pid, me: Daemon) {
    && me.phase != Retiring
    && (Live(me) ==>
          && (me.phase != Booting ==> OwnLockStands(w, d, me))
          && (HasStarter(w, d, me) || (me.phase != Booting && OwnEntryStands(w, d, me))))
  }

  ghost predicate DaemonsOk(w: World) {
    forall d :: d in w.daemons ==> DaemonOk(w, d, w.daemons[d])
  }

  /** No two live daemons have identical or nested roots. */
  ghost predicate RootsDisjoint(w: World) {
    forall d, e :: d in w.daemons && e in w.daemons && d != e && Live(w.daemons[d]) && Live(w.daemons[e])
                ==> !RootsOverlap(w.daemons[d].root, w.daemons[e].root)
  }

  ghost predicate Inv(w: World) {
    PidsOk(w) && FilesOk(w) && ProxiesOk(w) && DaemonsOk(w) && RootsDisjoint(w)
  }

  lemma InitialInv(w: World)
    requires Initial(w)
    ensures Inv(w)
  {
  }

  // ----- Two facts used throughout -----

  /** The outermost lock makes its holder unique. */
  lemma OneInsider(w: World, p: Pid, q: Pid)
    requires ProxiesOk(w) && p in w.proxies && q in w.proxies
    requires w.proxies[p].held >= 1 && w.proxies[q].held >= 1
    ensures p == q
  {
    assert FileIs(w, CrossRuntime, p) && FileIs(w, CrossRuntime, q);
  }

  /** While `p` is inside the outermost lock, every live daemon other than a child that `p` watches
      has published its lock file and its registry entry. */
  lemma OthersPublished(w: World, p: Pid, d: Pid)
    requires Inv(w) && p in w.proxies && w.proxies[p].held >= 1
    requires d in w.daemons && Live(w.daemons[d])
    requires (w.proxies[p].pc.Poll? || w.proxies[p].pc.Publish?) ==> w.proxies[p].pc.child != d
    ensures OwnLockStands(w, d, w.daemons[d]) && OwnEntryStands(w, d, w.daemons[d])
  {
    var me := w.daemons[d];
    assert DaemonOk(w, d, me);
    if HasStarter(w, d, me) {
      assert ProxyOk(w, me.starter, w.proxies[me.starter]);
      OneInsider(w, p, me.starter);
    }
  }

  /** A proxy that is not a starter changes only its own program counter: the rest of the invariant
      is untouched, so only its own knowledge has to be shown. */
  lemma PcOnly(w: World, w': World, p: Pid, pc: Pc)
    requires Inv(w) && p in w.proxies && !Protected(w.proxies[p].pc)
    requires w' == SetPc(w, p, pc) && ProxyOk(w', p, w'.proxies[p])
    ensures Inv(w')
  {
    forall q | q in w'.proxies
      ensures ProxyOk(w', q, w'.proxies[q])
    {
      if q != p {
        PcOnlyProxy(w, w', p, pc, q);
      }
    }
    forall d | d in w'.daemons
      ensures DaemonOk(w', d, w'.daemons[d])
    {
      PcOnlyDaemon(w, w', p, pc, d);
    }
    PcOnlyFiles(w, w', p, pc);
  }

  lemma PcOnlyDaemon(w: World, w': World, p: Pid, pc: Pc, d: Pid)
    requires DaemonsOk(w) && p in w.proxies && !Protected(w.proxies[p].pc) && w' == SetPc(w, p, pc) && d in w.daemons
    ensures DaemonOk(w', d, w'.daemons[d])
  {
    assert DaemonOk(w, d, w.daemons[d]);
  }

  lemma PcOnlyFiles(w: World, w': World, p: Pid, pc: Pc)
    requires FilesOk(w) && p in w.proxies && !Protected(w.proxies[p].pc) && w' == SetPc(w, p, pc)
    ensures FilesOk(w')
  {
    forall name | name in w'.pidFiles
      ensures FileOk(w', name, w'.pidFiles[name])
    {
      assert FileOk(w, name, w.pidFiles[name]);
    }
  }

  lemma PcOnlyProxy(w: World, w': World, p: Pid, pc: Pc, q: Pid)
    requires Inv(w) && p in w.proxies && q in w.proxies && q != p && w' == SetPc(w, p, pc)
    ensures ProxyOk(w', q, w'.proxies[q])
  {
    assert ProxyOk(w, q, w.proxies[q]);
  }

  // ----- Steps of a proxy keep the invariant -----

  lemma ArriveKeeps(w: World, w': World, p: Pid, runtime: RuntimeDir, root: Root)
    requires Inv(w) && Arrive(w, w', p, runtime, root)
    ensures Inv(w')
  {
    forall q | q in w'.proxies
      ensures ProxyOk(w', q, w'.proxies[q])
    {
      if q != p {
        assert ProxyOk(w, q, w.proxies[q]);
      }
    }
    forall d | d in w'.daemons
      ensures DaemonOk(w', d, w'.daemons[d])
    {
      assert DaemonOk(w, d, w.daemons[d]);
    }
  }

  /** Removing a lock file whose process is gone, or which names another root, disturbs no live daemon
      and no proxy. */
  lemma DropBadLock(w: World, path: LockPath)
    requires Inv(w) && path in w.locks
    requires w.locks[path].root != path.root || !Alive(w, w.locks[path].pid)
    ensures Inv(w.(locks := w.locks - {path}))
  {
    var w' := w.(locks := w.locks - {path});
    forall q | q in w'.proxies
      ensures ProxyOk(w', q, w'.proxies[q])
    {
      assert ProxyOk(w, q, w.proxies[q]);
    }
    forall d | d in w'.daemons
      ensures DaemonOk(w', d, w'.daemons[d])
    {
      assert DaemonOk(w, d, w.daemons[d]);
    }
  }

  /** Removing a registry entry that is not backed disturbs no live daemon and no proxy. */
  lemma DropUnbackedEntry(w: World, root: Root)
    requires Inv(w) && root in w.registry && !EntryBacked(w, w.registry[root])
    ensures Inv(w.(registry := w.registry - {root}))
  {
    var w' := w.(registry := w.registry - {root});
    forall q | q in w'.proxies
      ensures ProxyOk(w', q, w'.proxies[q])
    {
      assert ProxyOk(w, q, w.proxies[q]);
    }
    forall d | d in w'.daemons
      ensures DaemonOk(w', d, w'.daemons[d])
    {
      assert DaemonOk(w, d, w.daemons[d]);
    }
  }

  lemma ReuseKeeps(w: World, w': World, p: Pid)
    requires Inv(w) && ReuseLock(INDIVISIBLE, w, w', p)
    ensures Inv(w')
  {
    var me := w.proxies[p];
    var own := OwnPath(me.runtime, me.root);
    assert ProxyOk(w, p, me);
    if own in w.locks && !Alive(w, w.locks[own].pid) {
      DropBadLock(w, own);
      var cleaned := w.(locks := w.locks - {own});
      PcOnly(cleaned, w', p, AfterReuse(cleaned, me));
    } else {
      PcOnly(w, w', p, w'.proxies[p].pc);
    }
  }

  /** Steps that move only the program counter, to a point where nothing need be known. */
  lemma QuietKeeps(w: World, w': World, p: Pid)
    requires Inv(w)
    requires EndWait(w, w', p) || LoopTurn(w, w', p) || Abort(w, w', p)
    ensures Inv(w')
  {
    assert ProxyOk(w, p, w.proxies[p]);
    PcOnly(w, w', p, w'.proxies[p].pc);
  }

  lemma OpenKeeps(w: World, w': World, p: Pid)
    requires Inv(w) && AcquireOpen(w, w', p)
    ensures Inv(w')
  {
    var me := w.proxies[p];
    assert ProxyOk(w, p, me);
    if LockAt(me, me.held) in w.pidFiles {
      PcOnly(w, w', p, w'.proxies[p].pc);
    } else {
      CreateKeeps(w, w', p);
    }
  }

  /** Creating the next lock file of the nest. */
  lemma CreateKeeps(w: World, w': World, p: Pid)
    requires Inv(w) && AcquireOpen(w, w', p) && LockAt(w.proxies[p], w.proxies[p].held) !in w.pidFiles
    ensures Inv(w')
  {
    var me := w.proxies[p];
    forall q | q in w'.proxies
      ensures ProxyOk(w', q, w'.proxies[q])
    {
      CreateKeepsProxy(w, w', p, q);
    }
    forall d | d in w'.daemons
      ensures DaemonOk(w', d, w'.daemons[d])
    {
      assert DaemonOk(w, d, w.daemons[d]);
    }
    forall name | name in w'.pidFiles
      ensures FileOk(w', name, w'.pidFiles[name])
    {
      if name in w.pidFiles {
        assert FileOk(w, name, w.pidFiles[name]);
      }
    }
  }

  lemma CreateKeepsProxy(w: World, w': World, p: Pid, q: Pid)
    requires Inv(w) && AcquireOpen(w, w', p) && LockAt(w.proxies[p], w.proxies[p].held) !in w.pidFiles
    requires q in w.proxies
    ensures ProxyOk(w', q, w'.proxies[q])
  {
    assert ProxyOk(w, p, w.proxies[p]) && ProxyOk(w, q, w.proxies[q]);
    if q != p && w.proxies[p].held == 2 && w.proxies[q].held == 2 {
      OneInsider(w, p, q);
    }
  }

  lemma WriteKeeps(w: World, w': World, p: Pid)
    requires Inv(w) && AcquireWrite(w, w', p)
    ensures Inv(w')
  {
    assert ProxyOk(w, p, w.proxies[p]);
    forall q | q in w'.proxies
      ensures ProxyOk(w', q, w'.proxies[q])
    {
      WriteKeepsProxy(w, w', p, q);
    }
    forall d | d in w'.daemons
      ensures DaemonOk(w', d, w'.daemons[d])
    {
      assert DaemonOk(w, d, w.daemons[d]);
    }
    forall name | name in w'.pidFiles
      ensures FileOk(w', name, w'.pidFiles[name])
    {
      if name in w.pidFiles {
        assert FileOk(w, name, w.pidFiles[name]);
      }
    }
  }

  lemma WriteKeepsProxy(w: World, w': World, p: Pid, q: Pid)
    requires Inv(w) && AcquireWrite(w, w', p) && q in w.proxies
    ensures ProxyOk(w', q, w'.proxies[q])
  {
    assert ProxyOk(w, p, w.proxies[p]) && ProxyOk(w, q, w.proxies[q]);
  }

  /** Reclaiming a PID lock of a process that is gone. */
  lemma ReclaimKeeps(w: World, w': World, p: Pid)
    requires Inv(w) && Reclaimed(w, w', p)
    ensures Inv(w')
  {
    forall q | q in w'.proxies
      ensures ProxyOk(w', q, w'.proxies[q])
    {
      ReclaimKeepsProxy(w, w', p, q);
    }
    forall d | d in w'.daemons
      ensures DaemonOk(w', d, w'.daemons[d])
    {
      assert DaemonOk(w, d, w.daemons[d]);
    }
  }

  predicate Reclaimed(w: World, w': World, p: Pid) {
    && p in w.proxies && w.proxies[p].pc.Acquire? && w.proxies[p].pc.stage == Inspect
    && var me := w.proxies[p];
       var name := LockAt(me, me.held);
       && name in w.pidFiles && w.pidFiles[name].Holds? && !Alive(w, w.pidFiles[name].pid)
       && w' == SetPc(w.(pidFiles := w.pidFiles - {name}), p, NextAttempt(w, me, me.pc.attempt))
  }

  lemma ReclaimKeepsProxy(w: World, w': World, p: Pid, q: Pid)
    requires Inv(w) && Reclaimed(w, w', p) && q in w.proxies
    ensures ProxyOk(w', q, w'.proxies[q])
  {
    assert ProxyOk(w, p, w.proxies[p]) && ProxyOk(w, q, w.proxies[q]);
    if q != p && w.proxies[p].held == 2 && w.proxies[q].held == 2 {
      OneInsider(w, p, q);
    }
  }

  /** At the starter lock an inspected file is stale: a live holder would be inside the outer locks. */
  lemma StarterFileStale(w: World, p: Pid)
    requires Inv(w) && p in w.proxies && w.proxies[p].held == 2
    requires w.proxies[p].pc.Acquire? && w.proxies[p].pc.stage == Inspect
    ensures var name := LockAt(w.proxies[p], 2);
            name in w.pidFiles && w.pidFiles[name].Holds? && !Alive(w, w.pidFiles[name].pid)
  {
    var name := LockAt(w.proxies[p], 2);
    assert ProxyOk(w, p, w.proxies[p]);
    assert FileOk(w, name, w.pidFiles[name]);
    match w.pidFiles[name]
    case Holds(q) =>
      if q in w.proxies {
        OneInsider(w, p, q);
      }
    case Blank(q) =>
      assert ProxyOk(w, q, w.proxies[q]);
      OneInsider(w, p, q);
  }

  lemma InspectKeeps(w: World, w': World, p: Pid)
    requires Inv(w) && AcquireInspect(INDIVISIBLE, w, w', p)
    ensures Inv(w')
  {
    var me := w.proxies[p];
    var name := LockAt(me, me.held);
    assert ProxyOk(w, p, me);
    if me.held == 2 {
      StarterFileStale(w, p);
    }
    if name in w.pidFiles && w.pidFiles[name].Holds? && !Alive(w, w.pidFiles[name].pid) {
      ReclaimKeeps(w, w', p);
    } else {
      PcOnly(w, w', p, w'.proxies[p].pc);
    }
  }

  /** The first pass of the gate never removes the lock file of a live daemon. */
  lemma VisitLockKeeps(w: World, w': World, p: Pid, root: Root)
    requires Inv(w) && VisitLock(INDIVISIBLE, w, w', p, root)
    ensures Inv(w')
  {
    var me := w.proxies[p];
    var path := LockPath(me.runtime, root);
    assert ProxyOk(w, p, me);
    if path in w.locks && (w.locks[path].root != root || !Alive(w, w.locks[path].pid)) {
      var cleaned := w.(locks := w.locks - {path});
      DropBadLock(w, path);
      PcOnly(cleaned, w', p, w'.proxies[p].pc);
    } else {
      PcOnly(w, w', p, w'.proxies[p].pc);
    }
  }

  /** Under the outer locks, every live daemon overlapping this root has a registry entry to visit. */
  lemma StartRegistryScanKeeps(w: World, w': World, p: Pid)
    requires Inv(w) && StartRegistryScan(w, w', p)
    ensures Inv(w')
  {
    var me := w.proxies[p];
    assert ProxyOk(w, p, me);
    if me.held == 2 {
      forall d | d in w.daemons && Live(w.daemons[d])
        ensures w.daemons[d].root in w.registry
      {
        OthersPublished(w, p, d);
      }
    }
    PcOnly(w, w', p, ScanRegistry(w.registry.Keys));
  }

  /** A visited entry that raised no conflict belongs to no live daemon overlapping this root. */
  lemma VisitedClear(w: World, p: Pid, root: Root)
    requires Inv(w) && p in w.proxies && w.proxies[p].held == 2
    requires w.proxies[p].pc.ScanRegistry?
    requires root in w.registry && EntryBacked(w, w.registry[root]) ==>
               || w.registry[root].lockPath == OwnPath(w.proxies[p].runtime, w.proxies[p].root)
               || !RootsOverlap(w.proxies[p].root, w.registry[root].root)
    ensures LiveOverlapsWithin(w, w.proxies[p].root, w.proxies[p].pc.entries - {root})
  {
    var me := w.proxies[p];
    assert ProxyOk(w, p, me);
    forall d | d in w.daemons && Live(w.daemons[d]) && RootsOverlap(w.daemons[d].root, me.root)
      ensures w.daemons[d].root != root
    {
      OthersPublished(w, p, d);
    }
  }

  lemma VisitEntryKeeps(w: World, w': World, p: Pid, root: Root)
    requires Inv(w) && VisitEntry(INDIVISIBLE, w, w', p, root)
    ensures Inv(w')
  {
    var me := w.proxies[p];
    assert ProxyOk(w, p, me);
    if me.held == 2 && w'.proxies[p].pc.ScanRegistry? {
      VisitedClear(w, p, root);
    }
    if root in w.registry && !EntryBacked(w, w.registry[root]) {
      DropUnbackedEntry(w, root);
      PcOnly(w.(registry := w.registry - {root}), w', p, w'.proxies[p].pc);
    } else {
      PcOnly(w, w', p, w'.proxies[p].pc);
    }
  }

  lemma GatePassedKeeps(w: World, w': World, p: Pid)
    requires Inv(w) && GatePassed(w, w', p)
    ensures Inv(w')
  {
    assert ProxyOk(w, p, w.proxies[p]);
    PcOnly(w, w', p, w'.proxies[p].pc);
  }

  lemma SpawnKeeps(w: World, w': World, p: Pid, child: Pid)
    requires Inv(w) && SpawnChild(w, w', p, child)
    ensures Inv(w')
  {
    assert ProxyOk(w, p, w.proxies[p]);
    forall q | q in w'.proxies
      ensures ProxyOk(w', q, w'.proxies[q])
    {
      SpawnKeepsProxy(w, w', p, child, q);
    }
    forall d | d in w'.daemons
      ensures DaemonOk(w', d, w'.daemons[d])
    {
      SpawnKeepsDaemon(w, w', p, child, d);
    }
    SpawnKeepsRoots(w, w', p, child);
    SpawnKeepsFiles(w, w', p, child);
  }

  /** The gate has shown that no live daemon overlaps the root of the child. */
  lemma SpawnKeepsRoots(w: World, w': World, p: Pid, child: Pid)
    requires Inv(w) && SpawnChild(w, w', p, child)
    ensures RootsDisjoint(w')
  {
    assert ProxyOk(w, p, w.proxies[p]);
    forall d | d in w.daemons && Live(w.daemons[d])
      ensures !RootsOverlap(w.daemons[d].root, w.proxies[p].root) && !RootsOverlap(w.proxies[p].root, w.daemons[d].root)
    {
      OverlapMeansSharedPath(w.daemons[d].root, w.proxies[p].root);
    }
  }

  lemma SpawnKeepsFiles(w: World, w': World, p: Pid, child: Pid)
    requires Inv(w) && SpawnChild(w, w', p, child)
    ensures FilesOk(w') && PidsOk(w')
  {
    forall name | name in w'.pidFiles
      ensures FileOk(w', name, w'.pidFiles[name])
    {
      assert FileOk(w, name, w.pidFiles[name]);
    }
  }

  lemma SpawnKeepsDaemon(w: World, w': World, p: Pid, child: Pid, d: Pid)
    requires Inv(w) && SpawnChild(w, w', p, child) && d in w'.daemons
    ensures DaemonOk(w', d, w'.daemons[d])
  {
    assert ProxyOk(w, p, w.proxies[p]);
    if d != child {
      assert DaemonOk(w, d, w.daemons[d]);
    }
  }

  lemma SpawnKeepsProxy(w: World, w': World, p: Pid, child: Pid, q: Pid)
    requires Inv(w) && SpawnChild(w, w', p, child) && q in w.proxies
    ensures ProxyOk(w', q, w'.proxies[q])
  {
    assert ProxyOk(w, p, w.proxies[p]) && ProxyOk(w, q, w.proxies[q]);
    if q != p && w.proxies[q].held >= 1 {
      OneInsider(w, p, q);
    }
  }

  lemma PollFoundKeeps(w: World, w': World, p: Pid)
    requires Inv(w) && PollFound(w, w', p)
    ensures Inv(w')
  {
    assert ProxyOk(w, p, w.proxies[p]);
    forall q | q in w'.proxies
      ensures ProxyOk(w', q, w'.proxies[q])
    {
      assert ProxyOk(w, q, w.proxies[q]);
    }
    forall d | d in w'.daemons
      ensures DaemonOk(w', d, w'.daemons[d])
    {
      assert DaemonOk(w, d, w.daemons[d]);
    }
  }

  /** Terminating the child before unwinding. */
  lemma ChildFailedKeeps(w: World, w': World, p: Pid)
    requires Inv(w) && (PollFailed(w, w', p) || PublishFailed(w, w', p))
    ensures Inv(w')
  {
    assert ProxyOk(w, p, w.proxies[p]);
    forall q | q in w'.proxies
      ensures ProxyOk(w', q, w'.proxies[q])
    {
      ChildFailedKeepsProxy(w, w', p, q);
    }
    forall d | d in w'.daemons
      ensures DaemonOk(w', d, w'.daemons[d])
    {
      assert DaemonOk(w, d, w.daemons[d]);
    }
  }

  lemma ChildFailedKeepsProxy(w: World, w': World, p: Pid, q: Pid)
    requires Inv(w) && (PollFailed(w, w', p) || PublishFailed(w, w', p)) && q in w.proxies
    ensures ProxyOk(w', q, w'.proxies[q])
  {
    assert ProxyOk(w, q, w.proxies[q]);
  }

  lemma PublishKeeps(w: World, w': World, p: Pid)
    requires Inv(w) && PublishEntry(w, w', p)
    ensures Inv(w')
  {
    assert ProxyOk(w, p, w.proxies[p]);
    forall q | q in w'.proxies
      ensures ProxyOk(w', q, w'.proxies[q])
    {
      assert ProxyOk(w, q, w.proxies[q]);
    }
    forall d | d in w'.daemons
      ensures DaemonOk(w', d, w'.daemons[d])
    {
      PublishKeepsDaemon(w, w', p, d);
    }
  }

  lemma PublishKeepsDaemon(w: World, w': World, p: Pid, d: Pid)
    requires Inv(w) && PublishEntry(w, w', p) && d in w.daemons
    ensures DaemonOk(w', d, w'.daemons[d])
  {
    assert ProxyOk(w, p, w.proxies[p]) && DaemonOk(w, d, w.daemons[d]);
    if d != w.proxies[p].pc.child && Live(w.daemons[d]) {
      OthersPublished(w, p, d);
    }
  }

  /** Reading a lock that it counts as held, a process always finds its own pid. */
  lemma ReleaseKeeps(w: World, w': World, p: Pid)
    requires Inv(w) && ReleaseLock(w, w', p)
    ensures Inv(w') && (w.proxies[p].held > 0 ==> w'.proxies[p].pc.Unlock?)
  {
    var me := w.proxies[p];
    assert ProxyOk(w, p, me);
    if me.held > 0 {
      HoldsLast(w, p);
      ReleaseKnows(w, w', p, Unlock(me.pc.next));
    } else {
      ReleaseKnows(w, w', p, AfterUnwind(me.pc.next));
    }
    PcOnly(w, w', p, w'.proxies[p].pc);
  }

  lemma HoldsLast(w: World, p: Pid)
    requires p in w.proxies && w.proxies[p].held > 0 && HoldsNest(w, p, w.proxies[p])
    ensures FileIs(w, LockAt(w.proxies[p], w.proxies[p].held - 1), p)
  {
  }

  lemma ReleaseKnows(w: World, w': World, p: Pid, pc: Pc)
    requires p in w.proxies && ProxyOk(w, p, w.proxies[p]) && w' == SetPc(w, p, pc)
    requires if w.proxies[p].held > 0 then pc.Unlock? else pc == Loop || pc.Done?
    ensures ProxyOk(w', p, w'.proxies[p])
  {
  }

  /** When the unlink comes the file is still the own one: nobody reclaims the lock of a live process. */
  lemma FinishReleaseKeeps(w: World, w': World, p: Pid)
    requires Inv(w) && FinishRelease(w, w', p)
    ensures Inv(w') && FileIs(w, LockAt(w.proxies[p], w.proxies[p].held - 1), p)
  {
    assert ProxyOk(w, p, w.proxies[p]);
    forall q | q in w'.proxies
      ensures ProxyOk(w', q, w'.proxies[q])
    {
      ReleaseKeepsProxy(w, w', p, q);
    }
    forall name | name in w'.pidFiles
      ensures FileOk(w', name, w'.pidFiles[name])
    {
      ReleaseKeepsFile(w, w', p, name);
    }
    forall d | d in w'.daemons
      ensures DaemonOk(w', d, w'.daemons[d])
    {
      assert DaemonOk(w, d, w.daemons[d]);
    }
  }

  lemma ReleaseKeepsFile(w: World, w': World, p: Pid, name: LockName)
    requires Inv(w) && FinishRelease(w, w', p) && name in w'.pidFiles
    ensures FileOk(w', name, w'.pidFiles[name])
  {
    assert ProxyOk(w, p, w.proxies[p]);
    assert FileOk(w, name, w.pidFiles[name]);
  }

  lemma ReleaseKeepsProxy(w: World, w': World, p: Pid, q: Pid)
    requires Inv(w) && FinishRelease(w, w', p) && q in w.proxies
    ensures ProxyOk(w', q, w'.proxies[q])
  {
    assert ProxyOk(w, p, w.proxies[p]) && ProxyOk(w, q, w.proxies[q]);
    if q != p && w.proxies[p].held >= 1 && w.proxies[q].held >= 1 {
      OneInsider(w, p, q);
    }
  }

  lemma CrashKeeps(w: World, w': World, p: Pid)
    requires Inv(w) && Crash(w, w', p)
    ensures Inv(w')
  {
    assert ProxyOk(w, p, w.proxies[p]);
    forall q | q in w'.proxies
      ensures ProxyOk(w', q, w'.proxies[q])
    {
      assert ProxyOk(w, q, w.proxies[q]);
    }
    forall d | d in w'.daemons
      ensures DaemonOk(w', d, w'.daemons[d])
    {
      assert DaemonOk(w, d, w.daemons[d]);
    }
  }

  // ----- Steps of a daemon keep the invariant -----

  lemma WriteLockKeeps(w: World, w': World, d: Pid)
    requires Inv(w) && WriteLock(w, w', d)
    ensures Inv(w')
  {
    forall q | q in w'.proxies
      ensures ProxyOk(w', q, w'.proxies[q])
    {
      WriteLockKeepsProxy(w, w', d, q);
    }
    forall e | e in w'.daemons
      ensures DaemonOk(w', e, w'.daemons[e])
    {
      WriteLockKeepsDaemon(w, w', d, e);
    }
  }

  lemma WriteLockKeepsProxy(w: World, w': World, d: Pid, q: Pid)
    requires Inv(w) && WriteLock(w, w', d) && q in w.proxies
    ensures ProxyOk(w', q, w'.proxies[q])
  {
    assert DaemonOk(w, d, w.daemons[d]);
    var starter := w.daemons[d].starter;
    assert ProxyOk(w, starter, w.proxies[starter]) && ProxyOk(w, q, w.proxies[q]);
    if w.proxies[q].held >= 1 {
      OneInsider(w, starter, q);
    }
  }

  lemma WriteLockKeepsDaemon(w: World, w': World, d: Pid, e: Pid)
    requires Inv(w) && WriteLock(w, w', d) && e in w.daemons
    ensures DaemonOk(w', e, w'.daemons[e])
  {
    assert DaemonOk(w, d, w.daemons[d]) && DaemonOk(w, e, w.daemons[e]);
    if e != d && Live(w.daemons[e]) {
      assert !RootsOverlap(w.daemons[d].root, w.daemons[e].root);
    }
  }

  /** A daemon that already wrote its lock moves on to a later live phase. */
  lemma PhaseOnly(w: World, w': World, d: Pid, phase: Phase)
    requires Inv(w) && d in w.daemons && Live(w.daemons[d]) && w.daemons[d].phase != Booting
    requires phase == Verified || phase == Serving
    requires w' == SetPhase(w, d, phase)
    ensures Inv(w')
  {
    forall q | q in w'.proxies
      ensures ProxyOk(w', q, w'.proxies[q])
    {
      PhaseOnlyProxy(w, w', d, phase, q);
    }
    forall e | e in w'.daemons
      ensures DaemonOk(w', e, w'.daemons[e])
    {
      assert DaemonOk(w, e, w.daemons[e]);
    }
  }

  lemma PhaseOnlyProxy(w: World, w': World, d: Pid, phase: Phase, q: Pid)
    requires Inv(w) && d in w.daemons && Live(w.daemons[d]) && w.daemons[d].phase != Booting
    requires (phase == Verified || phase == Serving) && w' == SetPhase(w, d, phase) && q in w.proxies
    ensures ProxyOk(w', q, w'.proxies[q])
  {
    assert ProxyOk(w, q, w.proxies[q]);
  }

  /** The check after writing the lock always succeeds: the race-loser branch is dead. */
  lemma VerifyLockKeeps(w: World, w': World, d: Pid)
    requires Inv(w) && VerifyLock(w, w', d)
    ensures Inv(w') && WonRace(w, d)
  {
    assert DaemonOk(w, d, w.daemons[d]);
    PhaseOnly(w, w', d, Verified);
  }

  /** A live daemon that writes its own registry entry overwrites no other live daemon's. */
  lemma EntryKeeps(w: World, d: Pid)
    requires Inv(w) && d in w.daemons && Live(w.daemons[d]) && w.daemons[d].phase != Booting
    ensures var me := w.daemons[d];
            Inv(w.(registry := w.registry[me.root := RegistryEntry(d, me.root, OwnPath(me.runtime, me.root))]))
  {
    var me := w.daemons[d];
    var w' := w.(registry := w.registry[me.root := RegistryEntry(d, me.root, OwnPath(me.runtime, me.root))]);
    forall q | q in w'.proxies
      ensures ProxyOk(w', q, w'.proxies[q])
    {
      assert ProxyOk(w, q, w.proxies[q]);
    }
    forall e | e in w'.daemons
      ensures DaemonOk(w', e, w'.daemons[e])
    {
      assert DaemonOk(w, e, w.daemons[e]);
      if e != d && Live(w.daemons[e]) {
        assert !RootsOverlap(w.daemons[d].root, w.daemons[e].root);
      }
    }
  }

  lemma RegisterSelfKeeps(w: World, w': World, d: Pid, written: bool)
    requires Inv(w) && RegisterSelf(w, w', d, written)
    ensures Inv(w')
  {
    if written {
      EntryKeeps(w, d);
      var me := w.daemons[d];
      PhaseOnly(w.(registry := w.registry[me.root := RegistryEntry(d, me.root, OwnPath(me.runtime, me.root))]),
                w', d, Serving);
    } else {
      PhaseOnly(w, w', d, Serving);
    }
  }

  lemma RetireKeeps(w: World, w': World, d: Pid)
    requires Inv(w) && Retire(w, w', d)
    ensures Inv(w')
    ensures OwnPath(w.daemons[d].runtime, w.daemons[d].root) !in w'.locks && w.daemons[d].root !in w'.registry
  {
    forall q | q in w'.proxies
      ensures ProxyOk(w', q, w'.proxies[q])
    {
      RetireKeepsProxy(w, w', d, q);
    }
    forall e | e in w'.daemons
      ensures DaemonOk(w', e, w'.daemons[e])
    {
      RetireKeepsDaemon(w, w', d, e);
    }
  }

  lemma RetireKeepsProxy(w: World, w': World, d: Pid, q: Pid)
    requires Inv(w) && Retire(w, w', d) && q in w.proxies
    ensures ProxyOk(w', q, w'.proxies[q])
  {
    assert DaemonOk(w, d, w.daemons[d]) && ProxyOk(w, q, w.proxies[q]);
  }

  lemma RetireKeepsDaemon(w: World, w': World, d: Pid, e: Pid)
    requires Inv(w) && Retire(w, w', d) && e in w.daemons
    ensures DaemonOk(w', e, w'.daemons[e])
  {
    assert DaemonOk(w, d, w.daemons[d]) && DaemonOk(w, e, w.daemons[e]);
    if e != d && Live(w.daemons[e]) {
      assert !RootsOverlap(w.daemons[d].root, w.daemons[e].root);
    }
  }

  lemma ExitKeeps(w: World, w': World, d: Pid)
    requires Inv(w) && Exit(w, w', d)
    ensures Inv(w')
  {
    forall q | q in w'.proxies
      ensures ProxyOk(w', q, w'.proxies[q])
    {
      assert ProxyOk(w, q, w.proxies[q]);
    }
    forall e | e in w'.daemons
      ensures DaemonOk(w', e, w'.daemons[e])
    {
      assert DaemonOk(w, e, w.daemons[e]);
    }
  }

  // ----- All steps -----

  lemma LockStepKeeps(w: World, w': World, p: Pid, move: LockMove)
    requires Inv(w) && LockNext(INDIVISIBLE, w, w', p, move)
    ensures Inv(w')
  {
    match move
    case DoArrive(runtime, root) => ArriveKeeps(w, w', p, runtime, root);
    case DoReuse => ReuseKeeps(w, w', p);
    case DoEndWait => QuietKeeps(w, w', p);
    case DoLoop => QuietKeeps(w, w', p);
    case DoOpen => OpenKeeps(w, w', p);
    case DoWrite => WriteKeeps(w, w', p);
    case DoInspect => InspectKeeps(w, w', p);
    case DoRelease => ReleaseKeeps(w, w', p);
    case DoFinishRelease => FinishReleaseKeeps(w, w', p);
    case DoAbort => QuietKeeps(w, w', p);
    case DoCrash => CrashKeeps(w, w', p);
  }

  lemma GateStepKeeps(w: World, w': World, p: Pid, move: GateMove)
    requires Inv(w) && GateNext(INDIVISIBLE, w, w', p, move)
    ensures Inv(w')
  {
    match move
    case DoVisitLock(root) => VisitLockKeeps(w, w', p, root);
    case DoStartRegistryScan => StartRegistryScanKeeps(w, w', p);
    case DoVisitEntry(root) => VisitEntryKeeps(w, w', p, root);
    case DoGatePassed => GatePassedKeeps(w, w', p);
  }

  lemma ChildStepKeeps(w: World, w': World, p: Pid, move: ChildMove)
    requires Inv(w) && ChildNext(w, w', p, move)
    ensures Inv(w')
  {
    match move
    case DoSpawn(child) => SpawnKeeps(w, w', p, child);
    case DoPollFound => PollFoundKeeps(w, w', p);
    case DoPollFailed => ChildFailedKeeps(w, w', p);
    case DoPublish => PublishKeeps(w, w', p);
    case DoPublishFailed => ChildFailedKeeps(w, w', p);
  }

  lemma DaemonStepKeeps(w: World, w': World, d: Pid, move: DaemonMove)
    requires Inv(w) && DaemonNext(w, w', d, move)
    ensures Inv(w')
  {
    match move
    case DoWriteLock => WriteLockKeeps(w, w', d);
    case DoVerifyLock => VerifyLockKeeps(w, w', d);
    case DoRegisterSelf(written) => RegisterSelfKeeps(w, w', d, written);
    case DoRetire => RetireKeeps(w, w', d);
    case DoExit => ExitKeeps(w, w', d);
  }

  /** The second half of a divided pair is never pending. */
  lemma NoUnlinkStep(w: World, w': World, pid: Pid, move: UnlinkMove)
    requires Inv(w)
    ensures !UnlinkNext(INDIVISIBLE, w, w', pid, move)
  {
    if pid in w.proxies {
      assert ProxyOk(w, pid, w.proxies[pid]);
    }
    if pid in w.daemons {
      assert DaemonOk(w, pid, w.daemons[pid]);
    }
  }

  /** Every step of every process keeps the invariant. */
  lemma StepKeeps(w: World, w': World, step: Step)
    requires Inv(w) && NextStep(INDIVISIBLE, w, w', step)
    ensures Inv(w')
  {
    match step
    case LockStep(p, move) => LockStepKeeps(w, w', p, move);
    case GateStep(p, move) => GateStepKeeps(w, w', p, move);
    case ChildStep(p, move) => ChildStepKeeps(w, w', p, move);
    case DaemonStep(d, move) => DaemonStepKeeps(w, w', d, move);
    case UnlinkStep(pid, move) => NoUnlinkStep(w, w', pid, move);
  }
}
