/** The steps that a proxy can take itself, and what the steps of one process leave alone. */
module StartupMoves {
  import opened ProjectRoots
  import opened StartupProtocol
  import opened StartupInvariant

  // ----- Steps of one proxy -----

  /** A step that `p` takes itself, unless it is an abort, a crash, a failed poll or a failed write. */
  predicate OwnMove(p: Pid, step: Step) {
    match step
    case LockStep(q, move) => q == p && !move.DoArrive? && move != DoAbort && move != DoCrash
    case GateStep(q, _) => q == p
    case ChildStep(q, move) => q == p && move != DoPollFailed && move != DoPublishFailed
    case DaemonStep(_, _) => false
    case UnlinkStep(_, _) => false
  }

  /** The step is one of `p`, of whatever kind. */
  predicate ByProxy(p: Pid, step: Step) {
    match step
    case LockStep(q, _) => q == p
    case GateStep(q, _) => q == p
    case ChildStep(q, _) => q == p
    case DaemonStep(_, _) => false
    case UnlinkStep(_, _) => false
  }

  ghost predicate MovesTo(w: World, w': World, p: Pid) {
    exists step :: OwnMove(p, step) && NextStep(INDIVISIBLE, w, w', step)
  }

  ghost predicate CanMove(w: World, p: Pid) {
    exists w' :: MovesTo(w, w', p)
  }

  // ----- A proxy can always move on -----

  lemma Moves(w: World, w': World, p: Pid, step: Step)
    requires OwnMove(p, step) && NextStep(INDIVISIBLE, w, w', step)
    ensures CanMove(w, p)
  {
    assert MovesTo(w, w', p);
  }

  lemma ReuseCanMove(w: World, p: Pid)
    requires p in w.proxies && w.proxies[p].pc == Reuse
    ensures CanMove(w, p)
  {
    var me := w.proxies[p];
    var own := OwnPath(me.runtime, me.root);
    if own in w.locks && Alive(w, w.locks[own].pid) {
      Moves(w, SetPc(w, p, Waiting(w.locks[own].pid)), p, LockStep(p, DoReuse));
    } else {
      var cleaned := if own in w.locks then w.(locks := w.locks - {own}) else w;
      Moves(w, SetPc(cleaned, p, AfterReuse(cleaned, me)), p, LockStep(p, DoReuse));
    }
  }

  lemma OpenCanMove(w: World, p: Pid)
    requires p in w.proxies && w.proxies[p].pc.Acquire? && w.proxies[p].pc.stage == Open
    ensures CanMove(w, p)
  {
    var me := w.proxies[p];
    var name := LockAt(me, me.held);
    var w' := if name in w.pidFiles then SetPc(w, p, Acquire(me.pc.attempt, Inspect))
              else SetPc(w.(pidFiles := w.pidFiles[name := Blank(p)]), p, Acquire(me.pc.attempt, Write));
    Moves(w, w', p, LockStep(p, DoOpen));
  }

  lemma InspectCanMove(w: World, p: Pid)
    requires p in w.proxies && w.proxies[p].pc.Acquire? && w.proxies[p].pc.stage == Inspect
    ensures CanMove(w, p)
  {
    var me := w.proxies[p];
    var name := LockAt(me, me.held);
    var next := NextAttempt(w, me, me.pc.attempt);
    var w' := if name !in w.pidFiles || w.pidFiles[name].Blank? then SetPc(w, p, next)
              else if Alive(w, w.pidFiles[name].pid) then SetPc(w, p, Refused(w, me))
              else SetPc(w.(pidFiles := w.pidFiles - {name}), p, next);
    Moves(w, w', p, LockStep(p, DoInspect));
  }

  lemma WriteCanMove(w: World, p: Pid)
    requires p in w.proxies && w.proxies[p].pc.Acquire? && w.proxies[p].pc.stage == Write
    ensures CanMove(w, p)
  {
    var me := w.proxies[p];
    var next := if me.held == 0 then Acquire(0, Open) else if me.held == 1 then Reuse else Spawn;
    Moves(w, w.(pidFiles := w.pidFiles[LockAt(me, me.held) := Holds(p)],
                proxies := w.proxies[p := me.(held := me.held + 1, pc := next)]), p, LockStep(p, DoWrite));
  }

  lemma VisitLockCanMove(w: World, p: Pid, root: Root)
    requires p in w.proxies && w.proxies[p].pc.ScanLocks? && root in w.proxies[p].pc.rest
    ensures CanMove(w, p)
  {
    var me := w.proxies[p];
    var path := LockPath(me.runtime, root);
    var next := ScanLocks(me.pc.rest - {root});
    var w' := if path !in w.locks then SetPc(w, p, next)
              else if w.locks[path].root != root || !Alive(w, w.locks[path].pid)
              then SetPc(w.(locks := w.locks - {path}), p, next)
              else if root != me.root && RootsOverlap(me.root, root)
              then SetPc(w, p, Release(Return(Conflicting(w.locks[path].pid))))
              else SetPc(w, p, next);
    Moves(w, w', p, GateStep(p, DoVisitLock(root)));
  }

  lemma VisitEntryCanMove(w: World, p: Pid, root: Root)
    requires p in w.proxies && w.proxies[p].pc.ScanRegistry? && root in w.proxies[p].pc.entries
    ensures CanMove(w, p)
  {
    var me := w.proxies[p];
    var next := ScanRegistry(me.pc.entries - {root});
    var w' := if root !in w.registry then SetPc(w, p, next)
              else if !EntryBacked(w, w.registry[root])
              then SetPc(w.(registry := w.registry - {root}), p, next)
              else if w.registry[root].lockPath == OwnPath(me.runtime, me.root) then SetPc(w, p, next)
              else if RootsOverlap(me.root, w.registry[root].root)
              then SetPc(w, p, Release(Return(Conflicting(w.registry[root].pid))))
              else SetPc(w, p, next);
    Moves(w, w', p, GateStep(p, DoVisitEntry(root)));
  }

  lemma GateCanMove(w: World, p: Pid)
    requires p in w.proxies && (w.proxies[p].pc.ScanLocks? || w.proxies[p].pc.ScanRegistry?)
    ensures CanMove(w, p)
  {
    var me := w.proxies[p];
    if me.pc == ScanLocks({}) {
      Moves(w, SetPc(w, p, ScanRegistry(w.registry.Keys)), p, GateStep(p, DoStartRegistryScan));
    } else if me.pc == ScanRegistry({}) {
      Moves(w, SetPc(w, p, if me.held == 2 then Acquire(0, Open) else Reuse), p, GateStep(p, DoGatePassed));
    } else if me.pc.ScanLocks? {
      var root :| root in me.pc.rest;
      VisitLockCanMove(w, p, root);
    } else {
      var root :| root in me.pc.entries;
      VisitEntryCanMove(w, p, root);
    }
  }

  /** There is always another pid to give out. */
  lemma {:induction false} FreshPid(used: set<Pid>) returns (pid: Pid)
    ensures pid !in used && forall q :: q in used ==> q < pid
    decreases used
  {
    if used == {} {
      pid := 0;
    } else {
      var q :| q in used;
      var rest := FreshPid(used - {q});
      pid := if rest > q then rest else q + 1;
      forall x | x in used
        ensures x < pid
      {
        assert x == q || x in used - {q};
      }
    }
  }

  lemma SpawnCanMove(w: World, p: Pid)
    requires p in w.proxies && w.proxies[p].pc == Spawn
    ensures CanMove(w, p)
  {
    var me := w.proxies[p];
    var child := FreshPid(w.used);
    var w' := SetPc(w, p, Poll(child)).(used := w.used + {child},
                                        daemons := w.daemons[child := Daemon(me.runtime, me.root, Booting, p)]);
    Moves(w, w', p, ChildStep(p, DoSpawn(child)));
  }

  lemma PublishCanMove(w: World, p: Pid)
    requires p in w.proxies && w.proxies[p].pc.Publish?
    ensures CanMove(w, p)
  {
    var me := w.proxies[p];
    var entry := RegistryEntry(me.pc.found, me.root, OwnPath(me.runtime, me.root));
    Moves(w, SetPc(w.(registry := w.registry[me.root := entry]), p, Release(Return(Spawned(me.pc.found)))), p,
          ChildStep(p, DoPublish));
  }

  lemma UnlockCanMove(w: World, p: Pid)
    requires p in w.proxies && w.proxies[p].pc.Unlock? && w.proxies[p].held >= 1
    ensures CanMove(w, p)
  {
    var me := w.proxies[p];
    var w' := w.(pidFiles := w.pidFiles - {LockAt(me, me.held - 1)},
                 proxies := w.proxies[p := me.(held := me.held - 1, pc := Release(me.pc.next))]);
    Moves(w, w', p, LockStep(p, DoFinishRelease));
  }

  lemma ReleaseCanMove(w: World, p: Pid)
    requires p in w.proxies && w.proxies[p].pc.Release? && HoldsNest(w, p, w.proxies[p])
    ensures CanMove(w, p)
  {
    var me := w.proxies[p];
    if me.held == 0 {
      Moves(w, SetPc(w, p, AfterUnwind(me.pc.next)), p, LockStep(p, DoRelease));
    } else {
      HoldsLast(w, p);
      Moves(w, SetPc(w, p, Unlock(me.pc.next)), p, LockStep(p, DoRelease));
    }
  }

  /** In every reachable state a proxy that has not ended, and waits for no daemon, can take a step of its own. */
  lemma ProxyCanMove(w: World, p: Pid)
    requires Inv(w) && p in w.proxies
    requires !w.proxies[p].pc.Waiting? && !w.proxies[p].pc.Poll? && !w.proxies[p].pc.Done?
    ensures CanMove(w, p)
  {
    assert ProxyOk(w, p, w.proxies[p]);
    match w.proxies[p].pc
    case Reuse => ReuseCanMove(w, p);
    case Loop => Moves(w, SetPc(w, p, Acquire(0, Open)), p, LockStep(p, DoLoop));
    case Acquire(_, Open) => OpenCanMove(w, p);
    case Acquire(_, Inspect) => InspectCanMove(w, p);
    case Acquire(_, Write) => WriteCanMove(w, p);
    case ScanLocks(_) => GateCanMove(w, p);
    case ScanRegistry(_) => GateCanMove(w, p);
    case Spawn => SpawnCanMove(w, p);
    case Publish(_, _) => PublishCanMove(w, p);
    case Release(_) => ReleaseCanMove(w, p);
    case Unlock(_) => UnlockCanMove(w, p);
  }

  // ----- What a step leaves alone -----

  /** The daemon keeps its runtime directory, root and starter, and once it accepts connections it does so until it
      begins to shut down. */
  predicate SameDaemon(w: World, w': World, d: Pid) {
    d in w.daemons && d in w'.daemons ==>
      && w'.daemons[d].runtime == w.daemons[d].runtime && w'.daemons[d].root == w.daemons[d].root
      && w'.daemons[d].starter == w.daemons[d].starter
      && (w.daemons[d].phase != Booting ==> w'.daemons[d].phase != Booting)
  }

  lemma LockDaemons(w: World, w': World, p: Pid, move: LockMove)
    requires LockNext(INDIVISIBLE, w, w', p, move)
    ensures w'.daemons == w.daemons
  {
  }

  lemma GateDaemons(w: World, w': World, p: Pid, move: GateMove)
    requires GateNext(INDIVISIBLE, w, w', p, move)
    ensures w'.daemons == w.daemons
  {
  }

  lemma ChildDaemons(w: World, w': World, p: Pid, move: ChildMove, d: Pid)
    requires PidsOk(w) && ChildNext(w, w', p, move)
    ensures SameDaemon(w, w', d)
  {
  }

  lemma MoveDaemons(w: World, w': World, e: Pid, move: DaemonMove, d: Pid)
    requires DaemonNext(w, w', e, move)
    ensures SameDaemon(w, w', d)
  {
  }

  lemma DaemonStays(w: World, w': World, step: Step, d: Pid)
    requires Inv(w) && NextStep(INDIVISIBLE, w, w', step)
    ensures SameDaemon(w, w', d)
  {
    match step
    case LockStep(p, move) => LockDaemons(w, w', p, move);
    case GateStep(p, move) => GateDaemons(w, w', p, move);
    case ChildStep(p, move) => ChildDaemons(w, w', p, move, d);
    case DaemonStep(e, move) => MoveDaemons(w, w', e, move, d);
    case UnlinkStep(pid, move) => NoUnlinkStep(w, w', pid, move);
  }

  /** Of the proxies that are there at most `q` changes or leaves, and at most `q` arrives. */
  ghost predicate TouchesOnly(w: World, w': World, q: Pid) {
    && (forall p :: p in w.proxies && p != q ==> p in w'.proxies && w'.proxies[p] == w.proxies[p])
    && (forall p :: p in w'.proxies && p != q ==> p in w.proxies)
  }

  lemma AcquireTouches(w: World, w': World, q: Pid)
    requires AcquireOpen(w, w', q) || AcquireWrite(w, w', q) || AcquireInspect(INDIVISIBLE, w, w', q)
    ensures TouchesOnly(w, w', q)
  {
  }

  lemma ReuseTouches(w: World, w': World, q: Pid)
    requires ReuseLock(INDIVISIBLE, w, w', q)
    ensures TouchesOnly(w, w', q)
  {
  }

  lemma WaitTouches(w: World, w': World, q: Pid)
    requires EndWait(w, w', q) || LoopTurn(w, w', q)
    ensures TouchesOnly(w, w', q)
  {
  }

  lemma ReleaseTouches(w: World, w': World, q: Pid)
    requires ReleaseLock(w, w', q) || FinishRelease(w, w', q)
    ensures TouchesOnly(w, w', q)
  {
  }

  lemma LeaveTouches(w: World, w': World, q: Pid)
    requires Crash(w, w', q) || Abort(w, w', q)
    ensures TouchesOnly(w, w', q)
  {
  }

  lemma LockTouches(w: World, w': World, q: Pid, move: LockMove)
    requires LockNext(INDIVISIBLE, w, w', q, move)
    ensures TouchesOnly(w, w', q)
  {
    match move
    case DoArrive(_, _) =>
    case DoReuse => ReuseTouches(w, w', q);
    case DoEndWait => WaitTouches(w, w', q);
    case DoLoop => WaitTouches(w, w', q);
    case DoOpen => AcquireTouches(w, w', q);
    case DoWrite => AcquireTouches(w, w', q);
    case DoInspect => AcquireTouches(w, w', q);
    case DoRelease => ReleaseTouches(w, w', q);
    case DoFinishRelease => ReleaseTouches(w, w', q);
    case DoAbort => LeaveTouches(w, w', q);
    case DoCrash => LeaveTouches(w, w', q);
  }

  lemma VisitLockTouches(w: World, w': World, q: Pid, root: Root)
    requires VisitLock(INDIVISIBLE, w, w', q, root)
    ensures TouchesOnly(w, w', q)
  {
  }

  lemma VisitEntryTouches(w: World, w': World, q: Pid, root: Root)
    requires VisitEntry(INDIVISIBLE, w, w', q, root)
    ensures TouchesOnly(w, w', q)
  {
  }

  lemma GateTouches(w: World, w': World, q: Pid, move: GateMove)
    requires GateNext(INDIVISIBLE, w, w', q, move)
    ensures TouchesOnly(w, w', q)
  {
    match move
    case DoVisitLock(root) => VisitLockTouches(w, w', q, root);
    case DoVisitEntry(root) => VisitEntryTouches(w, w', q, root);
    case DoStartRegistryScan =>
    case DoGatePassed =>
  }

  lemma ChildTouches(w: World, w': World, q: Pid, move: ChildMove)
    requires ChildNext(w, w', q, move)
    ensures TouchesOnly(w, w', q)
  {
  }

  lemma DaemonTouches(w: World, w': World, d: Pid, move: DaemonMove)
    requires DaemonNext(w, w', d, move)
    ensures w'.proxies == w.proxies
  {
  }

  /** A step of another process leaves the entry of `p` alone. */
  lemma OtherStays(w: World, w': World, step: Step, p: Pid)
    requires Inv(w) && NextStep(INDIVISIBLE, w, w', step) && !ByProxy(p, step) && p in w.proxies
    ensures p in w'.proxies && w'.proxies[p] == w.proxies[p]
  {
    match step
    case LockStep(q, move) => LockTouches(w, w', q, move);
    case GateStep(q, move) => GateTouches(w, w', q, move);
    case ChildStep(q, move) => ChildTouches(w, w', q, move);
    case DaemonStep(d, move) => DaemonTouches(w, w', d, move);
    case UnlinkStep(pid, move) => NoUnlinkStep(w, w', pid, move);
  }
}
