/** In every run, a call of `find_or_start_daemon` that ends with a daemon's pid names a daemon that was running on the
    root that the end speaks of. */
module StartupOutcomes {
  import opened ProjectRoots
  import opened StartupProtocol
  import opened StartupInvariant
  import opened StartupSafety
  import opened StartupLiveness
  import opened StartupMoves
  import opened StartupAttach

  // ----- Whom a proxy waits for -----

  /** A process that a proxy waits for is, if it is still a daemon, one of the proxy's own runtime directory
      and root. */
  predicate WaitTraced(w: World, p: Pid, me: Proxy) {
    me.pc.Waiting? ==>
      && me.pc.recorded in w.used && me.pc.recorded !in w.proxies
      && (me.pc.recorded in w.daemons ==>
            w.daemons[me.pc.recorded].runtime == me.runtime && w.daemons[me.pc.recorded].root == me.root)
  }

  ghost predicate WaitsTraced(w: World) {
    forall p :: p in w.proxies ==> WaitTraced(w, p, w.proxies[p])
  }

  /** Pids are not given out twice, and a daemon keeps its runtime directory and root. */
  ghost predicate KeepsIdentities(w: World, w': World) {
    && w.used <= w'.used
    && (forall p :: p in w'.proxies ==> p in w.proxies || p !in w.used)
    && forall d :: d in w'.daemons && d in w.used ==>
         d in w.daemons && w'.daemons[d].runtime == w.daemons[d].runtime && w'.daemons[d].root == w.daemons[d].root
  }

  lemma LockIdentities(w: World, w': World, p: Pid, move: LockMove)
    requires PidsOk(w) && LockNext(INDIVISIBLE, w, w', p, move)
    ensures KeepsIdentities(w, w')
  {
    LockDaemons(w, w', p, move);
    LockMoveMild(w, w', p, move);
  }

  lemma GateIdentities(w: World, w': World, p: Pid, move: GateMove)
    requires PidsOk(w) && GateNext(INDIVISIBLE, w, w', p, move)
    ensures KeepsIdentities(w, w')
  {
    GateDaemons(w, w', p, move);
    GateMoveMild(w, w', p, move);
  }

  lemma ChildIdentities(w: World, w': World, p: Pid, move: ChildMove)
    requires PidsOk(w) && ChildNext(w, w', p, move)
    ensures KeepsIdentities(w, w')
  {
    ChildMoveMild(w, w', p, move);
  }

  lemma DaemonIdentities(w: World, w': World, d: Pid, move: DaemonMove)
    requires PidsOk(w) && DaemonNext(w, w', d, move)
    ensures KeepsIdentities(w, w')
  {
    DaemonTouches(w, w', d, move);
  }

  lemma StepIdentities(w: World, w': World, step: Step)
    requires Inv(w) && NextStep(INDIVISIBLE, w, w', step)
    ensures KeepsIdentities(w, w')
  {
    match step
    case LockStep(p, move) => LockIdentities(w, w', p, move);
    case GateStep(p, move) => GateIdentities(w, w', p, move);
    case ChildStep(p, move) => ChildIdentities(w, w', p, move);
    case DaemonStep(d, move) => DaemonIdentities(w, w', d, move);
    case UnlinkStep(pid, move) => NoUnlinkStep(w, w', pid, move);
  }

  lemma WaitStays(w: World, w': World, p: Pid, me: Proxy)
    requires WaitTraced(w, p, me) && KeepsIdentities(w, w')
    ensures WaitTraced(w', p, me)
  {
  }

  // ----- What a step of the proxy itself decides -----

  /** The end that a proxy has decided on, or is about to publish. */
  function Decided(pc: Pc): Outcome {
    match pc
    case Publish(_, found) => Spawned(found)
    case Release(Return(outcome)) => outcome
    case Unlock(Return(outcome)) => outcome
    case Done(outcome) => outcome
    case _ => GaveUp
  }

  /** In this state the end speaks the truth: the daemon it returns accepts connections for the proxy's own runtime
      directory and root, and is its child if it started it; the daemon that a conflict names runs, elsewhere, on an
      overlapping root. */
  predicate TrueIn(w: World, p: Pid, me: Proxy, outcome: Outcome) {
    match outcome
    case Attached(d) => Serves(w, d, me.runtime, me.root)
    case Spawned(d) => Serves(w, d, me.runtime, me.root) && w.daemons[d].starter == p
    case Conflicting(d) =>
      && d in w.daemons && Live(w.daemons[d]) && RootsOverlap(me.root, w.daemons[d].root)
      && (w.daemons[d].runtime != me.runtime || w.daemons[d].root != me.root)
    case GaveUp => true
  }

  /** After a step of its own, a proxy still waits for a daemon of its own, and what it has decided is either what it
      had decided before or true where the step was taken. */
  ghost predicate DecidesWell(w: World, w': World, p: Pid) {
    p in w.proxies && p in w'.proxies ==>
      && w'.proxies[p].runtime == w.proxies[p].runtime && w'.proxies[p].root == w.proxies[p].root
      && WaitTraced(w', p, w'.proxies[p])
      && (|| Decided(w'.proxies[p].pc) == Decided(w.proxies[p].pc)
          || TrueIn(w, p, w.proxies[p], Decided(w'.proxies[p].pc)))
  }

  lemma ReuseDecides(w: World, w': World, p: Pid)
    requires PidsOk(w) && Traced(w) && ReuseLock(INDIVISIBLE, w, w', p)
    ensures DecidesWell(w, w', p)
  {
    var own := OwnPath(w.proxies[p].runtime, w.proxies[p].root);
    if own in w.locks {
      assert LockTraced(w, own);
    }
  }

  lemma EndWaitDecides(w: World, w': World, p: Pid)
    requires WaitsTraced(w) && EndWait(w, w', p)
    ensures DecidesWell(w, w', p)
  {
    assert WaitTraced(w, p, w.proxies[p]);
  }

  lemma AcquireDecides(w: World, w': World, p: Pid)
    requires AcquireOpen(w, w', p) || AcquireWrite(w, w', p)
    ensures DecidesWell(w, w', p)
  {
    assert p in w'.proxies && Decided(w'.proxies[p].pc) == GaveUp == Decided(w.proxies[p].pc);
  }

  lemma InspectDecides(w: World, w': World, p: Pid)
    requires AcquireInspect(INDIVISIBLE, w, w', p)
    ensures DecidesWell(w, w', p)
  {
    assert p in w'.proxies && Decided(w'.proxies[p].pc) == GaveUp == Decided(w.proxies[p].pc);
  }

  lemma ReleaseDecides(w: World, w': World, p: Pid)
    requires ReleaseLock(w, w', p)
    ensures DecidesWell(w, w', p)
  {
  }

  lemma FinishReleaseDecides(w: World, w': World, p: Pid)
    requires FinishRelease(w, w', p)
    ensures DecidesWell(w, w', p)
  {
  }

  lemma LeaveDecides(w: World, w': World, p: Pid)
    requires Abort(w, w', p) || Crash(w, w', p) || LoopTurn(w, w', p)
    ensures DecidesWell(w, w', p)
  {
  }

  lemma LockMoveDecides(w: World, w': World, p: Pid, move: LockMove)
    requires PidsOk(w) && Traced(w) && WaitsTraced(w) && LockNext(INDIVISIBLE, w, w', p, move)
    ensures DecidesWell(w, w', p)
  {
    match move
    case DoArrive(_, _) =>
    case DoReuse => ReuseDecides(w, w', p);
    case DoEndWait => EndWaitDecides(w, w', p);
    case DoLoop => LeaveDecides(w, w', p);
    case DoOpen => AcquireDecides(w, w', p);
    case DoWrite => AcquireDecides(w, w', p);
    case DoInspect => InspectDecides(w, w', p);
    case DoRelease => ReleaseDecides(w, w', p);
    case DoFinishRelease => FinishReleaseDecides(w, w', p);
    case DoAbort => LeaveDecides(w, w', p);
    case DoCrash => LeaveDecides(w, w', p);
  }

  lemma VisitLockDecides(w: World, w': World, p: Pid, root: Root)
    requires Traced(w) && VisitLock(INDIVISIBLE, w, w', p, root)
    ensures DecidesWell(w, w', p)
  {
    var path := LockPath(w.proxies[p].runtime, root);
    if path in w.locks {
      assert LockTraced(w, path);
    }
  }

  lemma VisitEntryDecides(w: World, w': World, p: Pid, root: Root)
    requires Traced(w) && VisitEntry(INDIVISIBLE, w, w', p, root)
    ensures DecidesWell(w, w', p)
  {
    if root in w.registry && w.registry[root].lockPath in w.locks {
      assert LockTraced(w, w.registry[root].lockPath);
    }
  }

  lemma GateMoveDecides(w: World, w': World, p: Pid, move: GateMove)
    requires Traced(w) && GateNext(INDIVISIBLE, w, w', p, move)
    ensures DecidesWell(w, w', p)
  {
    match move
    case DoVisitLock(root) => VisitLockDecides(w, w', p, root);
    case DoVisitEntry(root) => VisitEntryDecides(w, w', p, root);
    case DoStartRegistryScan =>
    case DoGatePassed =>
  }

  lemma ChildMoveDecides(w: World, w': World, p: Pid, move: ChildMove)
    requires Inv(w) && ChildNext(w, w', p, move)
    ensures DecidesWell(w, w', p)
  {
    assert ProxyOk(w, p, w.proxies[p]);
  }

  lemma StepDecides(w: World, w': World, step: Step, p: Pid)
    requires Inv(w) && Traced(w) && WaitsTraced(w) && NextStep(INDIVISIBLE, w, w', step)
    ensures DecidesWell(w, w', p)
  {
    if p in w.proxies {
      if ByProxy(p, step) {
        match step
        case LockStep(_, move) => LockMoveDecides(w, w', p, move);
        case GateStep(_, move) => GateMoveDecides(w, w', p, move);
        case ChildStep(_, move) => ChildMoveDecides(w, w', p, move);
      } else {
        OtherStays(w, w', step, p);
        StepIdentities(w, w', step);
        assert WaitTraced(w, p, w.proxies[p]);
        WaitStays(w, w', p, w.proxies[p]);
      }
    }
  }

  // ----- Every run -----

  lemma StepWaits(w: World, w': World, step: Step)
    requires Inv(w) && Traced(w) && WaitsTraced(w) && NextStep(INDIVISIBLE, w, w', step)
    ensures WaitsTraced(w') && forall p :: p in w'.proxies && p !in w.proxies ==> w'.proxies[p].pc == Reuse
  {
    forall p | p in w'.proxies
      ensures WaitTraced(w', p, w'.proxies[p]) && (p !in w.proxies ==> w'.proxies[p].pc == Reuse)
    {
      if p in w.proxies {
        StepDecides(w, w', step, p);
      } else {
        OnlyArrives(w, w', step, p);
      }
    }
  }

  lemma OnlyArrives(w: World, w': World, step: Step, p: Pid)
    requires Inv(w) && NextStep(INDIVISIBLE, w, w', step) && p in w'.proxies && p !in w.proxies
    ensures w'.proxies[p].pc == Reuse
  {
    match step
    case LockStep(q, move) =>
      LockTouches(w, w', q, move);
      assert move.DoArrive?;
    case GateStep(q, move) => GateTouches(w, w', q, move);
    case ChildStep(q, move) => ChildTouches(w, w', q, move);
    case DaemonStep(d, move) => DaemonTouches(w, w', d, move);
    case UnlinkStep(pid, move) => NoUnlinkStep(w, w', pid, move);
  }

  /** Some state up to number `i` of the run bears out what a proxy has decided by then. */
  ghost predicate BorneOut(run: seq<World>, i: nat, p: Pid)
    requires i < |run| && p in run[i].proxies
  {
    exists j :: 0 <= j <= i && TrueIn(run[j], p, run[i].proxies[p], Decided(run[i].proxies[p].pc))
  }

  ghost predicate WaitsAt(run: seq<World>, i: nat)
    requires i < |run|
  {
    WaitsTraced(run[i]) && forall p :: p in run[i].proxies ==> BorneOut(run, i, p)
  }

  lemma NextBorneOut(run: seq<World>, i: nat, p: Pid, step: Step)
    requires 0 < i < |run| && p in run[i].proxies
    requires Inv(run[i - 1]) && Traced(run[i - 1]) && WaitsAt(run, i - 1)
    requires NextStep(INDIVISIBLE, run[i - 1], run[i], step)
    requires p !in run[i - 1].proxies ==> run[i].proxies[p].pc == Reuse
    ensures BorneOut(run, i, p)
  {
    if p in run[i - 1].proxies {
      StepDecides(run[i - 1], run[i], step, p);
      SameDecision(run, i, p);
    } else {
      Undecided(run, i, p);
    }
  }

  lemma Undecided(run: seq<World>, i: nat, p: Pid)
    requires i < |run| && p in run[i].proxies && Decided(run[i].proxies[p].pc) == GaveUp
    ensures BorneOut(run, i, p)
  {
    assert TrueIn(run[i], p, run[i].proxies[p], GaveUp);
  }

  lemma NextWaits(run: seq<World>, i: nat)
    requires 0 < i < |run| && Next(INDIVISIBLE, run[i - 1], run[i])
    requires Inv(run[i - 1]) && Traced(run[i - 1]) && WaitsAt(run, i - 1)
    ensures WaitsAt(run, i)
  {
    var step :| NextStep(INDIVISIBLE, run[i - 1], run[i], step);
    StepWaits(run[i - 1], run[i], step);
    forall p | p in run[i].proxies
      ensures BorneOut(run, i, p)
    {
      NextBorneOut(run, i, p, step);
    }
  }

  lemma {:induction false} RunDecides(run: seq<World>, i: nat)
    requires IsRun(INDIVISIBLE, run) && LocksUsed(run[0]) && i < |run|
    ensures WaitsAt(run, i)
  {
    if i > 0 {
      RunDecides(run, i - 1);
      RunKeepsInv(run, i - 1);
      RunTraced(run, i - 1);
      assert Follows(INDIVISIBLE, run, i - 1);
      NextWaits(run, i);
    }
  }

  lemma SameDecision(run: seq<World>, i: nat, p: Pid)
    requires 0 < i < |run| && p in run[i].proxies && p in run[i - 1].proxies
    requires DecidesWell(run[i - 1], run[i], p) && BorneOut(run, i - 1, p)
    ensures BorneOut(run, i, p)
  {
    var me, me' := run[i - 1].proxies[p], run[i].proxies[p];
    if Decided(me'.pc) == Decided(me.pc) {
      var j :| 0 <= j <= i - 1 && TrueIn(run[j], p, me, Decided(me.pc));
      assert TrueIn(run[j], p, me', Decided(me'.pc));
    } else {
      assert TrueIn(run[i - 1], p, me', Decided(me'.pc));
    }
  }

  /** In every run in which the files left over at its beginning name pids that had been given out: a proxy that has
      ended with the address of a daemon got that of one which, in some state of the run, accepted connections for
      exactly its runtime directory and root, and was its own child if it started it; and one that has ended with a
      conflict named a daemon which ran, elsewhere, on an overlapping root. */
  lemma EndNamesLiveDaemon(run: seq<World>, p: Pid) returns (j: nat)
    requires IsRun(INDIVISIBLE, run) && LocksUsed(run[0])
    requires p in run[|run| - 1].proxies && run[|run| - 1].proxies[p].pc.Done?
    ensures j < |run|
    ensures var me, w := run[|run| - 1].proxies[p], run[j];
            match me.pc.result
            case Attached(d) =>
              && d in w.daemons && Live(w.daemons[d]) && w.daemons[d].phase != Booting
              && w.daemons[d].runtime == me.runtime && w.daemons[d].root == me.root
            case Spawned(d) =>
              && d in w.daemons && Live(w.daemons[d]) && w.daemons[d].phase != Booting
              && w.daemons[d].runtime == me.runtime && w.daemons[d].root == me.root && w.daemons[d].starter == p
            case Conflicting(d) =>
              && d in w.daemons && Live(w.daemons[d]) && RootsOverlap(me.root, w.daemons[d].root)
              && (w.daemons[d].runtime != me.runtime || w.daemons[d].root != me.root)
            case GaveUp => true
  {
    var i := |run| - 1;
    RunDecides(run, i);
    assert BorneOut(run, i, p);
    var k :| 0 <= k <= i && TrueIn(run[k], p, run[i].proxies[p], Decided(run[i].proxies[p].pc));
    j := k;
  }

  // ----- When a proxy gives up -----

  predicate GivenUp(pc: Pc) {
    pc == Release(Return(GaveUp)) || pc == Unlock(Return(GaveUp)) || pc == Done(GaveUp)
  }

  /** If this step makes the proxy give up, it was waiting for a process that is gone. */
  predicate GivesUpWell(w: World, w': World, p: Pid) {
    p in w.proxies && p in w'.proxies && GivenUp(w'.proxies[p].pc) && !GivenUp(w.proxies[p].pc) ==>
      w.proxies[p].pc.Waiting? && !Alive(w, w.proxies[p].pc.recorded)
  }

  lemma WaitGivesUp(w: World, w': World, p: Pid)
    requires ReuseLock(INDIVISIBLE, w, w', p) || EndWait(w, w', p) || LoopTurn(w, w', p)
    ensures GivesUpWell(w, w', p)
  {
  }

  lemma AcquireGivesUp(w: World, w': World, p: Pid)
    requires AcquireOpen(w, w', p) || AcquireWrite(w, w', p) || AcquireInspect(INDIVISIBLE, w, w', p)
    ensures GivesUpWell(w, w', p)
  {
    assert p in w'.proxies && !w'.proxies[p].pc.Release? && !w'.proxies[p].pc.Unlock? && !w'.proxies[p].pc.Done?;
  }

  lemma ReleaseGivesUp(w: World, w': World, p: Pid)
    requires ReleaseLock(w, w', p) || FinishRelease(w, w', p)
    ensures GivesUpWell(w, w', p)
  {
  }

  lemma LockMoveGivesUp(w: World, w': World, p: Pid, move: LockMove)
    requires OwnMove(p, LockStep(p, move)) && LockNext(INDIVISIBLE, w, w', p, move)
    ensures GivesUpWell(w, w', p)
  {
    match move
    case DoReuse => WaitGivesUp(w, w', p);
    case DoEndWait => WaitGivesUp(w, w', p);
    case DoLoop => WaitGivesUp(w, w', p);
    case DoOpen => AcquireGivesUp(w, w', p);
    case DoWrite => AcquireGivesUp(w, w', p);
    case DoInspect => AcquireGivesUp(w, w', p);
    case DoRelease => ReleaseGivesUp(w, w', p);
    case DoFinishRelease => ReleaseGivesUp(w, w', p);
  }

  lemma VisitLockGivesUp(w: World, w': World, p: Pid, root: Root)
    requires VisitLock(INDIVISIBLE, w, w', p, root)
    ensures GivesUpWell(w, w', p)
  {
  }

  lemma VisitEntryGivesUp(w: World, w': World, p: Pid, root: Root)
    requires VisitEntry(INDIVISIBLE, w, w', p, root)
    ensures GivesUpWell(w, w', p)
  {
  }

  lemma GateMoveGivesUp(w: World, w': World, p: Pid, move: GateMove)
    requires GateNext(INDIVISIBLE, w, w', p, move)
    ensures GivesUpWell(w, w', p)
  {
    match move
    case DoVisitLock(root) => VisitLockGivesUp(w, w', p, root);
    case DoVisitEntry(root) => VisitEntryGivesUp(w, w', p, root);
    case DoStartRegistryScan =>
    case DoGatePassed =>
  }

  /** A step of its own with which a proxy gives up, other than an abort, a failed poll or a failed write, is that of
      one that was waiting for a process which is gone. */
  lemma GivesUpOnlyWhen(w: World, w': World, step: Step, p: Pid)
    requires OwnMove(p, step) && NextStep(INDIVISIBLE, w, w', step)
    ensures GivesUpWell(w, w', p)
  {
    match step
    case LockStep(_, move) => LockMoveGivesUp(w, w', p, move);
    case GateStep(_, move) => GateMoveGivesUp(w, w', p, move);
    case ChildStep(_, _) =>
  }

  /** In this step the proxy meets no abort, crash, failed poll or failed write, and no process that it waits for is
      gone. */
  ghost predicate SparesNext(w: World, w': World, p: Pid) {
    && (p in w.proxies && w.proxies[p].pc.Waiting? ==> Alive(w, w.proxies[p].pc.recorded))
    && exists step :: NextStep(INDIVISIBLE, w, w', step) && (p in w.proxies && ByProxy(p, step) ==> OwnMove(p, step))
  }

  ghost predicate Spares(run: seq<World>, i: int, p: Pid) {
    0 <= i < |run| - 1 ==> SparesNext(run[i], run[i + 1], p)
  }

  lemma StaysHopeful(w: World, w': World, p: Pid)
    requires Inv(w) && SparesNext(w, w', p)
    requires p in w'.proxies && (p in w.proxies ==> !GivenUp(w.proxies[p].pc))
    ensures !GivenUp(w'.proxies[p].pc)
  {
    var step :| NextStep(INDIVISIBLE, w, w', step) && (p in w.proxies && ByProxy(p, step) ==> OwnMove(p, step));
    if p !in w.proxies {
      OnlyArrives(w, w', step, p);
    } else if !ByProxy(p, step) {
      OtherStays(w, w', step, p);
    } else {
      GivesUpOnlyWhen(w, w', step, p);
    }
  }

  lemma {:induction false} NeverGivenUp(run: seq<World>, p: Pid, i: nat)
    requires IsRun(INDIVISIBLE, run) && i < |run| && forall k :: Spares(run, k, p)
    ensures p in run[i].proxies ==> !GivenUp(run[i].proxies[p].pc)
  {
    if i > 0 && p in run[i].proxies {
      NeverGivenUp(run, p, i - 1);
      RunKeepsInv(run, i - 1);
      assert Spares(run, i - 1, p);
      StaysHopeful(run[i - 1], run[i], p);
    }
  }

  /** A proxy that meets no abort, crash, failed poll or failed write, and no process that is gone while it waits for
      it, ends with the pid of a daemon: one that accepted connections for its runtime directory and root, or one in
      conflict with it. */
  lemma EndsWithDaemon(run: seq<World>, p: Pid) returns (j: nat)
    requires IsRun(INDIVISIBLE, run) && LocksUsed(run[0]) && (forall k :: Spares(run, k, p))
    requires p in run[|run| - 1].proxies && run[|run| - 1].proxies[p].pc.Done?
    ensures j < |run|
    ensures var me, w := run[|run| - 1].proxies[p], run[j];
            match me.pc.result
            case Attached(d) => Serves(w, d, me.runtime, me.root)
            case Spawned(d) => Serves(w, d, me.runtime, me.root) && w.daemons[d].starter == p
            case Conflicting(d) =>
              d in w.daemons && Live(w.daemons[d]) && RootsOverlap(me.root, w.daemons[d].root)
            case GaveUp => false
  {
    NeverGivenUp(run, p, |run| - 1);
    j := EndNamesLiveDaemon(run, p);
  }
}
