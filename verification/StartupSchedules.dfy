/** How every order ends in which a lone proxy and its child can run. */
module StartupSchedules {
  import opened ProjectRoots
  import opened StartupProtocol
  import opened StartupInvariant
  import opened StartupProgress
  import opened StartupSafety
  import opened StartupLiveness
  import opened StartupMoves
  import opened StartupAttach

  // ----- Schedules of one proxy and its child -----

  /** Steps of `p` and of daemons that it started, without an abort, a crash, a failed poll or a failed write. */
  predicate Allowed(w: World, p: Pid, step: Step) {
    if step.DaemonStep?
    then step.d in w.daemons && w.daemons[step.d].starter == p
         && step.daemonMove != DoRetire && step.daemonMove != DoExit
    else OwnMove(p, step)
  }

  ghost predicate LoneNext(w: World, w': World, p: Pid) {
    exists step :: Allowed(w, p, step) && NextStep(INDIVISIBLE, w, w', step)
  }

  ghost predicate CanContinue(w: World, p: Pid) {
    exists w' :: LoneNext(w, w', p)
  }

  // ----- What holds along them -----

  /** No other proxy holds a PID lock or is acquiring one. */
  ghost predicate OthersQuiet(w: World, p: Pid) {
    forall q :: q in w.proxies && q != p ==> w.proxies[q].held == 0 && !w.proxies[q].pc.Acquire?
  }

  function Children(w: World, p: Pid): set<Pid> {
    set d | d in w.daemons && w.daemons[d].starter == p
  }

  /** No live daemon is on the own path of the proxy. */
  ghost predicate NoneOwn(w: World, me: Proxy) {
    forall d :: d in w.daemons && Live(w.daemons[d])
             ==> (w.daemons[d].runtime, w.daemons[d].root) != (me.runtime, me.root)
  }

  /** The daemon is not started yet, and none that could be reused is there. */
  ghost predicate Before(w: World, p: Pid, me: Proxy) {
    Children(w, p) == {} && NoneOwn(w, me)
  }

  /** The daemon is the only one that `p` has started, and it serves the root of `p`. */
  predicate Has(w: World, p: Pid, me: Proxy, d: Pid) {
    && Children(w, p) == {d} && d in w.daemons && Live(w.daemons[d])
    && w.daemons[d].runtime == me.runtime && w.daemons[d].root == me.root
  }

  /** The proxy has started its daemon, or met a live one with an overlapping root. */
  ghost predicate Decides(w: World, p: Pid, me: Proxy, outcome: Outcome) {
    match outcome
    case Spawned(d) => Has(w, p, me, d) && w.daemons[d].phase != Booting
    case Conflicting(e) =>
      Before(w, p, me) && e in w.daemons && Live(w.daemons[e]) && RootsOverlap(me.root, w.daemons[e].root)
    case _ => false
  }

  /** A PID lock is taken within two attempts: a stale file goes at the first. */
  predicate AcquiresSoon(w: World, me: Proxy, attempt: nat, stage: Stage) {
    var name := LockAt(me, me.held);
    && (stage == Inspect ==>
          attempt == 0 && name in w.pidFiles && w.pidFiles[name].Holds? && !Alive(w, w.pidFiles[name].pid))
    && (stage == Open && attempt == 1 ==> name !in w.pidFiles)
  }

  ghost predicate OnTrack(w: World, p: Pid, me: Proxy) {
    match me.pc
    case Reuse => (me.held == 0 || me.held == 2) && Before(w, p, me)
    case Loop => Before(w, p, me)
    case Acquire(attempt, stage) => Before(w, p, me) && AcquiresSoon(w, me, attempt, stage)
    case ScanLocks(_) => me.held == 2 && Before(w, p, me)
    case ScanRegistry(_) => me.held == 2 && Before(w, p, me)
    case Spawn => Before(w, p, me)
    case Poll(d) => Has(w, p, me, d)
    case Publish(d, _) => Has(w, p, me, d) && w.daemons[d].phase != Booting
    case Release(next) => next.Return? && Decides(w, p, me, next.outcome)
    case Unlock(next) => next.Return? && Decides(w, p, me, next.outcome)
    case Done(outcome) => Decides(w, p, me, outcome)
    case _ => false
  }

  ghost predicate Lone(w: World, p: Pid) {
    Inv(w) && Traced(w) && p in w.proxies && OthersQuiet(w, p) && OnTrack(w, p, w.proxies[p])
  }

  // ----- How much is left to do -----

  function StageRank(attempt: nat, stage: Stage): nat {
    match stage
    case Write => 0
    case Inspect => 2
    case Open => if attempt == 0 then 3 else 1
  }

  /** The lock files and registry entries that the gate may still have to visit. */
  function Files(w: World, me: Proxy): nat {
    |w.registry| + |LockRoots(w, me.runtime)|
  }

  function Rank(w: World, me: Proxy): nat {
    match me.pc
    case Reuse => if me.held == 0 then 31 + Files(w, me) else 20 + Files(w, me)
    case Loop => 30 + Files(w, me)
    case Acquire(attempt, stage) =>
      StageRank(attempt, stage)
      + (if me.held == 0 then 26 + Files(w, me) else if me.held == 1 then 22 + Files(w, me) else 14)
    case ScanLocks(rest) => 19 + |w.registry| + |rest|
    case ScanRegistry(entries) => 18 + |entries|
    case Spawn => 13
    case Poll(_) => 9
    case Publish(_, _) => 8
    case Release(_) => 2 * me.held + 1
    case Unlock(_) => 2 * me.held
    case _ => 0
  }

  function PhaseRank(phase: Phase): nat {
    match phase
    case Booting => 3
    case Locked => 2
    case Verified => 1
    case _ => 0
  }

  ghost function ChildRank(w: World, p: Pid): nat {
    if Children(w, p) == {} then 0
    else
      var d :| d in Children(w, p);
      PhaseRank(w.daemons[d].phase)
  }

  ghost function Left(w: World, p: Pid): nat
    requires p in w.proxies
  {
    Rank(w, w.proxies[p]) + ChildRank(w, p)
  }

  lemma ChildRankIs(w: World, p: Pid, d: Pid)
    requires Children(w, p) == {d} && d in w.daemons
    ensures ChildRank(w, p) == PhaseRank(w.daemons[d].phase)
  {
  }

  lemma {:induction false} FewerRoots(a: set<Root>, b: set<Root>)
    requires a <= b
    ensures |a| <= |b|
    decreases b
  {
    if a != {} {
      var r :| r in a;
      FewerRoots(a - {r}, b - {r});
    }
  }

  /** What a step of `p` may change: its own entry and, by clean-up, fewer files. */
  ghost predicate OwnStep(w: World, w': World, p: Pid) {
    && p in w.proxies && p in w'.proxies && w'.proxies == w.proxies[p := w'.proxies[p]]
    && w'.proxies[p].runtime == w.proxies[p].runtime && w'.proxies[p].root == w.proxies[p].root
  }

  lemma OthersStayQuiet(w: World, w': World, p: Pid)
    requires OthersQuiet(w, p) && OwnStep(w, w', p)
    ensures OthersQuiet(w', p)
  {
  }

  /** The daemons that `p` has not started. */
  function Others(w: World, p: Pid): map<Pid, Daemon> {
    map d | d in w.daemons && w.daemons[d].starter != p :: w.daemons[d]
  }

  lemma BeforeStays(w: World, w': World, p: Pid)
    requires p in w.proxies && OwnStep(w, w', p) && w'.daemons == w.daemons && Before(w, p, w.proxies[p])
    ensures Before(w', p, w'.proxies[p]) && ChildRank(w', p) == 0 == ChildRank(w, p) && Others(w', p) == Others(w, p)
  {
    assert Children(w', p) == Children(w, p);
  }

  lemma FilesShrink(w: World, w': World, me: Proxy, me': Proxy)
    requires Within(w'.locks, w.locks) && w'.registry.Keys <= w.registry.Keys && me'.runtime == me.runtime
    ensures Files(w', me') <= Files(w, me)
    ensures |w'.registry| <= |w.registry| && |LockRoots(w', me.runtime)| <= |LockRoots(w, me.runtime)|
  {
    assert LockRoots(w', me.runtime) <= LockRoots(w, me.runtime);
    FewerRoots(LockRoots(w', me.runtime), LockRoots(w, me.runtime));
    FewerRoots(w'.registry.Keys, w.registry.Keys);
    assert |w'.registry.Keys| == |w'.registry| && |w.registry.Keys| == |w.registry|;
  }

  // ----- Nothing is in the way -----

  /** The own lock file names no running process. */
  lemma NothingToReuse(w: World, p: Pid)
    requires p in w.proxies && Traced(w) && Before(w, p, w.proxies[p])
    ensures var own := OwnPath(w.proxies[p].runtime, w.proxies[p].root);
            own in w.locks ==> !Alive(w, w.locks[own].pid)
  {
    var own := OwnPath(w.proxies[p].runtime, w.proxies[p].root);
    if own in w.locks {
      assert LockTraced(w, own);
    }
  }

  /** A PID lock that is there before `p` takes it was left by a process that is gone. */
  lemma LeftBehind(w: World, p: Pid)
    requires Inv(w) && OthersQuiet(w, p) && p in w.proxies && w.proxies[p].pc.Acquire? && w.proxies[p].pc.stage == Open
    ensures Free(w, LockAt(w.proxies[p], w.proxies[p].held))
  {
    var me := w.proxies[p];
    var name := LockAt(me, me.held);
    assert ProxyOk(w, p, me);
    if name in w.pidFiles {
      assert FileOk(w, name, w.pidFiles[name]);
    }
  }

  // ----- Every step makes progress -----

  ghost predicate Advances(w: World, w': World, p: Pid) {
    && p in w.proxies && p in w'.proxies && OthersQuiet(w', p) && OnTrack(w', p, w'.proxies[p])
    && w'.proxies[p].runtime == w.proxies[p].runtime && w'.proxies[p].root == w.proxies[p].root
    && Others(w', p) == Others(w, p) && Left(w', p) < Left(w, p)
  }

  /** The own daemon lock names no running process, so that nothing is waited for. */
  lemma ReuseMoves(w: World, w': World, p: Pid)
    requires Lone(w, p) && ReuseLock(INDIVISIBLE, w, w', p)
    ensures OwnStep(w, w', p) && w'.daemons == w.daemons && Within(w'.locks, w.locks) && w'.registry == w.registry
    ensures w'.proxies[p] == w.proxies[p].(pc := AfterReuse(w', w.proxies[p]))
  {
    NothingToReuse(w, p);
  }

  lemma ReuseAdvances(w: World, w': World, p: Pid)
    requires Lone(w, p) && ReuseLock(INDIVISIBLE, w, w', p)
    ensures Advances(w, w', p)
  {
    ReuseMoves(w, w', p);
    OthersStayQuiet(w, w', p);
    BeforeStays(w, w', p);
    FilesShrink(w, w', w.proxies[p], w'.proxies[p]);
  }

  lemma LoopAdvances(w: World, w': World, p: Pid)
    requires Lone(w, p) && LoopTurn(w, w', p)
    ensures Advances(w, w', p)
  {
    assert ProxyOk(w, p, w.proxies[p]);
    OthersStayQuiet(w, w', p);
    BeforeStays(w, w', p);
    FilesShrink(w, w', w.proxies[p], w'.proxies[p]);
  }

  lemma OpenMoves(w: World, w': World, p: Pid)
    requires Lone(w, p) && AcquireOpen(w, w', p)
    ensures OwnStep(w, w', p) && w'.daemons == w.daemons && w'.locks == w.locks && w'.registry == w.registry
    ensures var me, me' := w.proxies[p], w'.proxies[p];
            && me'.held == me.held && me'.pc.Acquire? && me'.pc.stage != Open
            && AcquiresSoon(w', me', me'.pc.attempt, me'.pc.stage)
            && StageRank(me'.pc.attempt, me'.pc.stage) < StageRank(me.pc.attempt, me.pc.stage)
  {
    assert ProxyOk(w, p, w.proxies[p]);
    LeftBehind(w, p);
  }

  lemma OpenAdvances(w: World, w': World, p: Pid)
    requires Lone(w, p) && AcquireOpen(w, w', p)
    ensures Advances(w, w', p)
  {
    OpenMoves(w, w', p);
    OthersStayQuiet(w, w', p);
    BeforeStays(w, w', p);
    FilesShrink(w, w', w.proxies[p], w'.proxies[p]);
  }

  lemma WriteAdvances(w: World, w': World, p: Pid)
    requires Lone(w, p) && AcquireWrite(w, w', p)
    ensures Advances(w, w', p)
  {
    assert ProxyOk(w, p, w.proxies[p]);
    OthersStayQuiet(w, w', p);
    BeforeStays(w, w', p);
    FilesShrink(w, w', w.proxies[p], w'.proxies[p]);
  }

  lemma InspectAdvances(w: World, w': World, p: Pid)
    requires Lone(w, p) && AcquireInspect(INDIVISIBLE, w, w', p)
    ensures Advances(w, w', p)
  {
    assert ProxyOk(w, p, w.proxies[p]);
    OthersStayQuiet(w, w', p);
    BeforeStays(w, w', p);
    FilesShrink(w, w', w.proxies[p], w'.proxies[p]);
  }

  lemma VisitLockAdvances(w: World, w': World, p: Pid, root: Root)
    requires Lone(w, p) && VisitLock(INDIVISIBLE, w, w', p, root)
    ensures Advances(w, w', p)
  {
    var path := LockPath(w.proxies[p].runtime, root);
    if path in w.locks {
      assert LockTraced(w, path);
    }
    OthersStayQuiet(w, w', p);
    BeforeStays(w, w', p);
  }

  lemma StartRegistryScanAdvances(w: World, w': World, p: Pid)
    requires Lone(w, p) && StartRegistryScan(w, w', p)
    ensures Advances(w, w', p)
  {
    OthersStayQuiet(w, w', p);
    BeforeStays(w, w', p);
    assert |w.registry.Keys| == |w.registry|;
  }

  lemma VisitEntryAdvances(w: World, w': World, p: Pid, root: Root)
    requires Lone(w, p) && VisitEntry(INDIVISIBLE, w, w', p, root)
    ensures Advances(w, w', p)
  {
    if root in w.registry && EntryBacked(w, w.registry[root]) {
      assert LockTraced(w, w.registry[root].lockPath);
    }
    OthersStayQuiet(w, w', p);
    BeforeStays(w, w', p);
  }

  lemma GatePassedAdvances(w: World, w': World, p: Pid)
    requires Lone(w, p) && GatePassed(w, w', p)
    ensures Advances(w, w', p)
  {
    OthersStayQuiet(w, w', p);
    BeforeStays(w, w', p);
  }

  lemma SpawnMoves(w: World, w': World, p: Pid, child: Pid)
    requires PidsOk(w) && SpawnChild(w, w', p, child) && Children(w, p) == {}
    ensures Others(w', p) == Others(w, p)
    ensures OwnStep(w, w', p) && w'.proxies[p].pc == Poll(child) && Children(w', p) == {child}
    ensures Has(w', p, w'.proxies[p], child) && w'.daemons[child].phase == Booting
  {
    assert child in Children(w', p);
    assert forall d :: d in w.daemons ==> d !in Children(w, p);
  }

  lemma SpawnAdvances(w: World, w': World, p: Pid, child: Pid)
    requires Lone(w, p) && SpawnChild(w, w', p, child)
    ensures Advances(w, w', p)
  {
    SpawnMoves(w, w', p, child);
    OthersStayQuiet(w, w', p);
    ChildRankIs(w', p, child);
  }

  lemma SameChildren(w: World, w': World, p: Pid)
    requires w'.daemons == w.daemons
    ensures Children(w', p) == Children(w, p) && Others(w', p) == Others(w, p)
  {
  }

  lemma PollFoundAdvances(w: World, w': World, p: Pid)
    requires Lone(w, p) && PollFound(w, w', p)
    ensures Advances(w, w', p)
  {
    assert ProxyOk(w, p, w.proxies[p]);
    OthersStayQuiet(w, w', p);
    SameChildren(w, w', p);
    ChildRankIs(w, p, w.proxies[p].pc.child);
    ChildRankIs(w', p, w.proxies[p].pc.child);
  }

  lemma PublishAdvances(w: World, w': World, p: Pid)
    requires Lone(w, p) && PublishEntry(w, w', p)
    ensures Advances(w, w', p)
  {
    var d := w.proxies[p].pc.child;
    assert ProxyOk(w, p, w.proxies[p]);
    OthersStayQuiet(w, w', p);
    SameChildren(w, w', p);
    ChildRankIs(w, p, d);
    ChildRankIs(w', p, d);
    assert Has(w', p, w'.proxies[p], d);
  }

  /** While `p` unwinds, what it has decided stays true. */
  lemma DecisionStays(w: World, w': World, p: Pid, outcome: Outcome)
    requires OwnStep(w, w', p) && w'.daemons == w.daemons && Decides(w, p, w.proxies[p], outcome)
    ensures Decides(w', p, w'.proxies[p], outcome)
    ensures ChildRank(w', p) == ChildRank(w, p) && Others(w', p) == Others(w, p)
  {
    SameChildren(w, w', p);
    if outcome.Spawned? {
      ChildRankIs(w, p, outcome.pid);
      ChildRankIs(w', p, outcome.pid);
    } else {
      BeforeStays(w, w', p);
    }
  }

  lemma ReleaseMoves(w: World, w': World, p: Pid, outcome: Outcome)
    requires Inv(w) && ReleaseLock(w, w', p) && w.proxies[p].pc == Release(Return(outcome))
    ensures OwnStep(w, w', p) && w'.daemons == w.daemons
    ensures w'.proxies[p]
            == w.proxies[p].(pc := if w.proxies[p].held > 0 then Unlock(Return(outcome)) else Done(outcome))
  {
    ReleaseKeeps(w, w', p);
  }

  lemma ReleaseAdvances(w: World, w': World, p: Pid)
    requires Lone(w, p) && ReleaseLock(w, w', p)
    ensures Advances(w, w', p)
  {
    var outcome := w.proxies[p].pc.next.outcome;
    ReleaseMoves(w, w', p, outcome);
    OthersStayQuiet(w, w', p);
    DecisionStays(w, w', p, outcome);
  }

  lemma FinishReleaseAdvances(w: World, w': World, p: Pid)
    requires Lone(w, p) && FinishRelease(w, w', p)
    ensures Advances(w, w', p)
  {
    OthersStayQuiet(w, w', p);
    DecisionStays(w, w', p, w.proxies[p].pc.next.outcome);
  }

  /** A move of the child to a later phase. */
  lemma PhaseAdvances(w: World, w': World, p: Pid, d: Pid)
    requires Lone(w, p) && d in w.daemons && w.daemons[d].starter == p && d in w'.daemons
    requires w'.proxies == w.proxies && w'.daemons == w.daemons[d := w.daemons[d].(phase := w'.daemons[d].phase)]
    requires Live(w'.daemons[d]) && PhaseRank(w'.daemons[d].phase) < PhaseRank(w.daemons[d].phase)
    ensures Advances(w, w', p)
  {
    var me := w.proxies[p];
    assert d in Children(w, p);
    assert Children(w', p) == Children(w, p);
    assert Children(w, p) == {d};
    ChildRankIs(w, p, d);
    ChildRankIs(w', p, d);
    assert w'.daemons[d].phase != Booting;
    assert Has(w, p, me, d) ==> Has(w', p, me, d);
  }

  lemma DaemonAdvances(w: World, w': World, p: Pid, d: Pid, move: DaemonMove)
    requires Lone(w, p) && Allowed(w, p, DaemonStep(d, move)) && DaemonNext(w, w', d, move)
    ensures Advances(w, w', p)
  {
    if move == DoVerifyLock {
      VerifyLockKeeps(w, w', d);
    }
    PhaseAdvances(w, w', p, d);
  }

  lemma LockMoveAdvances(w: World, w': World, p: Pid, move: LockMove)
    requires Lone(w, p) && Allowed(w, p, LockStep(p, move)) && LockNext(INDIVISIBLE, w, w', p, move)
    ensures Advances(w, w', p)
  {
    match move
    case DoReuse => ReuseAdvances(w, w', p);
    case DoLoop => LoopAdvances(w, w', p);
    case DoOpen => OpenAdvances(w, w', p);
    case DoWrite => WriteAdvances(w, w', p);
    case DoInspect => InspectAdvances(w, w', p);
    case DoRelease => ReleaseAdvances(w, w', p);
    case DoFinishRelease => FinishReleaseAdvances(w, w', p);
    case _ =>
  }

  lemma GateMoveAdvances(w: World, w': World, p: Pid, move: GateMove)
    requires Lone(w, p) && GateNext(INDIVISIBLE, w, w', p, move)
    ensures Advances(w, w', p)
  {
    match move
    case DoVisitLock(root) => VisitLockAdvances(w, w', p, root);
    case DoStartRegistryScan => StartRegistryScanAdvances(w, w', p);
    case DoVisitEntry(root) => VisitEntryAdvances(w, w', p, root);
    case DoGatePassed => GatePassedAdvances(w, w', p);
  }

  lemma ChildMoveAdvances(w: World, w': World, p: Pid, move: ChildMove)
    requires Lone(w, p) && Allowed(w, p, ChildStep(p, move)) && ChildNext(w, w', p, move)
    ensures Advances(w, w', p)
  {
    match move
    case DoSpawn(child) => SpawnAdvances(w, w', p, child);
    case DoPollFound => PollFoundAdvances(w, w', p);
    case DoPublish => PublishAdvances(w, w', p);
  }

  lemma StepAdvances(w: World, w': World, p: Pid, step: Step)
    requires Lone(w, p) && Allowed(w, p, step) && NextStep(INDIVISIBLE, w, w', step)
    ensures Advances(w, w', p)
  {
    match step
    case LockStep(q, move) => LockMoveAdvances(w, w', p, move);
    case GateStep(q, move) => GateMoveAdvances(w, w', p, move);
    case ChildStep(q, move) => ChildMoveAdvances(w, w', p, move);
    case DaemonStep(d, move) => DaemonAdvances(w, w', p, d, move);
  }

  /** Every step of a lone proxy and its child leaves less to do. */
  lemma LoneStepKeeps(w: World, w': World, p: Pid)
    requires Lone(w, p) && LoneNext(w, w', p)
    ensures Lone(w', p) && Advances(w, w', p)
  {
    var step :| Allowed(w, p, step) && NextStep(INDIVISIBLE, w, w', step);
    StepKeeps(w, w', step);
    StepTraced(w, w', step);
    StepAdvances(w, w', p, step);
  }

  // ----- Until the call has ended and the daemon serves, something can run -----

  /** The proxy has ended, holding no lock, and if it started a daemon this one serves. */
  ghost predicate Finished(w: World, p: Pid) {
    && p in w.proxies && w.proxies[p].pc.Done? && w.proxies[p].held == 0
    && Decides(w, p, w.proxies[p], w.proxies[p].pc.result)
    && (w.proxies[p].pc.result.Spawned? ==> w.daemons[w.proxies[p].pc.result.pid].phase == Serving)
  }

  lemma Continues(w: World, w': World, p: Pid, step: Step)
    requires Allowed(w, p, step) && NextStep(INDIVISIBLE, w, w', step)
    ensures CanContinue(w, p)
  {
    assert LoneNext(w, w', p);
  }

  lemma MoveContinues(w: World, p: Pid)
    requires CanMove(w, p)
    ensures CanContinue(w, p)
  {
    var w' :| MovesTo(w, w', p);
    var step :| OwnMove(p, step) && NextStep(INDIVISIBLE, w, w', step);
    Continues(w, w', p, step);
  }

  /** A child that does not serve yet can go on. */
  lemma ChildCanRun(w: World, p: Pid, d: Pid)
    requires Lone(w, p) && d in w.daemons && Has(w, p, w.proxies[p], d) && w.daemons[d].phase != Serving
    ensures CanContinue(w, p)
  {
    var me := w.daemons[d];
    var own := OwnPath(me.runtime, me.root);
    assert d in Children(w, p);
    match me.phase
    case Booting =>
      Continues(w, SetPhase(w.(locks := w.locks[own := LockEntry(d, me.root)]), d, Locked), p,
                DaemonStep(d, DoWriteLock));
    case Locked =>
      Continues(w, SetPhase(w, d, if WonRace(w, d) then Verified else Retired), p, DaemonStep(d, DoVerifyLock));
    case Verified =>
      Continues(w, SetPhase(w, d, Serving), p, DaemonStep(d, DoRegisterSelf(false)));
  }

  lemma PollCanRun(w: World, p: Pid)
    requires Lone(w, p) && w.proxies[p].pc.Poll?
    ensures CanContinue(w, p)
  {
    var me := w.proxies[p];
    var d := me.pc.child;
    if w.daemons[d].phase == Booting {
      ChildCanRun(w, p, d);
    } else {
      assert DaemonOk(w, d, w.daemons[d]);
      Continues(w, SetPc(w, p, Publish(d, d)), p, ChildStep(p, DoPollFound));
    }
  }

  /** Until the proxy has ended and its daemon serves, one of them can run. */
  lemma NeverStuck(w: World, p: Pid)
    requires Lone(w, p) && !Finished(w, p)
    ensures CanContinue(w, p)
  {
    var me := w.proxies[p];
    assert ProxyOk(w, p, me);
    if me.pc.Poll? {
      PollCanRun(w, p);
    } else if me.pc.Done? {
      ChildCanRun(w, p, me.pc.result.pid);
    } else {
      ProxyCanMove(w, p);
      MoveContinues(w, p);
    }
  }

  // ----- Every schedule -----

  /** The states that follow `w` one by one while only `p` and its child run. */
  ghost predicate LoneRun(w: World, rest: seq<World>, p: Pid)
    decreases rest
  {
    rest == [] || (LoneNext(w, rest[0], p) && LoneRun(rest[0], rest[1..], p))
  }

  lemma {:induction false} LoneRunBounded(w: World, rest: seq<World>, p: Pid)
    requires Lone(w, p) && LoneRun(w, rest, p)
    ensures var last := Last(w, rest);
            && Lone(last, p) && Others(last, p) == Others(w, p)
            && last.proxies[p].runtime == w.proxies[p].runtime && last.proxies[p].root == w.proxies[p].root
            && |rest| + Left(last, p) <= Left(w, p)
    decreases rest
  {
    if rest != [] {
      LoneStepKeeps(w, rest[0], p);
      LoneRunBounded(rest[0], rest[1..], p);
      assert Last(rest[0], rest[1..]) == Last(w, rest);
    }
  }

  /** The daemon was started by `p`, serves the root, and its lock file and registry entry stand. */
  predicate Published(w: World, p: Pid, d: Pid, root: Root) {
    && d in w.daemons && w.daemons[d].starter == p && w.daemons[d].root == root && w.daemons[d].phase == Serving
    && OwnLockStands(w, d, w.daemons[d]) && OwnEntryStands(w, d, w.daemons[d])
  }

  /** A daemon other than the children of `p` that runs in one state runs in the other. */
  lemma OthersSame(w: World, last: World, p: Pid, e: Pid)
    requires Others(last, p) == Others(w, p) && e in w.daemons && w.daemons[e].starter != p
    ensures e in last.daemons && last.daemons[e] == w.daemons[e]
  {
    assert e in Others(w, p) && Others(w, p)[e] == w.daemons[e];
    assert e in Others(last, p) && Others(last, p)[e] == last.daemons[e];
  }

  /** A proxy that has ended started its daemon if and only if at first nothing live overlapped its root, and otherwise
      names one that did. */
  ghost predicate EndedRight(w: World, last: World, p: Pid, root: Root) {
    && p in last.proxies && last.proxies[p].pc.Done? && last.proxies[p].held == 0
    && var outcome := last.proxies[p].pc.result;
       if NoLiveOverlap(w, root) then outcome.Spawned? && Published(last, p, outcome.pid, root)
       else outcome.Conflicting? && outcome.pid in w.daemons && Live(w.daemons[outcome.pid])
            && RootsOverlap(root, w.daemons[outcome.pid].root)
  }

  lemma FinishedRight(w: World, last: World, p: Pid)
    requires Lone(w, p) && Lone(last, p) && Finished(last, p) && Children(w, p) == {} && Others(last, p) == Others(w, p)
    requires last.proxies[p].root == w.proxies[p].root
    ensures EndedRight(w, last, p, w.proxies[p].root)
  {
    var me := last.proxies[p];
    match me.pc.result
    case Spawned(d) =>
      assert DaemonOk(last, d, last.daemons[d]);
      assert d in Children(last, p);
      forall e | e in w.daemons && Live(w.daemons[e])
        ensures !RootsOverlap(w.daemons[e].root, me.root)
      {
        assert e !in Children(w, p);
        OthersSame(w, last, p, e);
      }
    case Conflicting(e) =>
      assert e !in Children(last, p);
      OthersSame(last, w, p, e);
      OverlapMeansSharedPath(me.root, w.daemons[e].root);
  }

  lemma LastEnded(w: World, last: World, p: Pid)
    requires Lone(w, p) && Lone(last, p) && Children(w, p) == {} && Others(last, p) == Others(w, p)
    requires last.proxies[p].root == w.proxies[p].root
    ensures CanContinue(last, p) || EndedRight(w, last, p, w.proxies[p].root)
  {
    if Finished(last, p) {
      FinishedRight(w, last, p);
    } else {
      NeverStuck(last, p);
    }
  }

  // ----- When a daemon serves the root already -----

  /** The proxy goes straight to the daemon that serves its root. */
  ghost predicate Joins(w: World, p: Pid, d: Pid) {
    && Heading(w, p, d) && Children(w, p) == {} && w.proxies[p].held == 0
    && w.proxies[p].pc in {Reuse, Waiting(d), Release(Return(Attached(d))), Done(Attached(d))}
  }

  ghost predicate Joining(w: World, p: Pid, d: Pid) {
    Inv(w) && Traced(w) && Joins(w, p, d)
  }

  lemma ChildlessMoves(w: World, p: Pid, step: Step)
    requires Allowed(w, p, step) && Children(w, p) == {}
    ensures OwnMove(p, step)
  {
    forall e | e in w.daemons
      ensures w.daemons[e].starter != p
    {
      assert e !in Children(w, p);
    }
  }

  lemma JoiningMoves(w: World, w': World, p: Pid, d: Pid, step: Step)
    requires Joining(w, p, d) && OwnMove(p, step) && NextStep(INDIVISIBLE, w, w', step)
    ensures w'.daemons == w.daemons && p in w'.proxies && w'.proxies[p].held == 0
    ensures w'.proxies[p].pc in {Reuse, Waiting(d), Release(Return(Attached(d))), Done(Attached(d))}
  {
    ServesRecorded(w, d, w.proxies[p].runtime, w.proxies[p].root);
    assert step.LockStep?;
    LockDaemons(w, w', p, step.lockMove);
  }

  lemma JoinsStill(w: World, w': World, p: Pid, d: Pid, files: nat, entries: nat)
    requires Joins(w, p, d) && w'.daemons == w.daemons && p in w'.proxies && w'.proxies[p].held == 0
    requires w'.proxies[p].pc in {Reuse, Waiting(d), Release(Return(Attached(d))), Done(Attached(d))}
    requires Closer(w.proxies[p], w'.proxies[p], d, files, entries)
    ensures Joins(w', p, d) && Steps(w'.proxies[p], 0, 0) < Steps(w.proxies[p], 0, 0)
  {
    SameChildren(w, w', p);
  }

  lemma JoiningStep(w: World, w': World, p: Pid, d: Pid)
    requires Joining(w, p, d) && LoneNext(w, w', p)
    ensures Joining(w', p, d) && Steps(w'.proxies[p], 0, 0) < Steps(w.proxies[p], 0, 0)
  {
    var step :| Allowed(w, p, step) && NextStep(INDIVISIBLE, w, w', step);
    var files, entries := |LockRoots(w, w.proxies[p].runtime)|, |w.registry|;
    ChildlessMoves(w, p, step);
    OwnMoveCloser(w, w', p, d, step, files, entries);
    JoiningMoves(w, w', p, d, step);
    JoinsStill(w, w', p, d, files, entries);
    StepKeeps(w, w', step);
    StepTraced(w, w', step);
  }

  lemma {:induction false} JoiningRun(w: World, rest: seq<World>, p: Pid, d: Pid)
    requires Joining(w, p, d) && LoneRun(w, rest, p)
    ensures Joining(Last(w, rest), p, d)
    ensures |rest| + Steps(Last(w, rest).proxies[p], 0, 0) <= Steps(w.proxies[p], 0, 0)
    decreases rest
  {
    if rest != [] {
      JoiningStep(w, rest[0], p, d);
      JoiningRun(rest[0], rest[1..], p, d);
      assert Last(rest[0], rest[1..]) == Last(w, rest);
    }
  }

  lemma JoiningEnds(w: World, p: Pid, d: Pid)
    requires Joining(w, p, d)
    ensures CanContinue(w, p) || w.proxies[p].pc == Done(Attached(d))
  {
    if !w.proxies[p].pc.Done? {
      HeadingCanMove(w, p, d);
      MoveContinues(w, p);
    }
  }

  // ----- The whole call -----

  lemma ArrivedChildless(w: World, w': World, p: Pid, runtime: RuntimeDir, root: Root)
    requires Inv(w) && Traced(w) && Arrive(w, w', p, runtime, root)
    ensures Inv(w') && Traced(w') && Children(w', p) == {} && w'.daemons == w.daemons
    ensures p in w'.proxies && w'.proxies[p] == Proxy(runtime, root, 0, Reuse)
  {
    StepKeeps(w, w', LockStep(p, DoArrive(runtime, root)));
    StepTraced(w, w', LockStep(p, DoArrive(runtime, root)));
    forall d | d in w'.daemons
      ensures w'.daemons[d].starter != p
    {
    }
  }

  /** In a quiet state every live daemon accepts connections. */
  lemma QuietConnectable(w: World, d: Pid)
    requires Inv(w) && Quiet(w) && d in w.daemons && Live(w.daemons[d])
    ensures Connectable(w, d)
  {
    assert DaemonOk(w, d, w.daemons[d]);
    forall q | q in w.proxies
      ensures !w.proxies[q].pc.Poll? && !w.proxies[q].pc.Publish?
    {
      assert ProxyOk(w, q, w.proxies[q]);
    }
  }

  lemma ArrivedLone(w: World, w': World, p: Pid, runtime: RuntimeDir, root: Root)
    requires Inv(w) && Traced(w) && Quiet(w) && Arrive(w, w', p, runtime, root)
    requires forall d :: !Serves(w', d, runtime, root)
    ensures Lone(w', p) && Left(w', p) == 31 + |w'.registry| + |LockRoots(w', runtime)|
  {
    ArrivedChildless(w, w', p, runtime, root);
    forall d | d in w'.daemons && Live(w'.daemons[d])
      ensures (w'.daemons[d].runtime, w'.daemons[d].root) != (runtime, root)
    {
      QuietConnectable(w, d);
      assert !Serves(w', d, runtime, root);
    }
  }

  /** The call has ended: attached to the daemon that served the root when it began; or, if there was none, with a
      daemon of its own, published and serving, if nothing live overlapped the root; or else with a conflict that
      names a live daemon whose root does. */
  ghost predicate CallEnded(w: World, last: World, p: Pid, runtime: RuntimeDir, root: Root) {
    && p in last.proxies && last.proxies[p].pc.Done? && last.proxies[p].held == 0
    && var outcome := last.proxies[p].pc.result;
       && (forall d :: Serves(w, d, runtime, root) ==> outcome == Attached(d))
       && (NoLiveOverlap(w, root) ==> outcome.Spawned? && Published(last, p, outcome.pid, root))
       && ((forall d :: !Serves(w, d, runtime, root)) && !NoLiveOverlap(w, root) ==>
             && outcome.Conflicting? && outcome.pid in w.daemons && Live(w.daemons[outcome.pid])
             && RootsOverlap(root, w.daemons[outcome.pid].root))
  }

  /** At the end of any run in which the files left over at its beginning name pids that had been given out, let no
      process hold or be acquiring a PID lock, and let a proxy arrive.  Every schedule of that proxy and its child
      without an abort, a crash, a failed poll or a failed write is bounded by the number of files in its way; and one
      that cannot be continued has ended the call as it must end. */
  lemma EveryScheduleEnds(before: seq<World>, w: World, rest: seq<World>, p: Pid, runtime: RuntimeDir, root: Root)
    requires IsRun(INDIVISIBLE, before) && LocksUsed(before[0]) && Quiet(before[|before| - 1])
    requires Arrive(before[|before| - 1], w, p, runtime, root) && LoneRun(w, rest, p)
    ensures |rest| <= 31 + |w.registry| + |LockRoots(w, runtime)|
    ensures CanContinue(Last(w, rest), p) || CallEnded(w, Last(w, rest), p, runtime, root)
  {
    RunKeepsInv(before, |before| - 1);
    RunTraced(before, |before| - 1);
    CallEnds(before[|before| - 1], w, rest, p, runtime, root);
  }

  lemma CallEnds(b: World, w: World, rest: seq<World>, p: Pid, runtime: RuntimeDir, root: Root)
    requires Inv(b) && Traced(b) && Quiet(b) && Arrive(b, w, p, runtime, root) && LoneRun(w, rest, p)
    ensures |rest| <= 31 + |w.registry| + |LockRoots(w, runtime)|
    ensures CanContinue(Last(w, rest), p) || CallEnded(w, Last(w, rest), p, runtime, root)
  {
    if d :| Serves(w, d, runtime, root) {
      AttachedCall(b, w, rest, p, d, runtime, root);
    } else {
      OtherCall(b, w, rest, p, runtime, root);
    }
  }

  lemma AttachedCall(b: World, w: World, rest: seq<World>, p: Pid, d: Pid, runtime: RuntimeDir, root: Root)
    requires Inv(b) && Traced(b) && Arrive(b, w, p, runtime, root) && LoneRun(w, rest, p) && Serves(w, d, runtime, root)
    ensures |rest| <= 3
    ensures CanContinue(Last(w, rest), p) || CallEnded(w, Last(w, rest), p, runtime, root)
  {
    ArrivedChildless(b, w, p, runtime, root);
    JoiningRun(w, rest, p, d);
    JoiningEnds(Last(w, rest), p, d);
    assert RootsOverlap(root, root);
    forall e | Serves(w, e, runtime, root)
      ensures e == d
    {
    }
  }

  lemma OtherCall(b: World, w: World, rest: seq<World>, p: Pid, runtime: RuntimeDir, root: Root)
    requires Inv(b) && Traced(b) && Quiet(b) && Arrive(b, w, p, runtime, root) && LoneRun(w, rest, p)
    requires forall d :: !Serves(w, d, runtime, root)
    ensures |rest| <= 31 + |w.registry| + |LockRoots(w, runtime)|
    ensures CanContinue(Last(w, rest), p) || CallEnded(w, Last(w, rest), p, runtime, root)
  {
    ArrivedLone(b, w, p, runtime, root);
    ArrivedChildless(b, w, p, runtime, root);
    LoneRunBounded(w, rest, p);
    LastEnded(w, Last(w, rest), p);
  }
}
