/** What the startup protocol guarantees in every run, and exactly when. */
module StartupSafety {
  import opened ProjectRoots
  import opened StartupProtocol
  import opened StartupInvariant
  import opened StartupRaces

  // ----- Guarantees of every run -----

  lemma {:induction false} RunKeepsInv(run: seq<World>, i: nat)
    requires IsRun(INDIVISIBLE, run) && i < |run|
    ensures Inv(run[i])
  {
    if i == 0 {
      InitialInv(run[0]);
    } else {
      RunKeepsInv(run, i - 1);
      assert Follows(INDIVISIBLE, run, i - 1);
      var step :| NextStep(INDIVISIBLE, run[i - 1], run[i], step);
      StepKeeps(run[i - 1], run[i], step);
    }
  }

  lemma ReachableInv(w: World)
    requires Reachable(INDIVISIBLE, w)
    ensures Inv(w)
  {
    var run :| IsRun(INDIVISIBLE, run) && run[|run| - 1] == w;
    RunKeepsInv(run, |run| - 1);
  }

  /** No path is ever under the roots of two live daemons, starting or published. */
  lemma NoPathServedTwice(w: World, d: Pid, e: Pid, path: Root)
    requires Reachable(INDIVISIBLE, w)
    requires d in w.daemons && e in w.daemons && Live(w.daemons[d]) && Live(w.daemons[e])
    requires IsRelativeTo(path, w.daemons[d].root) && IsRelativeTo(path, w.daemons[e].root)
    ensures d == e
  {
    ReachableInv(w);
    OverlapMeansSharedPath(w.daemons[d].root, w.daemons[e].root);
  }

  /** A live daemon keeps the lock file it wrote, and once its starter has let go of it a registry entry
      that names that file: no stale-metadata cleanup of any proxy ever takes either away. */
  lemma PublishedArtifactsStand(w: World, d: Pid)
    requires Reachable(INDIVISIBLE, w) && d in w.daemons && Live(w.daemons[d])
    ensures w.daemons[d].phase != Booting ==> OwnLockStands(w, d, w.daemons[d])
    ensures !HasStarter(w, d, w.daemons[d]) ==>
              && OwnLockStands(w, d, w.daemons[d]) && OwnEntryStands(w, d, w.daemons[d])
              && EntryBacked(w, w.registry[w.daemons[d].root])
  {
    ReachableInv(w);
    assert DaemonOk(w, d, w.daemons[d]);
  }

  /** Each PID lock has at most one running process that counts it as held, and its file says so;
      the locks are held in nested order; the starter lock is never refused under the other two; and a
      daemon that re-reads the lock it wrote always finds itself. */
  lemma LockDiscipline(w: World)
    requires Reachable(INDIVISIBLE, w)
    ensures forall p, q, name ::
              p in w.proxies && q in w.proxies && Owns(w.proxies[p], name) && Owns(w.proxies[q], name)
              ==> p == q && FileIs(w, name, p)
    ensures forall p, runtime, root ::
              p in w.proxies && FileIs(w, Starter(runtime, root), p) ==> FileIs(w, GlobalStartup(runtime), p)
    ensures forall p, runtime :: p in w.proxies && FileIs(w, GlobalStartup(runtime), p) ==> FileIs(w, CrossRuntime, p)
    ensures forall p :: p in w.proxies ==> w.proxies[p].pc != StarterUnavailable
    ensures forall d :: d in w.daemons && w.daemons[d].phase == Locked ==> WonRace(w, d)
  {
    ReachableInv(w);
    forall p | p in w.proxies
      ensures HoldsNest(w, p, w.proxies[p]) && w.proxies[p].pc != StarterUnavailable
    {
      assert ProxyOk(w, p, w.proxies[p]);
    }
    forall p, runtime, root | p in w.proxies && FileIs(w, Starter(runtime, root), p)
      ensures FileIs(w, GlobalStartup(runtime), p)
    {
      assert FileOk(w, Starter(runtime, root), w.pidFiles[Starter(runtime, root)]);
    }
    forall p, runtime | p in w.proxies && FileIs(w, GlobalStartup(runtime), p)
      ensures FileIs(w, CrossRuntime, p)
    {
      assert FileOk(w, GlobalStartup(runtime), w.pidFiles[GlobalStartup(runtime)]);
    }
    forall d | d in w.daemons && w.daemons[d].phase == Locked
      ensures WonRace(w, d)
    {
      assert DaemonOk(w, d, w.daemons[d]);
    }
  }

  // ----- Exactly when the protocol is safe -----

  /** In every reachable state no two live daemons have identical or nested roots. */
  ghost predicate AlwaysSafe(g: Atomicity) {
    forall w :: Reachable(g, w) ==> RootsDisjoint(w)
  }

  /** The protocol is safe in every run if and only if no other process can run inside any of the five
      read-then-unlink pairs. */
  lemma SafeExactlyWhenIndivisible(g: Atomicity)
    ensures AlwaysSafe(g) <==> g.reclaim && g.cleanReuse && g.dropLock && g.dropEntry && g.retire
  {
    if g == INDIVISIBLE {
      forall w | Reachable(g, w)
        ensures RootsDisjoint(w)
      {
        ReachableInv(w);
      }
    } else {
      if !g.reclaim {
        DividedReclaimClashes(g);
      } else if !g.cleanReuse {
        DividedCleanReuseClashes(g);
      } else if !g.dropLock {
        DividedDropLockClashes(g);
      } else if !g.dropEntry {
        DividedDropEntryClashes(g);
      } else {
        DividedRetireClashes(g);
      }
      var w :| Reachable(g, w) && Clash(w);
      assert !RootsDisjoint(w);
    }
  }
}
