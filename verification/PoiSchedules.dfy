/** What the worker pool guarantees under every order in which the event loop runs its workers. */
module PoiSchedules {
  import opened PoiPool

  // ----- Every schedule -----

  /** A schedule names, step by step, the worker that the event loop runs; no step of it raises. */
  predicate Runs(p: Pool, first: Oracle, schedule: seq<nat>)
    decreases schedule
  {
    schedule == []
    || (&& Ready(p, schedule[0]) && !Raises(p, first, schedule[0])
        && Runs(Step(p, first, schedule[0]), first, schedule[1..]))
  }

  function Execute(p: Pool, first: Oracle, schedule: seq<nat>): Pool
    requires Runs(p, first, schedule)
    decreases schedule
  {
    if schedule == [] then p else Execute(Step(p, first, schedule[0]), first, schedule[1..])
  }

  lemma {:induction false} ScheduleKeepsInv(p: Pool, n: nat, first: Oracle, schedule: seq<nat>)
    requires PoolInv(p, n) && Agrees(p, first) && Runs(p, first, schedule)
    ensures PoolInv(Execute(p, first, schedule), n) && Agrees(Execute(p, first, schedule), first)
    decreases schedule
  {
    if schedule != [] {
      StepKeeps(p, n, first, schedule[0]);
      StepAgrees(p, first, schedule[0]);
      ScheduleKeepsInv(Step(p, first, schedule[0]), n, first, schedule[1..]);
    }
  }

  predicate AllExited(p: Pool) {
    forall w :: 0 <= w < |p.workers| ==> p.workers[w].Exited?
  }

  /** No schedule pops from an empty queue or miscounts the work in flight, and none gets stuck: until
      every worker has exited, some worker can run. */
  lemma NeverStuck(n: nat, jobs: nat, first: Oracle, schedule: seq<nat>)
    requires jobs >= 1 && Runs(Start(n, jobs), first, schedule)
    ensures var p := Execute(Start(n, jobs), first, schedule);
            && (forall w :: 0 <= w < |p.workers| ==> !p.workers[w].Crashed?)
            && p.inFlight == BusyCount(p.workers)
            && (AllExited(p) || exists w :: Ready(p, w))
  {
    StartInv(n, jobs);
    ScheduleKeepsInv(Start(n, jobs), n, first, schedule);
    SomeoneReady(Execute(Start(n, jobs), first, schedule), n);
  }

  lemma SomeoneReady(p: Pool, n: nat)
    requires PoolInv(p, n)
    ensures forall w :: 0 <= w < |p.workers| ==> !p.workers[w].Crashed?
    ensures AllExited(p) || exists w :: Ready(p, w)
  {
    forall w | 0 <= w < |p.workers|
      ensures !p.workers[w].Crashed?
    {
      assert WorkerOk(p, w);
    }
    if !AllExited(p) {
      var w :| 0 <= w < |p.workers| && !p.workers[w].Exited?;
      if p.workers[w].Waiting? {
        assert WorkerOk(p, w);
        var v := BusyWitness(p.workers);
        assert Ready(p, v);
      } else {
        assert Ready(p, w);
      }
    }
  }

  /** Once a retryable error was met, a point is taken only by worker 0 and only with nothing else in flight. */
  lemma SerialAfterBackoff(n: nat, jobs: nat, first: Oracle, schedule: seq<nat>, w: nat)
    requires jobs >= 1 && Runs(Start(n, jobs), first, schedule)
    requires var p := Execute(Start(n, jobs), first, schedule);
             && Ready(p, w) && !Raises(p, first, w) && Step(p, first, w).taken != p.taken
             && exists i :: i in p.retry && first(i).RetryableError?
    ensures var p := Execute(Start(n, jobs), first, schedule);
            && w == 0 && p.inFlight == 0 && (forall v :: 0 <= v < |p.workers| ==> !IsBusy(p.workers[v]))
            && p.pending != [] && Step(p, first, w).taken == p.taken + [p.pending[0]]
  {
    StartInv(n, jobs);
    ScheduleKeepsInv(Start(n, jobs), n, first, schedule);
    var p := Execute(Start(n, jobs), first, schedule);
    assert WorkerOk(p, w);
    forall v | 0 <= v < |p.workers|
      ensures p.inFlight == 0 ==> !IsBusy(p.workers[v])
    {
      if IsBusy(p.workers[v]) {
        BusyPositive(p.workers, v);
      }
    }
  }

  /** Some point whose first answer was a retryable error is due for a retry. */
  ghost predicate BackedOff(p: Pool, first: Oracle) {
    exists i :: i in p.retry && first(i).RetryableError?
  }

  predicate NoneBusy(p: Pool) {
    forall v :: 0 <= v < |p.workers| ==> !IsBusy(p.workers[v])
  }

  /** A worker that asks for a point while some are left gets the first of them if and only if no retryable error
      was met, or it is worker 0 and no call is in flight.  Otherwise worker 0 waits and any other worker stops. */
  lemma TakesExactlyWhen(n: nat, jobs: nat, first: Oracle, schedule: seq<nat>, w: nat)
    requires jobs >= 1 && Runs(Start(n, jobs), first, schedule)
    requires var p := Execute(Start(n, jobs), first, schedule);
             && Ready(p, w) && !Raises(p, first, w) && p.workers[w] in {Fetching, Woken} && p.pending != []
    ensures var p := Execute(Start(n, jobs), first, schedule);
            var p' := Step(p, first, w);
            && (p'.taken == p.taken + [p.pending[0]] <==> !BackedOff(p, first) || (w == 0 && NoneBusy(p)))
            && (p'.taken == p.taken <==> BackedOff(p, first) && (w != 0 || !NoneBusy(p)))
            && p'.workers[w] == if p'.taken != p.taken then Running(p.pending[0])
                                else if w == 0 then Waiting else Exited
  {
    StartInv(n, jobs);
    ScheduleKeepsInv(Start(n, jobs), n, first, schedule);
    var p := Execute(Start(n, jobs), first, schedule);
    assert WorkerOk(p, w);
    NoneBusyMeans(p, n);
  }

  lemma NoneBusyMeans(p: Pool, n: nat)
    requires PoolInv(p, n)
    ensures NoneBusy(p) <==> p.inFlight == 0
  {
    if p.inFlight == 0 {
      forall v | 0 <= v < |p.workers|
        ensures !IsBusy(p.workers[v])
      {
        if IsBusy(p.workers[v]) {
          BusyPositive(p.workers, v);
        }
      }
    } else {
      var v := BusyWitness(p.workers);
    }
  }

  /** A worker stops if and only if it asks for a point when none is left, or when it is not worker 0 and a
      retryable error was met; and when it is done with a point it asks for another one. */
  lemma ExitsExactlyWhen(n: nat, jobs: nat, first: Oracle, schedule: seq<nat>, w: nat)
    requires jobs >= 1 && Runs(Start(n, jobs), first, schedule)
    requires var p := Execute(Start(n, jobs), first, schedule); Ready(p, w) && !Raises(p, first, w)
    ensures var p := Execute(Start(n, jobs), first, schedule);
            var next := Step(p, first, w).workers[w];
            && (next == Exited <==> p.workers[w] == Fetching && (p.pending == [] || (w != 0 && BackedOff(p, first))))
            && (next == Fetching <==> p.workers[w].Finishing?)
            && (p.workers[w].Running? ==> next == Finishing(p.workers[w].idx))
  {
    StartInv(n, jobs);
    ScheduleKeepsInv(Start(n, jobs), n, first, schedule);
    assert WorkerOk(Execute(Start(n, jobs), first, schedule), w);
  }

  // ----- Termination of every schedule -----

  function Weight(state: Worker): nat {
    match state
    case Exited => 0 case Crashed => 0 case Waiting => 1 case Woken => 2
    case Fetching => 3 case Finishing(_) => 5 case Running(_) => 6
  }

  function TotalWeight(workers: seq<Worker>): nat {
    if workers == [] then 0 else Weight(workers[0]) + TotalWeight(workers[1..])
  }

  /** Work left: every step lowers it. */
  function Measure(p: Pool): nat {
    10 * |p.pending| + TotalWeight(p.workers)
  }

  lemma {:induction false} UpdateWeight(workers: seq<Worker>, w: nat, state: Worker)
    requires w < |workers|
    ensures TotalWeight(workers[w := state]) == TotalWeight(workers) - Weight(workers[w]) + Weight(state)
  {
    if w == 0 {
      assert workers[w := state][1..] == workers[1..];
    } else {
      UpdateWeight(workers[1..], w - 1, state);
      assert workers[w := state][1..] == workers[1..][w - 1 := state];
    }
  }

  lemma WakeWeight(workers: seq<Worker>)
    requires |workers| >= 1 && forall w :: 1 <= w < |workers| ==> workers[w] != Waiting
    ensures TotalWeight(Wake(workers)) <= TotalWeight(workers) + 1
  {
    assert Wake(workers)[1..] == workers[1..];
  }

  lemma StepLowersMeasure(p: Pool, n: nat, first: Oracle, w: nat)
    requires PoolInv(p, n) && Ready(p, w) && !Raises(p, first, w)
    ensures Measure(Step(p, first, w)) < Measure(p)
  {
    var p' := Step(p, first, w);
    assert WorkerOk(p, w);
    match p.workers[w]
    case Fetching => UpdateWeight(p.workers, w, p'.workers[w]);
    case Woken => UpdateWeight(p.workers, w, p'.workers[w]);
    case Running(idx) => UpdateWeight(p.workers, w, Finishing(idx));
    case Finishing(_) =>
      UpdateWeight(p.workers, w, Fetching);
      var moved := p.workers[w := Fetching];
      forall v | 1 <= v < |moved|
        ensures moved[v] != Waiting
      {
        assert WorkerOk(p, v);
      }
      WakeWeight(moved);
  }

  /** Every schedule is finite: its length is bounded by the work there was at the start. */
  lemma {:induction false} ScheduleBounded(p: Pool, n: nat, first: Oracle, schedule: seq<nat>)
    requires PoolInv(p, n) && Runs(p, first, schedule)
    ensures |schedule| + Measure(Execute(p, first, schedule)) <= Measure(p)
    decreases schedule
  {
    if schedule != [] {
      StepLowersMeasure(p, n, first, schedule[0]);
      StepKeeps(p, n, first, schedule[0]);
      ScheduleBounded(Step(p, first, schedule[0]), n, first, schedule[1..]);
    }
  }

  /** A point whose result is awaited is one of the points. */
  lemma AwaitedInRange(p: Pool, n: nat, w: nat)
    requires PoolInv(p, n) && IsWorker(p, w) && p.workers[w].Running?
    ensures 1 <= p.workers[w].idx <= n
  {
    RunningAwaited(p.workers, w);
    assert Places(p, p.workers[w].idx) >= 1;
  }

  /** When every worker has exited the queue is empty, nothing is in flight, every point was taken once
      in order, and each is either recorded once or due for one retry. */
  lemma FirstPassComplete(p: Pool, n: nat)
    requires PoolInv(p, n) && AllExited(p)
    ensures p.pending == [] && p.inFlight == 0 && p.taken == Range(1, n + 1)
    ensures forall i: nat :: Recorded(p.successful, i) + (if i in p.retry then 1 else 0) == if 1 <= i <= n then 1 else 0
  {
    IdleCounts(p.workers, 0);
    forall i: nat
      ensures Recorded(p.successful, i) + (if i in p.retry then 1 else 0) == if 1 <= i <= n then 1 else 0
    {
      IdleCounts(p.workers, i);
      assert Places(p, i) == if 1 <= i <= n then 1 else 0;
    }
  }
}
