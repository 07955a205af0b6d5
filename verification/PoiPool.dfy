/** The point-of-interest worker pool with back-off to serial
    (chunkhound/code_mapper/service.py, inside `run_code_mapper_pipeline`).

    Workers are coroutines on one event loop, so a step is the code between two awaits.  The research
    service is an oracle: in one pass every point is asked about at most once, so what a pass is told is a
    function from point numbers to outcomes. */
module PoiPool {

  datatype Outcome =
    | Content(text: string)
    | NoContent
    | RetryableError(message: string)
    | FatalError             // an error that is not retryable, which ends the pipeline

  type Oracle = nat -> Outcome

  /** What one worker is suspended at. */
  datatype Worker =
    | Fetching               // about to call `_next_pending`
    | Waiting                // in `pending_cond.wait()`
    | Woken                  // notified, about to re-check `in_flight`
    | Running(idx: nat)      // awaiting the research result of a point
    | Finishing(idx: nat)    // result recorded, about to call `_mark_item_done`
    | Exited
    | Crashed                // `popleft` on an empty deque

  datatype Section = Section(idx: nat, text: string)
  datatype Failure = Failure(idx: nat, firstError: string, retryError: string)

  /** The variables that the nested functions share.  `taken` records the points handed out, in order. */
  datatype Pool = Pool(
    pending: seq<nat>,
    inFlight: int,
    backoff: bool,
    workers: seq<Worker>,
    successful: seq<Section>,
    retry: map<nat, string>,
    taken: seq<nat>)

  predicate IsWorker(p: Pool, w: int) {
    0 <= w < |p.workers|
  }

  function Become(p: Pool, w: nat, state: Worker): Pool
    requires IsWorker(p, w)
  {
    p.(workers := p.workers[w := state])
  }

  /** `item = pending.popleft(); in_flight += 1`. */
  function Take(p: Pool, w: nat): Pool
    requires IsWorker(p, w)
  {
    if p.pending == [] then Become(p, w, Crashed)
    else Become(p, w, Running(p.pending[0])).(
         pending := p.pending[1..], inFlight := p.inFlight + 1, taken := p.taken + [p.pending[0]])
  }

  /** `_next_pending` up to its first suspension or return. */
  function Fetch(p: Pool, w: nat): Pool
    requires IsWorker(p, w)
  {
    if p.pending == [] then Become(p, w, Exited)
    else if p.backoff && w != 0 then Become(p, w, Exited)
    else if p.backoff && p.inFlight > 0 then Become(p, w, Waiting)
    else Take(p, w)
  }

  /** After a notification: the inner loop re-tests `in_flight` only, then pops unconditionally. */
  function Resume(p: Pool, w: nat): Pool
    requires IsWorker(p, w)
  {
    if p.inFlight > 0 then Become(p, w, Waiting) else Take(p, w)
  }

  function ErrorSummary(outcome: Outcome): string {
    match outcome
    case NoContent => "empty result"
    case RetryableError(message) => message
    case _ => "unknown error"
  }

  /** The tail of `_process_item` once the research call has returned. */
  function Record(p: Pool, w: nat, outcome: Outcome): Pool
    requires IsWorker(p, w) && p.workers[w].Running? && !outcome.FatalError?
  {
    var idx := p.workers[w].idx;
    var p' := Become(p, w, Finishing(idx));
    if outcome.Content? then p'.(successful := p.successful + [Section(idx, outcome.text)])
    else p'.(backoff := p.backoff || outcome.RetryableError?, retry := p.retry[idx := ErrorSummary(outcome)])
  }

  /** `notify_all` on the condition. */
  function Wake(workers: seq<Worker>): (r: seq<Worker>)
    ensures |r| == |workers|
    ensures forall i :: 0 <= i < |workers| ==> r[i] == if workers[i] == Waiting then Woken else workers[i]
  {
    seq(|workers|, i requires 0 <= i < |workers| => if workers[i] == Waiting then Woken else workers[i])
  }

  function MarkDone(p: Pool, w: nat): Pool
    requires IsWorker(p, w)
  {
    var p' := Become(p, w, Fetching).(inFlight := p.inFlight - 1);
    if p'.inFlight == 0 then p'.(workers := Wake(p'.workers)) else p'
  }

  /** A worker that the event loop can run: it has not exited and is not waiting for a notification. */
  predicate Ready(p: Pool, w: int) {
    IsWorker(p, w) && !p.workers[w].Exited? && !p.workers[w].Waiting? && !p.workers[w].Crashed?
  }

  /** The call that this worker awaits returns with a fatal error: the pool is torn down instead. */
  predicate Raises(p: Pool, first: Oracle, w: int) {
    IsWorker(p, w) && p.workers[w].Running? && first(p.workers[w].idx).FatalError?
  }

  /** One step of worker `w`. */
  function Step(p: Pool, first: Oracle, w: nat): Pool
    requires Ready(p, w) && !Raises(p, first, w)
  {
    match p.workers[w]
    case Fetching => Fetch(p, w)
    case Woken => Resume(p, w)
    case Running(idx) => Record(p, w, first(idx))
    case Finishing(_) => MarkDone(p, w)
    case _ => p
  }

  // ----- Bookkeeping -----

  /** lo, lo+1, ..., hi-1. */
  function Range(lo: nat, hi: nat): (r: seq<nat>)
    requires lo <= hi
    ensures |r| == hi - lo && forall i :: 0 <= i < |r| ==> r[i] == lo + i
  {
    seq(hi - lo, i requires 0 <= i < hi - lo => lo + i)
  }

  predicate IsBusy(s: Worker) {
    s.Running? || s.Finishing?
  }

  function BusyCount(workers: seq<Worker>): nat {
    if workers == [] then 0 else (if IsBusy(workers[0]) then 1 else 0) + BusyCount(workers[1..])
  }

  /** How many workers await the research result of point `i`. */
  function Awaited(workers: seq<Worker>, i: nat): nat {
    if workers == [] then 0 else (if workers[0] == Running(i) then 1 else 0) + Awaited(workers[1..], i)
  }

  /** How many sections were recorded for point `i`. */
  function Recorded(sections: seq<Section>, i: nat): nat {
    if sections == [] then 0
    else Recorded(sections[..|sections| - 1], i) + (if sections[|sections| - 1].idx == i then 1 else 0)
  }

  /** In how many places a point is accounted for once it has been taken: awaited, succeeded, to be retried. */
  function Places(p: Pool, i: nat): nat {
    Awaited(p.workers, i) + Recorded(p.successful, i) + (if i in p.retry then 1 else 0)
  }

  function TakenCount(p: Pool, n: nat): int {
    n - |p.pending|
  }

  ghost predicate Accounted(p: Pool, n: nat) {
    forall i: nat :: Places(p, i) == if 1 <= i <= TakenCount(p, n) then 1 else 0
  }

  /** Points are handed out in order, and the queue is what is left. */
  ghost predicate QueueOk(p: Pool, n: nat) {
    && |p.pending| <= n
    && p.pending == Range(TakenCount(p, n) + 1, n + 1)
    && p.taken == Range(1, TakenCount(p, n) + 1)
  }

  ghost predicate WorkersOk(p: Pool) {
    && |p.workers| >= 1
    && p.inFlight == BusyCount(p.workers)
    && (p.workers[0].Exited? ==> p.pending == [])
    && forall w :: 0 <= w < |p.workers| ==> WorkerOk(p, w)
  }

  ghost predicate PoolInv(p: Pool, n: nat) {
    QueueOk(p, n) && WorkersOk(p) && Accounted(p, n)
  }

  predicate WorkerOk(p: Pool, w: nat)
    requires IsWorker(p, w)
  {
    match p.workers[w]
    case Waiting => w == 0 && p.backoff && p.pending != [] && p.inFlight > 0
    case Woken => w == 0 && p.backoff && p.pending != [] && p.inFlight == 0
    case Crashed => false
    case _ => true
  }

  function Start(n: nat, jobs: nat): Pool {
    Pool(Range(1, n + 1), 0, false, seq(jobs, _ => Fetching), [], map[], [])
  }

  lemma {:induction false} IdleCounts(workers: seq<Worker>, i: nat)
    requires forall k :: 0 <= k < |workers| ==> !IsBusy(workers[k])
    ensures BusyCount(workers) == 0 && Awaited(workers, i) == 0
  {
    if workers != [] {
      IdleCounts(workers[1..], i);
    }
  }

  lemma StartInv(n: nat, jobs: nat)
    requires jobs >= 1
    ensures PoolInv(Start(n, jobs), n) && forall first: Oracle :: Agrees(Start(n, jobs), first)
  {
    var p := Start(n, jobs);
    IdleCounts(p.workers, 0);
    forall i: nat
      ensures Places(p, i) == 0
    {
      IdleCounts(p.workers, i);
    }
  }

  lemma {:induction false} UpdateBusy(workers: seq<Worker>, w: nat, state: Worker)
    requires w < |workers|
    ensures BusyCount(workers[w := state])
            == BusyCount(workers) - (if IsBusy(workers[w]) then 1 else 0) + (if IsBusy(state) then 1 else 0)
  {
    if w == 0 {
      assert workers[w := state][1..] == workers[1..];
    } else {
      UpdateBusy(workers[1..], w - 1, state);
      assert workers[w := state][1..] == workers[1..][w - 1 := state];
    }
  }

  lemma {:induction false} UpdateAwaited(workers: seq<Worker>, w: nat, state: Worker, i: nat)
    requires w < |workers|
    ensures Awaited(workers[w := state], i)
            == Awaited(workers, i) - (if workers[w] == Running(i) then 1 else 0)
               + (if state == Running(i) then 1 else 0)
  {
    if w == 0 {
      assert workers[w := state][1..] == workers[1..];
    } else {
      UpdateAwaited(workers[1..], w - 1, state, i);
      assert workers[w := state][1..] == workers[1..][w - 1 := state];
    }
  }

  lemma {:induction false} WakeCounts(workers: seq<Worker>, i: nat)
    ensures BusyCount(Wake(workers)) == BusyCount(workers) && Awaited(Wake(workers), i) == Awaited(workers, i)
  {
    if workers != [] {
      WakeCounts(workers[1..], i);
      assert Wake(workers)[1..] == Wake(workers[1..]);
    }
  }

  lemma {:induction false} BusyPositive(workers: seq<Worker>, w: nat)
    requires w < |workers| && IsBusy(workers[w])
    ensures BusyCount(workers) >= 1
  {
    if w > 0 {
      BusyPositive(workers[1..], w - 1);
    }
  }

  lemma {:induction false} BusyWitness(workers: seq<Worker>) returns (w: nat)
    requires BusyCount(workers) >= 1
    ensures w < |workers| && IsBusy(workers[w])
  {
    if IsBusy(workers[0]) {
      w := 0;
    } else {
      var v := BusyWitness(workers[1..]);
      w := v + 1;
    }
  }

  // ----- Every step keeps the invariant -----

  lemma TakeKeeps(p: Pool, n: nat, w: nat)
    requires PoolInv(p, n) && IsWorker(p, w) && p.pending != [] && !IsBusy(p.workers[w])
    requires p.backoff ==> p.inFlight == 0 && w == 0
    ensures PoolInv(Take(p, w), n)
  {
    var p' := Take(p, w);
    UpdateBusy(p.workers, w, Running(p.pending[0]));
    forall v | 0 <= v < |p'.workers|
      ensures WorkerOk(p', v)
    {
      assert WorkerOk(p, v);
    }
    forall i: nat
      ensures Places(p', i) == if 1 <= i <= TakenCount(p', n) then 1 else 0
    {
      assert Places(p, i) == if 1 <= i <= TakenCount(p, n) then 1 else 0;
      UpdateAwaited(p.workers, w, Running(p.pending[0]), i);
    }
  }

  /** A step that changes no point's whereabouts: the worker stops, waits or starts over. */
  lemma IdleMoveKeeps(p: Pool, n: nat, w: nat, state: Worker)
    requires PoolInv(p, n) && IsWorker(p, w) && p.workers[w] == Fetching
    requires (state == Exited && (w == 0 ==> p.pending == []))
             || (state == Waiting && w == 0 && p.backoff && p.pending != [] && p.inFlight > 0)
    ensures PoolInv(Become(p, w, state), n)
  {
    var p' := Become(p, w, state);
    UpdateBusy(p.workers, w, state);
    forall v | 0 <= v < |p'.workers|
      ensures WorkerOk(p', v)
    {
      assert WorkerOk(p, v);
    }
    forall i: nat
      ensures Places(p', i) == Places(p, i)
    {
      UpdateAwaited(p.workers, w, state, i);
    }
  }

  lemma FetchKeeps(p: Pool, n: nat, w: nat)
    requires PoolInv(p, n) && IsWorker(p, w) && p.workers[w] == Fetching
    ensures PoolInv(Fetch(p, w), n)
  {
    if p.pending == [] || (p.backoff && w != 0) {
      IdleMoveKeeps(p, n, w, Exited);
    } else if p.backoff && p.inFlight > 0 {
      IdleMoveKeeps(p, n, w, Waiting);
    } else {
      TakeKeeps(p, n, w);
    }
  }

  lemma ResumeKeeps(p: Pool, n: nat, w: nat)
    requires PoolInv(p, n) && IsWorker(p, w) && p.workers[w] == Woken
    ensures PoolInv(Resume(p, w), n)
  {
    assert WorkerOk(p, w);
    TakeKeeps(p, n, w);
  }

  lemma {:induction false} RunningAwaited(workers: seq<Worker>, w: nat)
    requires w < |workers| && workers[w].Running?
    ensures Awaited(workers, workers[w].idx) >= 1
  {
    if w > 0 {
      RunningAwaited(workers[1..], w - 1);
    }
  }

  lemma RecordKeeps(p: Pool, n: nat, w: nat, outcome: Outcome)
    requires PoolInv(p, n) && IsWorker(p, w) && p.workers[w].Running? && !outcome.FatalError?
    ensures PoolInv(Record(p, w, outcome), n)
  {
    var p' := Record(p, w, outcome);
    var idx := p.workers[w].idx;
    UpdateBusy(p.workers, w, Finishing(idx));
    forall v | 0 <= v < |p'.workers|
      ensures WorkerOk(p', v)
    {
      assert WorkerOk(p, v);
    }
    forall i: nat
      ensures Places(p', i) == Places(p, i)
    {
      RecordPlaces(p, n, w, outcome, i);
    }
  }

  /** The recorded point moves from being awaited to exactly one of the two result collections. */
  lemma RecordPlaces(p: Pool, n: nat, w: nat, outcome: Outcome, i: nat)
    requires Accounted(p, n) && IsWorker(p, w) && p.workers[w].Running? && !outcome.FatalError?
    ensures Places(Record(p, w, outcome), i) == Places(p, i)
  {
    var p' := Record(p, w, outcome);
    var idx := p.workers[w].idx;
    UpdateAwaited(p.workers, w, Finishing(idx), i);
    RunningAwaited(p.workers, w);
    assert Places(p, idx) <= 1;
    if outcome.Content? {
      assert p'.successful[..|p'.successful| - 1] == p.successful;
    }
  }

  lemma MarkDoneKeeps(p: Pool, n: nat, w: nat)
    requires PoolInv(p, n) && IsWorker(p, w) && p.workers[w].Finishing?
    ensures PoolInv(MarkDone(p, w), n)
  {
    var q := Become(p, w, Fetching).(inFlight := p.inFlight - 1);
    UpdateBusy(p.workers, w, Fetching);
    WakeCounts(q.workers, 0);
    var p' := MarkDone(p, w);
    forall v | 0 <= v < |p'.workers|
      ensures WorkerOk(p', v)
    {
      assert WorkerOk(p, v);
    }
    forall i: nat
      ensures Places(p', i) == Places(p, i)
    {
      UpdateAwaited(p.workers, w, Fetching, i);
      WakeCounts(q.workers, i);
    }
  }

  lemma StepKeeps(p: Pool, n: nat, first: Oracle, w: nat)
    requires PoolInv(p, n) && Ready(p, w) && !Raises(p, first, w)
    ensures PoolInv(Step(p, first, w), n)
  {
    match p.workers[w]
    case Fetching => FetchKeeps(p, n, w);
    case Woken => ResumeKeeps(p, n, w);
    case Running(idx) => RecordKeeps(p, n, w, first(idx));
    case Finishing(_) => MarkDoneKeeps(p, n, w);
  }

  // ----- What is recorded is what the oracle said -----

  predicate SectionAgrees(s: Section, first: Oracle) {
    first(s.idx) == Content(s.text)
  }

  predicate RetryAgrees(i: nat, error: string, first: Oracle) {
    !first(i).Content? && !first(i).FatalError? && error == ErrorSummary(first(i))
  }

  /** Sections carry the oracle's text, retry candidates its error, and back-off is set exactly when some candidate
      met a retryable error. */
  ghost predicate Agrees(p: Pool, first: Oracle) {
    && (forall k :: 0 <= k < |p.successful| ==> SectionAgrees(p.successful[k], first))
    && (forall i :: i in p.retry ==> RetryAgrees(i, p.retry[i], first))
    && (p.backoff <==> exists i :: i in p.retry && first(i).RetryableError?)
  }

  lemma StepAgrees(p: Pool, first: Oracle, w: nat)
    requires Agrees(p, first) && Ready(p, w) && !Raises(p, first, w)
    ensures Agrees(Step(p, first, w), first)
  {
    var p' := Step(p, first, w);
    if p.workers[w].Running? {
      var idx := p.workers[w].idx;
      if !first(idx).Content? {
        assert idx in p'.retry;
        if p.backoff {
          var i :| i in p.retry && first(i).RetryableError?;
          assert i in p'.retry;
        }
      }
    }
  }
}
