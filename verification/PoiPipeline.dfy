/** The shared variables of the point-of-interest pipeline and the nested functions that change them
    (chunkhound/code_mapper/service.py:358-598), run under an arbitrary event-loop order. */
module PoiPipeline {
  import opened PoiPool
  import opened PoiSchedules
  import opened Sorting

  /** The setting of `CH_CODE_MAPPER_POI_CONCURRENCY`: unset or blank, not an integer, or an integer. */
  datatype Setting = Unset | Malformed | Number(value: int)

  datatype Concurrency = Jobs(jobs: nat) | InvalidConcurrency

  /** `_resolve_poi_concurrency`: an accepted setting yields as many workers as it asks for, four if it is unset, but
      not more than points and at least one; only a setting below one is refused. */
  function ResolveConcurrency(setting: Setting, totalPoints: nat): (r: Concurrency)
    ensures r == InvalidConcurrency <==> setting == Malformed || (setting.Number? && setting.value < 1)
    ensures r.Jobs? ==> 1 <= r.jobs && (r.jobs <= totalPoints || r.jobs == 1)
    ensures r.Jobs? ==> var asked := if setting.Number? then setting.value else 4;
                        r.jobs <= asked && (r.jobs == asked || r.jobs >= totalPoints)
  {
    match setting
    case Malformed => InvalidConcurrency
    case Number(value) =>
      if value < 1 then InvalidConcurrency
      else
        var cap := if totalPoints >= 1 then totalPoints else 1;
        Jobs(if value <= cap then value else cap)
    case Unset =>
      if totalPoints <= 1 then Jobs(1) else Jobs(if 4 <= totalPoints then 4 else totalPoints)
  }

  // ----- What the pipeline must produce, from the two passes of the oracle alone -----

  /** The fate of a point: its own first answer decides, and unless that is content the answer on retry. */
  datatype Verdict = Succeeds(text: string) | Fails(firstError: string, retryError: string) | Aborts

  function VerdictOf(first: Oracle, second: Oracle, i: nat): Verdict {
    match first(i)
    case Content(text) => Succeeds(text)
    case FatalError => Aborts
    case error =>
      match second(i)
      case Content(text) => Succeeds(text)
      case FatalError => Aborts
      case again => Fails(ErrorSummary(error), ErrorSummary(again))
  }

  /** No call that the pipeline makes ends in a fatal error. */
  ghost predicate NoneAborts(first: Oracle, second: Oracle, n: nat) {
    forall i: nat :: 1 <= i <= n ==> VerdictOf(first, second, i) != Aborts
  }

  /** The sections of the points 1..n, in order. */
  function Sections(first: Oracle, second: Oracle, n: nat): seq<Section> {
    if n == 0 then []
    else
      var v := VerdictOf(first, second, n);
      Sections(first, second, n - 1) + (if v.Succeeds? then [Section(n, v.text)] else [])
  }

  /** The failure reports of the points 1..n, in order. */
  function Failures(first: Oracle, second: Oracle, n: nat): seq<Failure> {
    if n == 0 then []
    else
      var v := VerdictOf(first, second, n);
      Failures(first, second, n - 1) + (if v.Fails? then [Failure(n, v.firstError, v.retryError)] else [])
  }

  /** The points of 1..n that need a second attempt, in order. */
  function Due(first: Oracle, n: nat): seq<nat> {
    if n == 0 then [] else Due(first, n - 1) + (if first(n).Content? then [] else [n])
  }

  /** The sections that the second pass adds. */
  function Recovered(first: Oracle, second: Oracle, n: nat): seq<Section> {
    if n == 0 then []
    else Recovered(first, second, n - 1)
         + (if !first(n).Content? && second(n).Content? then [Section(n, second(n).text)] else [])
  }

  function SectionIndex(s: Section): nat {
    s.idx
  }

  function FailureIndex(f: Failure): nat {
    f.idx
  }

  /** Both lists are strictly ascending, and unless some call is fatal each of the points 1..n is in exactly one of
      them, with exactly what the oracle said. */
  lemma {:induction false} ResultsPartition(first: Oracle, second: Oracle, n: nat)
    ensures StrictlyAscending(Sections(first, second, n), SectionIndex)
    ensures StrictlyAscending(Failures(first, second, n), FailureIndex)
    ensures forall s :: s in Sections(first, second, n)
              <==> 1 <= s.idx <= n && VerdictOf(first, second, s.idx) == Succeeds(s.text)
    ensures forall f :: f in Failures(first, second, n)
              <==> 1 <= f.idx <= n && VerdictOf(first, second, f.idx) == Fails(f.firstError, f.retryError)
    ensures NoneAborts(first, second, n) ==> |Sections(first, second, n)| + |Failures(first, second, n)| == n
  {
    if n > 0 {
      ResultsPartition(first, second, n - 1);
    }
  }

  /** The pipeline's results in terms of the answers alone: a point has a section if its first answer is content, or if
      it failed without ending the pipeline and its second answer is content; its failure report gives both
      errors in words; and the pipeline ends early exactly on a fatal answer that it gets to ask for. */
  lemma ResultsInWords(first: Oracle, second: Oracle, n: nat)
    ensures forall i: nat, text ::
              Section(i, text) in Sections(first, second, n)
              <==> 1 <= i <= n && (|| first(i) == Content(text)
                                   || ((first(i).NoContent? || first(i).RetryableError?) && second(i) == Content(text)))
    ensures forall i: nat, e, e' ::
              Failure(i, e, e') in Failures(first, second, n)
              <==> 1 <= i <= n && SaysError(first(i), e) && SaysError(second(i), e')
    ensures NoneAborts(first, second, n)
            <==> forall i: nat :: 1 <= i <= n ==>
                   first(i) != FatalError && (second(i) == FatalError ==> first(i).Content?)
  {
    ResultsPartition(first, second, n);
    forall i: nat
      ensures VerdictOf(first, second, i) == Aborts
              <==> first(i) == FatalError || (second(i) == FatalError && !first(i).Content?)
    {
    }
  }

  /** The words in which a failure report puts an answer that is neither content nor fatal. */
  predicate SaysError(outcome: Outcome, error: string) {
    || (outcome == NoContent && error == "empty result")
    || outcome == RetryableError(error)
  }

  // ----- Sorting what the two passes recorded gives the sections in order -----

  lemma {:induction false} OccursSections(first: Oracle, second: Oracle, n: nat, x: Section)
    ensures Occurs(Sections(first, second, n), x)
            == if 1 <= x.idx <= n && VerdictOf(first, second, x.idx) == Succeeds(x.text) then 1 else 0
  {
    if n > 0 {
      OccursSections(first, second, n - 1, x);
      var v := VerdictOf(first, second, n);
      if v.Succeeds? {
        OccursSnoc(Sections(first, second, n - 1), Section(n, v.text), x);
      } else {
        assert Sections(first, second, n) == Sections(first, second, n - 1);
      }
    }
  }

  lemma {:induction false} OccursRecovered(first: Oracle, second: Oracle, n: nat, x: Section)
    ensures Occurs(Recovered(first, second, n), x)
            == if 1 <= x.idx <= n && !first(x.idx).Content? && second(x.idx) == Content(x.text) then 1 else 0
  {
    if n > 0 {
      OccursRecovered(first, second, n - 1, x);
      if !first(n).Content? && second(n).Content? {
        OccursSnoc(Recovered(first, second, n - 1), Section(n, second(n).text), x);
      } else {
        assert Recovered(first, second, n) == Recovered(first, second, n - 1);
      }
    }
  }

  /** Sections that carry the oracle's text occur as often as their point was recorded. */
  lemma {:induction false} OccursRecorded(sections: seq<Section>, first: Oracle, x: Section)
    requires forall k :: 0 <= k < |sections| ==> SectionAgrees(sections[k], first)
    ensures Occurs(sections, x) == if first(x.idx) == Content(x.text) then Recorded(sections, x.idx) else 0
  {
    if sections != [] {
      assert SectionAgrees(sections[|sections| - 1], first);
      OccursRecorded(sections[..|sections| - 1], first, x);
    }
  }

  /** The first pass recorded each point that got content once, with that content, and nothing else. */
  ghost predicate FirstPassSections(sections: seq<Section>, first: Oracle, n: nat) {
    && (forall k :: 0 <= k < |sections| ==> SectionAgrees(sections[k], first))
    && forall i: nat :: Recorded(sections, i) == if 1 <= i <= n && first(i).Content? then 1 else 0
  }

  lemma SortGivesSections(sections: seq<Section>, first: Oracle, second: Oracle, n: nat)
    requires FirstPassSections(sections, first, n) && NoneAborts(first, second, n)
    ensures SortBy(sections + Recovered(first, second, n), SectionIndex) == Sections(first, second, n)
  {
    var all := sections + Recovered(first, second, n);
    ResultsPartition(first, second, n);
    forall x
      ensures Ascending(SortBy(all, SectionIndex), SectionIndex)
      ensures Occurs(SortBy(all, SectionIndex), x) == Occurs(Sections(first, second, n), x)
    {
      SortMeaning(all, SectionIndex, x);
      OccursAppend(sections, Recovered(first, second, n), x);
      OccursRecorded(sections, first, x);
      assert Recorded(sections, x.idx) == if 1 <= x.idx <= n && first(x.idx).Content? then 1 else 0;
      OccursRecovered(first, second, n, x);
      OccursSections(first, second, n, x);
    }
    SortMeaning(all, SectionIndex, Section(0, ""));
    SortedUnique(SortBy(all, SectionIndex), Sections(first, second, n), SectionIndex);
  }

  /** After a complete first pass exactly the points without content are due for a retry. */
  ghost predicate FirstPassRetries(retry: map<nat, string>, first: Oracle, n: nat) {
    && (forall i: nat :: i in retry <==> 1 <= i <= n && !first(i).Content?)
    && forall i :: i in retry ==> RetryAgrees(i, retry[i], first)
  }

  lemma FirstPassResults(p: Pool, first: Oracle, n: nat)
    requires PoolInv(p, n) && Agrees(p, first) && AllExited(p)
    ensures p.pending == [] && p.inFlight == 0 && p.taken == Range(1, n + 1)
    ensures FirstPassSections(p.successful, first, n) && FirstPassRetries(p.retry, first, n)
  {
    FirstPassComplete(p, n);
    forall i: nat
      ensures Recorded(p.successful, i) == if 1 <= i <= n && first(i).Content? then 1 else 0
      ensures i in p.retry <==> 1 <= i <= n && !first(i).Content?
    {
      PointResult(p, first, n, i);
    }
  }

  lemma PointResult(p: Pool, first: Oracle, n: nat, i: nat)
    requires Agrees(p, first)
    requires Recorded(p.successful, i) + (if i in p.retry then 1 else 0) == if 1 <= i <= n then 1 else 0
    ensures Recorded(p.successful, i) == if 1 <= i <= n && first(i).Content? then 1 else 0
    ensures i in p.retry <==> 1 <= i <= n && !first(i).Content?
  {
    if i in p.retry {
      assert RetryAgrees(i, p.retry[i], first);
    } else if Recorded(p.successful, i) >= 1 {
      RecordedAgrees(p.successful, first, i);
    }
  }

  lemma {:induction false} RecordedAgrees(sections: seq<Section>, first: Oracle, i: nat)
    requires forall k :: 0 <= k < |sections| ==> SectionAgrees(sections[k], first)
    requires Recorded(sections, i) >= 1
    ensures first(i).Content?
  {
    var last := sections[|sections| - 1];
    assert SectionAgrees(last, first);
    if last.idx != i {
      RecordedAgrees(sections[..|sections| - 1], first, i);
    }
  }

  // ----- The class -----

  class Pipeline {
    /** What the research service says when a point is asked about first, and when it is asked about again. */
    const first: Oracle
    const second: Oracle
    var pending: seq<nat>
    var inFlight: int
    var backoff: bool
    var workers: seq<Worker>
    var successful: seq<Section>
    var retry: map<nat, string>
    var failed: seq<Failure>
    ghost var taken: seq<nat>      // points handed out in the first pass, in order
    ghost var retried: seq<nat>    // points attempted again, in order

    ghost function View(): Pool
      reads this
    {
      Pool(pending, inFlight, backoff, workers, successful, retry, taken)
    }

    constructor (first: Oracle, second: Oracle, n: nat, jobs: nat)
      ensures this.first == first && this.second == second
      ensures View() == Start(n, jobs) && failed == [] && retried == []
    {
      this.first, this.second := first, second;
      pending := Range(1, n + 1);
      inFlight, backoff := 0, false;
      workers := seq(jobs, _ => Fetching);
      successful, retry, failed := [], map[], [];
      taken, retried := [], [];
    }

    /** Takes the next point off the queue. */
    method PopLeft(w: nat)
      requires w < |workers| && pending != []
      modifies this`pending, this`inFlight, this`workers, this`taken
      ensures View() == Take(old(View()), w)
    {
      var item := pending[0];
      pending := pending[1..];
      inFlight := inFlight + 1;
      workers := workers[w := Running(item)];
      taken := taken + [item];
    }

    /** `_next_pending` of a worker, up to its first suspension. */
    method NextPending(w: nat)
      requires w < |workers|
      modifies this`pending, this`inFlight, this`workers, this`taken
      ensures View() == Fetch(old(View()), w)
    {
      if pending == [] {
        workers := workers[w := Exited];
        return;
      }
      if backoff {
        if w != 0 {
          workers := workers[w := Exited];
          return;
        }
        if inFlight > 0 {
          workers := workers[w := Waiting];
          return;
        }
      }
      PopLeft(w);
    }

    /** `_next_pending` of worker 0 when its wait is over; the queue is not tested again. */
    method AfterWait(w: nat)
      requires w < |workers| && (inFlight <= 0 ==> pending != [])
      modifies this`pending, this`inFlight, this`workers, this`taken
      ensures View() == Resume(old(View()), w)
    {
      if inFlight > 0 {
        workers := workers[w := Waiting];
      } else {
        PopLeft(w);
      }
    }

    /** `_process_item` once the research call has returned. */
    method ProcessItem(w: nat, outcome: Outcome)
      requires w < |workers| && workers[w].Running? && !outcome.FatalError?
      modifies this`successful, this`retry, this`backoff, this`workers
      ensures View() == Record(old(View()), w, outcome)
    {
      var idx := workers[w].idx;
      if outcome.Content? {
        successful := successful + [Section(idx, outcome.text)];
      } else {
        if outcome.RetryableError? {
          backoff := true;
        }
        retry := retry[idx := ErrorSummary(outcome)];
      }
      workers := workers[w := Finishing(idx)];
    }

    method MarkItemDone(w: nat)
      requires w < |workers|
      modifies this`inFlight, this`workers
      ensures View() == MarkDone(old(View()), w)
    {
      workers := workers[w := Fetching];
      inFlight := inFlight - 1;
      if inFlight == 0 {
        workers := Wake(workers);
      }
    }

    /** The first pass: the event loop runs the workers in any order until all have exited, or until a call ends
        in a fatal error. */
    method RunWorkers(n: nat) returns (ok: bool)
      requires PoolInv(View(), n) && Agrees(View(), first)
      modifies this`pending, this`inFlight, this`workers, this`taken, this`successful, this`retry, this`backoff
      ensures ok ==> PoolInv(View(), n) && Agrees(View(), first) && AllExited(View())
      ensures !ok ==> exists i: nat :: 1 <= i <= n && first(i).FatalError?
    {
      ok := true;
      while !AllExited(Pool(pending, inFlight, backoff, workers, successful, retry, []))
        invariant PoolInv(View(), n) && Agrees(View(), first)
        decreases Measure(View())
      {
        SomeoneReady(View(), n);
        ghost var before := View();
        assert !AllExited(before);
        var w: nat :| w < |workers| && !workers[w].Exited? && !workers[w].Waiting? && !workers[w].Crashed?;
        if workers[w].Running? && first(workers[w].idx).FatalError? {
          AwaitedInRange(before, n, w);
          ok := false;
          return;
        }
        StepKeeps(before, n, first, w);
        StepAgrees(before, first, w);
        StepLowersMeasure(before, n, first, w);
        RunWorker(w);
      }
    }

    /** One turn of the event loop. */
    method RunWorker(w: nat)
      requires Ready(View(), w) && !Raises(View(), first, w) && WorkersOk(View())
      modifies this`pending, this`inFlight, this`workers, this`taken, this`successful, this`retry, this`backoff
      ensures View() == Step(old(View()), first, w)
    {
      assert WorkerOk(View(), w);
      match workers[w] {
        case Fetching => NextPending(w);
        case Woken => AfterWait(w);
        case Running(idx) => ProcessItem(w, first(idx));
        case Finishing(_) => MarkItemDone(w);
      }
    }

    /** One retry whose call returned: the point gets its section or its failure report. */
    method RecordRetry(idx: nat, outcome: Outcome)
      requires idx in retry && !outcome.FatalError?
      modifies this`successful, this`failed
      ensures outcome.Content? ==> successful == old(successful) + [Section(idx, outcome.text)] && failed == old(failed)
      ensures !outcome.Content? ==> && successful == old(successful)
                                    && failed == old(failed) + [Failure(idx, retry[idx], ErrorSummary(outcome))]
    {
      if outcome.Content? {
        successful := successful + [Section(idx, outcome.text)];
      } else {
        failed := failed + [Failure(idx, retry[idx], ErrorSummary(outcome))];
      }
    }

    /** The retry pass: each point due for a retry is attempted once more, in ascending order, until a call ends in a
        fatal error. */
    method RetryPass(n: nat) returns (ok: bool)
      requires failed == [] && retried == [] && FirstPassRetries(retry, first, n)
      modifies this`successful, this`failed, this`retried
      ensures ok <==> NoneAborts(first, second, n)
      ensures ok ==> successful == old(successful) + Recovered(first, second, n)
      ensures ok ==> failed == Failures(first, second, n) && retried == Due(first, n)
    {
      ok := true;
      for idx := 1 to n + 1
        invariant NoneAborts(first, second, idx - 1)
        invariant successful == old(successful) + Recovered(first, second, idx - 1)
        invariant failed == Failures(first, second, idx - 1) && retried == Due(first, idx - 1)
      {
        assert idx in retry <==> !first(idx).Content?;
        if idx in retry {
          assert RetryAgrees(idx, retry[idx], first);
          retried := retried + [idx];
          if second(idx).FatalError? {
            assert VerdictOf(first, second, idx) == Aborts;
            ok := false;
            return;
          }
          RecordRetry(idx, second(idx));
        }
      }
    }

    /** The whole pipeline after the overview, for every order in which the event loop runs the workers.  It
        ends normally exactly when no call that it makes is fatal; then its two result lists are those that the oracle
        alone determines, after one attempt at each point in queue order and one more at each that needs it. */
    method Run(n: nat, jobs: nat) returns (ok: bool)
      requires jobs >= 1 && View() == Start(n, jobs) && failed == [] && retried == []
      modifies this
      ensures ok <==> NoneAborts(first, second, n)
      ensures ok ==> pending == [] && inFlight == 0
      ensures ok ==> successful == Sections(first, second, n) && failed == Failures(first, second, n)
      ensures ok ==> taken == Range(1, n + 1) && retried == Due(first, n)
    {
      StartInv(n, jobs);
      ok := RunWorkers(n);
      if !ok {
        ghost var i: nat :| 1 <= i <= n && first(i).FatalError?;
        assert VerdictOf(first, second, i) == Aborts;
        return;
      }
      FirstPassResults(View(), first, n);
      ghost var recorded := successful;
      ok := RetryPass(n);
      if !ok {
        return;
      }
      SortGivesSections(recorded, first, second, n);
      successful := SortBy(successful, SectionIndex);
    }
  }
}
