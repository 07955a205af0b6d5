/** The daemon's idle shutdown: client sessions (chunkhound/daemon/client_manager.py) and the delayed
    shutdown task (chunkhound/daemon/server.py:202-227), before teardown begins.

    The event loop runs one callback at a time; the order of events is arbitrary. */
module IdleShutdown {
  import opened Wrappers

  type ClientId = string
  type TaskId = nat

  /** A delayed-shutdown task is asleep, or done with its done-callback still queued, or finished. */
  datatype TaskState = Asleep | DoneQueued | Finished

  datatype State = State(
    sessions: set<ClientId>,
    tasks: seq<TaskState>,         // every task ever created, by number
    current: Option<TaskId>,       // `_delayed_shutdown_task`
    shutdown: bool,                // `_shutdown_event`
    everRegistered: bool)

  datatype Event =
    | Register(client: ClientId)   // a handshake succeeded
    | Remove(client: ClientId)     // a handler ended, or the pid poll evicted the client
    | Fire(task: TaskId)           // the delay of a task is over
    | Callback(task: TaskId)       // the done-callback of a task runs
    | Signal                       // SIGTERM or SIGINT
    | StartupFailure               // publishing the daemon failed (server.py:149, 174)

  const INITIAL := State({}, [], None, false, false)

  predicate Pending(s: State, t: TaskId) {
    t < |s.tasks| && s.tasks[t] == Asleep
  }

  function OnAllClientsGone(s: State): State {
    if s.current.Some? && Pending(s, s.current.value) then s
    else s.(tasks := s.tasks + [Asleep], current := Some(|s.tasks|))
  }

  predicate Enabled(s: State, e: Event) {
    match e
    case Fire(t) => Pending(s, t)
    case Callback(t) => t < |s.tasks| && s.tasks[t] == DoneQueued
    case _ => true
  }

  function Step(s: State, e: Event): State
    requires Enabled(s, e)
  {
    match e
    case Register(client) => s.(sessions := s.sessions + {client}, everRegistered := true)
    case Remove(client) =>
      var s' := s.(sessions := s.sessions - {client});
      if s'.sessions == {} then OnAllClientsGone(s') else s'
    case Fire(t) =>
      s.(tasks := s.tasks[t := DoneQueued], shutdown := s.shutdown || s.sessions == {})
    case Callback(t) =>
      s.(tasks := s.tasks[t := Finished], current := if s.current == Some(t) then None else s.current)
    case Signal => s.(shutdown := true)
    case StartupFailure => s.(shutdown := true)
  }

  /** At most the current task is pending; and once a client was registered and none remain, shutdown is set
      or the current task is pending. */
  ghost predicate Inv(s: State) {
    && (forall t: TaskId :: Pending(s, t) ==> s.current == Some(t))
    && (s.current.Some? ==> s.current.value < |s.tasks|)
    && (s.everRegistered && s.sessions == {} ==> s.shutdown || (s.current.Some? && Pending(s, s.current.value)))
  }

  lemma StepKeeps(s: State, e: Event)
    requires Inv(s) && Enabled(s, e)
    ensures Inv(Step(s, e))
  {
    var s' := Step(s, e);
    forall t: TaskId | Pending(s', t)
      ensures s'.current == Some(t)
    {
      if t < |s.tasks| && s.tasks[t] == Asleep {
        assert Pending(s, t);
      }
    }
  }

  predicate Runs(s: State, events: seq<Event>)
    decreases events
  {
    events == [] || (Enabled(s, events[0]) && Runs(Step(s, events[0]), events[1..]))
  }

  function Execute(s: State, events: seq<Event>): State
    requires Runs(s, events)
    decreases events
  {
    if events == [] then s else Execute(Step(s, events[0]), events[1..])
  }

  lemma {:induction false} RunKeepsInv(s: State, events: seq<Event>)
    requires Inv(s) && Runs(s, events)
    ensures Inv(Execute(s, events))
    decreases events
  {
    if events != [] {
      StepKeeps(s, events[0]);
      RunKeepsInv(Step(s, events[0]), events[1..]);
    }
  }

  /** In every event order, when a client was ever registered and none remain, shutdown is set or exactly one
      delayed-shutdown task is pending, and that task's firing sets shutdown. */
  lemma IdleLeadsToShutdown(events: seq<Event>)
    requires Runs(INITIAL, events)
    requires var s := Execute(INITIAL, events); s.everRegistered && s.sessions == {} && !s.shutdown
    ensures var s := Execute(INITIAL, events);
            exists t: TaskId :: && Pending(s, t) && (forall u: TaskId :: Pending(s, u) ==> u == t)
                                && Step(s, Fire(t)).shutdown
  {
    RunKeepsInv(INITIAL, events);
    var s := Execute(INITIAL, events);
    assert Pending(s, s.current.value);
  }

  /** The clients registered after a history and not removed since, read off the history itself. */
  predicate Registered(events: seq<Event>, client: ClientId) {
    exists i :: 0 <= i < |events| && events[i] == Register(client) && StaysFrom(events, i + 1, client)
  }

  predicate StaysFrom(events: seq<Event>, i: nat, client: ClientId) {
    forall j :: i <= j < |events| ==> events[j] != Remove(client)
  }

  /** The event at position `k` sets shutdown: a signal, a failed startup, or a delay that ends with no client
      registered at that moment. */
  ghost predicate SetsShutdown(events: seq<Event>, k: nat)
    requires k < |events|
  {
    || events[k] == Signal || events[k] == StartupFailure
    || (events[k].Fire? && forall client :: !Registered(events[..k], client))
  }

  lemma {:induction false} ExecuteSnoc(s: State, events: seq<Event>)
    requires events != [] && Runs(s, events)
    ensures var init, last := events[..|events| - 1], events[|events| - 1];
            Runs(s, init) && Enabled(Execute(s, init), last) && Execute(s, events) == Step(Execute(s, init), last)
    decreases events
  {
    var init := events[..|events| - 1];
    if |events| > 1 {
      ExecuteSnoc(Step(s, events[0]), events[1..]);
      assert events[1..][..|events| - 2] == init[1..];
    } else {
      assert events[1..] == [];
    }
  }

  /** The session table holds exactly the registered clients. */
  lemma {:induction false} SessionsAre(events: seq<Event>, client: ClientId)
    requires Runs(INITIAL, events)
    ensures client in Execute(INITIAL, events).sessions <==> Registered(events, client)
    decreases |events|
  {
    if events != [] {
      ExecuteSnoc(INITIAL, events);
      SessionsAre(events[..|events| - 1], client);
      RegisteredSnoc(events[..|events| - 1], events[|events| - 1], events, client);
    }
  }

  lemma {:induction false} RegisteredSnoc(init: seq<Event>, last: Event, events: seq<Event>, client: ClientId)
    requires events == init + [last]
    ensures Registered(events, client)
            <==> last == Register(client) || (Registered(init, client) && last != Remove(client))
  {
    if Registered(init, client) && last != Remove(client) {
      var i :| 0 <= i < |init| && init[i] == Register(client) && StaysFrom(init, i + 1, client);
      assert events[i] == Register(client) && StaysFrom(events, i + 1, client);
    }
    if last == Register(client) {
      assert events[|init|] == Register(client) && StaysFrom(events, |init| + 1, client);
    }
    if i :| 0 <= i < |events| && events[i] == Register(client) && StaysFrom(events, i + 1, client) {
      if i < |init| {
        assert init[i] == Register(client);
        assert forall j :: i + 1 <= j < |init| ==> init[j] == events[j];
        assert StaysFrom(init, i + 1, client);
        assert events[|init|] != Remove(client);
      }
    }
  }

  /** In every event order shutdown is set exactly when some event of the history set it, and at most one
      delayed-shutdown task is pending. */
  lemma {:induction false} ShutdownExactlyWhen(events: seq<Event>)
    requires Runs(INITIAL, events)
    ensures var s := Execute(INITIAL, events);
            && (s.shutdown <==> exists k :: 0 <= k < |events| && SetsShutdown(events, k))
            && forall t: TaskId, u: TaskId :: Pending(s, t) && Pending(s, u) ==> t == u
    decreases |events|
  {
    RunKeepsInv(INITIAL, events);
    if events != [] {
      var init, n := events[..|events| - 1], |events| - 1;
      ExecuteSnoc(INITIAL, events);
      ShutdownExactlyWhen(init);
      forall client
        ensures client in Execute(INITIAL, init).sessions <==> Registered(init, client)
      {
        SessionsAre(init, client);
      }
      forall k | 0 <= k < n
        ensures SetsShutdown(events, k) <==> SetsShutdown(init, k)
      {
        assert events[..k] == init[..k] && events[k] == init[k];
      }
      assert events[..n] == init;
      assert Execute(INITIAL, events).shutdown <==> Execute(INITIAL, init).shutdown || SetsShutdown(events, n);
    }
  }

  /** A removal after which no client is registered. */
  ghost predicate LeavesNone(events: seq<Event>, e: Event) {
    e.Remove? && forall client :: Registered(events, client) ==> client == e.client
  }

  ghost predicate AnyPending(s: State) {
    exists t: TaskId :: Pending(s, t)
  }

  lemma NoneLeft(events: seq<Event>, client: ClientId)
    requires Runs(INITIAL, events)
    ensures Execute(INITIAL, events).sessions - {client} == {} <==> LeavesNone(events, Remove(client))
  {
    var sessions := Execute(INITIAL, events).sessions;
    if sessions - {client} == {} {
      forall other | Registered(events, other)
        ensures other == client
      {
        SessionsAre(events, other);
        assert other !in sessions - {client};
      }
    } else {
      var other :| other in sessions - {client};
      SessionsAre(events, other);
    }
  }

  /** In every event order a delayed-shutdown task is created exactly by a removal that leaves no client while none is
      pending; after any removal that leaves no client one is pending; and only its firing ends a delay. */
  lemma SchedulesExactlyWhen(events: seq<Event>, e: Event)
    requires Runs(INITIAL, events) && Enabled(Execute(INITIAL, events), e)
    ensures var s := Execute(INITIAL, events);
            var s' := Step(s, e);
            && |s'.tasks| == |s.tasks| + (if LeavesNone(events, e) && !AnyPending(s) then 1 else 0)
            && (LeavesNone(events, e) ==> AnyPending(s'))
            && (forall t: TaskId :: Pending(s, t) && e != Fire(t) ==> Pending(s', t))
            && (forall t: TaskId :: Pending(s', t) ==> Pending(s, t) || t == |s.tasks|)
  {
    var s := Execute(INITIAL, events);
    var s' := Step(s, e);
    RunKeepsInv(INITIAL, events);
    if e.Remove? {
      NoneLeft(events, e.client);
      if t: TaskId :| Pending(s, t) {
        assert Pending(s', t);
      } else if LeavesNone(events, e) {
        assert !(s.current.Some? && Pending(s, s.current.value));
        assert Pending(s', |s.tasks|);
      }
    }
  }

  /** The daemon's fields and the callbacks that update them. */
  class IdleDaemon {
    var sessions: set<ClientId>
    var tasks: seq<TaskState>
    var current: Option<TaskId>
    var shutdown: bool
    ghost var everRegistered: bool

    ghost function View(): State
      reads this
    {
      State(sessions, tasks, current, shutdown, everRegistered)
    }

    constructor ()
      ensures View() == INITIAL && Inv(View())
    {
      sessions, tasks, current, shutdown, everRegistered := {}, [], None, false, false;
    }

    method RegisterClient(client: ClientId)
      requires Inv(View())
      modifies this`sessions, this`everRegistered
      ensures View() == Step(old(View()), Register(client)) && Inv(View())
    {
      StepKeeps(View(), Register(client));
      sessions := sessions + {client};
      everRegistered := true;
    }

    method OnEmpty()
      modifies this`tasks, this`current
      ensures View() == OnAllClientsGone(old(View()))
    {
      if current.Some? && current.value < |tasks| && tasks[current.value] == Asleep {
        return;
      }
      var task := |tasks|;
      tasks := tasks + [Asleep];
      current := Some(task);
    }

    method RemoveClient(client: ClientId)
      requires Inv(View())
      modifies this`sessions, this`tasks, this`current
      ensures View() == Step(old(View()), Remove(client)) && Inv(View())
    {
      StepKeeps(View(), Remove(client));
      sessions := sessions - {client};
      if sessions == {} {
        OnEmpty();
      }
    }

    method DelayedShutdown(task: TaskId)
      requires Inv(View()) && Pending(View(), task)
      modifies this`tasks, this`shutdown
      ensures View() == Step(old(View()), Fire(task)) && Inv(View())
    {
      StepKeeps(View(), Fire(task));
      if sessions == {} {
        shutdown := true;
      }
      tasks := tasks[task := DoneQueued];
    }

    method ClearDelayedShutdownTask(task: TaskId)
      requires Inv(View()) && task < |tasks| && tasks[task] == DoneQueued
      modifies this`tasks, this`current
      ensures View() == Step(old(View()), Callback(task)) && Inv(View())
    {
      StepKeeps(View(), Callback(task));
      if current == Some(task) {
        current := None;
      }
      tasks := tasks[task := Finished];
    }
  }
}
