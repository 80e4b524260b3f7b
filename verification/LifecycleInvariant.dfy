// What every step of the lifecycle keeps.
module LifecycleInvariant {
  import opened Events
  import opened Report
  import opened Recovery
  import opened Queue
  import opened RoundTasks
  import opened Lifecycle

  ghost predicate FreshOk(tasks: Tasks, nextToken: Token) {
    forall t :: t in tasks ==> t < nextToken
  }

  /// This daemon runs the round the job's report says is running.
  predicate Attended(j: Job, tasks: Tasks, table: Table) {
    && j in table && table[j].token in tasks
    && tasks[table[j].token].IsRunning()
  }

  ghost predicate IsOwed(owed: seq<Owed>, j: Job) {
    exists i :: 0 <= i < |owed| && owed[i].job == j
  }

  ghost predicate RunningOk(standings: Standings, tasks: Tasks, table: Table, owed: seq<Owed>) {
    forall j :: j in standings && standings[j].state == Running ==> Attended(j, tasks, table) || IsOwed(owed, j)
  }

  ghost predicate SubmitsOk(standings: Standings, submits: map<Job, Submit>) {
    forall j :: j in submits && submits[j] == Checked ==> Idles(Of(standings, j))
  }

  /// What was read under the lock still decides the same way.
  predicate LockOk(lock: Lock, standings: Standings, table: Table, dispatcher: Dispatcher) {
    match lock
    case Free => true
    case CancelHolds(j, seen) => StillSeen(j, seen, standings, table)
    case DispatchHolds(j, seen) => StillSeen(j, seen, standings, table) && dispatcher == Slotted(j)
  }

  predicate StillSeen(j: Job, seen: Standing, standings: Standings, table: Table) {
    && (seen.state == Queued && !HasAwaited(table, j, seen) ==> j in standings && standings[j] == seen)
    && (seen.state == Running ==> HasAwaited(table, j, seen))
  }

  function LaunchingTokens(tasks: Tasks): set<Token> {
    set t | t in tasks && tasks[t].launching
  }

  predicate TallyOk(queue: QueueState, tasks: Tasks) {
    queue.running == |tasks| && queue.launching == |LaunchingTokens(tasks)|
  }

  /// A round already running at the start is only counted.
  predicate CapOk(running: int, maxJobs: nat, reattached: nat, dispatcher: Dispatcher) {
    && (running <= maxJobs || running <= reattached)
    && (dispatcher.NotSpawned? ==> running <= reattached)
    && (dispatcher.Slotted? ==> running < maxJobs)
  }

  ghost predicate OrderOk(
      pending: seq<Job>, enqueued: seq<Job>, taken: nat, dispatched: seq<int>, dispatcher: Dispatcher)
  {
    && taken <= |enqueued|
    && pending == enqueued[taken..]
    && (forall i, k :: 0 <= i < k < |dispatched| ==> dispatched[i] < dispatched[k])
    && (forall i :: 0 <= i < |dispatched| ==> 0 <= dispatched[i] < taken)
    && (dispatcher.Holding? || dispatcher.Slotted? ==>
          && 0 < taken && enqueued[taken - 1] == dispatcher.job
          && forall i :: 0 <= i < |dispatched| ==> dispatched[i] < taken - 1)
  }

  /// While a daemon starts, nothing but reattached rounds moves.
  ghost predicate StartingOk(s: State) {
    && s.lock == Free && s.dispatcher == NotSpawned && s.submits == map[]
    && s.enqueued == [] && s.taken == 0 && s.dispatched == []
    && !s.queue.stopping
    && NoneDispatched(s.tasks)
  }

  ghost predicate NoneDispatched(tasks: Tasks) {
    forall t :: t in tasks ==> !tasks[t].IsWaiting() && !tasks[t].launching
  }

  ghost predicate OwedOk(owed: seq<Owed>, standings: Standings, tasks: Tasks) {
    && (forall i :: 0 <= i < |owed| ==> OneOwed(owed[i], standings, tasks))
    && (forall i, k :: 0 <= i < k < |owed| ==> owed[i].job != owed[k].job)
  }

  ghost predicate OneOwed(o: Owed, standings: Standings, tasks: Tasks) {
    && o.job in standings && standings[o.job].state == Running
    && ForReport(standings[o.job]) == Some(o.resumption)
    && forall t :: t in tasks ==> tasks[t].job != o.job
  }

  ghost predicate RequeuedOk(requeued: seq<Job>, standings: Standings) {
    && (forall j :: j in requeued <==> j in standings && standings[j].state == Queued)
    && (forall i, k :: 0 <= i < k < |requeued| ==> requeued[i] != requeued[k])
  }

  /// The job in the dispatcher's hands: taken, and not yet found to be passed
  /// over.
  function Hands(dispatcher: Dispatcher, lock: Lock, table: Table): set<Job> {
    if lock.DispatchHolds? && (lock.seen.state != Queued || HasAwaited(table, lock.job, lock.seen)) then {}
    else if dispatcher.Holding? || dispatcher.Slotted? then {dispatcher.job}
    else {}
  }

  /// Every Queued job has a place — in line, in the dispatcher's hands, about
  /// to be enqueued, or with a task about to start it — unless it was passed
  /// over.
  ghost predicate PlacesOk(standings: Standings, tasks: Tasks, table: Table, pending: seq<Job>, hands: set<Job>,
                           submits: map<Job, Submit>, passedOver: set<Job>) {
    forall j :: j in standings && standings[j].state == Queued ==>
                  HasPlace(j, tasks, table, pending, hands, submits) || j in passedOver
  }

  predicate HasPlace(
      j: Job, tasks: Tasks, table: Table, pending: seq<Job>, hands: set<Job>, submits: map<Job, Submit>)
  {
    || j in pending
    || j in hands
    || (j in submits && submits[j] == Recorded)
    || HasWaitingTask(tasks, table, j)
  }

  /// A launch is of a round already recorded as started.
  ghost predicate LaunchesOk(launches: seq<(Job, nat)>, standings: Standings) {
    && (forall i, k :: 0 <= i < k < |launches| ==> launches[i] != launches[k])
    && (forall i :: 0 <= i < |launches| ==> 0 < launches[i].1 <= Of(standings, launches[i].0).rounds)
  }

  ghost predicate UnlaunchedOk(launches: seq<(Job, nat)>, tasks: Tasks) {
    forall t :: t in tasks && tasks[t].phase == Started ==> (tasks[t].job, tasks[t].round) !in launches
  }

  /// A round over without having started was cancelled, or the daemon stops.
  ghost predicate ClosedOk(tasks: Tasks, standings: Standings, fired: set<Token>, stopping: bool) {
    forall t :: t in tasks && tasks[t].phase == Over && tasks[t].round == Of(standings, tasks[t].job).rounds + 1
                ==> t in fired || stopping
  }

  ghost predicate UpOk(s: State) {
    && Consistent(s.tasks, s.queue.table, StandingsOf(s.logs))
    && FreshOk(s.tasks, s.queue.nextToken)
    && RunningOk(StandingsOf(s.logs), s.tasks, s.queue.table, s.owed)
    && SubmitsOk(StandingsOf(s.logs), s.submits)
    && LockOk(s.lock, StandingsOf(s.logs), s.queue.table, s.dispatcher)
    && TallyOk(s.queue, s.tasks)
    && CapOk(s.queue.running, s.maxJobs, s.reattached, s.dispatcher)
    && OrderOk(s.queue.pending, s.enqueued, s.taken, s.dispatched, s.dispatcher)
    && UnlaunchedOk(s.launches, s.tasks)
    && ClosedOk(s.tasks, StandingsOf(s.logs), s.queue.fired, s.queue.stopping)
    && (!s.serving ==>
          && StartingOk(s)
          && OwedOk(s.owed, StandingsOf(s.logs), s.tasks)
          && RequeuedOk(s.requeued, StandingsOf(s.logs)))
    && (s.serving ==> s.owed == [])
    && (s.dispatcher == Returned ==> s.queue.stopping)
    && (s.serving && !s.queue.stopping ==> PlacesOk(StandingsOf(s.logs), s.tasks, s.queue.table, s.queue.pending,
        Hands(s.dispatcher, s.lock, s.queue.table), s.submits, s.passedOver))
  }

  ghost predicate Live(s: State) {
    LaunchesOk(s.launches, StandingsOf(s.logs)) && (s.up ==> UpOk(s)) && (s.serving ==> s.up)
  }

  // ----- a task appends -----

  lemma AppendingStands(s: State, j: Job, e: Event)
    ensures StandingsOf(s.Appending(j, e).logs) == StandingsOf(s.logs)[j := s.At(j).After(e.kind)]
  {
    hide StandingOf, Standing.After;
    Report.AppendedReport(s.LogOf(j), e);
    NothingStands();
  }

  lemma NothingStands()
    ensures StandingOf([]) == NO_STANDING
  {
  }

  ghost predicate Appends(tasks: Tasks, table: Table, standings: Standings, t: Token, kind: EventKind, next: Phase,
                          tasks': Tasks, standings': Standings) {
    && Consistent(tasks, table, standings)
    && t in tasks && MayAppend(tasks[t], kind, next)
    && tasks' == tasks[t := tasks[t].(phase := next)]
    && standings' == standings[tasks[t].job := Of(standings, tasks[t].job).After(kind)]
  }

  /// After a task's append its job is Running by that very task, or as it was.
  lemma AppendStaysRunning(t: Token, task: Task, table: Table, r: Standing, kind: EventKind, next: Phase)
    requires TaskOk(t, task, table, r) && MayAppend(task, kind, next)
    ensures r.After(kind).state == Running ==>
              || (Holds(t, task, table) && task.(phase := next).IsRunning())
              || (r.state == Running && !task.IsRunning())
  {
  }

  lemma AppendKeepsRunning(tasks: Tasks, table: Table, standings: Standings, t: Token, kind: EventKind, next: Phase,
                           tasks': Tasks, standings': Standings, owed: seq<Owed>)
    requires Appends(tasks, table, standings, t, kind, next, tasks', standings')
    requires RunningOk(standings, tasks, table, owed)
    ensures RunningOk(standings', tasks', table, owed)
  {
    hide DistinctOk, TaskOk, MayAppend, Standing.After, IsOwed;
    AppendStaysRunning(t, tasks[t], table, Of(standings, tasks[t].job), kind, next);
    forall j | j in standings' && standings'[j].state == Running
      ensures Attended(j, tasks', table) || IsOwed(owed, j)
    {
      assert j in table ==> EntryOk(tasks, j, table[j]);
    }
  }

  lemma AppendKeepsSubmitsAndLock(tasks: Tasks, table: Table, standings: Standings,
                                  t: Token, kind: EventKind, next: Phase,
                                  tasks': Tasks, standings': Standings, submits: map<Job, Submit>, lock: Lock,
                                      dispatcher: Dispatcher)
    requires Appends(tasks, table, standings, t, kind, next, tasks', standings')
    requires SubmitsOk(standings, submits) && LockOk(lock, standings, table, dispatcher)
    ensures SubmitsOk(standings', submits) && LockOk(lock, standings', table, dispatcher)
  {
    assert TaskOk(t, tasks[t], table, Of(standings, tasks[t].job));
  }

  lemma AppendKeepsLaunches(tasks: Tasks, table: Table, standings: Standings, t: Token, kind: EventKind, next: Phase,
                            tasks': Tasks, standings': Standings, launches: seq<(Job, nat)>)
    requires Appends(tasks, table, standings, t, kind, next, tasks', standings')
    requires LaunchesOk(launches, standings) && UnlaunchedOk(launches, tasks)
    ensures LaunchesOk(launches, standings') && UnlaunchedOk(launches, tasks')
  {
    assert TaskOk(t, tasks[t], table, Of(standings, tasks[t].job));
  }

  /// No append of a task that is not waiting makes its job Queued or not.
  lemma StartingAppend(t: Token, task: Task, table: Table, r: Standing, kind: EventKind, next: Phase)
    requires TaskOk(t, task, table, r) && MayAppend(task, kind, next) && !task.IsWaiting()
    ensures r.state == Queued <==> r.After(kind).state == Queued
    ensures next != Waiting && next != Ready
  {
  }

  lemma AppendKeepsOwed(tasks: Tasks, table: Table, standings: Standings, t: Token, kind: EventKind, next: Phase,
                        tasks': Tasks, standings': Standings, owed: seq<Owed>, requeued: seq<Job>)
    requires Appends(tasks, table, standings, t, kind, next, tasks', standings')
    requires OwedOk(owed, standings, tasks) && RequeuedOk(requeued, standings) && NoneDispatched(tasks)
    ensures OwedOk(owed, standings', tasks') && RequeuedOk(requeued, standings') && NoneDispatched(tasks')
  {
    hide TableOk, DistinctOk, ForReport, Standing.After, TaskOk, MayAppend;
    var j := tasks[t].job;
    StartingAppend(t, tasks[t], table, Of(standings, j), kind, next);
    forall i | 0 <= i < |owed| ensures OneOwed(owed[i], standings', tasks') {
      assert OneOwed(owed[i], standings, tasks);
    }
  }

  lemma AppendKeepsPlaces(tasks: Tasks, table: Table, pending: seq<Job>, standings: Standings, t: Token,
      kind: EventKind, next: Phase,
                          tasks': Tasks, standings': Standings,
                          hands: set<Job>, submits: map<Job, Submit>, passedOver: set<Job>)
    requires Appends(tasks, table, standings, t, kind, next, tasks', standings')
    requires PlacesOk(standings, tasks, table, pending, hands, submits, passedOver)
    ensures PlacesOk(standings', tasks', table, pending, hands, submits, passedOver)
  {
    assert TaskOk(t, tasks[t], table, Of(standings, tasks[t].job));
    forall j | j in standings' && standings'[j].state == Queued
      ensures HasPlace(j, tasks', table, pending, hands, submits) || j in passedOver
    {
      assert HasPlace(j, tasks, table, pending, hands, submits) || j in passedOver;
      assert j in table ==> EntryOk(tasks, j, table[j]);
    }
  }

  lemma AppendKeepsClosed(tasks: Tasks, table: Table, standings: Standings, t: Token, kind: EventKind, next: Phase,
                          tasks': Tasks, standings': Standings, fired: set<Token>, stopping: bool)
    requires Appends(tasks, table, standings, t, kind, next, tasks', standings')
    requires tasks[t].phase.Waiting? ==> t in fired
    requires ClosedOk(tasks, standings, fired, stopping)
    ensures ClosedOk(tasks', standings', fired, stopping)
  {
    assert TaskOk(t, tasks[t], table, Of(standings, tasks[t].job));
    forall u | u in tasks && tasks[u].job == tasks[t].job && u != t
      ensures tasks[u].Registered() ==> tasks[u].round <= Of(standings, tasks[t].job).rounds + 1
    {
      assert TaskOk(u, tasks[u], table, Of(standings, tasks[u].job));
    }
  }

  lemma SameTokensLaunching(tasks: Tasks, t: Token, task: Task)
    requires t in tasks && task.launching == tasks[t].launching
    ensures LaunchingTokens(tasks[t := task]) == LaunchingTokens(tasks)
    ensures |tasks[t := task]| == |tasks|
  {
    assert tasks[t := task].Keys == tasks.Keys;
  }

  lemma TaskRecordsKeeps(s: State, t: Token, e: Event, next: Phase)
    requires Live(s) && MayRecord(s, t, e, next)
    ensures Live(TaskRecords(s, t, e, next))
  {
    hide Consistent, ClosedOk, RunningOk, SubmitsOk, LockOk, OrderOk, UnlaunchedOk, LaunchesOk, OwedOk, RequeuedOk,
      PlacesOk, NoneDispatched, StandingsOf, MayAppend, LaunchingTokens;
    var s' := TaskRecords(s, t, e, next);
    var task := s.tasks[t];
    assert StandingsOf(s'.logs) == StandingsOf(s.logs)[task.job := Of(StandingsOf(s.logs), task.job).After(e.kind)] by {
      AppendingStands(s, task.job, e);
    }
    AppendKeepsConsistent(s.tasks, s.queue.table, StandingsOf(s.logs), t, e.kind, next);
    AppendKeepsRunning(s.tasks, s.queue.table, StandingsOf(s.logs), t, e.kind, next, s'.tasks, StandingsOf(s'.logs),
        s.owed);
    AppendKeepsSubmitsAndLock(s.tasks, s.queue.table, StandingsOf(s.logs), t, e.kind, next, s'.tasks,
        StandingsOf(s'.logs), s.submits, s.lock, s.dispatcher);
    AppendKeepsLaunches(s.tasks, s.queue.table, StandingsOf(s.logs), t, e.kind, next, s'.tasks, StandingsOf(s'.logs),
        s.launches);
    AppendKeepsClosed(s.tasks, s.queue.table, StandingsOf(s.logs), t, e.kind, next, s'.tasks,
        StandingsOf(s'.logs), s.queue.fired, s.queue.stopping);
    if !s.serving {
      AppendKeepsOwed(s.tasks, s.queue.table, StandingsOf(s.logs), t, e.kind, next, s'.tasks,
          StandingsOf(s'.logs), s.owed, s.requeued);
    } else if !s.queue.stopping {
      AppendKeepsPlaces(s.tasks, s.queue.table, s.queue.pending, StandingsOf(s.logs), t, e.kind, next, s'.tasks,
          StandingsOf(s'.logs), Hands(s.dispatcher, s.lock, s.queue.table), s.submits, s.passedOver);
    }
    SameTokensLaunching(s.tasks, t, task.(phase := next));
  }

  // ----- a task moves on -----

  lemma MoveKeepsTasks(tasks: Tasks, queue: QueueState, standings: Standings, t: Token, next: Phase)
    requires Consistent(tasks, queue.table, standings)
    requires t in tasks && MayMove(tasks[t], t in queue.fired, queue.stopping, next)
    requires ClosedOk(tasks, standings, queue.fired, queue.stopping)
    ensures Consistent(tasks[t := tasks[t].(phase := next)], queue.table, standings)
    ensures ClosedOk(tasks[t := tasks[t].(phase := next)], standings, queue.fired, queue.stopping)
  {
    var task := tasks[t];
    assert TaskOk(t, task, queue.table, Of(standings, task.job));
    MoveKeepsConsistent(tasks, queue.table, standings, t, task.(phase := next));
  }

  lemma LaunchKeepsLaunches(tasks: Tasks, table: Table, standings: Standings, t: Token, launches: seq<(Job, nat)>)
    requires Consistent(tasks, table, standings)
    requires t in tasks && tasks[t].phase.Started?
    requires LaunchesOk(launches, standings) && UnlaunchedOk(launches, tasks)
    ensures LaunchesOk(launches + [(tasks[t].job, tasks[t].round)], standings)
    ensures UnlaunchedOk(launches + [(tasks[t].job, tasks[t].round)], tasks[t := tasks[t].(phase := Launching)])
  {
    assert TaskOk(t, tasks[t], table, Of(standings, tasks[t].job));
  }

  lemma MoveKeepsRunning(tasks: Tasks, table: Table, standings: Standings, t: Token, moved: Task, owed: seq<Owed>)
    requires t in tasks && (tasks[t].IsRunning() ==> moved.IsRunning())
    requires RunningOk(standings, tasks, table, owed)
    ensures RunningOk(standings, tasks[t := moved], table, owed)
  {
    forall j | j in standings && standings[j].state == Running
      ensures Attended(j, tasks[t := moved], table) || IsOwed(owed, j)
    {
      assert Attended(j, tasks, table) || IsOwed(owed, j);
    }
  }

  lemma MoveKeepsPlaces(tasks: Tasks, table: Table, pending: seq<Job>, standings: Standings, t: Token, moved: Task,
                        hands: set<Job>, submits: map<Job, Submit>, passedOver: set<Job>)
    requires t in tasks && (tasks[t].IsWaiting() ==> moved.IsWaiting())
    requires PlacesOk(standings, tasks, table, pending, hands, submits, passedOver)
    ensures PlacesOk(standings, tasks[t := moved], table, pending, hands, submits, passedOver)
  {
    forall j | j in standings && standings[j].state == Queued
      ensures HasPlace(j, tasks[t := moved], table, pending, hands, submits) || j in passedOver
    {
      assert HasPlace(j, tasks, table, pending, hands, submits) || j in passedOver;
    }
  }

  lemma MoveKeepsOwed(owed: seq<Owed>, standings: Standings, tasks: Tasks, t: Token, moved: Task)
    requires t in tasks && moved.job == tasks[t].job
    requires OwedOk(owed, standings, tasks)
    ensures OwedOk(owed, standings, tasks[t := moved])
  {
    forall i | 0 <= i < |owed| ensures OneOwed(owed[i], standings, tasks[t := moved]) {
      assert OneOwed(owed[i], standings, tasks);
    }
  }

  lemma TaskMovesKeeps(s: State, t: Token, next: Phase)
    requires Live(s) && MayMoveOn(s, t, next)
    ensures Live(TaskMoves(s, t, next))
  {
    hide Consistent, ClosedOk, RunningOk, SubmitsOk, LockOk, OrderOk, UnlaunchedOk, LaunchesOk, OwedOk, RequeuedOk,
      PlacesOk, StandingsOf, LaunchingTokens;
    var moved := s.tasks[t].(phase := next);
    MoveKeepsTasks(s.tasks, s.queue, StandingsOf(s.logs), t, next);
    if next == Launching {
      LaunchKeepsLaunches(s.tasks, s.queue.table, StandingsOf(s.logs), t, s.launches);
    } else {
      OtherMoveKeepsUnlaunched(s.launches, s.tasks, t, moved);
    }
    TaskUpdateKeepsRest(s, t, moved);
    SameTokensLaunching(s.tasks, t, moved);
  }

  lemma OtherMoveKeepsUnlaunched(launches: seq<(Job, nat)>, tasks: Tasks, t: Token, moved: Task)
    requires t in tasks && moved.phase != Started
    requires UnlaunchedOk(launches, tasks)
    ensures UnlaunchedOk(launches, tasks[t := moved])
  {
  }

  lemma TaskUpdateKeepsRest(s: State, t: Token, moved: Task)
    requires UpOk(s) && t in s.tasks && moved.job == s.tasks[t].job
    requires s.tasks[t].IsRunning() ==> moved.IsRunning()
    requires s.tasks[t].IsWaiting() ==> moved.IsWaiting() || s.queue.stopping
    requires moved.IsWaiting() ==> s.tasks[t].IsWaiting()
    requires moved.launching ==> s.tasks[t].launching
    ensures RunningOk(StandingsOf(s.logs), s.tasks[t := moved], s.queue.table, s.owed)
    ensures !s.serving ==>
              OwedOk(s.owed, StandingsOf(s.logs), s.tasks[t := moved]) && NoneDispatched(s.tasks[t := moved])
    ensures s.serving && !s.queue.stopping ==>
              PlacesOk(StandingsOf(s.logs), s.tasks[t := moved], s.queue.table, s.queue.pending,
                  Hands(s.dispatcher, s.lock, s.queue.table), s.submits, s.passedOver)
  {
    hide Consistent, ClosedOk, RunningOk, SubmitsOk, LockOk, OrderOk, UnlaunchedOk, LaunchesOk, OwedOk, RequeuedOk,
      PlacesOk, StandingsOf, LaunchingTokens;
    MoveKeepsRunning(s.tasks, s.queue.table, StandingsOf(s.logs), t, moved, s.owed);
    if !s.serving {
      MoveKeepsOwed(s.owed, StandingsOf(s.logs), s.tasks, t, moved);
    } else if !s.queue.stopping {
      MoveKeepsPlaces(s.tasks, s.queue.table, s.queue.pending, StandingsOf(s.logs), t, moved, Hands(s.dispatcher,
          s.lock, s.queue.table), s.submits, s.passedOver);
    }
  }

  lemma TaskSettlesKeeps(s: State, t: Token)
    requires Live(s) && CanSettle(s, t)
    ensures Live(TaskSettles(s, t))
  {
    hide ClosedOk, RunningOk, SubmitsOk, OrderOk, UnlaunchedOk, LaunchesOk, OwedOk, RequeuedOk, PlacesOk, StandingsOf,
      Consistent;
    var moved := s.tasks[t].(launching := false);
    SettleKeepsTasks(s.tasks, s.queue, StandingsOf(s.logs), t);
    OtherMoveKeepsUnlaunched(s.launches, s.tasks, t, moved);
    TaskUpdateKeepsRest(s, t, moved);
    SettledTokens(s.tasks, t);
  }

  lemma SettledTokens(tasks: Tasks, t: Token)
    requires t in tasks && tasks[t].launching
    ensures |tasks[t := tasks[t].(launching := false)]| == |tasks|
    ensures |LaunchingTokens(tasks[t := tasks[t].(launching := false)])| == |LaunchingTokens(tasks)| - 1
  {
    var tasks' := tasks[t := tasks[t].(launching := false)];
    assert tasks'.Keys == tasks.Keys;
    assert LaunchingTokens(tasks') == LaunchingTokens(tasks) - {t};
  }

  lemma SettleKeepsTasks(tasks: Tasks, queue: QueueState, standings: Standings, t: Token)
    requires Consistent(tasks, queue.table, standings)
    requires t in tasks && tasks[t].launching
    requires tasks[t].phase.Collecting? || tasks[t].phase.Delivering? || tasks[t].phase.Over?
    requires ClosedOk(tasks, standings, queue.fired, queue.stopping)
    ensures Consistent(tasks[t := tasks[t].(launching := false)], queue.table, standings)
    ensures ClosedOk(tasks[t := tasks[t].(launching := false)], standings, queue.fired, queue.stopping)
  {
    assert TaskOk(t, tasks[t], queue.table, Of(standings, tasks[t].job));
    MoveKeepsConsistent(tasks, queue.table, standings, t, tasks[t].(launching := false));
  }

  // ----- a task is over -----

  lemma TaskUnregistersKeeps(s: State, t: Token)
    requires Live(s) && CanUnregister(s, t)
    ensures Live(TaskUnregisters(s, t))
  {
    hide ClosedOk, RunningOk, SubmitsOk, OrderOk, UnlaunchedOk, LaunchesOk, OwedOk, RequeuedOk, PlacesOk, StandingsOf,
      Consistent, LaunchingTokens;
    var task := s.tasks[t];
    var moved := task.(phase := Unregistered);
    var table' := s.queue.Unregistering(task.job, task.round).table;
    UnregisterKeepsConsistent(s.tasks, s.queue.table, StandingsOf(s.logs), t);
    OtherMoveKeepsUnlaunched(s.launches, s.tasks, t, moved);
    UnregisterKeepsRest(s.tasks, s.queue, StandingsOf(s.logs), t, table', s.owed);
    if !s.serving {
      MoveKeepsOwed(s.owed, StandingsOf(s.logs), s.tasks, t, moved);
    } else if !s.queue.stopping {
      UnregisterKeepsPlaces(s.tasks, s.queue.table, StandingsOf(s.logs), t, table', s.queue.pending,
          Hands(s.dispatcher, s.lock, s.queue.table), s.submits, s.passedOver);
    }
    SameTokensLaunching(s.tasks, t, moved);
  }

  ghost predicate Unregisters(tasks: Tasks, table: Table, standings: Standings, t: Token, table': Table) {
    && Consistent(tasks, table, standings)
    && t in tasks && tasks[t].phase == Over
    && var j := tasks[t].job;
       table' == if j in table && table[j].round == tasks[t].round then table - {j} else table
  }

  /// The entry that goes, if any, is this task's: no running or waiting one.
  lemma OwnEntryGoes(tasks: Tasks, table: Table, standings: Standings, t: Token, table': Table, j: Job)
    requires Unregisters(tasks, table, standings, t, table')
    requires j in table && table[j].token in tasks && tasks[table[j].token].phase != Over
    ensures j in table' && table'[j] == table[j] && table[j].token != t
  {
    assert EntryOk(tasks, j, table[j]);
  }

  lemma UnregisterKeepsRest(tasks: Tasks, queue: QueueState, standings: Standings, t: Token, table': Table,
      owed: seq<Owed>)
    requires Unregisters(tasks, queue.table, standings, t, table')
    requires RunningOk(standings, tasks, queue.table, owed) && ClosedOk(tasks, standings, queue.fired, queue.stopping)
    ensures RunningOk(standings, tasks[t := tasks[t].(phase := Unregistered)], table', owed)
    ensures ClosedOk(tasks[t := tasks[t].(phase := Unregistered)], standings, queue.fired, queue.stopping)
  {
    forall j | j in standings && standings[j].state == Running
      ensures Attended(j, tasks[t := tasks[t].(phase := Unregistered)], table') || IsOwed(owed, j)
    {
      if Attended(j, tasks, queue.table) {
        OwnEntryGoes(tasks, queue.table, standings, t, table', j);
      }
    }
  }

  lemma UnregisterKeepsPlaces(tasks: Tasks, table: Table, standings: Standings, t: Token, table': Table,
                              pending: seq<Job>, hands: set<Job>, submits: map<Job, Submit>, passedOver: set<Job>)
    requires Unregisters(tasks, table, standings, t, table')
    requires PlacesOk(standings, tasks, table, pending, hands, submits, passedOver)
    ensures PlacesOk(standings, tasks[t := tasks[t].(phase := Unregistered)], table', pending, hands, submits,
        passedOver)
  {
    forall j | j in standings && standings[j].state == Queued
      ensures || HasPlace(j, tasks[t := tasks[t].(phase := Unregistered)], table', pending, hands, submits)
              || j in passedOver
    {
      if HasWaitingTask(tasks, table, j) {
        OwnEntryGoes(tasks, table, standings, t, table', j);
      }
    }
  }

  lemma TaskFinishesKeeps(s: State, t: Token)
    requires Live(s) && CanFinish(s, t)
    ensures Live(TaskFinishes(s, t))
  {
    hide ClosedOk, RunningOk, SubmitsOk, OrderOk, UnlaunchedOk, LaunchesOk, OwedOk, RequeuedOk, PlacesOk, StandingsOf,
      Consistent, LaunchingTokens, LockOk;
    FinishKeepsConsistent(s.tasks, s.queue.table, StandingsOf(s.logs), t);
    FinishKeepsRest(s.tasks, s.queue, StandingsOf(s.logs), t, s.owed, s.launches);
    if !s.serving {
      FinishKeepsOwed(s.owed, StandingsOf(s.logs), s.tasks, t);
    } else if !s.queue.stopping {
      FinishKeepsPlaces(s.tasks, s.queue.table, StandingsOf(s.logs), t, s.queue.pending, Hands(s.dispatcher,
          s.lock, s.queue.table), s.submits, s.passedOver);
    }
    FinishedTokens(s.tasks, s.queue.table, StandingsOf(s.logs), t);
  }

  lemma FinishKeepsRest(tasks: Tasks, queue: QueueState, standings: Standings, t: Token, owed: seq<Owed>,
      launches: seq<(Job, nat)>)
    requires t in tasks && tasks[t].phase == Unregistered
    requires RunningOk(standings, tasks, queue.table, owed) && ClosedOk(tasks, standings, queue.fired, queue.stopping)
    requires UnlaunchedOk(launches, tasks)
    ensures RunningOk(standings, tasks - {t}, queue.table, owed)
    ensures ClosedOk(tasks - {t}, standings, queue.fired, queue.stopping)
    ensures UnlaunchedOk(launches, tasks - {t})
  {
    forall j | j in standings && standings[j].state == Running
      ensures Attended(j, tasks - {t}, queue.table) || IsOwed(owed, j)
    {
      assert Attended(j, tasks, queue.table) || IsOwed(owed, j);
    }
  }

  lemma FinishKeepsOwed(owed: seq<Owed>, standings: Standings, tasks: Tasks, t: Token)
    requires OwedOk(owed, standings, tasks)
    ensures OwedOk(owed, standings, tasks - {t})
  {
    forall i | 0 <= i < |owed| ensures OneOwed(owed[i], standings, tasks - {t}) {
      assert OneOwed(owed[i], standings, tasks);
    }
  }

  lemma FinishKeepsPlaces(tasks: Tasks, table: Table, standings: Standings, t: Token,
                          pending: seq<Job>, hands: set<Job>, submits: map<Job, Submit>, passedOver: set<Job>)
    requires t in tasks && tasks[t].phase == Unregistered
    requires PlacesOk(standings, tasks, table, pending, hands, submits, passedOver)
    ensures PlacesOk(standings, tasks - {t}, table, pending, hands, submits, passedOver)
  {
    forall j | j in standings && standings[j].state == Queued
      ensures HasPlace(j, tasks - {t}, table, pending, hands, submits) || j in passedOver
    {
      assert HasPlace(j, tasks, table, pending, hands, submits) || j in passedOver;
    }
  }

  lemma FinishedTokens(tasks: Tasks, table: Table, standings: Standings, t: Token)
    requires Consistent(tasks, table, standings)
    requires t in tasks && tasks[t].phase == Unregistered
    ensures |tasks - {t}| == |tasks| - 1
    ensures LaunchingTokens(tasks - {t}) == LaunchingTokens(tasks)
  {
    assert TaskOk(t, tasks[t], table, Of(standings, tasks[t].job));
    assert (tasks - {t}).Keys == tasks.Keys - {t};
  }

  // ----- submits -----

  lemma SubmitChecksKeeps(s: State, j: Job)
    requires Live(s) && CanCheck(s, j)
    ensures Live(SubmitChecks(s, j))
  {
    hide ClosedOk, RunningOk, OrderOk, UnlaunchedOk, LaunchesOk, OwedOk, RequeuedOk, PlacesOk, Consistent,
      LaunchingTokens, LockOk;
    assert Idles(s.At(j));
    if !s.queue.stopping {
      SubmitterKeepsPlaces(StandingsOf(s.logs), s.tasks, s.queue.table, s.queue.pending, s.queue.pending,
          Hands(s.dispatcher, s.lock, s.queue.table),
                           s.submits, s.submits[j := Checked], s.passedOver);
    }
  }

  lemma SubmitterKeepsPlaces(standings: Standings, tasks: Tasks, table: Table, pending: seq<Job>, pending': seq<Job>,
                             hands: set<Job>, submits: map<Job, Submit>, submits': map<Job, Submit>,
                             passedOver: set<Job>)
    requires PlacesOk(standings, tasks, table, pending, hands, submits, passedOver)
    requires forall j :: j in pending ==> j in pending'
    requires forall j :: j in submits && submits[j] == Recorded ==>
                           j in pending' || (j in submits' && submits'[j] == Recorded)
    ensures PlacesOk(standings, tasks, table, pending', hands, submits', passedOver)
  {
    forall j | j in standings && standings[j].state == Queued
      ensures HasPlace(j, tasks, table, pending', hands, submits') || j in passedOver
    {
      assert HasPlace(j, tasks, table, pending, hands, submits) || j in passedOver;
    }
  }

  lemma SubmitGivesUpKeeps(s: State, j: Job)
    requires Live(s) && CanGiveUp(s, j)
    ensures Live(SubmitGivesUp(s, j))
  {
    hide ClosedOk, RunningOk, OrderOk, UnlaunchedOk, LaunchesOk, OwedOk, RequeuedOk, PlacesOk, Consistent,
      LaunchingTokens, LockOk, StandingsOf;
    if !s.queue.stopping {
      SubmitterKeepsPlaces(StandingsOf(s.logs), s.tasks, s.queue.table, s.queue.pending, s.queue.pending,
          Hands(s.dispatcher, s.lock, s.queue.table),
                           s.submits, s.submits - {j}, s.passedOver);
    }
  }

  lemma SubmitEnqueuesKeeps(s: State, j: Job)
    requires Live(s) && CanEnqueue(s, j)
    ensures Live(SubmitEnqueues(s, j))
  {
    hide ClosedOk, RunningOk, UnlaunchedOk, LaunchesOk, OwedOk, RequeuedOk, PlacesOk, Consistent, LaunchingTokens,
      LockOk, StandingsOf;
    var s' := SubmitEnqueues(s, j);
    if !s.queue.stopping {
      SubmitterKeepsPlaces(StandingsOf(s.logs), s.tasks, s.queue.table, s.queue.pending, s'.queue.pending,
          Hands(s.dispatcher, s.lock, s.queue.table),
                           s.submits, s'.submits, s.passedOver);
    }
  }

  lemma RequestKeepsRest(tasks: Tasks, table: Table, standings: Standings, j: Job, kind: EventKind,
                         standings': Standings,
                         owed: seq<Owed>, launches: seq<(Job, nat)>, fired: set<Token>, stopping: bool)
    requires kind.RoundRequested? || kind.RoundFailed?
    requires standings' == standings[j := Of(standings, j).After(kind)]
    requires RunningOk(standings, tasks, table, owed) && LaunchesOk(launches, standings) && ClosedOk(tasks,
        standings, fired, stopping)
    ensures RunningOk(standings', tasks, table, owed) && LaunchesOk(launches, standings') && ClosedOk(tasks,
        standings', fired, stopping)
  {
  }

  lemma RequestKeepsSubmitsAndLock(standings: Standings, j: Job, kind: EventKind, standings': Standings,
                                   submits: map<Job, Submit>, lock: Lock, table: Table, dispatcher: Dispatcher)
    requires kind.RoundRequested? && Idles(Of(standings, j))
    requires standings' == standings[j := Of(standings, j).After(kind)]
    requires SubmitsOk(standings, submits) && LockOk(lock, standings, table, dispatcher)
    ensures SubmitsOk(standings', submits[j := Recorded]) && LockOk(lock, standings', table, dispatcher)
  {
  }

  lemma RequestKeepsPlaces(standings: Standings, j: Job, kind: EventKind, standings': Standings,
                           tasks: Tasks, table: Table, pending: seq<Job>,
                           hands: set<Job>, submits: map<Job, Submit>, passedOver: set<Job>)
    requires standings' == standings[j := Of(standings, j).After(kind)]
    requires PlacesOk(standings, tasks, table, pending, hands, submits, passedOver)
    ensures kind.RoundRequested? ==>
              PlacesOk(standings', tasks, table, pending, hands, submits[j := Recorded], passedOver - {j})
    ensures kind.RoundFailed? ==> PlacesOk(standings', tasks, table, pending, hands, submits, passedOver)
  {
    forall k | k in standings' && standings'[k].state == Queued && k != j
      ensures HasPlace(k, tasks, table, pending, hands, submits[j := Recorded]) || k in passedOver - {j}
      ensures HasPlace(k, tasks, table, pending, hands, submits) || k in passedOver
    {
      assert HasPlace(k, tasks, table, pending, hands, submits) || k in passedOver;
    }
  }

  lemma SubmitRecordsKeeps(s: State, j: Job, e: Event)
    requires Live(s) && CanRecord(s, j, e)
    ensures Live(SubmitRecords(s, j, e))
  {
    hide ClosedOk, RunningOk, UnlaunchedOk, LaunchesOk, OwedOk, RequeuedOk, PlacesOk, Consistent, LaunchingTokens,
      LockOk, StandingsOf, OrderOk;
    var s' := SubmitRecords(s, j, e);
    var standings := StandingsOf(s.logs);
    assert StandingsOf(s'.logs) == standings[j := Of(standings, j).After(e.kind)] by {
      AppendingStands(s, j, e);
    }
    assert Idles(Of(standings, j));
    IdleOrUnawaited(s.tasks, s.queue.table, standings, j);
    OutsideAppendKeepsConsistent(s.tasks, s.queue.table, standings, j, e.kind);
    RequestKeepsRest(s.tasks, s.queue.table, standings, j, e.kind, StandingsOf(s'.logs), s.owed, s.launches,
        s.queue.fired, s.queue.stopping);
    RequestKeepsSubmitsAndLock(standings, j, e.kind, StandingsOf(s'.logs), s.submits, s.lock, s.queue.table,
        s.dispatcher);
    if !s.queue.stopping {
      RequestKeepsPlaces(standings, j, e.kind, StandingsOf(s'.logs), s.tasks, s.queue.table, s.queue.pending,
          Hands(s.dispatcher, s.lock, s.queue.table), s.submits, s.passedOver);
    }
  }

  // ----- cancel -----

  /// With nothing owed, a Running job's round has its entry.
  lemma RunningIsHeld(tasks: Tasks, table: Table, standings: Standings, owed: seq<Owed>, j: Job)
    requires Consistent(tasks, table, standings) && RunningOk(standings, tasks, table, owed) && owed == []
    requires Of(standings, j).state == Running
    ensures HasAwaited(table, j, Of(standings, j))
  {
    assert Attended(j, tasks, table);
    assert EntryOk(tasks, j, table[j]);
    assert TaskOk(table[j].token, tasks[table[j].token], table, Of(standings, j));
  }

  lemma CancelReadsKeeps(s: State, j: Job)
    requires Live(s) && CanCancel(s, j)
    ensures Live(CancelReads(s, j))
  {
    if s.At(j).state == Running {
      RunningIsHeld(s.tasks, s.queue.table, StandingsOf(s.logs), s.owed, j);
    }
    hide ClosedOk, RunningOk, UnlaunchedOk, LaunchesOk, OwedOk, RequeuedOk, PlacesOk, Consistent, LaunchingTokens,
      OrderOk, SubmitsOk;
  }

  lemma CancelActsKeeps(s: State, at: Instant)
    requires Live(s) && CanCancelAct(s)
    ensures Live(CancelActs(s, at))
  {
    hide ClosedOk, RunningOk, UnlaunchedOk, LaunchesOk, OwedOk, RequeuedOk, PlacesOk, Consistent, LaunchingTokens,
      OrderOk, SubmitsOk, StandingsOf;
    var s' := CancelActs(s, at);
    var (j, seen) := (s.lock.job, s.lock.seen);
    match s.queue.CancelDecision(j, seen)
    case Refuse =>
    case Fire(token) =>
      FiringKeepsClosed(s.tasks, StandingsOf(s.logs), s.queue.fired, token, s.queue.stopping);
    case Close =>
      var e := Event(at, RoundFailed(CANCELLED_BEFORE_IT_STARTED));
      var standings := StandingsOf(s.logs);
      assert StandingsOf(s'.logs) == standings[j := Of(standings, j).After(e.kind)] by {
        AppendingStands(s, j, e);
      }
      IdleOrUnawaited(s.tasks, s.queue.table, standings, j);
      OutsideAppendKeepsConsistent(s.tasks, s.queue.table, standings, j, e.kind);
      RequestKeepsRest(s.tasks, s.queue.table, standings, j, e.kind, StandingsOf(s'.logs), s.owed, s.launches,
          s.queue.fired, s.queue.stopping);
      CloseKeepsSubmits(standings, j, e.kind, s.submits);
      if s.serving && !s.queue.stopping {
        RequestKeepsPlaces(standings, j, e.kind, StandingsOf(s'.logs), s.tasks, s.queue.table, s.queue.pending,
            Hands(s.dispatcher, s.lock, s.queue.table), s.submits, s.passedOver);
      }
  }

  lemma CloseKeepsSubmits(standings: Standings, j: Job, kind: EventKind, submits: map<Job, Submit>)
    requires kind.RoundFailed? && SubmitsOk(standings, submits)
    ensures SubmitsOk(standings[j := Of(standings, j).After(kind)], submits)
  {
  }

  lemma FiringKeepsClosed(tasks: Tasks, standings: Standings, fired: set<Token>, token: Token, stopping: bool)
    requires ClosedOk(tasks, standings, fired, stopping)
    ensures ClosedOk(tasks, standings, fired + {token}, stopping)
  {
  }

  // ----- the dispatcher -----

  lemma DispatchTakesKeeps(s: State)
    requires Live(s) && CanTake(s)
    ensures Live(DispatchTakes(s))
  {
    hide ClosedOk, RunningOk, UnlaunchedOk, LaunchesOk, OwedOk, RequeuedOk, PlacesOk, Consistent, LaunchingTokens,
      SubmitsOk, StandingsOf, LockOk;
    var s' := DispatchTakes(s);
    assert s.serving;
    LockFreeOfDispatch(s, s');
    TakeKeepsPlaces(StandingsOf(s.logs), s.tasks, s.queue.table, s.queue.pending, s.submits, s.passedOver);
  }

  lemma LockFreeOfDispatch(s: State, s': State)
    requires LockOk(s.lock, StandingsOf(s.logs), s.queue.table, s.dispatcher)
    requires s'.lock == s.lock && s'.logs == s.logs && s'.queue.table == s.queue.table
    requires s.dispatcher.Slotted? ==> s'.dispatcher == s.dispatcher
    ensures s.lock.DispatchHolds? ==> s.dispatcher.Slotted?
    ensures LockOk(s'.lock, StandingsOf(s'.logs), s'.queue.table, s'.dispatcher)
  {
  }

  lemma TakeKeepsPlaces(standings: Standings, tasks: Tasks, table: Table, pending: seq<Job>, submits: map<Job,
      Submit>, passedOver: set<Job>)
    requires pending != []
    requires PlacesOk(standings, tasks, table, pending, {}, submits, passedOver)
    ensures PlacesOk(standings, tasks, table, pending[1..], {pending[0]}, submits, passedOver)
  {
    forall j | j in standings && standings[j].state == Queued
      ensures HasPlace(j, tasks, table, pending[1..], {pending[0]}, submits) || j in passedOver
    {
      assert HasPlace(j, tasks, table, pending, {}, submits) || j in passedOver;
    }
  }

  lemma DispatchSlotsKeeps(s: State)
    requires Live(s) && CanSlot(s)
    ensures Live(DispatchSlots(s))
  {
    hide ClosedOk, RunningOk, UnlaunchedOk, LaunchesOk, OwedOk, RequeuedOk, Consistent, LaunchingTokens, SubmitsOk,
      StandingsOf, LockOk;
    LockFreeOfDispatch(s, DispatchSlots(s));
  }

  lemma DispatchReadsKeeps(s: State)
    requires Live(s) && CanRegister(s)
    ensures Live(DispatchReads(s))
  {
    hide ClosedOk, RunningOk, UnlaunchedOk, LaunchesOk, OwedOk, RequeuedOk, PlacesOk, Consistent, LaunchingTokens,
      SubmitsOk, OrderOk, HasWaitingTask;
    if s.At(s.dispatcher.job).state == Running {
      RunningIsHeld(s.tasks, s.queue.table, StandingsOf(s.logs), s.owed, s.dispatcher.job);
    }
    if !s.queue.stopping {
      ReadKeepsPlaces(s.tasks, s.queue, StandingsOf(s.logs), s.dispatcher.job, s.submits, s.passedOver);
    }
  }

  lemma ReadKeepsPlaces(tasks: Tasks, queue: QueueState, standings: Standings, j: Job,
                        submits: map<Job, Submit>, passedOver: set<Job>)
    requires PlacesOk(standings, tasks, queue.table, queue.pending, {j}, submits, passedOver)
    ensures var seen := Of(standings, j);
            var passes := seen.state == Queued && !queue.MayRegister(j, seen) && !HasWaitingTask(tasks, queue.table, j);
            PlacesOk(standings, tasks, queue.table, queue.pending, Hands(Slotted(j), DispatchHolds(j, seen),
                queue.table), submits,
                     if passes then passedOver + {j} else passedOver)
  {
    var seen := Of(standings, j);
    forall k | k in standings && standings[k].state == Queued
      ensures HasPlace(k, tasks, queue.table, queue.pending,
                       Hands(Slotted(j), DispatchHolds(j, seen), queue.table), submits)
              || k in passedOver
              || (k == j && !queue.MayRegister(j, seen) && !HasWaitingTask(tasks, queue.table, j))
    {
      assert HasPlace(k, tasks, queue.table, queue.pending, {j}, submits) || k in passedOver;
    }
  }

  lemma DispatchReturnsKeeps(s: State)
    requires Live(s) && CanReturn(s)
    ensures Live(DispatchReturns(s))
  {
    hide ClosedOk, RunningOk, UnlaunchedOk, LaunchesOk, OwedOk, RequeuedOk, PlacesOk, Consistent, LaunchingTokens,
      SubmitsOk, StandingsOf, LockOk;
    LockFreeOfDispatch(s, DispatchReturns(s));
  }

  lemma RegisterKeepsRest(tasks: Tasks, queue: QueueState, standings: Standings, task: Task, launches: seq<(Job,
      nat)>, owed: seq<Owed>)
    requires FreshOk(tasks, queue.nextToken)
    requires TableOk(tasks, queue.table)
    requires NoneAwaited(tasks, task.job)
    requires task.phase != Started && task.phase != Over
    requires RunningOk(standings, tasks, queue.table, owed) && UnlaunchedOk(launches, tasks)
    requires ClosedOk(tasks, standings, queue.fired, queue.stopping)
    requires Of(standings, task.job).state == Running ==> task.IsRunning()
    ensures var tasks', queue' := tasks[queue.nextToken := task], queue.Registering(task.job, task.round);
            && FreshOk(tasks', queue'.nextToken)
            && RunningOk(standings, tasks', queue'.table, owed)
            && UnlaunchedOk(launches, tasks')
            && ClosedOk(tasks', standings, queue'.fired, queue'.stopping)
  {
    var tasks', queue' := tasks[queue.nextToken := task], queue.Registering(task.job, task.round);
    forall j | j in standings && standings[j].state == Running
      ensures Attended(j, tasks', queue'.table) || IsOwed(owed, j)
    {
      assert Attended(j, tasks, queue.table) || IsOwed(owed, j);
    }
  }

  lemma RegisteredTokens(tasks: Tasks, t: Token, task: Task)
    requires t !in tasks
    ensures |tasks[t := task]| == |tasks| + 1
    ensures |LaunchingTokens(tasks[t := task])| == |LaunchingTokens(tasks)| + if task.launching then 1 else 0
  {
    assert tasks[t := task].Keys == tasks.Keys + {t};
    if task.launching {
      assert LaunchingTokens(tasks[t := task]) == LaunchingTokens(tasks) + {t};
    } else {
      assert LaunchingTokens(tasks[t := task]) == LaunchingTokens(tasks);
    }
  }

  lemma RegisterKeepsPlaces(tasks: Tasks, queue: QueueState, standings: Standings, task: Task,
                            submits: map<Job, Submit>, passedOver: set<Job>)
    requires FreshOk(tasks, queue.nextToken) && task.IsWaiting()
    requires PlacesOk(standings, tasks, queue.table, queue.pending, {task.job}, submits, passedOver)
    ensures PlacesOk(standings, tasks[queue.nextToken := task], queue.Registering(task.job, task.round).table,
                     queue.pending, {}, submits, passedOver)
  {
    forall j | j in standings && standings[j].state == Queued
      ensures HasPlace(j, tasks[queue.nextToken := task], queue.Registering(task.job, task.round).table,
          queue.pending, {}, submits) || j in passedOver
    {
      assert HasPlace(j, tasks, queue.table, queue.pending, {task.job}, submits) || j in passedOver;
    }
  }

  /// Dispatching enters the round after the report's, and spawns its task.
  lemma DispatchActsKeeps(s: State)
    requires Live(s) && CanDispatch(s)
    ensures Live(DispatchActs(s))
  {
    var (j, seen) := (s.lock.job, s.lock.seen);
    if s.queue.MayRegister(j, seen) {
      DispatchRegistersKeeps(s);
    } else {
      DispatchPassesOverKeeps(s);
    }
  }

  lemma DispatchRegistersKeeps(s: State)
    requires Live(s) && CanDispatch(s) && s.queue.MayRegister(s.lock.job, s.lock.seen)
    ensures Live(DispatchActs(s))
  {
    hide ClosedOk, RunningOk, UnlaunchedOk, LaunchesOk, OwedOk, RequeuedOk, PlacesOk, TasksOk, TableOk, DistinctOk,
      LaunchingTokens, SubmitsOk, StandingsOf, OrderOk, FreshOk, NoneAwaited, FromEvents, Standing.After, MayAppend,
      HasPlace;
    var (j, seen) := (s.lock.job, s.lock.seen);
    var standings := StandingsOf(s.logs);
    var task := Task(j, seen.rounds + 1, Waiting, true);
    var t := s.queue.nextToken;
    assert Of(standings, j) == seen;
    FreshToken(s.tasks, t);
    IdleOrUnawaited(s.tasks, s.queue.table, standings, j);
    RegisterKeepsConsistent(s.tasks, s.queue.table, standings, t, task);
    RegisterKeepsRest(s.tasks, s.queue, standings, task, s.launches, s.owed);
    RegisteredTokens(s.tasks, t, task);
    DispatchKeepsOrder(s.queue.pending, s.enqueued, s.taken, s.dispatched, s.dispatcher);
    if !s.queue.stopping {
      RegisterKeepsPlaces(s.tasks, s.queue, standings, task, s.submits, s.passedOver);
    }
  }

  lemma FreshToken(tasks: Tasks, nextToken: Token)
    requires FreshOk(tasks, nextToken)
    ensures nextToken !in tasks
  {
  }

  lemma DispatchKeepsOrder(pending: seq<Job>, enqueued: seq<Job>, taken: nat, dispatched: seq<int>,
      dispatcher: Dispatcher)
    requires OrderOk(pending, enqueued, taken, dispatched, dispatcher)
    ensures dispatcher.Slotted? ==> OrderOk(pending, enqueued, taken, dispatched + [taken - 1], Idle)
    ensures OrderOk(pending, enqueued, taken, dispatched, Idle)
  {
  }

  lemma DispatchPassesOverKeeps(s: State)
    requires Live(s) && CanDispatch(s) && !s.queue.MayRegister(s.lock.job, s.lock.seen)
    ensures Live(DispatchActs(s))
  {
    hide ClosedOk, RunningOk, UnlaunchedOk, LaunchesOk, OwedOk, RequeuedOk, PlacesOk, Consistent, LaunchingTokens,
      SubmitsOk, StandingsOf, OrderOk, FreshOk;
    DispatchKeepsOrder(s.queue.pending, s.enqueued, s.taken, s.dispatched, s.dispatcher);
  }

  // ----- stop, crash -----

  lemma StopKeeps(s: State)
    requires Live(s) && CanStop(s)
    ensures Live(Stop(s))
  {
    hide RunningOk, UnlaunchedOk, LaunchesOk, OwedOk, RequeuedOk, PlacesOk, Consistent, LaunchingTokens, SubmitsOk,
      StandingsOf, OrderOk, FreshOk, LockOk;
  }

  lemma CrashKeeps(s: State)
    requires Live(s)
    ensures Live(Crash(s))
  {
    hide UpOk, LaunchesOk, StandingsOf;
  }
}
