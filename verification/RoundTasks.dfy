// One task a round: where it stands against its job's report and the cancel
// table (src/daemon/dispatch.rs, `spawn_round` and what it runs).
module RoundTasks {
  import opened Events
  import opened Report
  import opened Queue

  datatype Phase =
    | Waiting       // registered, waiting for its repository's cache
    | Ready         // past that wait, about to record its start
    | Started       // start recorded, launch not yet asked for
    | Launching     // the runner was asked to launch
    | Reattaching   // launched by an earlier daemon, being found again
    | Collecting    // its stream is being collected
    | Delivering    // its verdict is in the log, its stream is not over
    | Over          // nothing more will be recorded
    | Unregistered  // its Registration is dropped, its slot is not

  /// A task is known by the cancel token of its registration.
  datatype Task = Task(job: Job, round: nat, phase: Phase, launching: bool)
  {
    predicate Registered() { phase != Unregistered }

    /// About to start the round its job is queued for.
    predicate IsWaiting() { phase.Waiting? || phase.Ready? }

    predicate IsRunning() { phase.Started? || phase.Launching? || phase.Reattaching? || phase.Collecting? }

    predicate PreVerdict() { IsWaiting() || IsRunning() }
  }

  type Tasks = map<Token, Task>
  type Table = map<Job, LaunchedRound>
  type Standings = map<Job, Standing>

  function Of(standings: Standings, j: Job): Standing {
    if j in standings then standings[j] else NO_STANDING
  }

  predicate Holds(t: Token, task: Task, table: Table) {
    task.job in table && table[task.job] == LaunchedRound(task.round, t)
  }

  /// A task not past its verdict is of the round its job's report awaits; one
  /// past it is not of a running round.
  predicate InStep(task: Task, r: Standing) {
    match task.phase
    case Waiting => r.state == Queued && r.rounds + 1 == task.round && task.launching
    case Ready => r.state == Queued && r.rounds + 1 == task.round && task.launching
    case Started =>
      r.state == Running && r.rounds == task.round && 0 < task.round && r.launched == None && task.launching
    case Launching => r.state == Running && r.rounds == task.round && r.launched == None && task.launching
    case Reattaching => r.state == Running && r.rounds == task.round && r.launched.Some? && !task.launching
    case Collecting => r.state == Running && r.rounds == task.round && r.launched.Some?
    case Delivering => r.state != Pending && task.round <= r.rounds && !(r.state == Running && r.rounds == task.round)
    case Over => !(r.state == Running && r.rounds == task.round)
    case Unregistered => !task.launching
  }

  predicate TaskOk(t: Token, task: Task, table: Table, r: Standing) {
    && InStep(task, r)
    && (task.PreVerdict() ==> Holds(t, task, table))
    && (task.Registered() ==>
          && task.round <= r.rounds + 1
          && (task.round == r.rounds + 1 ==> Holds(t, task, table)))
  }

  ghost predicate TasksOk(tasks: Tasks, table: Table, standings: Standings) {
    forall t :: t in tasks ==> TaskOk(t, tasks[t], table, Of(standings, tasks[t].job))
  }

  /// There is no entry without a live, registered task of its job and round.
  ghost predicate TableOk(tasks: Tasks, table: Table) {
    forall j :: j in table ==> EntryOk(tasks, j, table[j])
  }

  predicate EntryOk(tasks: Tasks, j: Job, entry: LaunchedRound) {
    && entry.token in tasks
    && tasks[entry.token].job == j && tasks[entry.token].round == entry.round && tasks[entry.token].Registered()
  }

  /// No two registered tasks of one job share a round.
  ghost predicate DistinctOk(tasks: Tasks) {
    forall t, u ::
      (t in tasks && u in tasks && t != u && tasks[t].job == tasks[u].job
       && tasks[t].Registered() && tasks[u].Registered()) ==> tasks[t].round != tasks[u].round
  }

  ghost predicate Consistent(tasks: Tasks, table: Table, standings: Standings) {
    TasksOk(tasks, table, standings) && TableOk(tasks, table) && DistinctOk(tasks)
  }

  /// What a task may append, and the phase it is in afterwards; a waiting one
  /// only once its token is fired.
  predicate MayAppend(task: Task, kind: EventKind, next: Phase) {
    match task.phase
    case Waiting => kind == RoundFailed(CANCELLED_BEFORE_IT_STARTED) && next == Over
    case Ready => kind == RoundStarted(task.round) && next == Started
    case Started => FailsOtherwise(kind) && next == Over
    case Launching =>
      (FailsOtherwise(kind) && next == Over) || (kind.RoundLaunched? && next == Collecting)
    case Reattaching => FailsOtherwise(kind) && next == Over
    case Collecting =>
      || (kind.IsWork() && next == Collecting)
      || ((kind.RoundPassed? || FailsOtherwise(kind)) && next == Delivering)
    case Delivering => kind.PullRequestOpened? && next == Delivering
    case Over => false
    case Unregistered => false
  }

  /// Every failure but the one a cancel before the start records is worded
  /// otherwise.
  predicate FailsOtherwise(kind: EventKind) {
    kind.RoundFailed? && kind.reason != CANCELLED_BEFORE_IT_STARTED
  }

  lemma AppendKeepsConsistent(tasks: Tasks, table: Table, standings: Standings,
                              t: Token, kind: EventKind, next: Phase)
    requires Consistent(tasks, table, standings)
    requires t in tasks && MayAppend(tasks[t], kind, next)
    ensures var j := tasks[t].job;
            Consistent(tasks[t := tasks[t].(phase := next)], table, standings[j := Of(standings, j).After(kind)])
  {
    var task := tasks[t];
    var j := task.job;
    var r := Of(standings, j);
    var r' := r.After(kind);
    var task' := task.(phase := next);
    var tasks' := tasks[t := task'];
    assert TaskOk(t, task, table, r);
    assert TaskOk(t, task', table, r');
    forall u | u in tasks' && u != t
      ensures TaskOk(u, tasks'[u], table, Of(standings[j := r'], tasks'[u].job))
    {
      assert TaskOk(u, tasks[u], table, Of(standings, tasks[u].job));
    }
    forall k | k in table ensures EntryOk(tasks', k, table[k]) {
      assert EntryOk(tasks, k, table[k]);
    }
  }

  /// What a task may do without appending: `fired` and `stopping` are read at
  /// one poll, `cancel` first.
  predicate MayMove(task: Task, fired: bool, stopping: bool, next: Phase) {
    match task.phase
    case Waiting => !fired && (if stopping then next == Over else next == Ready)
    case Started => next == Launching
    case Reattaching => next == Collecting
    case Delivering => next == Over
    case _ => false
  }

  lemma MoveKeepsConsistent(tasks: Tasks, table: Table, standings: Standings, t: Token, moved: Task)
    requires Consistent(tasks, table, standings)
    requires t in tasks
    requires moved.job == tasks[t].job && moved.round == tasks[t].round && moved.Registered() && tasks[t].Registered()
    requires moved.PreVerdict() ==> tasks[t].PreVerdict()
    requires InStep(moved, Of(standings, moved.job))
    ensures Consistent(tasks[t := moved], table, standings)
  {
    assert TaskOk(t, tasks[t], table, Of(standings, moved.job));
    forall j | j in table ensures EntryOk(tasks[t := moved], j, table[j]) {
      assert EntryOk(tasks, j, table[j]);
    }
  }

  ghost predicate NoneAwaited(tasks: Tasks, j: Job) {
    forall t :: t in tasks && tasks[t].job == j ==> !tasks[t].PreVerdict()
  }

  /// With its report idle, or queued and awaiting no entry, a job has no task
  /// short of its verdict.
  lemma IdleOrUnawaited(tasks: Tasks, table: Table, standings: Standings, j: Job)
    requires Consistent(tasks, table, standings)
    requires var r := Of(standings, j);
             || (r.state != Running && r.state != Queued)
             || (r.state == Queued && !(j in table && table[j].IsAwaitedBy(r)))
    ensures NoneAwaited(tasks, j)
  {
    forall t | t in tasks && tasks[t].job == j ensures !tasks[t].PreVerdict() {
      assert TaskOk(t, tasks[t], table, Of(standings, j));
    }
  }

  /// An append by someone other than the job's tasks: a request, or a
  /// cancel's close.
  lemma OutsideAppendKeepsConsistent(tasks: Tasks, table: Table, standings: Standings, j: Job, kind: EventKind)
    requires Consistent(tasks, table, standings)
    requires NoneAwaited(tasks, j)
    requires kind.RoundRequested? || kind.RoundFailed?
    ensures Consistent(tasks, table, standings[j := Of(standings, j).After(kind)])
  {
    var standings' := standings[j := Of(standings, j).After(kind)];
    forall t | t in tasks ensures TaskOk(t, tasks[t], table, Of(standings', tasks[t].job)) {
      assert TaskOk(t, tasks[t], table, Of(standings, tasks[t].job));
    }
  }

  lemma RegisterKeepsConsistent(tasks: Tasks, table: Table, standings: Standings, t: Token, task: Task)
    requires Consistent(tasks, table, standings)
    requires t !in tasks
    requires NoneAwaited(tasks, task.job)
    requires task.PreVerdict() && InStep(task, Of(standings, task.job))
    requires task.phase == Waiting ==>
               !(task.job in table && table[task.job].IsAwaitedBy(Of(standings, task.job)))
    requires task.phase != Waiting ==> forall u :: u in tasks ==> tasks[u].job != task.job
    requires task.phase == Waiting || task.phase == Reattaching
    ensures Consistent(tasks[t := task], table[task.job := LaunchedRound(task.round, t)], standings)
  {
    var j := task.job;
    var r := Of(standings, j);
    var tasks', table' := tasks[t := task], table[j := LaunchedRound(task.round, t)];
    forall u | u in tasks ensures TaskOk(u, tasks[u], table', Of(standings, tasks[u].job)) {
      assert TaskOk(u, tasks[u], table, Of(standings, tasks[u].job));
    }
    forall u | u in tasks && tasks[u].job == j && tasks[u].Registered() ensures tasks[u].round != task.round {
      assert TaskOk(u, tasks[u], table, r);
    }
    forall k | k in table' ensures EntryOk(tasks', k, table'[k]) {
      assert k != j ==> EntryOk(tasks, k, table[k]);
    }
  }

  /// Dropping a Registration removes its own entry or none: never a newer one.
  lemma UnregisterKeepsConsistent(tasks: Tasks, table: Table, standings: Standings, t: Token)
    requires Consistent(tasks, table, standings)
    requires t in tasks && tasks[t].phase == Over && !tasks[t].launching
    ensures var j := tasks[t].job;
            var table' := if j in table && table[j].round == tasks[t].round then table - {j} else table;
            && Consistent(tasks[t := tasks[t].(phase := Unregistered)], table', standings)
            && (table' != table ==> table[j].token == t)
  {
    var task := tasks[t];
    var j := task.job;
    var table' := if j in table && table[j].round == task.round then table - {j} else table;
    var tasks' := tasks[t := task.(phase := Unregistered)];
    assert j in table ==> EntryOk(tasks, j, table[j]);
    forall u | u in tasks' ensures TaskOk(u, tasks'[u], table', Of(standings, tasks'[u].job)) {
      assert TaskOk(u, tasks[u], table, Of(standings, tasks[u].job));
    }
    forall k | k in table' ensures EntryOk(tasks', k, table'[k]) {
      assert EntryOk(tasks, k, table[k]);
    }
  }

  lemma FinishKeepsConsistent(tasks: Tasks, table: Table, standings: Standings, t: Token)
    requires Consistent(tasks, table, standings)
    requires t in tasks && !tasks[t].Registered()
    ensures Consistent(tasks - {t}, table, standings)
  {
    forall k | k in table ensures EntryOk(tasks - {t}, k, table[k]) {
      assert EntryOk(tasks, k, table[k]);
    }
  }
}
