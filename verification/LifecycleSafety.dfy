// What holds over every run of the lifecycle, whatever the interleaving and
// however many daemons crashed and restarted.
module LifecycleSafety {
  import opened Events
  import opened Report
  import opened Recovery
  import opened Queue
  import opened RoundTasks
  import opened Epochs
  import opened Lifecycle
  import opened LifecycleInvariant
  import opened LifecycleStart

  ghost predicate Good(s: State) {
    Live(s) && LogsOk(s.logs)
  }

  // ----- logs -----

  lemma AppendingKeepsLogs(s: State, j: Job, e: Event)
    requires LogsOk(s.logs) && MayFollow(s.At(j), e.kind)
    ensures LogsOk(s.Appending(j, e).logs)
  {
    hide LogOk, MayFollow;
    assert LogOk(s.LogOf(j)) by { EmptyLogOk(); }
    AppendKeepsLogOk(s.LogOf(j), e);
  }

  lemma EmptyLogOk()
    ensures LogOk([])
  {
    assert OneTo(0) == [];
  }

  /// A task appends only what may follow where its job's report stands.
  lemma TaskAppendFollows(t: Token, task: Task, table: Table, r: Standing, kind: EventKind, next: Phase)
    requires TaskOk(t, task, table, r) && MayAppend(task, kind, next)
    ensures MayFollow(r, kind)
  {
  }

  lemma RequestKeepsLogs(s: State, j: Job, e: Event)
    requires Good(s) && CanRecord(s, j, e)
    ensures LogsOk(SubmitRecords(s, j, e).logs)
  {
    hide LogsOk, MayFollow, Consistent, PlacesOk;
    assert MayFollow(s.At(j), e.kind) by { RequestFollows(s, j, e); }
    AppendingKeepsLogs(s, j, e);
  }

  lemma CancelKeepsLogs(s: State, at: Instant)
    requires Good(s) && CanCancelAct(s)
    ensures LogsOk(CancelActs(s, at).logs)
  {
    hide LogsOk, MayFollow, Consistent, PlacesOk;
    var j := s.lock.job;
    if s.queue.CancelDecision(j, s.lock.seen) == Close {
      var e := Event(at, RoundFailed(CANCELLED_BEFORE_IT_STARTED));
      assert MayFollow(s.At(j), e.kind) by { CloseFollows(s.At(j)); }
      AppendingKeepsLogs(s, j, e);
    }
  }

  lemma ResumeKeepsLogs(s: State, at: Instant)
    requires Good(s) && CanResume(s)
    ensures LogsOk(ResumeNext(s, at).logs)
  {
    hide LogsOk, MayFollow, Consistent, PlacesOk;
    if s.owed[0].resumption.LostWhileLaunching? {
      var j := s.owed[0].job;
      var e := Event(at, RoundFailed(LOST_WHILE_LAUNCHING));
      assert OneOwed(s.owed[0], StandingsOf(s.logs), s.tasks);
      assert MayFollow(s.At(j), e.kind) by { LossFollows(s.At(j)); }
      AppendingKeepsLogs(s, j, e);
    }
  }

  lemma RecordKeepsLogs(s: State, t: Token, e: Event, next: Phase)
    requires Good(s) && MayRecord(s, t, e, next)
    ensures LogsOk(TaskRecords(s, t, e, next).logs)
  {
    hide LogsOk, MayFollow, TaskOk, MayAppend, TableOk, DistinctOk, PlacesOk, ClosedOk, RunningOk, OrderOk;
    var j := s.tasks[t].job;
    TaskAppendFollows(t, s.tasks[t], s.queue.table, s.At(j), e.kind, next);
    AppendingKeepsLogs(s, j, e);
  }

  lemma StepKeepsLogs(s: State, step: Step)
    requires Good(s) && Enabled(s, step)
    ensures LogsOk(Stepped(s, step).logs)
  {
    hide LogsOk, Live, CancelActs, ResumeNext, TaskRecords, SubmitRecords, OwedAtOnce, ToRequeue, ByRequestTime,
      MayRecord, CanRecord;
    match step
    case Requesting(j, e) => RequestKeepsLogs(s, j, e);
    case CancelActing(at) => CancelKeepsLogs(s, at);
    case Resuming(at) => ResumeKeepsLogs(s, at);
    case Recording(t, e, next) => RecordKeepsLogs(s, t, e, next);
    case _ =>
  }

  lemma RequestFollows(s: State, j: Job, e: Event)
    requires SubmitsOk(StandingsOf(s.logs), s.submits) && CanRecord(s, j, e)
    ensures MayFollow(s.At(j), e.kind)
  {
  }

  lemma CloseFollows(r: Standing)
    requires r.state == Queued
    ensures MayFollow(r, RoundFailed(CANCELLED_BEFORE_IT_STARTED))
  {
  }

  lemma LossFollows(r: Standing)
    requires r.state == Running
    ensures MayFollow(r, RoundFailed(LOST_WHILE_LAUNCHING))
  {
    assert |LOST_WHILE_LAUNCHING| != |CANCELLED_BEFORE_IT_STARTED|;
  }

  // ----- every step, every run -----

  lemma StepKeeps(s: State, step: Step)
    requires Good(s) && Enabled(s, step)
    ensures Good(Stepped(s, step))
  {
    hide Live, LogsOk;
    StepKeepsLogs(s, step);
    match step
    case Booting(maxJobs, order) => BootKeeps(s, maxJobs, order);
    case Resuming(at) => ResumeNextKeeps(s, at);
    case Serving => ServeKeeps(s);
    case Checking(j) => SubmitChecksKeeps(s, j);
    case Requesting(j, e) => SubmitRecordsKeeps(s, j, e);
    case Enqueueing(j) => SubmitEnqueuesKeeps(s, j);
    case GivingUp(j) => SubmitGivesUpKeeps(s, j);
    case CancelReading(j) => CancelReadsKeeps(s, j);
    case CancelActing(at) => CancelActsKeeps(s, at);
    case Taking => DispatchTakesKeeps(s);
    case Slotting => DispatchSlotsKeeps(s);
    case DispatchReading => DispatchReadsKeeps(s);
    case DispatchActing => DispatchActsKeeps(s);
    case Returning => DispatchReturnsKeeps(s);
    case Recording(t, e, next) => TaskRecordsKeeps(s, t, e, next);
    case Moving(t, next) => TaskMovesKeeps(s, t, next);
    case Settling(t) => TaskSettlesKeeps(s, t);
    case Unregistering(t) => TaskUnregistersKeeps(s, t);
    case Finishing(t) => TaskFinishesKeeps(s, t);
    case Stopping => StopKeeps(s);
    case Crashing => CrashKeeps(s);
  }

  lemma {:induction false} RunKeeps(s: State, trace: seq<Step>)
    requires Good(s) && Runs(s, trace)
    ensures Good(End(s, trace))
    decreases |trace|
  {
    hide Good, Enabled, Stepped;
    if trace != [] {
      StepKeeps(s, trace[0]);
      RunKeeps(Stepped(s, trace[0]), trace[1..]);
    }
  }

  /// The histories the laws speak of are kept: a launch is one asked for, a
  /// place is one taken, a dispatch is of the place last taken, and a round is
  /// reattached where its job is owed that.
  lemma HistoriesAreKept(s: State, step: Step)
    requires Enabled(s, step) && (step.Recording? || step.Moving? ==> step.task in s.tasks)
    ensures var s' := Stepped(s, step);
            && s'.launches == (if step.Moving? && step.next == Launching
                               then s.launches + [(s.tasks[step.task].job, s.tasks[step.task].round)] else s.launches)
            && (step.Booting? ==>
                  && s'.enqueued == [] && s'.taken == 0 && s'.dispatched == []
                  && s'.reattached == 0 && s'.passedOver == {})
            && (!step.Booting? && !step.Crashing? ==>
                  && s'.taken == s.taken + (if step.Taking? then 1 else 0)
                  && s'.dispatched == (if step.DispatchActing? && s.queue.MayRegister(s.lock.job, s.lock.seen)
                                       then s.dispatched + [s.taken - 1] else s.dispatched)
                  && s'.reattached == s.reattached + (if step.Resuming? && s.owed[0].resumption.Reattach? then 1 else 0)
                  && (step.Enqueueing? && s.dispatcher != Returned ==> s'.enqueued == s.enqueued + [step.job])
                  && (step.Serving? ==> s'.enqueued == s'.queue.pending))
  {
    hide OwedAtOnce, ToRequeue, ByRequestTime, FromEvents, StandingsOf, HasWaitingTask, MayAppend, CanCheck, CanRecord,
      CanEnqueue, CanGiveUp, CanCancel, CanServe, CanStop, CanReturn, CanSlot, CanRegister, CanBoot, CanFinish,
      CanUnregister, CanSettle, MayMoveOn, MayRecord, MayMove, QueueState.MayRegister, QueueState.CancelDecision,
      State.LogOf, State.At, Enumerates;
  }

  lemma ReachableIsGood(trace: seq<Step>)
    requires Runs(INITIALLY, trace)
    ensures Good(End(INITIALLY, trace))
  {
    RunKeeps(INITIALLY, trace);
  }

  // ----- what follows -----

  /// From a request to the next there are never two starts or two verdicts,
  /// nor a start after a verdict; and where a cancel ended the wait there is no
  /// start at all: a job is closed while it waits, or launched, not both.
  lemma EpochSafety(trace: seq<Step>, j: Job)
    requires Runs(INITIALLY, trace)
    ensures var log := End(INITIALLY, trace).LogOf(j);
            && (log != [] ==> log[0].kind.RoundRequested?)
            && forall i, k :: 0 <= i < k < |log|
                 && (|| (log[i].kind.RoundStarted? && log[k].kind.RoundStarted?)
                     || (log[i].kind.IsVerdict() && log[k].kind.IsVerdict())
                     || (log[i].kind.IsVerdict() && log[k].kind.RoundStarted?)
                     || (log[i].kind.RoundStarted? && log[k].kind == RoundFailed(CANCELLED_BEFORE_IT_STARTED)))
                 ==> exists m :: i < m < k && log[m].kind.RoundRequested?
  {
    ReachableIsGood(trace);
    var log := End(INITIALLY, trace).LogOf(j);
    EmptyLogOk();
    assert EpochsOk(log);
    forall i, k | 0 <= i < k < |log| && Clash(log[i].kind, log[k].kind)
      ensures exists m :: i < m < k && log[m].kind.RoundRequested?
    {
      assert Separated(log, i, k);
    }
  }

  /// The runner is asked to launch each round of each job at most once, over
  /// all daemons there ever were, and only rounds the log records as started.
  lemma LaunchedAtMostOnce(trace: seq<Step>)
    requires Runs(INITIALLY, trace)
    ensures var s := End(INITIALLY, trace);
            && (forall i, k :: 0 <= i < k < |s.launches| ==> s.launches[i] != s.launches[k])
            && (forall i :: 0 <= i < |s.launches| ==> s.launches[i].1 in StartNumbers(s.LogOf(s.launches[i].0)))
  {
    ReachableIsGood(trace);
    var s := End(INITIALLY, trace);
    forall i | 0 <= i < |s.launches| ensures s.launches[i].1 in StartNumbers(s.LogOf(s.launches[i].0)) {
      var (j, round) := s.launches[i];
      assert 0 < round <= Of(StandingsOf(s.logs), j).rounds;
      assert LogOk(s.LogOf(j));
      assert StartNumbers(s.LogOf(j))[round - 1] == round;
    }
  }

  /// The n-th start of a job is numbered n, also for one in line twice.
  lemma StartsAreNumberedInOrder(trace: seq<Step>, j: Job)
    requires Runs(INITIALLY, trace)
    ensures var log := End(INITIALLY, trace).LogOf(j);
            && |StartNumbers(log)| == FromEvents(log).rounds
            && (exists at: seq<nat> :: AreTheStarts(log, StartNumbers(log), at))
            && forall i :: 0 <= i < |StartNumbers(log)| ==> StartNumbers(log)[i] == i + 1
  {
    ReachableIsGood(trace);
    EmptyLogOk();
    assert LogOk(End(INITIALLY, trace).LogOf(j));
    var at := StartsByPosition(End(INITIALLY, trace).LogOf(j));
  }

  /// The cancel table has the live round each report awaits, and no entry
  /// without its live task; rounds of one job have a task each.
  lemma CancelTableIsExact(trace: seq<Step>)
    requires Runs(INITIALLY, trace) && End(INITIALLY, trace).up
    ensures var s := End(INITIALLY, trace);
            && (forall t ::
                  (t in s.tasks && s.tasks[t].Registered()
                   && LaunchedRound(s.tasks[t].round, t).IsAwaitedBy(s.At(s.tasks[t].job)))
                  ==> s.tasks[t].job in s.queue.table
                      && s.queue.table[s.tasks[t].job] == LaunchedRound(s.tasks[t].round, t))
            && (forall j :: j in s.queue.table ==>
                  var entry := s.queue.table[j];
                  && entry.token in s.tasks && s.tasks[entry.token].Registered()
                  && s.tasks[entry.token].job == j && s.tasks[entry.token].round == entry.round)
            && (forall t, u ::
                  (t in s.tasks && u in s.tasks && t != u && s.tasks[t].job == s.tasks[u].job
                   && s.tasks[t].Registered() && s.tasks[u].Registered()) ==> s.tasks[t].round != s.tasks[u].round)
  {
    ReachableIsGood(trace);
    var s := End(INITIALLY, trace);
    forall t | t in s.tasks && s.tasks[t].Registered()
               && LaunchedRound(s.tasks[t].round, t).IsAwaitedBy(s.At(s.tasks[t].job))
      ensures Holds(t, s.tasks[t], s.queue.table)
    {
      assert TaskOk(t, s.tasks[t], s.queue.table, s.At(s.tasks[t].job));
    }
    forall j | j in s.queue.table ensures EntryOk(s.tasks, j, s.queue.table[j]) {
    }
  }

  /// Dropping a Registration takes no entry but its own out of the table.
  lemma DroppingEvictsNoOther(trace: seq<Step>, t: Token)
    requires Runs(INITIALLY, trace) && CanUnregister(End(INITIALLY, trace), t)
    ensures var s := End(INITIALLY, trace);
            var table' := TaskUnregisters(s, t).queue.table;
            forall j :: j in s.queue.table && s.queue.table[j].token != t ==>
                          j in table' && table'[j] == s.queue.table[j]
  {
    ReachableIsGood(trace);
    var s := End(INITIALLY, trace);
    UnregisterKeepsConsistent(s.tasks, s.queue.table, StandingsOf(s.logs), t);
  }

  /// The window: the entry the job's report awaits is of a task already over,
  /// its Registration not yet dropped — a round cancelled before it started,
  /// its job revised since, or one the daemon's stopping left queued.
  ghost predicate InWindow(s: State, j: Job) {
    var table := s.queue.table;
    && s.At(j).state == Queued && HasAwaited(table, j, s.At(j))
    && table[j].token in s.tasks && s.tasks[table[j].token].phase == Over
  }

  lemma WindowIsOfACancelledRound(s: State, j: Job)
    requires Good(s) && s.up && s.At(j).state == Queued && HasAwaited(s.queue.table, j, s.At(j))
    ensures var t := s.queue.table[j].token;
            && t in s.tasks && (s.tasks[t].phase == Over || s.tasks[t].IsWaiting())
            && (s.tasks[t].phase == Over ==> t in s.queue.fired || s.queue.stopping)
  {
    hide LogsOk, OrderOk, LaunchesOk, UnlaunchedOk, SubmitsOk, OwedOk, RunningOk, PlacesOk, StandingsOf, DistinctOk,
      LockOk;
    var table := s.queue.table;
    assert EntryOk(s.tasks, j, table[j]);
    assert TaskOk(table[j].token, s.tasks[table[j].token], table, s.At(j));
  }

  /// The task of token `t` is one that a cancel can still stop: about to start
  /// its round, or running it.
  predicate CanStillStop(s: State, t: Token) {
    t in s.tasks && s.tasks[t].PreVerdict()
  }

  /// What a cancel of `j` that read `seen` comes to, acting in `s`. A refusal is
  /// of a job neither Queued nor Running, and a close is of one still Queued
  /// that no task can start. A token fired is that of the round awaited by what
  /// was read; it reaches a task short of its verdict exactly if that round is
  /// awaited still and the job is not in the window.
  ghost predicate CancelReaches(s: State, j: Job, seen: Standing) {
    match s.queue.CancelDecision(j, seen)
    case Refuse => seen.state != Queued && seen.state != Running
    case Close => seen.state == Queued && s.At(j) == seen && NoneAwaited(s.tasks, j) && !InWindow(s, j)
    case Fire(t) =>
      && t in s.tasks && s.tasks[t].job == j && LaunchedRound(s.tasks[t].round, t).IsAwaitedBy(seen)
      && (CanStillStop(s, t) <==> HasAwaited(s.queue.table, j, s.At(j)) && !InWindow(s, j))
      && (InWindow(s, j) ==> s.tasks[t].phase == Over && s.queue.table[j].token == t)
      && (CanStillStop(s, t) ==> (s.tasks[t].IsRunning() <==> s.At(j).state == Running))
  }

  /// It closes the job, or fires a token that reaches its task in time.
  predicate TakesEffect(s: State, decision: Decision) {
    decision == Close || (decision.Fire? && CanStillStop(s, decision.token))
  }

  /// What acting comes to: a token fired, or one event in the log, or nothing.
  ghost predicate ActsOn(s: State, s': State, j: Job, decision: Decision, at: Instant) {
    && s'.lock == Free && s'.tasks == s.tasks && s'.queue.(fired := s.queue.fired) == s.queue
    && match decision
       case Fire(t) => s'.logs == s.logs && s'.queue.fired == s.queue.fired + {t}
       case Close =>
         && s'.queue.fired == s.queue.fired
         && s'.logs == s.logs[j := (if j in s.logs then s.logs[j] else [])
                                   + [Event(at, RoundFailed("cancelled before it started"))]]
       case Refuse => s'.logs == s.logs && s'.queue.fired == s.queue.fired
  }

  lemma FiredReaches(s: State, j: Job, seen: Standing)
    requires Good(s) && s.up && HasAwaited(s.queue.table, j, seen)
    ensures CancelReaches(s, j, seen)
  {
    hide LogsOk, PlacesOk, OrderOk, LaunchesOk, UnlaunchedOk, ClosedOk, SubmitsOk, DistinctOk, StandingsOf, LockOk,
      TallyOk, RunningOk, OwedOk;
    var table := s.queue.table;
    var t := table[j].token;
    assert EntryOk(s.tasks, j, table[j]);
    assert TaskOk(t, s.tasks[t], table, s.At(j));
  }

  lemma GoodCancelReaches(s: State, j: Job, seen: Standing)
    requires Good(s) && s.up && StillSeen(j, seen, StandingsOf(s.logs), s.queue.table)
    ensures CancelReaches(s, j, seen)
  {
    hide Good, StandingsOf;
    if HasAwaited(s.queue.table, j, seen) {
      FiredReaches(s, j, seen);
    } else if seen.state == Queued {
      UnawaitedIsIdle(s, j);
    }
  }

  lemma UnawaitedIsIdle(s: State, j: Job)
    requires Good(s) && s.up && s.At(j).state == Queued && !HasAwaited(s.queue.table, j, s.At(j))
    ensures NoneAwaited(s.tasks, j) && !InWindow(s, j)
  {
    hide LogsOk, PlacesOk, OrderOk, LaunchesOk, UnlaunchedOk, ClosedOk, SubmitsOk, StandingsOf;
    IdleOrUnawaited(s.tasks, s.queue.table, StandingsOf(s.logs), j);
  }

  lemma SeenAtOnce(s: State, j: Job)
    requires Good(s) && CanCancel(s, j)
    ensures StillSeen(j, s.At(j), StandingsOf(s.logs), s.queue.table)
  {
    hide Good, StandingsOf;
    StepKeeps(s, CancelReading(j));
    SeenUnderTheLock(CancelReads(s, j));
  }

  lemma SeenUnderTheLock(s: State)
    requires Good(s) && CanCancelAct(s)
    ensures StillSeen(s.lock.job, s.lock.seen, StandingsOf(s.logs), s.queue.table)
  {
    hide LogsOk, PlacesOk, OrderOk, LaunchesOk, UnlaunchedOk, ClosedOk, SubmitsOk, Consistent, StandingsOf;
  }

  /// Wherever a cancel acts, however long after it read: it is refused of a job
  /// neither Queued nor Running, closes one that nothing can start, or fires a
  /// token. It then takes effect exactly if the round it found awaited is
  /// awaited still and the job is not in the window.
  lemma CancelReachesTheLiveRound(trace: seq<Step>)
    requires Runs(INITIALLY, trace) && CanCancelAct(End(INITIALLY, trace))
    ensures var s := End(INITIALLY, trace);
            var (j, decision) := (s.lock.job, s.queue.CancelDecision(s.lock.job, s.lock.seen));
            && CancelReaches(s, j, s.lock.seen)
            && (decision != Refuse ==>
                  (TakesEffect(s, decision) <==>
                     (decision == Close || HasAwaited(s.queue.table, j, s.At(j))) && !InWindow(s, j)))
            && forall at :: ActsOn(s, CancelActs(s, at), j, decision, at)
  {
    hide Runs, End, Good;
    ReachableIsGood(trace);
    var s := End(INITIALLY, trace);
    SeenUnderTheLock(s);
    GoodCancelReaches(s, s.lock.job, s.lock.seen);
  }

  /// A cancel that acts in the window is lost, whenever the window opened: it
  /// leaves everything as it was but for the token of a task already over, the
  /// job is Queued still, and the next daemon puts it in line.
  lemma InTheWindowACancelIsLost(trace: seq<Step>, at: Instant, order: seq<Job>)
    requires Runs(INITIALLY, trace) && CanCancelAct(End(INITIALLY, trace))
    requires var s := End(INITIALLY, trace);
             && Enumerates(order, s.logs) && InWindow(s, s.lock.job)
             && s.queue.CancelDecision(s.lock.job, s.lock.seen) != Refuse
    ensures var s := End(INITIALLY, trace);
            var (j, token) := (s.lock.job, s.queue.table[s.lock.job].token);
            && s.queue.CancelDecision(j, s.lock.seen) == Fire(token) && s.tasks[token].phase == Over
            && CancelActs(s, at) == s.(lock := Free, queue := s.queue.Firing(token))
            && s.At(j).state == Queued && j in ToRequeue(order, CancelActs(s, at).logs)
  {
    hide Runs, End, StandingsOf, FromEvents, Good;
    CancelReachesTheLiveRound(trace);
    ReachableIsGood(trace);
    var s := End(INITIALLY, trace);
    QueuedIsRequeued(s, s.lock.job, order);
  }

  lemma QueuedIsRequeued(s: State, j: Job, order: seq<Job>)
    requires Good(s) && Enumerates(order, s.logs) && s.At(j).state == Queued
    ensures j in ToRequeue(order, s.logs)
  {
    hide Live, LogOk, ToRequeue, Enumerates;
    EveryActiveJobIsFound(s.logs, order);
    ToRequeueIsQueued(order, s.logs);
  }

  lemma {:induction false} CountOfDistinct(jobs: seq<Job>, j: Job)
    requires forall i, k :: 0 <= i < k < |jobs| ==> jobs[i] != jobs[k]
    ensures multiset(jobs)[j] == if j in jobs then 1 else 0
  {
    if jobs != [] {
      var n := |jobs| - 1;
      assert jobs == jobs[..n] + [jobs[n]];
      CountOfDistinct(jobs[..n], j);
    }
  }

  /// A daemon may crash whatever it is at, and leaves the logs and the history
  /// of launches alone: the next one starts with nothing else.
  lemma ACrashLeavesTheLogs(s: State, maxJobs: nat, order: seq<Job>)
    requires s.up && Enumerates(order, s.logs)
    ensures Enabled(s, Crashing) && Enabled(Stepped(s, Crashing), Booting(maxJobs, order))
    ensures var next := Stepped(Stepped(s, Crashing), Booting(maxJobs, order));
            && next.logs == s.logs && next.launches == s.launches
            && next.up && !next.serving && next.maxJobs == maxJobs
            && next.tasks == map[] && next.submits == map[] && next.lock == Free && next.dispatcher == NotSpawned
            && next.queue.table == map[] && next.queue.fired == {} && next.queue.pending == []
            && next.queue.running == 0 == next.queue.launching && !next.queue.stopping
  {
  }

  /// A submit refused or broken off before its request is recorded leaves no
  /// trace.
  lemma AnUnrecordedSubmitLeavesNothing(s: State, j: Job)
    requires Enabled(s, Checking(j))
    ensures Enabled(Stepped(s, Checking(j)), GivingUp(j))
    ensures Stepped(Stepped(s, Checking(j)), GivingUp(j)) == s
  {
    hide FromEvents;
  }

  /// What a job is given at a start: its round's task, registered, if it is
  /// Running; a place in line, just one, if it is Queued.
  ghost predicate IsGivenItsDue(s: State, j: Job) {
    && (s.At(j).state == Running ==>
          && j in s.queue.table && s.queue.table[j].token in s.tasks
          && var task := s.tasks[s.queue.table[j].token];
             task.job == j && task.round == s.At(j).rounds && (task.phase == Reattaching || task.phase == Collecting))
    && multiset(s.queue.pending)[j] == if s.At(j).state == Queued then 1 else 0
  }

  lemma GoodIsGivenItsDue(before: State, j: Job)
    requires Good(before) && CanServe(before)
    ensures IsGivenItsDue(Serve(before), j)
  {
    hide LogsOk, PlacesOk, OrderOk, LaunchesOk, UnlaunchedOk, ClosedOk, SubmitsOk, LockOk, OwedOk, ByRequestTime,
      FreshOk;
    if before.At(j).state == Running {
      assert Attended(j, before.tasks, before.queue.table);
      assert EntryOk(before.tasks, j, before.queue.table[j]);
      var t := before.queue.table[j].token;
      assert TaskOk(t, before.tasks[t], before.queue.table, before.At(j));
    }
    RequeuedInOrder(before.requeued, before.logs);
    CountOfDistinct(before.requeued, j);
  }

  /// After a start, every job has its due, and the line is in request-time
  /// order.
  lemma RecoveryIsComplete(trace: seq<Step>, j: Job)
    requires Runs(INITIALLY, trace) && CanServe(End(INITIALLY, trace))
    ensures var s := Serve(End(INITIALLY, trace));
            IsGivenItsDue(s, j) && AskedInOrder(s.queue.pending, s.logs)
  {
    hide Runs, End, Good, AskedInOrder, Serve, IsGivenItsDue;
    ReachableIsGood(trace);
    GoodIsGivenItsDue(End(INITIALLY, trace), j);
    GoodIsAskedInOrder(End(INITIALLY, trace));
  }

  lemma GoodIsAskedInOrder(s: State)
    requires Good(s) && CanServe(s)
    ensures AskedInOrder(Serve(s).queue.pending, Serve(s).logs)
  {
    hide ByRequestTime, InRequestOrder, AskedInOrder, PlacesOk, OrderOk, LaunchesOk, UnlaunchedOk, ClosedOk, Consistent;
    var line := ByRequestTime(s.requeued, s.logs);
    RequeuedInOrder(s.requeued, s.logs);
    SameElements(line, s.requeued);
    forall j | j in line ensures j in s.logs && s.logs[j] != [] && s.logs[j][0].kind.RoundRequested? {
      assert StandingsOf(s.logs)[j].state == Queued;
      QueuedHasARequest(s.logs[j]);
    }
    SortedIsAskedInOrder(line, s.logs);
  }

  lemma QueuedHasARequest(log: Log)
    requires LogOk(log) && StandingOf(log).state == Queued
    ensures log != [] && log[0].kind.RoundRequested?
  {
    NothingStands();
  }

  /// What was read under the lock still holds when it is acted on, whatever
  /// was appended in between: a job closed as never started has no task that
  /// could start it, and one dispatched has no other.
  lemma ReadingsHoldUntilActedOn(trace: seq<Step>)
    requires Runs(INITIALLY, trace)
    ensures var s := End(INITIALLY, trace);
            && (CanCancelAct(s) && s.queue.CancelDecision(s.lock.job, s.lock.seen) == Close ==>
                  s.At(s.lock.job).state == Queued && NoneAwaited(s.tasks, s.lock.job))
            && (CanDispatch(s) && s.queue.MayRegister(s.lock.job, s.lock.seen) ==>
                  && s.At(s.lock.job) == s.lock.seen && NoneAwaited(s.tasks, s.lock.job)
                  && forall t :: t in s.tasks && s.tasks[t].job == s.lock.job && s.tasks[t].Registered() ==>
                                   s.tasks[t].round <= s.lock.seen.rounds)
  {
    ReachableIsGood(trace);
    var s := End(INITIALLY, trace);
    hide LogsOk, PlacesOk, OrderOk, LaunchesOk, UnlaunchedOk, ClosedOk, SubmitsOk, OwedOk, RunningOk;
    if s.up && !s.lock.Free? && s.lock.seen.state == Queued && !HasAwaited(s.queue.table, s.lock.job, s.lock.seen) {
      var j := s.lock.job;
      IdleOrUnawaited(s.tasks, s.queue.table, StandingsOf(s.logs), j);
      forall t | t in s.tasks && s.tasks[t].job == j && s.tasks[t].Registered()
        ensures s.tasks[t].round <= s.At(j).rounds
      {
        assert TaskOk(t, s.tasks[t], s.queue.table, s.At(j));
      }
    }
  }

  // ----- shutdown -----

  ghost predicate NoneLost(logs: map<Job, Log>) {
    forall j :: j in logs ==> !(StandingOf(logs[j]).state == Running && StandingOf(logs[j]).launched == None)
  }

  /// What a stopping daemon waits for: no dispatcher, and no launch unsettled.
  predicate LaunchesSettled(s: State) {
    s.up && s.dispatcher == Returned && s.queue.launching == 0
  }

  lemma SettledLosesNone(s: State)
    requires Good(s) && s.up && s.serving && s.queue.launching == 0
    ensures NoneLost(s.logs)
  {
    hide LogsOk, PlacesOk, OrderOk, LaunchesOk, UnlaunchedOk, ClosedOk, SubmitsOk, OwedOk, TableOk, DistinctOk;
    forall j | j in s.logs && StandingOf(s.logs[j]).state == Running ensures StandingOf(s.logs[j]).launched.Some? {
      assert StandingsOf(s.logs)[j] == StandingOf(s.logs[j]);
      assert Attended(j, s.tasks, s.queue.table);
      LaunchingIsCounted(s, j);
    }
  }

  lemma LaunchingIsCounted(s: State, j: Job)
    requires Consistent(s.tasks, s.queue.table, StandingsOf(s.logs)) && TallyOk(s.queue, s.tasks)
    requires s.queue.launching == 0 && Attended(j, s.tasks, s.queue.table)
    ensures s.At(j).launched.Some?
  {
    var t := s.queue.table[j].token;
    assert EntryOk(s.tasks, j, s.queue.table[j]);
    assert TaskOk(t, s.tasks[t], s.queue.table, s.At(j));
    assert t !in LaunchingTokens(s.tasks);
  }

  lemma SettledStays(s: State, step: Step)
    requires Good(s) && Enabled(s, step) && !step.Booting?
    requires LaunchesSettled(s) || (!s.up && NoneLost(s.logs))
    ensures var s' := Stepped(s, step); LaunchesSettled(s') || (!s'.up && NoneLost(s'.logs))
  {
    hide LogsOk, PlacesOk, OrderOk, LaunchesOk, UnlaunchedOk, ClosedOk, SubmitsOk, OwedOk, RunningOk, Consistent,
      NoneLost, MayAppend, MayMove, LaunchingTokens, StandingsOf;
    assert s.up ==> s.serving;
    match step
    case Crashing => SettledLosesNone(s);
    case Settling(t) => SettlesOneOf(s, t);
    case _ =>
  }

  lemma SettlesOneOf(s: State, t: Token)
    requires TallyOk(s.queue, s.tasks) && CanSettle(s, t)
    ensures s.queue.launching > 0
  {
    assert t in LaunchingTokens(s.tasks);
  }

  /// Once a stopping daemon's launches have settled, nothing it does before it
  /// ends leaves a started round with no handle on record, so the daemon after
  /// it finds none to fail as lost.
  lemma {:induction false} CleanShutdownLosesNothing(s: State, trace: seq<Step>, order: seq<Job>)
    requires Good(s) && Runs(s, trace)
    requires LaunchesSettled(s) || (!s.up && NoneLost(s.logs))
    requires forall i :: 0 <= i < |trace| ==> !trace[i].Booting?
    requires CanBoot(End(s, trace), order)
    ensures NoneLost(End(s, trace).logs)
    ensures forall o :: o in OwedAtOnce(order, End(s, trace).logs) ==> !o.resumption.LostWhileLaunching?
    decreases |trace|
  {
    hide Good, Enabled, Stepped, NoneLost, OwedAtOnce;
    if trace == [] {
      NoneOwedLost(order, s.logs);
    } else {
      assert Enabled(s, trace[0]);
      StepKeeps(s, trace[0]);
      SettledStays(s, trace[0]);
      assert forall i :: 0 <= i < |trace[1..]| ==> trace[1..][i] == trace[i + 1];
      CleanShutdownLosesNothing(Stepped(s, trace[0]), trace[1..], order);
    }
  }

  lemma {:induction false} NoneOwedLost(order: seq<Job>, logs: map<Job, Log>)
    requires NoneLost(logs)
    ensures forall o :: o in OwedAtOnce(order, logs) ==> !o.resumption.LostWhileLaunching?
  {
    if order != [] {
      NoneOwedLost(order[..|order| - 1], logs);
    }
  }

  // ----- the cap and the line -----

  lemma DispatchIsUnderTheCap(s: State)
    requires Good(s) && CanDispatch(s) && s.queue.MayRegister(s.lock.job, s.lock.seen)
    ensures var s' := DispatchActs(s);
            && |s.tasks| < s.maxJobs && 0 < s.taken <= |s.enqueued| && |s'.tasks| == |s.tasks| + 1
            && s'.dispatched == s.dispatched + [s.taken - 1]
            && s.enqueued[s.taken - 1] == s.lock.job
  {
    hide LogsOk, PlacesOk, LaunchesOk, UnlaunchedOk, ClosedOk, SubmitsOk, OwedOk, RunningOk, Consistent, StandingsOf,
      LaunchingTokens, FromEvents, StartingOk;
    RegisteredTokens(s.tasks, s.queue.nextToken, Task(s.lock.job, s.lock.seen.rounds + 1, Waiting, true));
  }

  /// Rounds run under the cap, but for those found running at the start; and
  /// jobs are dispatched in the order they were enqueued.
  lemma CapAndOrder(trace: seq<Step>)
    requires Runs(INITIALLY, trace) && End(INITIALLY, trace).up
    ensures var s := End(INITIALLY, trace);
            && |s.tasks| <= (if s.maxJobs > s.reattached then s.maxJobs else s.reattached)
            && (CanDispatch(s) && s.queue.MayRegister(s.lock.job, s.lock.seen) ==>
                  var s' := DispatchActs(s);
                  && |s.tasks| < s.maxJobs && 0 < s.taken <= |s.enqueued| && |s'.tasks| == |s.tasks| + 1
                  && s'.dispatched == s.dispatched + [s.taken - 1]
                  && s.enqueued[s.taken - 1] == s.lock.job)
            && (forall i, k :: 0 <= i < k < |s.dispatched| ==> 0 <= s.dispatched[i] < s.dispatched[k] < |s.enqueued|)
  {
    ReachableIsGood(trace);
    var s := End(INITIALLY, trace);
    hide Runs, End, DispatchActs, LogsOk, PlacesOk, LaunchesOk, UnlaunchedOk, ClosedOk, SubmitsOk, OwedOk, RunningOk,
      Consistent, StandingsOf, LaunchingTokens, FromEvents, StartingOk;
    if CanDispatch(s) && s.queue.MayRegister(s.lock.job, s.lock.seen) {
      DispatchIsUnderTheCap(s);
    }
  }

  // ----- a place in line -----

  /// Short of stopping, a serving daemon has a place for every Queued job it
  /// has not passed over.
  lemma QueuedJobsHaveAPlace(trace: seq<Step>, j: Job)
    requires Runs(INITIALLY, trace)
    requires var s := End(INITIALLY, trace); s.serving && !s.queue.stopping && s.At(j).state == Queued
    ensures var s := End(INITIALLY, trace);
            HasPlace(j, s.tasks, s.queue.table, s.queue.pending, Hands(s.dispatcher, s.lock, s.queue.table),
                s.submits) || j in s.passedOver
  {
    ReachableIsGood(trace);
    var s := End(INITIALLY, trace);
    hide LogsOk, OrderOk, LaunchesOk, UnlaunchedOk, ClosedOk, SubmitsOk, OwedOk, RunningOk, Consistent;
  }

  lemma ReadingPassesOver(s: State)
    requires Good(s) && CanRegister(s)
    ensures var (s', j) := (DispatchReads(s), s.dispatcher.job);
            && s'.passedOver == (if InWindow(s, j) then s.passedOver + {j} else s.passedOver)
            && (InWindow(s, j) ==> s.queue.table[j].token in s.queue.fired || s.queue.stopping)
  {
    hide Good, StandingsOf;
    var j := s.dispatcher.job;
    if s.At(j).state == Queued && HasAwaited(s.queue.table, j, s.At(j)) {
      WindowIsOfACancelledRound(s, j);
    }
  }

  lemma NoPlaceInTheWindow(s: State)
    requires CanRegister(s) && InWindow(s, s.dispatcher.job) && s.dispatcher.job !in s.queue.pending
    requires s.dispatcher.job in s.submits ==> s.submits[s.dispatcher.job] != Recorded
    ensures var (s', j) := (DispatchReads(s), s.dispatcher.job);
            !HasPlace(j, s'.tasks, s'.queue.table, s'.queue.pending, Hands(s'.dispatcher, s'.lock, s'.queue.table),
                s'.submits)
  {
    hide StandingsOf;
  }

  /// The dispatcher passes a queued job over exactly in the window; the job is
  /// left without a place unless it is in line twice.
  lemma PassedOverExactly(trace: seq<Step>)
    requires Runs(INITIALLY, trace) && CanRegister(End(INITIALLY, trace))
    ensures var s := End(INITIALLY, trace);
            var (s', j) := (DispatchReads(s), s.dispatcher.job);
            && s'.passedOver == (if InWindow(s, j) then s.passedOver + {j} else s.passedOver)
            && (InWindow(s, j) ==> s.queue.table[j].token in s.queue.fired || s.queue.stopping)
            && (InWindow(s, j) && j !in s.queue.pending && (j in s.submits ==> s.submits[j] != Recorded) ==>
                  !HasPlace(j, s'.tasks, s'.queue.table, s'.queue.pending, Hands(s'.dispatcher, s'.lock,
                      s'.queue.table), s'.submits))
  {
    ReachableIsGood(trace);
    var s := End(INITIALLY, trace);
    hide Runs, End, Good, DispatchReads, HasPlace, Hands, StandingsOf;
    ReadingPassesOver(s);
    var j := s.dispatcher.job;
    if InWindow(s, j) && j !in s.queue.pending && (j in s.submits ==> s.submits[j] != Recorded) {
      NoPlaceInTheWindow(s);
    }
  }

  /// A job Queued, with no place, and no cancel about to act on it.
  ghost predicate WithoutAPlace(s: State, j: Job) {
    && s.up && s.serving && s.At(j).state == Queued
    && !HasPlace(j, s.tasks, s.queue.table, s.queue.pending, Hands(s.dispatcher, s.lock, s.queue.table), s.submits)
    && !(s.lock.CancelHolds? && s.lock.job == j)
  }

  /// No append but a cancel's moves such a job: it has no task to start it,
  /// and one that delivers does not change where its report stands.
  lemma RecordKeepsOut(s: State, j: Job, t: Token, e: Event, next: Phase)
    requires Good(s) && WithoutAPlace(s, j) && MayRecord(s, t, e, next)
    ensures WithoutAPlace(TaskRecords(s, t, e, next), j)
  {
    hide LogsOk, PlacesOk, OrderOk, LaunchesOk, UnlaunchedOk, ClosedOk, SubmitsOk, OwedOk, RunningOk, TallyOk,
      DistinctOk, TableOk, StandingsOf;
    var task := s.tasks[t];
    AppendingStands(s, task.job, e);
    assert TaskOk(t, task, s.queue.table, s.At(task.job));
  }

  lemma RequestKeepsOut(s: State, j: Job, k: Job, e: Event)
    requires Good(s) && WithoutAPlace(s, j) && CanRecord(s, k, e)
    ensures WithoutAPlace(SubmitRecords(s, k, e), j)
  {
    hide LogsOk, PlacesOk, OrderOk, LaunchesOk, UnlaunchedOk, ClosedOk, OwedOk, RunningOk, TallyOk, Consistent,
      StandingsOf;
    AppendingStands(s, k, e);
  }

  lemma CancelKeepsOut(s: State, j: Job, at: Instant)
    requires Good(s) && WithoutAPlace(s, j) && CanCancelAct(s)
    ensures WithoutAPlace(CancelActs(s, at), j)
  {
    hide LogsOk, PlacesOk, OrderOk, LaunchesOk, UnlaunchedOk, ClosedOk, OwedOk, RunningOk, TallyOk, Consistent,
      StandingsOf;
    AppendingStands(s, s.lock.job, Event(at, RoundFailed(CANCELLED_BEFORE_IT_STARTED)));
  }

  lemma DispatchKeepsOut(s: State, j: Job, step: Step)
    requires Good(s) && WithoutAPlace(s, j) && Enabled(s, step)
    requires step.Taking? || step.Slotting? || step.DispatchReading? || step.DispatchActing? || step.Returning?
    ensures WithoutAPlace(Stepped(s, step), j)
  {
    hide LogsOk, PlacesOk, OrderOk, LaunchesOk, UnlaunchedOk, ClosedOk, OwedOk, RunningOk, TallyOk, DistinctOk,
      TasksOk, StandingsOf;
    assert j in s.queue.table ==> EntryOk(s.tasks, j, s.queue.table[j]);
  }

  lemma StepKeepsOut(s: State, j: Job, step: Step)
    requires Good(s) && WithoutAPlace(s, j) && Enabled(s, step)
    requires !step.Crashing? && step != CancelReading(j)
    ensures WithoutAPlace(Stepped(s, step), j)
  {
    hide LogsOk, PlacesOk, OrderOk, LaunchesOk, UnlaunchedOk, ClosedOk, SubmitsOk, RunningOk, TallyOk, Consistent,
      StandingsOf, CancelActs, TaskRecords, SubmitRecords, MayRecord, CanRecord;
    match step
    case Recording(t, e, next) => RecordKeepsOut(s, j, t, e, next);
    case Requesting(k, e) => RequestKeepsOut(s, j, k, e);
    case CancelActing(at) => CancelKeepsOut(s, j, at);
    case Taking => DispatchKeepsOut(s, j, step);
    case Slotting => DispatchKeepsOut(s, j, step);
    case DispatchReading => DispatchKeepsOut(s, j, step);
    case DispatchActing => DispatchKeepsOut(s, j, step);
    case Returning => DispatchKeepsOut(s, j, step);
    case _ =>
  }

  /// A Queued job without a place keeps none, and stays Queued, until its
  /// daemon ends or it is cancelled.
  lemma {:induction false} WithoutAPlaceForGood(s: State, j: Job, trace: seq<Step>)
    requires Good(s) && WithoutAPlace(s, j) && Runs(s, trace)
    requires forall i :: 0 <= i < |trace| ==> !trace[i].Crashing? && trace[i] != CancelReading(j)
    ensures WithoutAPlace(End(s, trace), j)
    decreases |trace|
  {
    hide Good, WithoutAPlace, Enabled, Stepped;
    if trace != [] {
      StepKeepsOut(s, j, trace[0]);
      StepKeeps(s, trace[0]);
      assert forall i :: 0 <= i < |trace[1..]| ==> trace[1..][i] == trace[i + 1];
      WithoutAPlaceForGood(Stepped(s, trace[0]), j, trace[1..]);
    }
  }

  /// A cancel of it, once out of the window, closes it.
  lemma WithoutAPlaceACancelCloses(s: State, j: Job)
    requires Good(s) && WithoutAPlace(s, j) && CanCancel(s, j) && !InWindow(s, j)
    ensures s.queue.CancelDecision(j, s.At(j)) == Close
  {
    hide Good, StandingsOf;
    SeenAtOnce(s, j);
    GoodCancelReaches(s, j, s.At(j));
  }
}
