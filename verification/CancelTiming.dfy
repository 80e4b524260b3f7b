// A cancel from where it reads a job's log to where it acts on what it read,
// and what its token does after that (src/daemon/dispatch.rs).
module CancelTiming {
  import opened Events
  import opened Report
  import Recovery
  import opened Queue
  import opened RoundTasks
  import opened Epochs
  import opened Lifecycle
  import opened LifecycleInvariant
  import opened LifecycleStart
  import opened LifecycleSafety

  // ----- between the reading and the act -----

  /// One event at most was appended, and one that may follow.
  predicate AppendsOne(log: Log, log': Log) {
    || log' == log
    || (|log'| == |log| + 1 && log'[..|log|] == log && MayFollow(StandingOf(log), log'[|log|].kind))
  }

  lemma NothingAppended(log: Log)
    ensures AppendsOne(log, log)
  {
  }

  lemma StandsByItsLog(s: State, j: Job)
    ensures s.At(j) == StandingOf(s.LogOf(j))
  {
    NothingStands();
  }

  lemma AppendingAppendsOne(s: State, k: Job, e: Event, j: Job)
    requires MayFollow(s.At(k), e.kind)
    ensures AppendsOne(s.LogOf(j), s.Appending(k, e).LogOf(j))
  {
    hide MayFollow, FromEvents, StandingsOf;
    StandsByItsLog(s, k);
  }

  lemma RecordFollows(s: State, t: Token, e: Event, next: Phase)
    requires Good(s) && MayRecord(s, t, e, next)
    ensures MayFollow(s.At(s.tasks[t].job), e.kind)
  {
    hide LogsOk, MayFollow, TaskOk, TableOk, DistinctOk, PlacesOk, ClosedOk, RunningOk, OrderOk;
    TaskAppendFollows(t, s.tasks[t], s.queue.table, s.At(s.tasks[t].job), e.kind, next);
  }

  lemma CloseAppendsOne(s: State, at: Instant, j: Job)
    requires Good(s) && CanCancelAct(s)
    ensures AppendsOne(s.LogOf(j), CancelActs(s, at).LogOf(j))
  {
    hide LogsOk, MayFollow, Consistent, PlacesOk, AppendsOne, StandingOf;
    NothingAppended(s.LogOf(j));
    if s.queue.CancelDecision(s.lock.job, s.lock.seen) == Close {
      var e := Event(at, RoundFailed(CANCELLED_BEFORE_IT_STARTED));
      assert MayFollow(s.At(s.lock.job), e.kind) by { CloseFollows(s.At(s.lock.job)); }
      AppendingAppendsOne(s, s.lock.job, e, j);
    }
  }

  lemma LossAppendsOne(s: State, at: Instant, j: Job)
    requires Good(s) && CanResume(s)
    ensures AppendsOne(s.LogOf(j), ResumeNext(s, at).LogOf(j))
  {
    hide LogsOk, MayFollow, Consistent, PlacesOk, AppendsOne, StandingOf;
    NothingAppended(s.LogOf(j));
    if s.owed[0].resumption.LostWhileLaunching? {
      var k := s.owed[0].job;
      var e := Event(at, RoundFailed(Recovery.LOST_WHILE_LAUNCHING));
      assert OneOwed(s.owed[0], StandingsOf(s.logs), s.tasks);
      assert MayFollow(s.At(k), e.kind) by { LossFollows(s.At(k)); }
      AppendingAppendsOne(s, k, e, j);
    }
  }

  lemma RequestAppendsOne(s: State, k: Job, e: Event, j: Job)
    requires Good(s) && CanRecord(s, k, e)
    ensures AppendsOne(s.LogOf(j), SubmitRecords(s, k, e).LogOf(j))
  {
    hide LogsOk, MayFollow, Consistent, PlacesOk, AppendsOne, StandingOf;
    assert MayFollow(s.At(k), e.kind) by { RequestFollows(s, k, e); }
    AppendingAppendsOne(s, k, e, j);
  }

  lemma RecordAppendsOne(s: State, t: Token, e: Event, next: Phase, j: Job)
    requires Good(s) && MayRecord(s, t, e, next)
    ensures AppendsOne(s.LogOf(j), TaskRecords(s, t, e, next).LogOf(j))
  {
    hide Good, MayFollow, AppendsOne, StandingOf, MayAppend;
    RecordFollows(s, t, e, next);
    AppendingAppendsOne(s, s.tasks[t].job, e, j);
  }

  lemma StepAppendsOne(s: State, step: Step, j: Job)
    requires Good(s) && Enabled(s, step)
    ensures AppendsOne(s.LogOf(j), Stepped(s, step).LogOf(j))
  {
    hide Good, AppendsOne, CancelActs, ResumeNext, TaskRecords, SubmitRecords, OwedAtOnce, ToRequeue, ByRequestTime,
      MayRecord, CanRecord;
    NothingAppended(s.LogOf(j));
    match step
    case Requesting(k, e) => RequestAppendsOne(s, k, e, j);
    case CancelActing(at) => CloseAppendsOne(s, at, j);
    case Resuming(at) => LossAppendsOne(s, at, j);
    case Recording(t, e, next) => RecordAppendsOne(s, t, e, next, j);
    case _ =>
  }

  /// A round awaited stays awaited until it is judged.
  lemma AwaitedOrJudged(table: Table, j: Job, log: Log, log': Log)
    requires HasAwaited(table, j, StandingOf(log)) && AppendsOne(log, log')
    ensures HasAwaited(table, j, StandingOf(log')) || (|log'| > |log| && log'[|log|].kind.IsVerdict())
  {
    hide StandingOf;
    if log' != log {
      AppendedReport(log, log'[|log|]);
      assert log' == log + [log'[|log|]];
    }
  }

  /// While a cancel holds the lock the table stays as it is.
  lemma LockKeepsTheTable(s: State, step: Step)
    requires Good(s) && s.up && s.lock.CancelHolds? && Enabled(s, step) && !step.Crashing? && !step.CancelActing?
    ensures var s' := Stepped(s, step);
            s'.lock == s.lock && s'.queue.table == s.queue.table && s'.up == s.up
  {
    hide LogsOk, PlacesOk, OrderOk, LaunchesOk, UnlaunchedOk, ClosedOk, SubmitsOk, Consistent, StandingsOf, OwedOk,
      RunningOk, TallyOk, OwedAtOnce, ToRequeue, ByRequestTime, FromEvents, MayAppend, MayMove;
  }

  ghost predicate JudgedSince(log: Log, log': Log) {
    exists i: nat :: |log| <= i < |log'| && log'[i].kind.IsVerdict()
  }

  lemma LongerByOne(table: Table, j: Job, log: Log, log': Log, log'': Log)
    requires AppendsOne(log, log') && log' <= log''
    requires HasAwaited(table, j, StandingOf(log')) ==>
               HasAwaited(table, j, StandingOf(log'')) || JudgedSince(log', log'')
    ensures log <= log''
    ensures HasAwaited(table, j, StandingOf(log)) ==>
              HasAwaited(table, j, StandingOf(log'')) || JudgedSince(log, log'')
  {
    hide StandingOf, HasAwaited;
    if HasAwaited(table, j, StandingOf(log)) {
      AwaitedOrJudged(table, j, log, log');
      if !HasAwaited(table, j, StandingOf(log')) {
        assert log''[|log|].kind.IsVerdict();
      } else if JudgedSince(log', log'') {
        var i: nat :| |log'| <= i < |log''| && log''[i].kind.IsVerdict();
        assert |log| <= i;
      }
    }
  }

  lemma {:induction false} AwaitedUntilJudged(s: State, j: Job, trace: seq<Step>)
    requires Good(s) && s.up && s.lock.CancelHolds? && Runs(s, trace)
    requires forall i :: 0 <= i < |trace| ==> !trace[i].Crashing? && !trace[i].CancelActing?
    ensures var e := End(s, trace);
            && Good(e) && e.lock == s.lock && e.queue.table == s.queue.table && e.up == s.up
            && s.LogOf(j) <= e.LogOf(j)
            && (HasAwaited(s.queue.table, j, StandingOf(s.LogOf(j))) ==>
                  HasAwaited(s.queue.table, j, StandingOf(e.LogOf(j))) || JudgedSince(s.LogOf(j), e.LogOf(j)))
    decreases |trace|
  {
    hide Good, Enabled, Stepped, StandingOf, AppendsOne, HasAwaited, JudgedSince, State.LogOf;
    if trace != [] {
      var s' := Stepped(s, trace[0]);
      StepKeeps(s, trace[0]);
      LockKeepsTheTable(s, trace[0]);
      StepAppendsOne(s, trace[0], j);
      assert forall i :: 0 <= i < |trace[1..]| ==> trace[1..][i] == trace[i + 1];
      AwaitedUntilJudged(s', j, trace[1..]);
      LongerByOne(s.queue.table, j, s.LogOf(j), s'.LogOf(j), End(s, trace).LogOf(j));
    }
  }

  lemma ReachesIfAwaited(s: State, j: Job, seen: Standing)
    requires CancelReaches(s, j, seen) && HasAwaited(s.queue.table, j, seen)
    ensures HasAwaited(s.queue.table, j, s.At(j)) && !InWindow(s, j) ==> CanStillStop(s, s.queue.table[j].token)
  {
    hide InWindow, StandingsOf;
  }

  /// A cancel accepted with a token, whatever happens between its reading and
  /// its act: it reaches its round's task, or the round has been judged since,
  /// or the job is in the window and the cancel is lost.
  lemma InTimeLateOrLost(before: seq<Step>, j: Job, between: seq<Step>)
    requires Runs(INITIALLY, before) && CanCancel(End(INITIALLY, before), j)
    requires Runs(CancelReads(End(INITIALLY, before), j), between)
    requires forall i :: 0 <= i < |between| ==> !between[i].Crashing? && !between[i].CancelActing?
    ensures var s := End(INITIALLY, before);
            var s' := End(CancelReads(s, j), between);
            var decision := s.queue.CancelDecision(j, s.At(j));
            && CanCancelAct(s') && s'.lock == CancelHolds(j, s.At(j))
            && s'.queue.CancelDecision(j, s.At(j)) == decision && CancelReaches(s', j, s.At(j))
            && (decision.Fire? ==>
                  || CanStillStop(s', decision.token)
                  || JudgedSince(s.LogOf(j), s'.LogOf(j))
                  || InWindow(s', j))
  {
    hide Runs, End, Good, StandingOf, CancelReaches, JudgedSince, InWindow, State.LogOf, State.At, CanStillStop;
    var s := End(INITIALLY, before);
    ReachableIsGood(before);
    StepKeeps(s, CancelReading(j));
    var read := CancelReads(s, j);
    AwaitedUntilJudged(read, j, between);
    var s' := End(read, between);
    SeenUnderTheLock(s');
    GoodCancelReaches(s', j, s.At(j));
    StandsByItsLog(s, j);
    StandsByItsLog(s', j);
    assert read.LogOf(j) == s.LogOf(j) by { SameLog(s, read, j); }
    if HasAwaited(s.queue.table, j, s.At(j)) {
      ReachesIfAwaited(s', j, s.At(j));
    }
  }

  lemma SameLog(s: State, s': State, j: Job)
    requires s.logs == s'.logs
    ensures s.LogOf(j) == s'.LogOf(j)
  {
  }

  // ----- a token fired in time -----

  ghost predicate ClosedSince(log: Log, log': Log) {
    exists i: nat :: |log| <= i < |log'| && log'[i].kind == RoundFailed(CANCELLED_BEFORE_IT_STARTED)
  }

  /// Task `t` of `j` still waits, with its token fired; or it is over, its job
  /// closed since `log`.
  ghost predicate WaitsOrClosed(s: State, t: Token, j: Job, log: Log) {
    && s.up && t < s.queue.nextToken && log <= s.LogOf(j)
    && (t !in s.tasks || s.tasks[t].phase != Waiting ==> ClosedSince(log, s.LogOf(j)))
    && (t in s.tasks ==>
          && s.tasks[t].job == j && t in s.queue.fired
          && Ends(s.tasks[t].phase))
  }

  lemma StepKeepsTheToken(s: State, t: Token, step: Step)
    requires s.up && t < s.queue.nextToken && Enabled(s, step) && !step.Crashing?
    ensures var s' := Stepped(s, step); s'.up && t < s'.queue.nextToken && s.queue.fired <= s'.queue.fired
  {
    hide StandingsOf, OwedAtOnce, ToRequeue, ByRequestTime, FromEvents, MayAppend, MayMove, Enumerates, CanCheck,
      CanRecord, CanEnqueue, CanGiveUp, CanCancel, CanServe, CanStop, CanReturn, CanTake, CanSlot, State.LogOf,
      State.At, HasWaitingTask;
  }

  predicate Ends(phase: Phase) {
    phase == Waiting || phase == Over || phase == Unregistered
  }

  /// With its token fired, a waiting task leaves `Waiting` only by closing its
  /// job, and one that is over does not come back.
  predicate TaskKept(tasks: Tasks, tasks': Tasks, t: Token, step: Step) {
    && (t in tasks' ==>
          && t in tasks && tasks'[t].job == tasks[t].job && Ends(tasks'[t].phase)
          && (tasks'[t].phase == Waiting ==> tasks[t].phase == Waiting))
    && (t in tasks && tasks[t].phase == Waiting && (t !in tasks' || tasks'[t].phase != Waiting) ==>
          step.Recording? && step.task == t && step.event.kind == RoundFailed(CANCELLED_BEFORE_IT_STARTED))
  }

  predicate IsATasks(step: Step) {
    step.Recording? || step.Moving? || step.Settling? || step.Unregistering? || step.Finishing?
  }

  lemma TaskStepKeepsTheTask(s: State, t: Token, step: Step)
    requires Enabled(s, step) && IsATasks(step)
    requires t in s.tasks ==> t in s.queue.fired && Ends(s.tasks[t].phase)
    ensures TaskKept(s.tasks, Stepped(s, step).tasks, t, step)
  {
    hide StandingsOf, FromEvents, FailsOtherwise, State.LogOf, State.At;
  }

  lemma OtherStepKeepsTheTask(s: State, t: Token, step: Step)
    requires s.up && t < s.queue.nextToken && Enabled(s, step) && !step.Crashing? && !IsATasks(step)
    requires t in s.tasks ==> Ends(s.tasks[t].phase)
    ensures TaskKept(s.tasks, Stepped(s, step).tasks, t, step)
  {
    hide StandingsOf, OwedAtOnce, ToRequeue, ByRequestTime, FromEvents, Enumerates, CanCheck, CanRecord, CanEnqueue,
      CanGiveUp, CanCancel, CanServe, CanStop, CanReturn, CanTake, CanSlot, State.LogOf, State.At, HasWaitingTask;
  }

  lemma StepKeepsTheTask(s: State, t: Token, step: Step)
    requires s.up && t < s.queue.nextToken && Enabled(s, step) && !step.Crashing?
    requires t in s.tasks ==> t in s.queue.fired && Ends(s.tasks[t].phase)
    ensures TaskKept(s.tasks, Stepped(s, step).tasks, t, step)
  {
    hide Enabled, Stepped, TaskKept;
    if IsATasks(step) {
      TaskStepKeepsTheTask(s, t, step);
    } else {
      OtherStepKeepsTheTask(s, t, step);
    }
  }

  lemma StepWaitsOrCloses(s: State, t: Token, j: Job, log: Log, step: Step)
    requires Good(s) && WaitsOrClosed(s, t, j, log) && Enabled(s, step) && !step.Crashing?
    ensures WaitsOrClosed(Stepped(s, step), t, j, log)
  {
    hide Good, AppendsOne;
    var s' := Stepped(s, step);
    StepKeepsTheToken(s, t, step);
    StepKeepsTheTask(s, t, step);
    StepAppendsOne(s, step, j);
    GrowsByOne(log, s.LogOf(j), s'.LogOf(j));
    if t in s.tasks && s.tasks[t].phase == Waiting && (t !in s'.tasks || s'.tasks[t].phase != Waiting) {
      ClosesAtTheEnd(log, s.LogOf(j), step.event);
    }
  }

  lemma GrowsByOne(log: Log, had: Log, has: Log)
    requires log <= had && AppendsOne(had, has)
    ensures log <= has && (ClosedSince(log, had) ==> ClosedSince(log, has))
  {
    hide MayFollow, StandingOf;
    if ClosedSince(log, had) {
      var i: nat :| |log| <= i < |had| && had[i].kind == RoundFailed(CANCELLED_BEFORE_IT_STARTED);
      assert has[i] == had[i];
    }
  }

  lemma ClosesAtTheEnd(log: Log, had: Log, e: Event)
    requires log <= had && e.kind == RoundFailed(CANCELLED_BEFORE_IT_STARTED)
    ensures ClosedSince(log, had + [e])
  {
    assert (had + [e])[|had|] == e;
  }

  lemma {:induction false} RunWaitsOrCloses(s: State, t: Token, j: Job, log: Log, trace: seq<Step>)
    requires Good(s) && WaitsOrClosed(s, t, j, log) && Runs(s, trace)
    requires forall i :: 0 <= i < |trace| ==> !trace[i].Crashing?
    ensures WaitsOrClosed(End(s, trace), t, j, log)
    decreases |trace|
  {
    hide Good, Enabled, Stepped, WaitsOrClosed;
    if trace != [] {
      StepKeeps(s, trace[0]);
      StepWaitsOrCloses(s, t, j, log, trace[0]);
      assert forall i :: 0 <= i < |trace[1..]| ==> trace[1..][i] == trace[i + 1];
      RunWaitsOrCloses(Stepped(s, trace[0]), t, j, log, trace[1..]);
    }
  }

  /// A task still waiting when its token is fired never starts its round: over
  /// any run of its daemon it waits on, or has closed its job.
  lemma FiredInTimeNeverStarts(s: State, t: Token, trace: seq<Step>)
    requires Good(s) && s.up && t in s.tasks && s.tasks[t].phase == Waiting && t in s.queue.fired
    requires Runs(s, trace) && forall i :: 0 <= i < |trace| ==> !trace[i].Crashing?
    ensures WaitsOrClosed(End(s, trace), t, s.tasks[t].job, s.LogOf(s.tasks[t].job))
  {
    hide Runs, End, Consistent, LogsOk, PlacesOk, StandingsOf, LaunchingTokens;
    RunWaitsOrCloses(s, t, s.tasks[t].job, s.LogOf(s.tasks[t].job), trace);
  }
}
