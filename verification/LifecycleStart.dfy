// A daemon's start keeps the invariant, and gives every job what it is owed.
module LifecycleStart {
  import opened Events
  import opened Report
  import opened Recovery
  import opened Queue
  import opened RoundTasks
  import opened Epochs
  import opened Lifecycle
  import opened LifecycleInvariant

  ghost predicate LogsOk(logs: map<Job, Log>) {
    forall j :: j in logs ==> LogOk(logs[j])
  }

  ghost predicate AreOwed(owed: seq<Owed>, order: seq<Job>, standings: Standings) {
    && (forall i :: 0 <= i < |owed| ==>
                      && owed[i].job in order
                      && ForReport(Of(standings, owed[i].job)) == Some(owed[i].resumption)
                      && !owed[i].resumption.Requeue?)
    && (forall i, k :: 0 <= i < k < |owed| ==> owed[i].job != owed[k].job)
    && (forall j :: j in order && Of(standings, j).state == Running ==> IsOwed(owed, j))
  }

  lemma {:induction false} OwedAtOnceIsOwed(order: seq<Job>, logs: map<Job, Log>)
    requires forall i, k :: 0 <= i < k < |order| ==> order[i] != order[k]
    ensures AreOwed(OwedAtOnce(order, logs), order, StandingsOf(logs))
  {
    if order != [] {
      var n := |order| - 1;
      var j := order[n];
      OwedAtOnceIsOwed(order[..n], logs);
      var before := OwedAtOnce(order[..n], logs);
      var owed := OwedAtOnce(order, logs);
      assert Of(StandingsOf(logs), j) == if j in logs then StandingOf(logs[j]) else NO_STANDING;
      assert owed != before ==> owed[|before|].job == j;
      forall k | k in order && Of(StandingsOf(logs), k).state == Running ensures IsOwed(owed, k) {
        if k != j {
          assert k in order[..n];
          var i :| 0 <= i < |before| && before[i].job == k;
          assert owed[i].job == k;
        }
      }
    }
  }

  ghost predicate AreRequeued(requeued: seq<Job>, order: seq<Job>, standings: Standings) {
    && (forall j :: j in requeued <==> j in order && Of(standings, j).state == Queued)
    && (forall i, k :: 0 <= i < k < |requeued| ==> requeued[i] != requeued[k])
  }

  lemma {:induction false} ToRequeueIsQueued(order: seq<Job>, logs: map<Job, Log>)
    requires forall i, k :: 0 <= i < k < |order| ==> order[i] != order[k]
    ensures AreRequeued(ToRequeue(order, logs), order, StandingsOf(logs))
  {
    if order != [] {
      var n := |order| - 1;
      ToRequeueIsQueued(order[..n], logs);
      assert order == order[..n] + [order[n]];
      assert order[n] !in order[..n];
    }
  }

  /// Every job with a log is found: only a job with no event is unnamed.
  lemma EveryActiveJobIsFound(logs: map<Job, Log>, order: seq<Job>)
    requires LogsOk(logs) && Enumerates(order, logs)
    ensures forall j :: j in StandingsOf(logs) && StandingsOf(logs)[j].state != Pending ==> j in order
    ensures forall j :: j in order ==> j in StandingsOf(logs)
    ensures forall i, k :: 0 <= i < k < |order| ==> order[i] != order[k]
  {
    forall j | j in logs && StandingOf(logs[j]).state != Pending ensures j in order {
      assert LogOk(logs[j]);
      NamedOnceRequested(logs[j]);
    }
  }

  lemma BootOwes(logs: map<Job, Log>, order: seq<Job>)
    requires LogsOk(logs) && Enumerates(order, logs)
    ensures OwedOk(OwedAtOnce(order, logs), StandingsOf(logs), map[])
    ensures RequeuedOk(ToRequeue(order, logs), StandingsOf(logs))
    ensures RunningOk(StandingsOf(logs), map[], map[], OwedAtOnce(order, logs))
  {
    hide LogsOk, Enumerates, OwedAtOnce, ToRequeue, StandingsOf, StandingOf;
    EveryActiveJobIsFound(logs, order);
    OwedAtOnceIsOwed(order, logs);
    ToRequeueIsQueued(order, logs);
    forall i | 0 <= i < |OwedAtOnce(order, logs)|
      ensures OneOwed(OwedAtOnce(order, logs)[i], StandingsOf(logs), map[])
    {
    }
  }

  lemma BootKeeps(s: State, maxJobs: nat, order: seq<Job>)
    requires Live(s) && LogsOk(s.logs) && CanBoot(s, order)
    ensures Live(Boot(s, maxJobs, order))
  {
    hide LogsOk, Enumerates, OwedAtOnce, ToRequeue, LaunchesOk, StandingsOf, OwedOk, RequeuedOk, RunningOk;
    BootOwes(s.logs, order);
    assert LaunchingTokens(map[]) == {};
  }

  lemma ResumeNextKeeps(s: State, at: Instant)
    requires Live(s) && CanResume(s)
    ensures Live(ResumeNext(s, at))
  {
    hide Consistent, ClosedOk, RunningOk, SubmitsOk, LockOk, OrderOk, UnlaunchedOk, LaunchesOk, OwedOk, RequeuedOk,
      PlacesOk, StandingsOf, LaunchingTokens, FreshOk;
    HeadOwed(s.owed, StandingsOf(s.logs), s.tasks, s.queue.table);
    match s.owed[0].resumption
    case Reattach(_, _) => ReattachKeeps(s, at);
    case LostWhileLaunching(_) => CloseLostKeeps(s, at);
  }

  lemma HeadOwed(owed: seq<Owed>, standings: Standings, tasks: Tasks, table: Table)
    requires owed != [] && OwedOk(owed, standings, tasks)
    ensures OneOwed(owed[0], standings, tasks)
    ensures NoneAwaited(tasks, owed[0].job)
    ensures OwedOk(owed[1..], standings, tasks)
    ensures forall i :: 0 <= i < |owed[1..]| ==> owed[1..][i].job != owed[0].job
  {
    assert OneOwed(owed[0], standings, tasks);
    forall i | 0 <= i < |owed[1..]| ensures OneOwed(owed[1..][i], standings, tasks) && owed[1..][i].job != owed[0].job {
      assert OneOwed(owed[i + 1], standings, tasks);
    }
  }

  lemma RunningOwedRest(standings: Standings, tasks: Tasks, table: Table, owed: seq<Owed>)
    requires owed != [] && RunningOk(standings, tasks, table, owed)
    requires var j := owed[0].job; Of(standings, j).state == Running ==> Attended(j, tasks, table)
    ensures RunningOk(standings, tasks, table, owed[1..])
  {
    forall j | j in standings && standings[j].state == Running
      ensures Attended(j, tasks, table) || IsOwed(owed[1..], j)
    {
      if !Attended(j, tasks, table) {
        var i :| 0 <= i < |owed| && owed[i].job == j;
        assert owed[1..][i - 1].job == j;
      }
    }
  }

  lemma RegisterKeepsOwed(owed: seq<Owed>, standings: Standings, tasks: Tasks, t: Token, task: Task)
    requires OwedOk(owed, standings, tasks)
    requires forall i :: 0 <= i < |owed| ==> owed[i].job != task.job
    ensures OwedOk(owed, standings, tasks[t := task])
  {
    forall i | 0 <= i < |owed| ensures OneOwed(owed[i], standings, tasks[t := task]) {
      assert OneOwed(owed[i], standings, tasks);
    }
  }

  lemma ReattachKeeps(s: State, at: Instant)
    requires Live(s) && CanResume(s) && s.owed[0].resumption.Reattach?
    ensures Live(ResumeNext(s, at))
  {
    hide ClosedOk, RunningOk, SubmitsOk, LockOk, OrderOk, UnlaunchedOk, LaunchesOk, OwedOk, RequeuedOk, PlacesOk,
      StandingsOf, LaunchingTokens, FreshOk, TasksOk, TableOk, DistinctOk, NoneAwaited;
    var standings := StandingsOf(s.logs);
    var Owed(j, Reattach(round, _)) := s.owed[0];
    var t := s.queue.nextToken;
    var task := Task(j, round, Reattaching, false);
    HeadOwed(s.owed, standings, s.tasks, s.queue.table);
    FreshToken(s.tasks, t);
    RegisterKeepsConsistent(s.tasks, s.queue.table, standings, t, task);
    RegisterKeepsRest(s.tasks, s.queue, standings, task, s.launches, s.owed);
    RegisteredTokens(s.tasks, t, task);
    RunningOwedRest(standings, s.tasks[t := task], s.queue.Registering(j, round).table, s.owed);
    RegisterKeepsOwed(s.owed[1..], standings, s.tasks, t, task);
    FreeLockOk(ResumeNext(s, at));
  }

  lemma CloseLostKeeps(s: State, at: Instant)
    requires Live(s) && CanResume(s) && s.owed[0].resumption.LostWhileLaunching?
    ensures Live(ResumeNext(s, at))
  {
    hide ClosedOk, RunningOk, SubmitsOk, LockOk, OrderOk, UnlaunchedOk, LaunchesOk, OwedOk, RequeuedOk, PlacesOk,
      StandingsOf, LaunchingTokens, FreshOk, Consistent, NoneAwaited;
    var standings := StandingsOf(s.logs);
    var j := s.owed[0].job;
    var s' := ResumeNext(s, at);
    var e := Event(at, RoundFailed(LOST_WHILE_LAUNCHING));
    HeadOwed(s.owed, standings, s.tasks, s.queue.table);
    assert StandingsOf(s'.logs) == standings[j := Of(standings, j).After(e.kind)] by {
      AppendingStands(s, j, e);
    }
    OutsideAppendKeepsConsistent(s.tasks, s.queue.table, standings, j, e.kind);
    RequestKeepsRest(s.tasks, s.queue.table, standings, j, e.kind, StandingsOf(s'.logs), s.owed, s.launches,
        s.queue.fired, s.queue.stopping);
    RunningOwedRest(StandingsOf(s'.logs), s.tasks, s.queue.table, s.owed);
    CloseKeepsOwed(s.owed[1..], s.requeued, standings, s.tasks, j, e.kind);
    CloseKeepsSubmits(standings, j, e.kind, s.submits);
    assert LockOk(s'.lock, StandingsOf(s'.logs), s'.queue.table, s'.dispatcher) by { FreeLockOk(s'); }
  }

  lemma FreeLockOk(s: State)
    requires s.lock == Free
    ensures LockOk(s.lock, StandingsOf(s.logs), s.queue.table, s.dispatcher)
  {
  }

  lemma CloseKeepsOwed(owed: seq<Owed>, requeued: seq<Job>, standings: Standings, tasks: Tasks, j: Job, kind: EventKind)
    requires OwedOk(owed, standings, tasks) && RequeuedOk(requeued, standings)
    requires forall i :: 0 <= i < |owed| ==> owed[i].job != j
    requires j in standings && standings[j].state == Running && kind.RoundFailed?
    ensures OwedOk(owed, standings[j := standings[j].After(kind)], tasks)
    ensures RequeuedOk(requeued, standings[j := standings[j].After(kind)])
  {
    forall i | 0 <= i < |owed| ensures OneOwed(owed[i], standings[j := standings[j].After(kind)], tasks) {
      assert OneOwed(owed[i], standings, tasks);
    }
  }

  // ----- requeueing in order -----

  ghost predicate InRequestOrder(line: seq<Job>, logs: map<Job, Log>) {
    forall i, k :: 0 <= i < k < |line| ==> RequestedAt(line[i], logs) <= RequestedAt(line[k], logs)
  }

  ghost predicate IsLastRequest(log: Log, m: nat) {
    && m < |log| && log[m].kind.RoundRequested?
    && forall k :: m < k < |log| ==> !log[k].kind.RoundRequested?
  }

  /// Of two jobs, the one last asked for no later than the other.
  ghost predicate AskedNoLater(logs: map<Job, Log>, j: Job, k: Job) {
    && j in logs && k in logs
    && exists m: nat, n: nat ::
         IsLastRequest(logs[j], m) && IsLastRequest(logs[k], n) && logs[j][m].at <= logs[k][n].at
  }

  /// The line, by the times of its jobs' last requests.
  ghost predicate AskedInOrder(line: seq<Job>, logs: map<Job, Log>) {
    forall i, k :: 0 <= i < k < |line| ==> AskedNoLater(logs, line[i], line[k])
  }

  lemma {:induction false} LastRequestIsReported(log: Log) returns (m: nat)
    requires log != [] && log[0].kind.RoundRequested?
    ensures IsLastRequest(log, m) && FromEvents(log).requestedAt == Some(log[m].at)
  {
    var n := |log| - 1;
    if log[n].kind.RoundRequested? {
      m := n;
    } else {
      m := LastRequestIsReported(log[..n]);
      assert forall k :: m < k < n ==> log[k] == log[..n][k];
    }
  }

  lemma SortedIsAskedInOrder(line: seq<Job>, logs: map<Job, Log>)
    requires InRequestOrder(line, logs)
    requires forall j :: j in line ==> j in logs && logs[j] != [] && logs[j][0].kind.RoundRequested?
    ensures AskedInOrder(line, logs)
  {
    forall i, k | 0 <= i < k < |line| ensures AskedNoLater(logs, line[i], line[k]) {
      var m := LastRequestIsReported(logs[line[i]]);
      var n := LastRequestIsReported(logs[line[k]]);
      assert RequestedAt(line[i], logs) <= RequestedAt(line[k], logs);
    }
  }

  /// One job stands before another.
  ghost predicate StandsBefore(line: seq<Job>, j: Job, k: Job) {
    exists a: nat, b: nat :: a < b < |line| && line[a] == j && line[b] == k
  }

  lemma StaysBefore(line: seq<Job>, last: Job, j: Job, k: Job)
    requires StandsBefore(line, j, k)
    ensures StandsBefore(line + [last], j, k)
  {
    var a: nat, b: nat :| a < b < |line| && line[a] == j && line[b] == k;
    assert (line + [last])[a] == j && (line + [last])[b] == k;
  }

  lemma StandsLast(line: seq<Job>, last: Job, j: Job)
    requires j in line
    ensures StandsBefore(line + [last], j, last)
  {
    var a: nat :| a < |line| && line[a] == j;
    assert (line + [last])[a] == j && (line + [last])[|line|] == last;
  }

  lemma BeforeTheLast(line: seq<Job>, j: Job, k: Job)
    requires StandsBefore(line, j, k)
    ensures var n := |line| - 1;
            0 <= n && (StandsBefore(line[..n], j, k) || (j in line[..n] && line[n] == k))
  {
    var n := |line| - 1;
    var a: nat, b: nat :| a < b < |line| && line[a] == j && line[b] == k;
    assert line[..n][a] == j && (b < n ==> line[..n][b] == k);
  }

  lemma {:induction false} InsertingKeepsBefore(sorted: seq<Job>, j: Job, logs: map<Job, Log>, a: Job, b: Job)
    requires StandsBefore(sorted, a, b)
    ensures StandsBefore(Inserting(sorted, j, logs), a, b)
  {
    hide StandsBefore, RequestedBefore;
    BeforeTheLast(sorted, a, b);
    var n := |sorted| - 1;
    if RequestedBefore(j, sorted[n], logs) {
      var inserted := Inserting(sorted[..n], j, logs);
      if StandsBefore(sorted[..n], a, b) {
        InsertingKeepsBefore(sorted[..n], j, logs, a, b);
        StaysBefore(inserted, sorted[n], a, b);
      } else {
        InsertingAdds(sorted[..n], j, logs);
        assert a in multiset(sorted[..n]) && a in multiset(inserted);
        StandsLast(inserted, b, a);
      }
    } else {
      StaysBefore(sorted, j, a, b);
    }
  }

  lemma {:induction false} InsertedAfter(sorted: seq<Job>, j: Job, logs: map<Job, Log>, a: Job)
    requires a in sorted && InRequestOrder(sorted, logs) && RequestedAt(a, logs) <= RequestedAt(j, logs)
    ensures StandsBefore(Inserting(sorted, j, logs), a, j)
  {
    hide StandsBefore, RequestedAt;
    var n := |sorted| - 1;
    if RequestedBefore(j, sorted[n], logs) {
      assert a in sorted[..n];
      InsertedAfter(sorted[..n], j, logs, a);
      StaysBefore(Inserting(sorted[..n], j, logs), sorted[n], a, j);
    } else {
      StandsLast(sorted, j, a);
    }
  }

  /// Jobs asked for at one time stay in the order they were found.
  lemma {:induction false} SortIsStable(jobs: seq<Job>, logs: map<Job, Log>, a: nat, b: nat)
    requires a < b < |jobs| && RequestedAt(jobs[a], logs) <= RequestedAt(jobs[b], logs)
    ensures StandsBefore(ByRequestTime(jobs, logs), jobs[a], jobs[b])
  {
    hide RequestedAt, StandsBefore;
    var n := |jobs| - 1;
    RequeuedInOrder(jobs[..n], logs);
    if b < n {
      SortIsStable(jobs[..n], logs, a, b);
      InsertingKeepsBefore(ByRequestTime(jobs[..n], logs), jobs[n], logs, jobs[a], jobs[b]);
    } else {
      SameElements(ByRequestTime(jobs[..n], logs), jobs[..n]);
      assert jobs[..n][a] in jobs[..n];
      InsertedAfter(ByRequestTime(jobs[..n], logs), jobs[n], logs, jobs[a]);
    }
  }

  lemma {:induction false} InsertingAdds(sorted: seq<Job>, j: Job, logs: map<Job, Log>)
    ensures multiset(Inserting(sorted, j, logs)) == multiset(sorted) + multiset{j}
  {
    if sorted != [] {
      var n := |sorted| - 1;
      assert sorted == sorted[..n] + [sorted[n]];
      InsertingAdds(sorted[..n], j, logs);
    }
  }

  lemma {:induction false} InsertingKeepsOrder(sorted: seq<Job>, j: Job, logs: map<Job, Log>)
    requires InRequestOrder(sorted, logs)
    ensures InRequestOrder(Inserting(sorted, j, logs), logs)
  {
    if sorted != [] && RequestedBefore(j, sorted[|sorted| - 1], logs) {
      hide RequestedAt;
      var n := |sorted| - 1;
      InsertingKeepsOrder(sorted[..n], j, logs);
      InsertingAdds(sorted[..n], j, logs);
      var inserted := Inserting(sorted[..n], j, logs);
      forall i | 0 <= i < |inserted| ensures RequestedAt(inserted[i], logs) <= RequestedAt(sorted[n], logs) {
        assert inserted[i] in multiset(inserted);
        assert inserted[i] == j || inserted[i] in sorted[..n];
      }
    }
  }

  lemma {:induction false} RequeuedInOrder(jobs: seq<Job>, logs: map<Job, Log>)
    ensures InRequestOrder(ByRequestTime(jobs, logs), logs)
    ensures multiset(ByRequestTime(jobs, logs)) == multiset(jobs)
  {
    if jobs != [] {
      var n := |jobs| - 1;
      assert jobs == jobs[..n] + [jobs[n]];
      RequeuedInOrder(jobs[..n], logs);
      InsertingKeepsOrder(ByRequestTime(jobs[..n], logs), jobs[n], logs);
      InsertingAdds(ByRequestTime(jobs[..n], logs), jobs[n], logs);
    }
  }

  lemma SameElements(line: seq<Job>, jobs: seq<Job>)
    requires multiset(line) == multiset(jobs)
    ensures forall j :: j in line <==> j in jobs
  {
    forall j ensures j in line <==> j in jobs {
      assert j in line <==> j in multiset(line);
    }
  }

  lemma ServeKeeps(s: State)
    requires Live(s) && CanServe(s)
    ensures Live(Serve(s))
  {
    hide Consistent, ClosedOk, RunningOk, SubmitsOk, UnlaunchedOk, LaunchesOk, OwedOk, StandingsOf, LaunchingTokens,
      FreshOk, LockOk, ByRequestTime;
    var line := ByRequestTime(s.requeued, s.logs);
    RequeuedInOrder(s.requeued, s.logs);
    SameElements(line, s.requeued);
    assert LockOk(Serve(s).lock, StandingsOf(s.logs), s.queue.table, Idle) by { FreeLockOk(Serve(s)); }
  }
}
