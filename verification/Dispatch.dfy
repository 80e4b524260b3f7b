// The daemon's own form of the lifecycle: the cancel table, the line and the
// tallies updated in place (src/daemon/dispatch.rs, src/daemon/submit.rs,
// src/daemon/mod.rs). Each method takes the steps of `Lifecycle` it stands for,
// and so keeps everything proved of them.
module Dispatch {
  import opened Events
  import opened Report
  import opened Recovery
  import opened Queue
  import opened RoundTasks
  import L = Lifecycle
  import opened LifecycleInvariant
  import opened LifecycleStart
  import opened LifecycleSafety

  function Appended(logs: map<Job, Log>, j: Job, e: Event): map<Job, Log> {
    logs[j := (if j in logs then logs[j] else []) + [e]]
  }

  /// These events at the end of `j`'s log, and no other log touched.
  ghost predicate AddsToLog(logs: map<Job, Log>, logs': map<Job, Log>, j: Job, added: seq<Event>) {
    && logs'.Keys == (if added == [] then logs.Keys else logs.Keys + {j})
    && (forall k :: k in logs' && k != j ==> logs'[k] == logs[k])
    && (j in logs' ==> logs'[j] == (if j in logs then logs[j] else []) + added)
  }

  lemma AppendedAdds(logs: map<Job, Log>, j: Job, e: Event)
    ensures AddsToLog(logs, Appended(logs, j, e), j, [e])
  {
  }

  lemma AllAreAdded(logs: map<Job, Log>, j: Job, events: seq<Event>)
    ensures AddsToLog(logs, AppendedAll(logs, j, events), j, events)
  {
  }

  function CancelledQueue(queue: QueueState, decision: Decision): QueueState {
    if decision.Fire? then queue.Firing(decision.token) else queue
  }

  function CancelledLogs(logs: map<Job, Log>, j: Job, now: Instant, decision: Decision): map<Job, Log> {
    if decision.Close? then Appended(logs, j, Event(now, RoundFailed(CANCELLED_BEFORE_IT_STARTED))) else logs
  }

  /// What the steps of a cancel come to, taken one after the other.
  function Cancelled(s: L.State, j: Job, now: Instant): L.State {
    var decision := s.queue.CancelDecision(j, s.At(j));
    s.(queue := CancelledQueue(s.queue, decision), logs := CancelledLogs(s.logs, j, now, decision))
  }

  lemma CancelComesTo(queue: QueueState, logs: map<Job, Log>, j: Job, now: Instant, seen: Standing)
    ensures var decision := queue.CancelDecision(j, seen);
            var (queue', logs') := (CancelledQueue(queue, decision), CancelledLogs(logs, j, now, decision));
            if && j in queue.table
               && (|| (seen.state == Queued && queue.table[j].round == seen.rounds + 1)
                   || (seen.state == Running && queue.table[j].round == seen.rounds)) then
              decision.Fire? && queue'.fired == queue.fired + {queue.table[j].token} && logs' == logs
            else if seen.state == Queued then
              && decision.Close? && queue'.fired == queue.fired
              && AddsToLog(logs, logs', j, [Event(now, RoundFailed("cancelled before it started"))])
            else
              decision.Refuse? && queue'.fired == queue.fired && logs' == logs
  {
  }

  lemma CancelSteps(s: L.State, j: Job, now: Instant)
    requires Good(s) && L.CanCancel(s, j)
    ensures var steps := [L.CancelReading(j), L.CancelActing(now)];
            L.Runs(s, steps) && L.End(s, steps) == Cancelled(s, j, now)
    ensures Good(Cancelled(s, j, now)) && CancelReaches(s, j, s.At(j))
  {
    hide Good, CancelReaches;
    SeenAtOnce(s, j);
    GoodCancelReaches(s, j, s.At(j));
    var read := L.Stepped(s, L.CancelReading(j));
    StepKeeps(s, L.CancelReading(j));
    StepKeeps(read, L.CancelActing(now));
    assert L.Stepped(read, L.CancelActing(now)) == Cancelled(s, j, now);
    TwoSteps(s, L.CancelReading(j), L.CancelActing(now));
  }

  lemma TwoSteps(s: L.State, a: L.Step, b: L.Step)
    requires L.Enabled(s, a) && L.Enabled(L.Stepped(s, a), b)
    ensures L.Runs(s, [a, b]) && L.End(s, [a, b]) == L.Stepped(L.Stepped(s, a), b)
  {
    hide L.Enabled, L.Stepped;
    assert [a, b][1..] == [b] && [b][1..] == [];
    assert L.Runs(L.Stepped(s, a), [b]) && L.End(L.Stepped(s, a), [b]) == L.Stepped(L.Stepped(s, a), b);
  }

  /// What an accepted submit comes to: its request recorded, then in line.
  function Accepted(s: L.State, j: Job, e: Event): L.State {
    var gone := s.dispatcher == L.Returned;
    s.(logs := Appended(s.logs, j, e), passedOver := s.passedOver - {j},
    queue := if gone then s.queue else s.queue.Enqueuing(j),
    enqueued := if gone then s.enqueued else s.enqueued + [j])
  }

  lemma SubmitSteps(s: L.State, j: Job, e: Event)
    requires Good(s) && L.CanCheck(s, j) && e.kind.RoundRequested?
    ensures var steps := [L.Checking(j), L.Requesting(j, e), L.Enqueueing(j)];
            L.Runs(s, steps) && L.End(s, steps) == Accepted(s, j, e)
    ensures Good(Accepted(s, j, e))
  {
    hide Good, FromEvents;
    var checked := L.Stepped(s, L.Checking(j));
    StepKeeps(s, L.Checking(j));
    var recorded := L.Stepped(checked, L.Requesting(j, e));
    StepKeeps(checked, L.Requesting(j, e));
    StepKeeps(recorded, L.Enqueueing(j));
    assert recorded.submits - {j} == s.submits;
    assert L.Stepped(recorded, L.Enqueueing(j)) == Accepted(s, j, e);
    ThreeSteps(s, L.Checking(j), L.Requesting(j, e), L.Enqueueing(j));
  }

  lemma ThreeSteps(s: L.State, a: L.Step, b: L.Step, c: L.Step)
    requires L.Enabled(s, a) && L.Enabled(L.Stepped(s, a), b) && L.Enabled(L.Stepped(L.Stepped(s, a), b), c)
    ensures L.Runs(s, [a, b, c]) && L.End(s, [a, b, c]) == L.Stepped(L.Stepped(L.Stepped(s, a), b), c)
  {
    hide L.Enabled, L.Stepped;
    TwoSteps(L.Stepped(s, a), b, c);
    assert [a, b, c][1..] == [b, c];
  }

  function PlacedQueue(queue: QueueState, j: Job, seen: Standing): QueueState {
    if queue.MayRegister(j, seen) then queue.Registering(j, seen.rounds + 1).Slotting().CountingLaunch() else queue
  }

  function PlacedTasks(tasks: Tasks, queue: QueueState, j: Job, seen: Standing): Tasks {
    if queue.MayRegister(j, seen) then tasks[queue.nextToken := Task(j, seen.rounds + 1, Waiting, true)] else tasks
  }

  /// What the dispatcher does with the job in its hand, given a slot.
  function Placed(s: L.State, j: Job): L.State {
    var seen := s.At(j);
    var passes := seen.state == Queued && !s.queue.MayRegister(j, seen) && !L.HasWaitingTask(s.tasks, s.queue.table, j);
    s.(dispatcher := L.Idle,
    queue := PlacedQueue(s.queue, j, seen),
    tasks := PlacedTasks(s.tasks, s.queue, j, seen),
    dispatched := if s.queue.MayRegister(j, seen) then s.dispatched + [s.taken - 1] else s.dispatched,
    passedOver := if passes then s.passedOver + {j} else s.passedOver)
  }

  lemma DispatchSteps(s: L.State, j: Job)
    requires Good(s) && L.CanSlot(s) && s.lock == L.Free && s.dispatcher == L.Holding(j)
    ensures var steps := [L.Slotting, L.DispatchReading, L.DispatchActing];
            L.Runs(s, steps) && L.End(s, steps) == Placed(s, j)
    ensures Good(Placed(s, j))
  {
    hide Good, L.StandingsOf, L.HasWaitingTask;
    var slotted := L.Stepped(s, L.Slotting);
    StepKeeps(s, L.Slotting);
    var read := L.Stepped(slotted, L.DispatchReading);
    StepKeeps(slotted, L.DispatchReading);
    StepKeeps(read, L.DispatchActing);
    assert L.Stepped(read, L.DispatchActing) == Placed(s, j);
    ThreeSteps(s, L.Slotting, L.DispatchReading, L.DispatchActing);
  }

  lemma {:induction false} RunsOn(s: L.State, steps: seq<L.Step>, more: seq<L.Step>)
    requires L.Runs(s, steps) && L.Runs(L.End(s, steps), more)
    ensures L.Runs(s, steps + more) && L.End(s, steps + more) == L.End(L.End(s, steps), more)
    decreases |steps|
  {
    hide L.Enabled, L.Stepped;
    if steps == [] {
      assert steps + more == more;
    } else {
      RunsOn(L.Stepped(s, steps[0]), steps[1..], more);
      assert (steps + more)[1..] == steps[1..] + more;
    }
  }

  lemma OneStep(s: L.State, step: L.Step)
    requires Good(s) && L.Enabled(s, step)
    ensures L.Runs(s, [step]) && L.End(s, [step]) == L.Stepped(s, step) && Good(L.Stepped(s, step))
  {
    hide L.Enabled, L.Stepped, Good;
    StepKeeps(s, step);
    assert [step][1..] == [];
  }

  datatype Registration = Registration(job: Job, round: nat, token: Token)

  /// What else a submit is refused for: before its job is looked at, because
  /// of what the remote says of its branch, or after.
  datatype Preflight = Preflight(early: Option<string>, branchIsGone: Result<bool>, late: Option<string>)

  class Daemon {
    // the root
    var logs: map<Job, Log>
    const maxJobs: nat
    // the queue
    var cancels: map<Job, LaunchedRound>
    var fired: set<Token>
    var nextToken: Token
    var pending: seq<Job>
    var running: int
    var launching: int
    var stopping: bool
    // the dispatcher's own, and the round tasks it spawned
    var inHand: Option<Job>
    var returned: bool
    var tasks: Tasks
    ghost var life: L.State

    /// A daemon on a root no other daemon is on, its jobs found in `order`.
    constructor (logs: map<Job, Log>, maxJobs: nat, ghost order: seq<Job>, ghost prior: L.State)
      requires Good(prior) && !prior.up && prior.logs == logs && L.Enumerates(order, logs)
      ensures Valid() && !returned && inHand.None? && this.logs == logs
      ensures life == L.Boot(prior, maxJobs, order) && Took(prior, [L.Booting(maxJobs, order)], life)
    {
      hide Good, L.Enumerates, L.OwedAtOnce, L.ToRequeue;
      OneStep(prior, L.Booting(maxJobs, order));
      this.logs, this.maxJobs := logs, maxJobs;
      cancels, fired, nextToken, pending := map[], {}, 0, [];
      running, launching, stopping := 0, 0, false;
      inHand, returned, tasks := None, false, map[];
      life := L.Boot(prior, maxJobs, order);
    }

    ghost function View(): QueueState
      reads this
    {
      QueueState(cancels, fired, nextToken, pending, running, launching, stopping)
    }

    /// The daemon is `life`, a state every invariant of the lifecycle holds of.
    ghost predicate Valid()
      reads this
    {
      && Good(life) && life.up && life.lock == L.Free
      && life.logs == logs && life.maxJobs == maxJobs && life.tasks == tasks && life.queue == View()
    }

    ghost predicate Serves()
      reads this
    {
      && Valid() && life.serving && life.submits == map[]
      && life.dispatcher == (if returned then L.Returned else if inHand.Some? then L.Holding(inHand.value) else L.Idle)
    }

    function ReportOf(j: Job): JobProgress
      reads this
    {
      FromEvents(if j in logs then logs[j] else [])
    }

    method Append(j: Job, e: Event)
      modifies `logs
      ensures logs == Appended(old(logs), j, e)
    {
      logs := logs[j := (if j in logs then logs[j] else []) + [e]];
    }

    /// What `cancel` does while it holds the table's lock.
    method ActOnCancel(j: Job, now: Instant) returns (cancelled: Result<JobState>)
      modifies `logs, `fired
      ensures var decision := old(View().CancelDecision(j, ReportOf(j).Stands()));
              && View() == CancelledQueue(old(View()), decision)
              && logs == CancelledLogs(old(logs), j, now, decision)
              && match decision
                 case Fire(_) => cancelled == Ok(Running)
                 case Close => cancelled == Ok(Queued)
                 case Refuse => cancelled.Err?
    {
      hide FromEvents;
      var report := ReportOf(j);
      if j in cancels && cancels[j].IsAwaitedBy(report.Stands()) {
        fired := fired + {cancels[j].token};
        cancelled := Ok(Running);
      } else if report.state == Queued {
        Append(j, Event(now, RoundFailed(CANCELLED_BEFORE_IT_STARTED)));
        cancelled := Ok(Queued);
      } else {
        cancelled := Err("the job is not queued or running, so there is nothing to cancel");
      }
    }

    /// Fire the token of the round `j` awaits, or record the end of a job with
    /// none; `CancelReaches` says when the one or the other takes effect.
    method Cancel(j: Job, now: Instant) returns (cancelled: Result<JobState>)
      requires Serves()
      modifies `logs, `fired, `life
      ensures Serves()
      ensures j !in old(logs) ==> cancelled.Err? && life == old(life)
      ensures j in old(logs) ==>
                && life == Cancelled(old(life), j, now)
                && CancelReaches(old(life), j, old(ReportOf(j).Stands()))
      ensures j in old(logs) ==>
                var report := old(ReportOf(j));
                var entry := old(if j in cancels then Some(cancels[j]) else None);
                if && entry.Some?
                   && (|| (report.state == Queued && entry.value.round == report.rounds + 1)
                       || (report.state == Running && entry.value.round == report.rounds)) then
                  cancelled == Ok(Running) && fired == old(fired) + {entry.value.token} && logs == old(logs)
                else if report.state == Queued then
                  && cancelled == Ok(Queued) && fired == old(fired)
                  && AddsToLog(old(logs), logs, j, [Event(now, RoundFailed("cancelled before it started"))])
                else
                  cancelled.Err? && fired == old(fired) && logs == old(logs)
    {
      hide Good, CancelReaches, FromEvents, L.StandingsOf, L.State.At, L.CanCancel, CancelledQueue, CancelledLogs,
        AddsToLog, QueueState.CancelDecision;
      if j !in logs {
        return Err("no such job");
      }
      assert L.CanCancel(life, j) && life.At(j) == ReportOf(j).Stands() by { MayCancel(life, j); }
      CancelSteps(life, j, now);
      CancelComesTo(View(), logs, j, now, ReportOf(j).Stands());
      cancelled := ActOnCancel(j, now);
      life := Cancelled(life, j, now);
    }

    /// A submit of a new job's first round, or of a round more of a job that
    /// is idle and still has its branch. The repository's lock is held
    /// throughout.
    method Accept(j: Job, continues: bool, preflight: Preflight, request: EventKind, now: Instant)
      returns (accepted: Result<Job>)
      requires Serves() && request.RoundRequested?
      modifies `logs, `pending, `life
      ensures Serves()
      ensures accepted.Ok? <==>
                && preflight.early == None && preflight.late == None
                && if !continues then j !in old(logs) else
                   var report := old(ReportOf(j));
                   && j in old(logs) && report.state != Queued && report.state != Running
                   && report.base != None && report.provider != None && preflight.branchIsGone == Ok(false)
      ensures accepted.Ok? ==>
                && accepted.value == j && life == Accepted(old(life), j, Event(now, request))
                && AddsToLog(old(logs), logs, j, [Event(now, request)])
                && pending == if returned then old(pending) else old(pending) + [j]
      ensures accepted.Err? ==> life == old(life) && logs == old(logs) && pending == old(pending)
      ensures preflight.early.Some? ==> accepted == Err(preflight.early.value)
      ensures preflight.early == None && !continues && preflight.late.Some? ==> accepted == Err(preflight.late.value)
    {
      hide Serves, FromEvents, Accepted, AddsToLog;
      if preflight.early.Some? {
        return Err(preflight.early.value);
      }
      if continues {
        var refused := WhyNotContinued(j, preflight.branchIsGone);
        if refused.Some? {
          return Err(refused.value);
        }
      }
      if preflight.late.Some? {
        return Err(preflight.late.value);
      }
      if !continues && j in logs {
        return Err("its branch was gone, so the id was claimed again, but its directory is still there");
      }
      RecordRequest(j, Event(now, request));
      accepted := Ok(j);
    }

    /// The request in the log, and then the job in line.
    method RecordRequest(j: Job, e: Event)
      requires Serves() && e.kind.RoundRequested?
      requires j in logs ==> MayContinue(ReportOf(j))
      modifies `logs, `pending, `life
      ensures Serves() && life == Accepted(old(life), j, e)
      ensures AddsToLog(old(logs), logs, j, [e])
      ensures pending == if returned then old(pending) else old(pending) + [j]
    {
      hide Good, FromEvents, L.StandingsOf, L.State.At, L.State.ReportOf, L.CanCheck, Appended, MayContinue, AddsToLog;
      AppendedAdds(logs, j, e);
      assert L.CanCheck(life, j) by { MayCheck(life, j); }
      SubmitSteps(life, j, e);
      life := Accepted(life, j, e);
      Append(j, e);
      Enqueue(j);
    }

    /// `continued_job`: why a job cannot be given another round.
    method WhyNotContinued(j: Job, branchIsGone: Result<bool>) returns (refused: Option<string>)
      ensures refused == None <==>
                var report := ReportOf(j);
                && j in logs && report.state != Queued && report.state != Running
                && report.base != None && report.provider != None && branchIsGone == Ok(false)
      ensures var report := ReportOf(j);
              && j in logs && report.state != Queued && report.state != Running
              && report.base != None && report.provider != None && branchIsGone.Err? ==>
                refused == Some(branchIsGone.why)
    {
      hide FromEvents;
      if j !in logs {
        return Some("no such job");
      }
      var report := ReportOf(j);
      if report.state == Queued || report.state == Running {
        return Some("the job is already queued or running");
      }
      if report.base.None? || report.provider.None? {
        return Some("the job has no recorded request");
      }
      match branchIsGone {
        case Ok(false) =>
          return None;
        case Ok(true) =>
          return Some("the job has no branch to continue");
        case Err(why) =>
          return Some(why);
      }
    }

    /// The line's far end is dropped when the dispatcher returns.
    method Enqueue(j: Job)
      modifies `pending
      ensures View() == if returned then old(View()) else old(View()).Enqueuing(j)
      ensures pending == if returned then old(pending) else old(pending) + [j]
    {
      if !returned {
        pending := pending + [j];
      }
    }

    /// A round more than the report has, and a token for it, if the job is
    /// Queued and the table has no such round yet.
    method RegisterIfStillQueued(j: Job) returns (registration: Option<Registration>)
      modifies `cancels, `nextToken
      ensures var report := ReportOf(j).Stands();
              if old(View()).MayRegister(j, report) then
                && registration == Some(Registration(j, report.rounds + 1, old(nextToken)))
                && View() == old(View()).Registering(j, report.rounds + 1)
              else registration == None && View() == old(View())
      ensures var (state, round) := (ReportOf(j).state, ReportOf(j).rounds + 1);
              if state == Queued && !(j in old(cancels) && old(cancels)[j].round == round) then
                && registration == Some(Registration(j, round, old(nextToken)))
                && cancels == old(cancels)[j := LaunchedRound(round, old(nextToken))]
                && nextToken == old(nextToken) + 1
              else registration == None && cancels == old(cancels) && nextToken == old(nextToken)
    {
      hide FromEvents;
      var report := ReportOf(j);
      var alreadyLaunched := j in cancels && cancels[j].IsAwaitedBy(report.Stands());
      if report.state == Queued && !alreadyLaunched {
        var registered := Register(j, report.rounds + 1);
        registration := Some(registered);
      } else {
        registration := None;
      }
    }

    method Register(j: Job, round: nat) returns (registration: Registration)
      modifies `cancels, `nextToken
      ensures registration == Registration(j, round, old(nextToken))
      ensures View() == old(View()).Registering(j, round)
    {
      cancels := cancels[j := LaunchedRound(round, nextToken)];
      registration := Registration(j, round, nextToken);
      nextToken := nextToken + 1;
    }

    /// The round's task takes its slot as it is spawned.
    method SpawnRound(registration: Registration, task: Task)
      modifies `tasks, `running
      ensures tasks == old(tasks)[registration.token := task]
      ensures View() == old(View()).Slotting()
    {
      running := running + 1;
      tasks := tasks[registration.token := task];
    }

    method PlaceInHand()
      requires inHand.Some?
      modifies `cancels, `nextToken, `running, `launching, `tasks, `inHand
      ensures inHand.None?
      ensures var (j, seen) := old((inHand.value, ReportOf(inHand.value).Stands()));
              View() == PlacedQueue(old(View()), j, seen) && tasks == PlacedTasks(old(tasks), old(View()), j, seen)
      ensures var j := old(inHand.value);
              var (state, round) := (ReportOf(j).state, ReportOf(j).rounds + 1);
              if state == Queued && !(j in old(cancels) && old(cancels)[j].round == round) then
                && cancels == old(cancels)[j := LaunchedRound(round, old(nextToken))]
                && nextToken == old(nextToken) + 1
                && tasks == old(tasks)[old(nextToken) := Task(j, round, Waiting, true)]
                && running == old(running) + 1 && launching == old(launching) + 1
              else
                && cancels == old(cancels) && nextToken == old(nextToken) && tasks == old(tasks)
                && running == old(running) && launching == old(launching)
    {
      hide FromEvents, LaunchedRound.IsAwaitedBy;
      var j := inHand.value;
      inHand := None;
      var registration := RegisterIfStillQueued(j);
      if registration.Some? {
        launching := launching + 1;
        SpawnRound(registration.value, Task(j, registration.value.round, Waiting, true));
      }
    }

    /// Give the job in the dispatcher's hand its slot.
    method DispatchInHand()
      requires Serves() && inHand.Some? && !returned && !stopping && running < maxJobs
      modifies `cancels, `nextToken, `running, `launching, `tasks, `inHand, `life
      ensures Serves() && inHand.None? && life == Placed(old(life), old(inHand.value))
      ensures Took(old(life), PLACING, life)
      ensures var j := old(inHand.value);
              var (state, round) := (ReportOf(j).state, ReportOf(j).rounds + 1);
              if state == Queued && !(j in old(cancels) && old(cancels)[j].round == round) then
                && cancels == old(cancels)[j := LaunchedRound(round, old(nextToken))]
                && nextToken == old(nextToken) + 1
                && tasks == old(tasks)[old(nextToken) := Task(j, round, Waiting, true)]
                && running == old(running) + 1 && launching == old(launching) + 1
              else
                && cancels == old(cancels) && nextToken == old(nextToken) && tasks == old(tasks)
                && running == old(running) && launching == old(launching)
    {
      hide Good, FromEvents, L.StandingsOf, L.State.At, L.HasWaitingTask, PlacedQueue, PlacedTasks,
        QueueState.MayRegister;
      ghost var j := inHand.value;
      assert life.At(j) == ReportOf(j).Stands() by { ReportIsAt(life, j); }
      DispatchSteps(life, j);
      PlaceInHand();
      life := Placed(life, j);
    }

    /// The jobs waiting, the one in the dispatcher's hand first.
    function Line(): seq<Job>
      reads this
    {
      (if inHand.Some? then [inHand.value] else []) + pending
    }

    method TakeNext()
      requires Serves() && inHand.None? && !returned && !stopping && pending != []
      modifies `pending, `inHand, `life
      ensures Serves() && inHand == Some(old(pending)[0]) && pending == old(pending)[1..]
      ensures Took(old(life), [L.Taking], life)
    {
      hide Good;
      OneStep(life, L.Taking);
      life := L.DispatchTakes(life);
      inHand := Some(pending[0]);
      pending := pending[1..];
    }

    method Return()
      requires Serves() && !returned && stopping
      modifies `returned, `life
      ensures Serves() && returned && Took(old(life), [L.Returning], life)
    {
      hide Good;
      OneStep(life, L.Returning);
      life := L.DispatchReturns(life);
      returned := true;
    }

    /// `dispatch_until_stopped`, up to where it would wait: for a job, or for
    /// a slot for the one in its hand.
    method DispatchWhilePossible() returns (ghost steps: seq<L.Step>, ghost taken: nat)
      requires Serves() && !returned
      modifies this
      ensures Serves() && logs == old(logs) && stopping == old(stopping)
      ensures Took(old(life), steps, life)
      ensures returned <==> stopping
      ensures !returned ==> if inHand.Some? then running >= maxJobs else pending == []
      ensures taken <= |old(Line())| && Line() == old(Line())[taken..]
    {
      hide Serves, Placed, Took;
      steps, taken := [], 0;
      TookNone(life);
      while true
        invariant Serves() && !returned && logs == old(logs) && stopping == old(stopping)
        invariant Took(old(life), steps, life)
        invariant taken <= |old(Line())| && Line() == old(Line())[taken..]
        decreases |Line()|, inHand.None?
      {
        ghost var before := life;
        if stopping {
          Return();
          TookMore(old(life), steps, before, [L.Returning], life);
          return steps + [L.Returning], taken;
        }
        if inHand.None? {
          if pending == [] {
            return;
          }
          TakeNext();
          TookMore(old(life), steps, before, [L.Taking], life);
          steps := steps + [L.Taking];
        } else {
          if running >= maxJobs {
            return;
          }
          DispatchInHand();
          TookMore(old(life), steps, before, PLACING, life);
          steps, taken := steps + PLACING, taken + 1;
        }
      }
    }

    /// Launch nothing more.
    method StopLaunching()
      requires Serves()
      modifies `stopping, `life
      ensures Serves() && stopping && Took(old(life), [L.Stopping], life)
    {
      hide Good;
      OneStep(life, L.Stopping);
      life := L.Stop(life);
      stopping := true;
    }

    // ----- a round's task -----

    /// The task of token `t` appends to its job's log.
    method Record(t: Token, kind: EventKind, now: Instant, next: Phase)
      requires Serves() && t in tasks && MayAppend(tasks[t], kind, next)
      requires tasks[t].phase.Waiting? ==> t in fired
      modifies `logs, `tasks, `life
      ensures Serves() && Took(old(life), [L.Recording(t, Event(now, kind), next)], life)
      ensures logs == Appended(old(logs), old(tasks[t].job), Event(now, kind))
      ensures tasks == old(tasks)[t := old(tasks[t]).(phase := next)]
    {
      hide Good, MayAppend, Appended;
      var e := Event(now, kind);
      RecordStep(life, t, e, next);
      life := Recorded(life, t, e, next);
      Append(tasks[t].job, e);
      tasks := tasks[t := tasks[t].(phase := next)];
    }

    /// It moves on without recording anything.
    method MoveOn(t: Token, next: Phase)
      requires Serves() && t in tasks && MayMove(tasks[t], t in fired, stopping, next)
      modifies `tasks, `life
      ensures Serves() && Took(old(life), [L.Moving(t, next)], life)
      ensures tasks == old(tasks)[t := old(tasks[t]).(phase := next)]
    {
      hide Good, MayMove;
      OneStep(life, L.Moving(t, next));
      life := L.TaskMoves(life, t, next);
      tasks := tasks[t := tasks[t].(phase := next)];
    }

    /// The launching tally is dropped.
    method DropLaunching(t: Token)
      requires Serves() && L.CanSettle(life, t)
      modifies `tasks, `launching, `life
      ensures Serves() && Took(old(life), [L.Settling(t)], life)
      ensures tasks == old(tasks)[t := old(tasks[t]).(launching := false)]
    {
      hide Good;
      OneStep(life, L.Settling(t));
      life := L.TaskSettles(life, t);
      tasks := tasks[t := tasks[t].(launching := false)];
      launching := launching - 1;
    }

    /// `Registration::drop`: no entry goes but this round's own.
    method DropRegistration(t: Token)
      requires Serves() && L.CanUnregister(life, t)
      modifies `tasks, `cancels, `life
      ensures Serves() && Took(old(life), [L.Unregistering(t)], life)
      ensures tasks == old(tasks)[t := old(tasks[t]).(phase := Unregistered)]
      ensures forall j :: j in old(cancels) && old(cancels)[j].token != t ==>
                            j in cancels && cancels[j] == old(cancels)[j]
      ensures forall j :: j in cancels ==> j in old(cancels) && cancels[j].token != t
    {
      hide Good, L.StandingsOf;
      EvictsNoOther(life, t);
      OneStep(life, L.Unregistering(t));
      life := L.TaskUnregisters(life, t);
      var registration := tasks[t];
      if registration.job in cancels && cancels[registration.job].round == registration.round {
        cancels := cancels - {registration.job};
      }
      tasks := tasks[t := tasks[t].(phase := Unregistered)];
    }

    /// Last to go is the slot, and with it the task.
    method DropSlot(t: Token)
      requires Serves() && L.CanFinish(life, t)
      modifies `tasks, `running, `life
      ensures Serves() && Took(old(life), [L.Finishing(t)], life)
      ensures tasks == old(tasks) - {t} && running == old(running) - 1
    {
      hide Good;
      OneStep(life, L.Finishing(t));
      life := L.TaskFinishes(life, t);
      tasks := tasks - {t};
      running := running - 1;
    }

    /// Collect what a launched round tells, up to its end.
    method CollectRound(t: Token, told: seq<Event>, n: nat) returns (ghost steps: seq<L.Step>)
      requires Serves() && t in tasks && tasks[t].phase == Collecting
      requires TellsOneRound(told, n) && FailsOtherwiseThan(told)
      modifies `logs, `tasks, `life
      ensures Serves() && Took(old(life), steps, life)
      ensures logs == AppendedAll(old(logs), old(tasks[t].job), told)
      ensures AddsToLog(old(logs), logs, old(tasks[t].job), told)
      ensures tasks == old(tasks)[t := old(tasks[t]).(phase := Over)]
    {
      hide Serves, Took, Appended, L.CanSettle, AddsToLog;
      ghost var j := tasks[t].job;
      AllAreAdded(logs, j, told);
      steps := [];
      TookNone(life);
      for i := 0 to |told|
        invariant Serves() && Took(old(life), steps, life)
        invariant logs == AppendedAll(old(logs), j, told[..i])
        invariant tasks == old(tasks)[t := old(tasks[t]).(phase := if i <= n then Collecting else Delivering)]
      {
        ghost var before := life;
        var next := if i < n then Collecting else Delivering;
        ToldMayBeRecorded(tasks[t], told, n, i);
        Record(t, told[i].kind, told[i].at, next);
        TookMore(old(life), steps, before, [L.Recording(t, told[i], next)], life);
        steps := steps + [L.Recording(t, told[i], next)];
        OneMoreAppended(old(logs), j, told, i);
      }
      assert told[..|told|] == told;
      ghost var before := life;
      MoveOn(t, Over);
      TookMore(old(life), steps, before, [L.Moving(t, Over)], life);
      steps := steps + [L.Moving(t, Over)];
    }

    /// However its task ended: the tallies and the Registration are dropped.
    method FinishRound(t: Token) returns (ghost steps: seq<L.Step>)
      requires Serves() && t in tasks && tasks[t].phase == Over
      modifies `tasks, `cancels, `running, `launching, `life
      ensures Serves() && Took(old(life), steps, life)
      ensures tasks == old(tasks) - {t} && running == old(running) - 1
      ensures forall j :: j in old(cancels) && old(cancels)[j].token != t ==>
                            j in cancels && cancels[j] == old(cancels)[j]
      ensures forall j :: j in cancels ==> j in old(cancels) && cancels[j].token != t
    {
      hide Good, Took;
      steps := [];
      TookNone(life);
      if tasks[t].launching {
        DropLaunching(t);
        steps := [L.Settling(t)];
      }
      ghost var settled := life;
      DropRegistration(t);
      ghost var unregistered := life;
      TookMore(old(life), steps, settled, [L.Unregistering(t)], life);
      DropSlot(t);
      TookMore(old(life), steps + [L.Unregistering(t)], unregistered, [L.Finishing(t)], life);
      steps := steps + [L.Unregistering(t)] + [L.Finishing(t)];
    }

    /// A round once recorded as started: failed if its config cannot be read
    /// or it cannot be launched, and collected otherwise.
    method RunStarted(t: Token, o: Outcomes, now: Instant) returns (ghost steps: seq<L.Step>)
      requires Serves() && t in tasks && tasks[t].phase == Started && tasks[t].launching && o.WellFormed()
      modifies `logs, `tasks, `stopping, `launching, `life
      ensures Serves() && Took(old(life), steps, life)
      ensures logs == AppendedAll(old(logs), old(tasks[t].job), StartedRoundTells(o, now))
      ensures t in tasks && tasks[t].phase == Over && tasks - {t} == old(tasks) - {t}
    {
      hide Serves, Took, Appended, AppendedAll, FailsOtherwise;
      ghost var (j, hadLogs, was) := (tasks[t].job, logs, life);
      ReasonsDiffer(o);
      if o.config.Err? {
        OneAppended(logs, j, Event(now, RoundFailed(ConfigReason(o))));
        Record(t, RoundFailed(ConfigReason(o)), now, Over);
        return [L.Recording(t, Event(now, RoundFailed(ConfigReason(o))), Over)];
      }
      MoveOn(t, Launching);
      steps := [L.Moving(t, Launching)];
      if o.stopsMeanwhile {
        ghost var moved := life;
        StopLaunching();
        TookMore(was, steps, moved, [L.Stopping], life);
        steps := steps + [L.Stopping];
      }
      ghost var launched := life;
      match o.launch {
        case Err(_) =>
          OneAppended(logs, j, Event(now, RoundFailed(LaunchReason(o))));
          Record(t, RoundFailed(LaunchReason(o)), now, Over);
          TookMore(was, steps, launched, [L.Recording(t, Event(now, RoundFailed(LaunchReason(o))), Over)], life);
          steps := steps + [L.Recording(t, Event(now, RoundFailed(LaunchReason(o))), Over)];
        case Ok(handle) =>
          ghost var rest := RunLaunched(t, handle, o, now);
          TookMore(was, steps, launched, rest, life);
          steps := steps + rest;
      }
    }

    method RunLaunched(t: Token, handle: RoundHandle, o: Outcomes, now: Instant) returns (ghost steps: seq<L.Step>)
      requires Serves() && t in tasks && tasks[t].phase == Launching && tasks[t].launching
      requires TellsOneRound(o.told, o.verdictAt) && FailsOtherwiseThan(o.told)
      modifies `logs, `tasks, `launching, `life
      ensures Serves() && Took(old(life), steps, life)
      ensures logs == AppendedAll(old(logs), old(tasks[t].job), [Event(now, RoundLaunched(handle))] + o.told)
      ensures t in tasks && tasks[t].phase == Over && tasks - {t} == old(tasks) - {t}
    {
      hide Good, Took, Appended, AppendedAll, AddsToLog;
      ghost var (j, hadLogs, was) := (tasks[t].job, logs, life);
      ghost var launched := Event(now, RoundLaunched(handle));
      Record(t, RoundLaunched(handle), now, Collecting);
      OneThenMore(hadLogs, j, launched, o.told);
      steps := [L.Recording(t, launched, Collecting)];
      ghost var recorded := life;
      DropLaunching(t);
      TookMore(was, steps, recorded, [L.Settling(t)], life);
      steps := steps + [L.Settling(t)];
      ghost var settled := life;
      ghost var rest := CollectRound(t, o.told, o.verdictAt);
      TookMore(was, steps, settled, rest, life);
      steps := steps + rest;
    }

    /// A registered round's task up to where nothing more is recorded: closed
    /// if cancelled before it started, left queued if the daemon stops, and
    /// started otherwise.
    method RunUntilOver(t: Token, o: Outcomes, now: Instant) returns (ghost steps: seq<L.Step>)
      requires Serves() && t in tasks && tasks[t].phase == Waiting && tasks[t].launching && o.WellFormed()
      modifies `logs, `tasks, `stopping, `launching, `life
      ensures Serves() && Took(old(life), steps, life)
      ensures logs == AppendedAll(old(logs), old(tasks[t].job),
                                  QueuedRoundTells(t in old(fired), old(stopping), old(tasks[t].round), o, now))
      ensures t in tasks && tasks[t].phase == Over && tasks - {t} == old(tasks) - {t}
    {
      hide Serves, Took, Appended, AppendedAll, StartedRoundTells, Outcomes.WellFormed;
      ghost var (j, hadLogs, was) := (tasks[t].job, logs, life);
      if t in fired {
        OneAppended(logs, j, Event(now, RoundFailed(CANCELLED_BEFORE_IT_STARTED)));
        Record(t, RoundFailed(CANCELLED_BEFORE_IT_STARTED), now, Over);
        return [L.Recording(t, Event(now, RoundFailed(CANCELLED_BEFORE_IT_STARTED)), Over)];
      }
      if stopping {
        NoneAppended(logs, j);
        MoveOn(t, Over);
        return [L.Moving(t, Over)];
      }
      MoveOn(t, Ready);
      steps := [L.Moving(t, Ready)];
      ghost var (ready, started) := (life, Event(now, RoundStarted(tasks[t].round)));
      Record(t, RoundStarted(tasks[t].round), now, Started);
      TookMore(was, steps, ready, [L.Recording(t, started, Started)], life);
      steps := steps + [L.Recording(t, started, Started)];
      OneThenMore(hadLogs, j, started, StartedRoundTells(o, now));
      ghost var begun := life;
      ghost var rest := RunStarted(t, o, now);
      TookMore(was, steps, begun, rest, life);
      steps := steps + rest;
    }

    /// `run_queued_round`, and what its task drops when it is over.
    method RunQueuedRound(t: Token, o: Outcomes, now: Instant) returns (ghost steps: seq<L.Step>)
      requires Serves() && t in tasks && tasks[t].phase == Waiting && o.WellFormed()
      modifies `logs, `tasks, `stopping, `cancels, `running, `launching, `life
      ensures Serves() && Took(old(life), steps, life)
      ensures var (j, round) := old((tasks[t].job, tasks[t].round));
              var had := old(if j in logs then logs[j] else []);
              if t in old(fired) then
                AddsToLog(old(logs), logs, j, [Event(now, RoundFailed("cancelled before it started"))])
              else if old(stopping) then
                logs == old(logs)
              else
                var begun := Event(now, RoundStarted(round));
                match (o.config, o.launch)
                case (Err(why), _) =>
                  AddsToLog(old(logs), logs, j, [begun,
                    Event(now, RoundFailed("reading .assembly/config.toml at the job's base: " + why))])
                case (_, Err(why)) =>
                  AddsToLog(old(logs), logs, j, [begun,
                    Event(now, RoundFailed(
                      if o.stopsMeanwhile
                      then "the daemon stopped while this round was launching, so it was not started"
                      else "the runner could not start the round: " + why))])
                case (_, Ok(handle)) =>
                  && AddsToLog(old(logs), logs, j, [begun, Event(now, RoundLaunched(handle))] + o.told)
                  && ForReport(StandingOf(had + [begun, Event(now, RoundLaunched(handle))]))
                     == Some(Reattach(round, handle))
      ensures tasks == old(tasks) - {t} && running == old(running) - 1
      ensures forall j :: j in old(cancels) && old(cancels)[j].token != t ==>
                            j in cancels && cancels[j] == old(cancels)[j]
      ensures forall j :: j in cancels ==> j in old(cancels) && cancels[j].token != t
    {
      hide Good, Took, Outcomes.WellFormed, QueuedRoundTells, AppendedAll, AddsToLog, ForReport, FromEvents;
      ghost var (j, round) := (tasks[t].job, tasks[t].round);
      ghost var had := if j in logs then logs[j] else [];
      WaitingIsLaunching(life, t);
      QueuedRoundAdds(logs, j, t in fired, stopping, round, o, now);
      if o.launch.Ok? {
        LaunchedIsFoundAgain(had, round, now, o.launch.value);
      }
      steps := RunUntilOver(t, o, now);
      ghost var ended := life;
      ghost var rest := FinishRound(t);
      TookMore(old(life), steps, ended, rest, life);
      steps := steps + rest;
    }

    /// `reattach_round`, and what its task drops when it is over.
    method ReattachRound(t: Token, found: Result<()>, told: seq<Event>, n: nat, now: Instant)
      returns (ghost steps: seq<L.Step>)
      requires Serves() && t in tasks && tasks[t].phase == Reattaching
      requires found.Ok? ==> TellsOneRound(told, n) && FailsOtherwiseThan(told)
      modifies `logs, `tasks, `cancels, `running, `launching, `life
      ensures Serves() && Took(old(life), steps, life)
      ensures match found
              case Ok(_) => AddsToLog(old(logs), logs, old(tasks[t].job), told)
              case Err(why) =>
                AddsToLog(old(logs), logs, old(tasks[t].job),
                          [Event(now, RoundFailed("could not find the round again after a restart: " + why))])
      ensures tasks == old(tasks) - {t} && running == old(running) - 1
    {
      hide Serves, Took, Appended, AppendedAll;
      ghost var (j, was) := (tasks[t].job, life);
      match found {
        case Err(why) =>
          LongerReason(NOT_FOUND_AGAIN, why);
          AppendedAdds(logs, j, Event(now, RoundFailed(NOT_FOUND_AGAIN + why)));
          Record(t, RoundFailed(NOT_FOUND_AGAIN + why), now, Over);
          steps := [L.Recording(t, Event(now, RoundFailed(NOT_FOUND_AGAIN + why)), Over)];
        case Ok(_) =>
          MoveOn(t, Collecting);
          steps := [L.Moving(t, Collecting)];
          ghost var moved := life;
          ghost var collecting := CollectRound(t, told, n);
          TookMore(was, steps, moved, collecting, life);
          steps := steps + collecting;
      }
      ghost var ended := life;
      ghost var rest := FinishRound(t);
      TookMore(was, steps, ended, rest, life);
      steps := steps + rest;
    }

    // ----- starting -----

    /// What the jobs found are owed: those to requeue, and the rest.
    method FindOwed(order: seq<Job>) returns (others: seq<L.Owed>, requeued: seq<Job>)
      ensures others == L.OwedAtOnce(order, logs) && requeued == L.ToRequeue(order, logs)
    {
      hide FromEvents;
      others, requeued := [], [];
      for i := 0 to |order|
        invariant others == L.OwedAtOnce(order[..i], logs) && requeued == L.ToRequeue(order[..i], logs)
      {
        OneMoreFound(order, i, logs);
        match ForReport(ReportOf(order[i]).Stands()) {
          case None =>
          case Some(Requeue) => requeued := requeued + [order[i]];
          case Some(resumption) => others := others + [L.Owed(order[i], resumption)];
        }
      }
      assert order[..|order|] == order;
    }

    /// One Running job: its round is found again by its handle, or failed for
    /// want of one.
    method ResumeOne(owed: L.Owed, now: Instant)
      requires Valid() && L.CanResume(life) && life.owed[0] == owed
      modifies `cancels, `nextToken, `running, `tasks, `logs, `life
      ensures Valid() && Took(old(life), [L.Resuming(now)], life)
      ensures life.owed == old(life.owed)[1..] && life.requeued == old(life.requeued)
      ensures !life.serving && life.dispatcher == old(life.dispatcher)
      ensures forall j :: j in old(logs) && j != owed.job ==> j in logs && logs[j] == old(logs)[j]
      ensures match owed.resumption
              case Reattach(round, _) =>
                && logs == old(logs) && running == old(running) + 1 && nextToken == old(nextToken) + 1
                && cancels == old(cancels)[owed.job := LaunchedRound(round, old(nextToken))]
                && tasks == old(tasks)[old(nextToken) := Task(owed.job, round, Reattaching, false)]
              case LostWhileLaunching(_) =>
                && AddsToLog(old(logs), logs, owed.job,
                             [Event(now, RoundFailed("the daemon was killed while this round was launching"))])
                && running == old(running) && cancels == old(cancels) && tasks == old(tasks)
              case Requeue => true
    {
      hide Good, Appended, AddsToLog;
      ResumeStep(life, now);
      life := Resumed(life, now);
      match owed.resumption {
        case Reattach(round, _) =>
          var registration := Register(owed.job, round);
          SpawnRound(registration, Task(owed.job, round, Reattaching, false));
        case LostWhileLaunching(_) =>
          OthersUntouched(logs, owed.job, Event(now, RoundFailed(LOST_WHILE_LAUNCHING)));
          AppendedAdds(logs, owed.job, Event(now, RoundFailed(LOST_WHILE_LAUNCHING)));
          Append(owed.job, Event(now, RoundFailed(LOST_WHILE_LAUNCHING)));
        case Requeue =>
      }
    }

    method EnqueueAll(line: seq<Job>)
      requires !returned
      modifies `pending
      ensures View() == old(View()).(pending := old(pending) + line)
    {
      for i := 0 to |line|
        invariant pending == old(pending) + line[..i]
      {
        Enqueue(line[i]);
      }
      assert line[..|line|] == line;
    }

    /// Each round owed something at once, in turn; the logs of those to be
    /// requeued stay as they were read.
    method ResumeOthers(others: seq<L.Owed>, now: Instant) returns (ghost steps: seq<L.Step>)
      requires Valid() && !life.serving && life.owed == others
      modifies `cancels, `nextToken, `running, `tasks, `logs, `life
      ensures Valid() && Took(old(life), steps, life) && L.CanServe(life)
      ensures life.requeued == old(life.requeued) && life.dispatcher == old(life.dispatcher)
      ensures forall j :: j in life.requeued ==> j in old(logs) && j in logs && logs[j] == old(logs)[j]
    {
      hide Good, Took;
      steps := [];
      TookNone(life);
      RequeuedAreFound(life);
      for i := 0 to |others|
        invariant Valid() && Took(old(life), steps, life) && !life.serving && life.dispatcher == old(life.dispatcher)
        invariant life.owed == others[i..] && life.requeued == old(life.requeued)
        invariant forall j :: j in life.requeued ==> j in old(logs) && j in logs && logs[j] == old(logs)[j]
      {
        ghost var before := life;
        NextIsNotRequeued(life);
        ResumeOne(others[i], now);
        TookMore(old(life), steps, before, [L.Resuming(now)], life);
        steps := steps + [L.Resuming(now)];
      }
    }

    /// Requeue in the order asked for, and serve.
    method Requeue(line: seq<Job>)
      requires Valid() && L.CanServe(life) && inHand.None? && !returned && pending == []
      requires line == L.ByRequestTime(life.requeued, logs)
      modifies `pending, `life
      ensures Serves() && Took(old(life), [L.Serving], life)
      ensures AskedInOrder(pending, logs) && forall j :: IsGivenItsDue(life, j)
    {
      hide Good, Took, L.ByRequestTime, IsGivenItsDue, AskedInOrder;
      ServeStep(life);
      life := L.Serve(life);
      EnqueueAll(line);
    }

    /// Every job has its due: a Running one its round's task or an end, a
    /// Queued one its place, earlier requests first.
    method ResumeJobsUnderRoot(order: seq<Job>, now: Instant) returns (ghost steps: seq<L.Step>)
      requires Valid() && !life.serving && inHand.None? && !returned && pending == []
      requires life.owed == L.OwedAtOnce(order, logs) && life.requeued == L.ToRequeue(order, logs)
      modifies `logs, `cancels, `nextToken, `pending, `running, `tasks, `life
      ensures Serves() && Took(old(life), steps, life)
      ensures AskedInOrder(pending, logs) && forall j :: IsGivenItsDue(life, j)
    {
      hide Valid, Serves, Took, L.OwedAtOnce, L.ToRequeue, IsGivenItsDue, L.ByRequestTime, AskedInOrder;
      var read := logs;
      var others, requeued := FindOwed(order);
      steps := ResumeOthers(others, now);
      ghost var resumed := life;
      SameRequestTimes(requeued, read, logs);
      Requeue(L.ByRequestTime(requeued, read));
      TookMore(old(life), steps, resumed, [L.Serving], life);
      steps := steps + [L.Serving];
    }
  }

  lemma OneMoreFound(order: seq<Job>, i: nat, logs: map<Job, Log>)
    requires i < |order|
    ensures var owed := ForReport(StandingOf(if order[i] in logs then logs[order[i]] else []));
            && L.OwedAtOnce(order[..i + 1], logs)
               == L.OwedAtOnce(order[..i], logs)
                  + (if owed.Some? && !owed.value.Requeue? then [L.Owed(order[i], owed.value)] else [])
            && L.ToRequeue(order[..i + 1], logs)
               == L.ToRequeue(order[..i], logs) + (if owed == Some(Requeue) then [order[i]] else [])
  {
    assert order[..i + 1][..i] == order[..i];
  }

  function Resumed(s: L.State, now: Instant): L.State
    requires s.owed != []
  {
    var (j, resumption) := (s.owed[0].job, s.owed[0].resumption);
    s.(owed := s.owed[1..],
    queue := if resumption.Reattach? then s.queue.Registering(j, resumption.round).Slotting() else s.queue,
    tasks := if resumption.Reattach? then s.tasks[s.queue.nextToken := Task(j, resumption.round, Reattaching,
        false)] else s.tasks,
    logs := if resumption.LostWhileLaunching?
      then Appended(s.logs, j, Event(now, RoundFailed(LOST_WHILE_LAUNCHING))) else s.logs,
    reattached := if resumption.Reattach? then s.reattached + 1 else s.reattached)
  }

  lemma ResumeStep(s: L.State, now: Instant)
    requires Good(s) && L.CanResume(s)
    ensures Took(s, [L.Resuming(now)], Resumed(s, now)) && Good(Resumed(s, now))
  {
    hide Good;
    OneStep(s, L.Resuming(now));
  }

  lemma OthersUntouched(logs: map<Job, Log>, j: Job, e: Event)
    ensures forall k :: k in logs && k != j ==> k in Appended(logs, j, e) && Appended(logs, j, e)[k] == logs[k]
  {
  }

  lemma RequeuedAreFound(s: L.State)
    requires Good(s) && s.up && !s.serving
    ensures forall j :: j in s.requeued ==> j in s.logs && StandingOf(s.logs[j]).state == Queued
  {
    hide LogsOk, PlacesOk, OrderOk, LaunchesOk, UnlaunchedOk, ClosedOk, SubmitsOk, OwedOk, RunningOk, TallyOk,
      Consistent;
    forall j | j in s.requeued ensures j in s.logs && StandingOf(s.logs[j]).state == Queued {
      assert L.StandingsOf(s.logs)[j].state == Queued;
    }
  }

  lemma NextIsNotRequeued(s: L.State)
    requires Good(s) && L.CanResume(s)
    ensures s.owed[0].job !in s.requeued
  {
    hide LogsOk, PlacesOk, OrderOk, LaunchesOk, UnlaunchedOk, ClosedOk, SubmitsOk, RunningOk, TallyOk, Consistent;
    assert OneOwed(s.owed[0], L.StandingsOf(s.logs), s.tasks);
  }

  lemma {:induction false} SameRequestTimes(jobs: seq<Job>, a: map<Job, Log>, b: map<Job, Log>)
    requires forall j :: j in jobs ==> j in a && j in b && a[j] == b[j]
    ensures L.ByRequestTime(jobs, a) == L.ByRequestTime(jobs, b)
  {
    if jobs != [] {
      var n := |jobs| - 1;
      SameRequestTimes(jobs[..n], a, b);
      RequeuedInOrder(jobs[..n], a);
      SameElements(L.ByRequestTime(jobs[..n], a), jobs[..n]);
      SameInsertion(L.ByRequestTime(jobs[..n], a), jobs[n], a, b);
    }
  }

  lemma {:induction false} SameInsertion(sorted: seq<Job>, j: Job, a: map<Job, Log>, b: map<Job, Log>)
    requires j in a && j in b && a[j] == b[j]
    requires forall k :: k in sorted ==> k in a && k in b && a[k] == b[k]
    ensures L.Inserting(sorted, j, a) == L.Inserting(sorted, j, b)
  {
    if sorted != [] {
      SameInsertion(sorted[..|sorted| - 1], j, a, b);
    }
  }

  lemma NoneSubmitsYet(s: L.State)
    requires Good(s) && s.up && !s.serving
    ensures s.submits == map[]
  {
    hide LogsOk, PlacesOk, OrderOk, LaunchesOk, UnlaunchedOk, ClosedOk, OwedOk, RunningOk, TallyOk, Consistent;
  }

  lemma ServeStep(s: L.State)
    requires Good(s) && L.CanServe(s)
    ensures Took(s, [L.Serving], L.Serve(s)) && Good(L.Serve(s))
    ensures AskedInOrder(L.Serve(s).queue.pending, s.logs) && forall j :: IsGivenItsDue(L.Serve(s), j)
    ensures L.Serve(s).submits == map[]
  {
    assert s.submits == map[] by { NoneSubmitsYet(s); }
    hide Good, IsGivenItsDue, L.ByRequestTime, AskedInOrder;
    OneStep(s, L.Serving);
    GoodIsAskedInOrder(s);
    forall j ensures IsGivenItsDue(L.Serve(s), j) {
      GoodIsGivenItsDue(s, j);
    }
  }

  lemma WaitingIsLaunching(s: L.State, t: Token)
    requires Good(s) && s.up && t in s.tasks && s.tasks[t].phase == Waiting
    ensures s.tasks[t].launching && StandingOf(s.LogOf(s.tasks[t].job)).rounds + 1 == s.tasks[t].round
  {
    hide LogsOk, PlacesOk, OrderOk, LaunchesOk, UnlaunchedOk, ClosedOk, SubmitsOk, OwedOk, RunningOk, L.StandingsOf,
      TallyOk;
    assert TaskOk(t, s.tasks[t], s.queue.table, s.At(s.tasks[t].job));
    ReportIsAt(s, s.tasks[t].job);
  }

  lemma OneAppended(logs: map<Job, Log>, j: Job, e: Event)
    ensures Appended(logs, j, e) == AppendedAll(logs, j, [e])
  {
  }

  lemma NoneAppended(logs: map<Job, Log>, j: Job)
    ensures AppendedAll(logs, j, []) == logs
  {
  }

  lemma OneThenMore(logs: map<Job, Log>, j: Job, e: Event, more: seq<Event>)
    ensures AppendedAll(Appended(logs, j, e), j, more) == AppendedAll(logs, j, [e] + more)
  {
    var had := if j in logs then logs[j] else [];
    assert had + [e] + more == had + ([e] + more);
    assert [e] + [] == [e];
  }

  lemma LongerReason(prefix: string, why: string)
    requires |prefix| > |CANCELLED_BEFORE_IT_STARTED|
    ensures FailsOtherwise(RoundFailed(prefix + why))
  {
    assert |prefix + why| > |CANCELLED_BEFORE_IT_STARTED|;
  }

  lemma ReasonsDiffer(o: Outcomes)
    ensures o.config.Err? ==> FailsOtherwise(RoundFailed(ConfigReason(o)))
    ensures o.launch.Err? ==> FailsOtherwise(RoundFailed(LaunchReason(o)))
  {
    if o.config.Err? {
      LongerReason(UNREADABLE_CONFIG, o.config.why);
    }
    if o.launch.Err? {
      assert |STOPPED_WHILE_LAUNCHING| > |CANCELLED_BEFORE_IT_STARTED|;
      LongerReason(NOT_LAUNCHED, o.launch.why);
    }
  }

  const NOT_FOUND_AGAIN := "could not find the round again after a restart: "
  const UNREADABLE_CONFIG := "reading .assembly/config.toml at the job's base: "
  const NOT_LAUNCHED := "the runner could not start the round: "
  const STOPPED_WHILE_LAUNCHING := "the daemon stopped while this round was launching, so it was not started"

  /// What a queued round meets: its config, its launch, whether the daemon
  /// stops during it, and what is collected of it.
  datatype Outcomes = Outcomes(
    config: Result<()>, launch: Result<RoundHandle>, stopsMeanwhile: bool, told: seq<Event>, verdictAt: nat)
  {
    ghost predicate WellFormed() {
      config.Ok? && launch.Ok? ==> TellsOneRound(told, verdictAt) && FailsOtherwiseThan(told)
    }
  }

  function ConfigReason(o: Outcomes): string
    requires o.config.Err?
  {
    UNREADABLE_CONFIG + o.config.why
  }

  function LaunchReason(o: Outcomes): string
    requires o.launch.Err?
  {
    if o.stopsMeanwhile then STOPPED_WHILE_LAUNCHING else NOT_LAUNCHED + o.launch.why
  }

  /// What a queued round adds to its job's log.
  function QueuedRoundTells(cancelled: bool, stopping: bool, round: nat, o: Outcomes, now: Instant): seq<Event> {
    if cancelled then [Event(now, RoundFailed(CANCELLED_BEFORE_IT_STARTED))]
    else if stopping then []
    else [Event(now, RoundStarted(round))] + StartedRoundTells(o, now)
  }

  function StartedRoundTells(o: Outcomes, now: Instant): seq<Event> {
    if o.config.Err? then [Event(now, RoundFailed(ConfigReason(o)))]
    else if o.launch.Err? then [Event(now, RoundFailed(LaunchReason(o)))]
    else [Event(now, RoundLaunched(o.launch.value))] + o.told
  }

  lemma QueuedRoundAdds(logs: map<Job, Log>, j: Job, cancelled: bool, stopping: bool, round: nat, o: Outcomes,
                        now: Instant)
    ensures var logs' := AppendedAll(logs, j, QueuedRoundTells(cancelled, stopping, round, o, now));
            if cancelled then AddsToLog(logs, logs', j, [Event(now, RoundFailed("cancelled before it started"))])
            else if stopping then logs' == logs
            else
              var begun := Event(now, RoundStarted(round));
              match (o.config, o.launch)
              case (Err(why), _) =>
                AddsToLog(logs, logs', j, [begun,
                  Event(now, RoundFailed("reading .assembly/config.toml at the job's base: " + why))])
              case (_, Err(why)) =>
                AddsToLog(logs, logs', j, [begun,
                  Event(now, RoundFailed(
                    if o.stopsMeanwhile
                    then "the daemon stopped while this round was launching, so it was not started"
                    else "the runner could not start the round: " + why))])
              case (_, Ok(handle)) =>
                AddsToLog(logs, logs', j, [begun, Event(now, RoundLaunched(handle))] + o.told)
  {
    hide AppendedAll, AddsToLog;
    var begun := Event(now, RoundStarted(round));
    AllAreAdded(logs, j, QueuedRoundTells(cancelled, stopping, round, o, now));
    NoneAppended(logs, j);
    if !cancelled && !stopping {
      Headed(begun, StartedRoundTells(o, now));
      if o.config.Ok? && o.launch.Ok? {
        Headed(Event(now, RoundLaunched(o.launch.value)), o.told);
      }
    }
  }

  lemma Headed(first: Event, rest: seq<Event>)
    ensures |rest| == 1 ==> [first] + rest == [first, rest[0]]
    ensures forall e :: [e] + ([first] + rest) == [e, first] + rest
  {
  }

  /// A daemon that finds the round no further told than its launch is to
  /// reattach it by the handle the launch gave.
  lemma LaunchedIsFoundAgain(had: Log, round: nat, now: Instant, handle: RoundHandle)
    requires StandingOf(had).rounds + 1 == round
    ensures ForReport(StandingOf(had + [Event(now, RoundStarted(round)), Event(now, RoundLaunched(handle))]))
            == Some(Reattach(round, handle))
  {
    hide FromEvents;
    var (begun, launched) := (Event(now, RoundStarted(round)), Event(now, RoundLaunched(handle)));
    AppendedReport(had, begun);
    AppendedReport(had + [begun], launched);
    assert had + [begun, launched] == had + [begun] + [launched];
  }

  function AppendedAll(logs: map<Job, Log>, j: Job, events: seq<Event>): map<Job, Log> {
    if events == [] then logs else logs[j := (if j in logs then logs[j] else []) + events]
  }

  lemma OneMoreAppended(logs: map<Job, Log>, j: Job, events: seq<Event>, i: nat)
    requires i < |events|
    ensures Appended(AppendedAll(logs, j, events[..i]), j, events[i]) == AppendedAll(logs, j, events[..i + 1])
  {
    var had := if j in logs then logs[j] else [];
    assert events[..i + 1] == events[..i] + [events[i]];
    assert had + events[..i] + [events[i]] == had + events[..i + 1];
    var before := AppendedAll(logs, j, events[..i]);
    assert (if j in before then before[j] else []) == had + events[..i];
    assert Appended(before, j, events[i]) == logs[j := had + events[..i + 1]];
  }

  /// No collected failure is worded as a cancel's.
  predicate FailsOtherwiseThan(told: seq<Event>) {
    forall i :: 0 <= i < |told| && told[i].kind.RoundFailed? ==> FailsOtherwise(told[i].kind)
  }

  lemma ToldMayBeRecorded(task: Task, told: seq<Event>, n: nat, i: nat)
    requires TellsOneRound(told, n) && FailsOtherwiseThan(told) && i < |told|
    requires task.phase == if i <= n then Collecting else Delivering
    ensures MayAppend(task, told[i].kind, if i < n then Collecting else Delivering)
  {
  }

  function Recorded(s: L.State, t: Token, e: Event, next: Phase): L.State
    requires t in s.tasks
  {
    s.(logs := Appended(s.logs, s.tasks[t].job, e), tasks := s.tasks[t := s.tasks[t].(phase := next)])
  }

  lemma RecordStep(s: L.State, t: Token, e: Event, next: Phase)
    requires Good(s) && L.MayRecord(s, t, e, next)
    ensures Took(s, [L.Recording(t, e, next)], Recorded(s, t, e, next)) && Good(Recorded(s, t, e, next))
  {
    hide Good, MayAppend;
    OneStep(s, L.Recording(t, e, next));
  }

  lemma EvictsNoOther(s: L.State, t: Token)
    requires Good(s) && L.CanUnregister(s, t)
    ensures var table' := L.TaskUnregisters(s, t).queue.table;
            && (forall j :: j in s.queue.table && s.queue.table[j].token != t ==>
                              j in table' && table'[j] == s.queue.table[j])
            && (forall j :: j in table' ==> j in s.queue.table && table'[j] == s.queue.table[j] && table'[j].token != t)
  {
    hide LogsOk, PlacesOk, OrderOk, LaunchesOk, UnlaunchedOk, ClosedOk, SubmitsOk, OwedOk, RunningOk, L.StandingsOf,
      TallyOk;
    UnregisterKeepsConsistent(s.tasks, s.queue.table, L.StandingsOf(s.logs), t);
    forall j | j in s.queue.table && s.queue.table[j].token == t
      ensures j == s.tasks[t].job && s.queue.table[j].round == s.tasks[t].round
    {
      assert EntryOk(s.tasks, j, s.queue.table[j]);
    }
  }

  /// One state is another with these steps taken.
  ghost predicate Took(s: L.State, steps: seq<L.Step>, s': L.State) {
    L.Runs(s, steps) && L.End(s, steps) == s'
  }

  const PLACING := [L.Slotting, L.DispatchReading, L.DispatchActing]

  lemma TookNone(s: L.State)
    ensures Took(s, [], s)
  {
  }

  lemma TookMore(s: L.State, steps: seq<L.Step>, s': L.State, more: seq<L.Step>, s'': L.State)
    requires Took(s, steps, s') && Took(s', more, s'')
    ensures Took(s, steps + more, s'')
  {
    RunsOn(s, steps, more);
  }

  predicate MayContinue(report: JobProgress) {
    report.state != Queued && report.state != Running && report.base.Some? && report.provider.Some?
  }

  lemma ReportIsAt(s: L.State, j: Job)
    ensures s.At(j) == StandingOf(s.LogOf(j))
  {
  }

  lemma MayCheck(s: L.State, j: Job)
    requires s.up && s.serving && j !in s.submits
    requires j in s.logs ==> MayContinue(FromEvents(s.logs[j]))
    ensures L.CanCheck(s, j)
  {
    hide FromEvents;
  }

  lemma MayCancel(s: L.State, j: Job)
    requires s.up && s.serving && s.lock == L.Free && j in s.logs
    ensures L.CanCancel(s, j) && s.At(j) == StandingOf(s.logs[j])
  {
  }
}
