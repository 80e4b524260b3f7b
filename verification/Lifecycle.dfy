// A daemon's jobs as a transition system: submits, cancels, the dispatcher and
// a task for each round, in any interleaving, with daemons that stop, crash and
// follow one another (src/daemon/).
//
// Durable: a log a job, and the history of the launches the runner was asked
// for. Everything else is one daemon process's and is erased by a crash. A
// cancel and the dispatcher each take the cancel table's lock to read a job's
// log and keep it until they have acted on what they read; appends by submits and by round
// tasks may fall in between.
module Lifecycle {
  import opened Events
  import opened Report
  import opened Recovery
  import opened Queue
  import opened RoundTasks

  datatype Lock = Free | CancelHolds(job: Job, seen: Standing) | DispatchHolds(job: Job, seen: Standing)

  datatype Dispatcher = NotSpawned | Idle | Holding(job: Job) | Slotted(job: Job) | Returned

  datatype Submit = Checked | Recorded

  datatype Owed = Owed(job: Job, resumption: Resumption)

  datatype State = State(
    // durable
    logs: map<Job, Log>,
    launches: seq<(Job, nat)>,
    // one daemon process
    up: bool,
    serving: bool,
    maxJobs: nat,
    queue: QueueState,
    tasks: Tasks,
    lock: Lock,
    dispatcher: Dispatcher,
    submits: map<Job, Submit>,
    owed: seq<Owed>,
    requeued: seq<Job>,
    // history of one daemon process
    reattached: nat,
    enqueued: seq<Job>,
    taken: nat,
    dispatched: seq<int>,
    passedOver: set<Job>)
  {
    function LogOf(j: Job): Log {
      if j in logs then logs[j] else []
    }

    function ReportOf(j: Job): JobProgress {
      FromEvents(LogOf(j))
    }

    function At(j: Job): Standing {
      Of(StandingsOf(logs), j)
    }

    function Appending(j: Job, e: Event): State {
      this.(logs := logs[j := LogOf(j) + [e]])
    }
  }

  function StandingsOf(logs: map<Job, Log>): Standings {
    map j | j in logs :: StandingOf(logs[j])
  }

  /// No daemon runs: `logs` and `launches` are all there is.
  function Down(logs: map<Job, Log>, launches: seq<(Job, nat)>): State {
    State(logs, launches, false, false, 0, EMPTY_QUEUE, map[], Free, NotSpawned, map[], [], [], 0, [], 0, [], {})
  }

  const INITIALLY := Down(map[], [])

  // ----- starting: resume_jobs_under_root -----

  ghost predicate Enumerates(order: seq<Job>, logs: map<Job, Log>) {
    && (forall i, k :: 0 <= i < k < |order| ==> order[i] != order[k])
    && (forall j :: j in order <==> j in logs && FromEvents(logs[j]).remoteUrl.Some?)
  }

  ghost predicate CanBoot(s: State, order: seq<Job>) {
    !s.up && Enumerates(order, s.logs)
  }

  /// Read every log, and sort what is owed into requeues and the rest.
  function Boot(s: State, maxJobs: nat, order: seq<Job>): State {
    Down(s.logs, s.launches).(up := true, maxJobs := maxJobs,
    owed := OwedAtOnce(order, s.logs), requeued := ToRequeue(order, s.logs))
  }

  function OwedAtOnce(order: seq<Job>, logs: map<Job, Log>): seq<Owed> {
    if order == [] then []
    else
      var j := order[|order| - 1];
      var before := OwedAtOnce(order[..|order| - 1], logs);
      var owed := ForReport(if j in logs then StandingOf(logs[j]) else NO_STANDING);
      if owed.Some? && !owed.value.Requeue? then before + [Owed(j, owed.value)] else before
  }

  function ToRequeue(order: seq<Job>, logs: map<Job, Log>): seq<Job> {
    if order == [] then []
    else
      var j := order[|order| - 1];
      var before := ToRequeue(order[..|order| - 1], logs);
      var owed := ForReport(if j in logs then StandingOf(logs[j]) else NO_STANDING);
      if owed == Some(Requeue) then before + [j] else before
  }

  ghost predicate CanResume(s: State) {
    s.up && !s.serving && s.owed != []
  }

  /// Reattach the next job's round, or close the one lost mid-launch.
  function ResumeNext(s: State, at: Instant): State {
    if s.owed == [] then s else
    var Owed(j, resumption) := s.owed[0];
    var s := s.(owed := s.owed[1..]);
    match resumption
    case Reattach(round, _) =>
      s.(queue := s.queue.Registering(j, round).Slotting(),
      tasks := s.tasks[s.queue.nextToken := Task(j, round, Reattaching, false)],
      reattached := s.reattached + 1)
    case LostWhileLaunching(_) => s.Appending(j, Event(at, RoundFailed(LOST_WHILE_LAUNCHING)))
    case Requeue => s
  }

  ghost predicate CanServe(s: State) {
    s.up && !s.serving && s.owed == []
  }

  /// Requeue in the order asked for, then serve and dispatch.
  function Serve(s: State): State {
    var line := ByRequestTime(s.requeued, s.logs);
    s.(serving := true, dispatcher := Idle, requeued := [], enqueued := line,
    queue := s.queue.(pending := line))
  }

  /// Stable insertion by `requestedAt`; `None` sorts first.
  function ByRequestTime(jobs: seq<Job>, logs: map<Job, Log>): seq<Job> {
    if jobs == [] then []
    else Inserting(ByRequestTime(jobs[..|jobs| - 1], logs), jobs[|jobs| - 1], logs)
  }

  function Inserting(sorted: seq<Job>, j: Job, logs: map<Job, Log>): seq<Job> {
    if sorted == [] then [j]
    else if RequestedBefore(j, sorted[|sorted| - 1], logs)
      then Inserting(sorted[..|sorted| - 1], j, logs) + [sorted[|sorted| - 1]]
    else sorted + [j]
  }

  function RequestedAt(j: Job, logs: map<Job, Log>): int {
    match FromEvents(if j in logs then logs[j] else []).requestedAt
    case None => -1
    case Some(at) => at
  }

  predicate RequestedBefore(j: Job, k: Job, logs: map<Job, Log>) {
    RequestedAt(j, logs) < RequestedAt(k, logs)
  }

  // ----- a submit: continued_job's check, then append, then enqueue -----

  predicate Idles(r: Standing) {
    !r.state.Queued? && !r.state.Running?
  }

  ghost predicate CanCheck(s: State, j: Job) {
    && s.up && s.serving && j !in s.submits
    && (|| s.LogOf(j) == []
        || (Idles(s.At(j)) && s.ReportOf(j).base.Some? && s.ReportOf(j).provider.Some?))
  }

  function SubmitChecks(s: State, j: Job): State {
    s.(submits := s.submits[j := Checked])
  }

  ghost predicate CanRecord(s: State, j: Job, e: Event) {
    s.up && j in s.submits && s.submits[j] == Checked && e.kind.RoundRequested?
  }

  function SubmitRecords(s: State, j: Job, e: Event): State {
    s.Appending(j, e).(submits := s.submits[j := Recorded], passedOver := s.passedOver - {j})
  }

  ghost predicate CanEnqueue(s: State, j: Job) {
    s.up && j in s.submits && s.submits[j] == Recorded
  }

  /// There is no line to join after the dispatcher has returned.
  function SubmitEnqueues(s: State, j: Job): State {
    var s := s.(submits := s.submits - {j});
    if s.dispatcher == Returned then s
    else s.(queue := s.queue.Enqueuing(j), enqueued := s.enqueued + [j])
  }

  ghost predicate CanGiveUp(s: State, j: Job) {
    s.up && j in s.submits && s.submits[j] == Checked
  }

  function SubmitGivesUp(s: State, j: Job): State {
    s.(submits := s.submits - {j})
  }

  // ----- cancel -----

  ghost predicate CanCancel(s: State, j: Job) {
    s.up && s.serving && s.lock == Free && j in s.logs
  }

  function CancelReads(s: State, j: Job): State {
    s.(lock := CancelHolds(j, s.At(j)))
  }

  ghost predicate CanCancelAct(s: State) {
    s.up && s.lock.CancelHolds?
  }

  function CancelActs(s: State, at: Instant): State {
    if !s.lock.CancelHolds? then s else
    var (j, seen) := (s.lock.job, s.lock.seen);
    var s := s.(lock := Free);
    match s.queue.CancelDecision(j, seen)
    case Fire(token) => s.(queue := s.queue.Firing(token))
    case Close => s.Appending(j, Event(at, RoundFailed(CANCELLED_BEFORE_IT_STARTED)))
    case Refuse => s
  }

  // ----- the dispatcher -----

  ghost predicate CanTake(s: State) {
    s.up && s.dispatcher == Idle && !s.queue.stopping && s.queue.pending != []
  }

  function DispatchTakes(s: State): State {
    if s.queue.pending == [] then s else
    s.(dispatcher := Holding(s.queue.pending[0]), taken := s.taken + 1,
    queue := s.queue.(pending := s.queue.pending[1..]))
  }

  ghost predicate CanSlot(s: State) {
    s.up && s.dispatcher.Holding? && !s.queue.stopping && s.queue.running < s.maxJobs
  }

  function DispatchSlots(s: State): State {
    if s.dispatcher.Holding? then s.(dispatcher := Slotted(s.dispatcher.job)) else s
  }

  ghost predicate CanRegister(s: State) {
    s.up && s.dispatcher.Slotted? && s.lock == Free
  }

  /// The job is passed over for good if nothing is about to start it.
  function DispatchReads(s: State): State {
    if !s.dispatcher.Slotted? then s else
    var j := s.dispatcher.job;
    var seen := s.At(j);
    var passes := seen.state == Queued && !s.queue.MayRegister(j, seen) && !HasWaitingTask(s.tasks, s.queue.table, j);
    s.(lock := DispatchHolds(j, seen), passedOver := if passes then s.passedOver + {j} else s.passedOver)
  }

  ghost predicate CanDispatch(s: State) {
    s.up && s.lock.DispatchHolds?
  }

  /// `register_if_still_queued`, the two tallies, and `spawn_round`.
  function DispatchActs(s: State): State {
    if !s.lock.DispatchHolds? then s else
    var (j, seen) := (s.lock.job, s.lock.seen);
    var s := s.(lock := Free, dispatcher := Idle);
    if s.queue.MayRegister(j, seen) then
      s.(queue := s.queue.Registering(j, seen.rounds + 1).Slotting().CountingLaunch(),
      tasks := s.tasks[s.queue.nextToken := Task(j, seen.rounds + 1, Waiting, true)],
      dispatched := s.dispatched + [s.taken - 1])
    else s
  }

  /// A live task of `j` is going to start the round its report waits for.
  predicate HasWaitingTask(tasks: Tasks, table: Table, j: Job) {
    && j in table && table[j].token in tasks
    && tasks[table[j].token].IsWaiting()
  }

  ghost predicate CanReturn(s: State) {
    s.up && s.queue.stopping && (s.dispatcher == Idle || s.dispatcher.Holding?)
  }

  function DispatchReturns(s: State): State {
    s.(dispatcher := Returned)
  }

  // ----- a round's task -----

  ghost predicate MayRecord(s: State, t: Token, e: Event, next: Phase) {
    && s.up && t in s.tasks && MayAppend(s.tasks[t], e.kind, next)
    && (s.tasks[t].phase.Waiting? ==> t in s.queue.fired)
  }

  function TaskRecords(s: State, t: Token, e: Event, next: Phase): State {
    if t !in s.tasks then s else
    s.Appending(s.tasks[t].job, e).(tasks := s.tasks[t := s.tasks[t].(phase := next)])
  }

  ghost predicate MayMoveOn(s: State, t: Token, next: Phase) {
    s.up && t in s.tasks && RoundTasks.MayMove(s.tasks[t], t in s.queue.fired, s.queue.stopping, next)
  }

  function TaskMoves(s: State, t: Token, next: Phase): State {
    if t !in s.tasks then s else
    var task := s.tasks[t];
    s.(tasks := s.tasks[t := task.(phase := next)],
    launches := if next == Launching then s.launches + [(task.job, task.round)] else s.launches)
  }

  ghost predicate CanSettle(s: State, t: Token) {
    && s.up && t in s.tasks && s.tasks[t].launching
    && (s.tasks[t].phase == Collecting || s.tasks[t].phase == Delivering || s.tasks[t].phase == Over)
  }

  /// A launch that succeeded, failed or never was is counted no longer.
  function TaskSettles(s: State, t: Token): State {
    if t !in s.tasks then s else
    s.(tasks := s.tasks[t := s.tasks[t].(launching := false)], queue := s.queue.LaunchSettled())
  }

  ghost predicate CanUnregister(s: State, t: Token) {
    s.up && t in s.tasks && s.tasks[t].phase == Over && !s.tasks[t].launching && s.lock == Free
  }

  /// `Registration::drop`.
  function TaskUnregisters(s: State, t: Token): State {
    if t !in s.tasks then s else
    s.(tasks := s.tasks[t := s.tasks[t].(phase := Unregistered)],
    queue := s.queue.Unregistering(s.tasks[t].job, s.tasks[t].round))
  }

  ghost predicate CanFinish(s: State, t: Token) {
    s.up && t in s.tasks && s.tasks[t].phase == Unregistered
  }

  /// The slot dropped, and with it the task.
  function TaskFinishes(s: State, t: Token): State {
    s.(tasks := s.tasks - {t}, queue := s.queue.SlotFreed())
  }

  // ----- stop and crash -----

  ghost predicate CanStop(s: State) {
    s.up && s.serving
  }

  function Stop(s: State): State {
    s.(queue := s.queue.(stopping := true))
  }

  ghost predicate CanCrash(s: State) {
    s.up
  }

  /// Also how a daemon that stopped in order ends.
  function Crash(s: State): State {
    Down(s.logs, s.launches)
  }

  // ----- every step there is -----

  datatype Step =
    | Booting(maxJobs: nat, order: seq<Job>)
    | Resuming(at: Instant)
    | Serving
    | Checking(job: Job)
    | Requesting(job: Job, event: Event)
    | Enqueueing(job: Job)
    | GivingUp(job: Job)
    | CancelReading(job: Job)
    | CancelActing(at: Instant)
    | Taking
    | Slotting
    | DispatchReading
    | DispatchActing
    | Returning
    | Recording(task: Token, event: Event, next: Phase)
    | Moving(task: Token, next: Phase)
    | Settling(task: Token)
    | Unregistering(task: Token)
    | Finishing(task: Token)
    | Stopping
    | Crashing

  ghost predicate Enabled(s: State, step: Step) {
    match step
    case Booting(_, order) => CanBoot(s, order)
    case Resuming(_) => CanResume(s)
    case Serving => CanServe(s)
    case Checking(j) => CanCheck(s, j)
    case Requesting(j, e) => CanRecord(s, j, e)
    case Enqueueing(j) => CanEnqueue(s, j)
    case GivingUp(j) => CanGiveUp(s, j)
    case CancelReading(j) => CanCancel(s, j)
    case CancelActing(_) => CanCancelAct(s)
    case Taking => CanTake(s)
    case Slotting => CanSlot(s)
    case DispatchReading => CanRegister(s)
    case DispatchActing => CanDispatch(s)
    case Returning => CanReturn(s)
    case Recording(t, e, next) => MayRecord(s, t, e, next)
    case Moving(t, next) => MayMoveOn(s, t, next)
    case Settling(t) => CanSettle(s, t)
    case Unregistering(t) => CanUnregister(s, t)
    case Finishing(t) => CanFinish(s, t)
    case Stopping => CanStop(s)
    case Crashing => CanCrash(s)
  }

  function Stepped(s: State, step: Step): State {
    match step
    case Booting(maxJobs, order) => Boot(s, maxJobs, order)
    case Resuming(at) => ResumeNext(s, at)
    case Serving => Serve(s)
    case Checking(j) => SubmitChecks(s, j)
    case Requesting(j, e) => SubmitRecords(s, j, e)
    case Enqueueing(j) => SubmitEnqueues(s, j)
    case GivingUp(j) => SubmitGivesUp(s, j)
    case CancelReading(j) => CancelReads(s, j)
    case CancelActing(at) => CancelActs(s, at)
    case Taking => DispatchTakes(s)
    case Slotting => DispatchSlots(s)
    case DispatchReading => DispatchReads(s)
    case DispatchActing => DispatchActs(s)
    case Returning => DispatchReturns(s)
    case Recording(t, e, next) => TaskRecords(s, t, e, next)
    case Moving(t, next) => TaskMoves(s, t, next)
    case Settling(t) => TaskSettles(s, t)
    case Unregistering(t) => TaskUnregisters(s, t)
    case Finishing(t) => TaskFinishes(s, t)
    case Stopping => Stop(s)
    case Crashing => Crash(s)
  }

  /// Any number of daemons' lives, from a root with no logs.
  ghost predicate Runs(s: State, trace: seq<Step>)
    decreases |trace|
  {
    trace == [] || (Enabled(s, trace[0]) && Runs(Stepped(s, trace[0]), trace[1..]))
  }

  function End(s: State, trace: seq<Step>): State
    decreases |trace|
  {
    if trace == [] then s else End(Stepped(s, trace[0]), trace[1..])
  }
}
