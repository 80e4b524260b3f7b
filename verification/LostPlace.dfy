// Runs that show what a revise can meet between its job's last round being
// cancelled before it started and that round's Registration being dropped: a
// Queued job with no place in line, and a cancel that is lost
// (src/daemon/dispatch.rs).
module LostPlace {
  import opened Events
  import opened Report
  import opened Queue
  import opened RoundTasks
  import opened Lifecycle
  import opened LifecycleInvariant
  import opened LifecycleSafety

  const REQUEST := Event(0, RoundRequested("https://h/o/r", PinnedRef("main", "c0ffee"), "prompt", "provider"))
  const CANCELLED := Event(0, RoundFailed(CANCELLED_BEFORE_IT_STARTED))

  const REQUESTED: Log := [REQUEST]
  const CLOSED: Log := [REQUEST, CANCELLED]
  const REVISED: Log := [REQUEST, CANCELLED, REQUEST]

  /// One daemon with two slots, serving job 0.
  function Serving0(
      logs: map<Job, Log>, queue: QueueState, tasks: Tasks, lock: Lock, dispatcher: Dispatcher,
      submits: map<Job, Submit>, enqueued: seq<Job>, taken: nat, dispatched: seq<int>, passedOver: set<Job>): State
  {
    State(logs, [], true, true, 2, queue, tasks, lock, dispatcher, submits, [], [], 0,
          enqueued, taken, dispatched, passedOver)
  }

  const QUEUED := Standing(Queued, 0, None)
  const TABLE: Table := map[0 := LaunchedRound(1, 0)]

  function ServingNone(): State {
    Serving0(map[], EMPTY_QUEUE, map[], Free, Idle, map[], [], 0, [], {})
  }

  /// Submitted and in line.
  function InLine(): State {
    Serving0(map[0 := REQUESTED], QueueState(map[], {}, 0, [0], 0, 0, false), map[], Free, Idle, map[], [0], 0, [], {})
  }

  /// Dispatched, its round's task waiting for the repository's cache.
  function Dispatched(): State {
    Serving0(map[0 := REQUESTED], QueueState(TABLE, {}, 1, [], 1, 1, false), map[0 := Task(0, 1, Waiting, true)],
             Free, Idle, map[], [0], 1, [0], {})
  }

  /// Cancelled, the round closed and its Registration still there.
  function CancelledInTime(): State {
    Serving0(map[0 := CLOSED], QueueState(TABLE, {0}, 1, [], 1, 1, false), map[0 := Task(0, 1, Over, true)],
             Free, Idle, map[], [0], 1, [0], {})
  }

  /// Revised, and in line again.
  function Revised(): State {
    Serving0(map[0 := REVISED], QueueState(TABLE, {0}, 1, [0], 1, 1, false), map[0 := Task(0, 1, Over, true)],
             Free, Idle, map[], [0, 0], 1, [0], {})
  }

  /// Passed over by the dispatcher.
  function PassedOver(): State {
    Serving0(map[0 := REVISED], QueueState(TABLE, {0}, 1, [], 1, 1, false), map[0 := Task(0, 1, Over, true)],
             Free, Idle, map[], [0, 0], 2, [0], {0})
  }

  /// The cancelled round's task gone, and nothing left that knows of job 0.
  function Forgotten(): State {
    Serving0(map[0 := REVISED], QueueState(map[], {0}, 1, [], 0, 0, false), map[],
             Free, Idle, map[], [0, 0], 2, [0], {0})
  }

  lemma Then(s: State, step: Step, rest: seq<Step>, end: State)
    requires Enabled(s, step) && Runs(Stepped(s, step), rest) && End(Stepped(s, step), rest) == end
    ensures Runs(s, [step] + rest) && End(s, [step] + rest) == end
  {
    assert ([step] + rest)[1..] == rest;
  }

  lemma {:induction false} OneAfterAnother(s: State, first: seq<Step>, middle: State, second: seq<Step>, end: State)
    requires Runs(s, first) && End(s, first) == middle && Runs(middle, second) && End(middle, second) == end
    ensures Runs(s, first + second) && End(s, first + second) == end
    decreases |first|
  {
    hide Enabled, Stepped;
    if first == [] {
      assert first + second == second;
    } else {
      OneAfterAnother(Stepped(s, first[0]), first[1..], middle, second, end);
      assert (first + second)[1..] == first[1..] + second;
    }
  }

  lemma Nothing(s: State)
    ensures Runs(s, []) && End(s, []) == s
  {
  }

  lemma Two(s: State, a: Step, b: Step, end: State)
    requires Enabled(s, a) && Enabled(Stepped(s, a), b) && Stepped(Stepped(s, a), b) == end
    ensures Runs(s, [a, b]) && End(s, [a, b]) == end
  {
    hide Enabled, Stepped, Runs, End;
    assert Runs(end, []) && End(end, []) == end by { Nothing(end); }
    Then(Stepped(s, a), b, [], end);
    Then(s, a, [b] + [], end);
    assert [a] + ([b] + []) == [a, b];
  }

  lemma Three(s: State, a: Step, b: Step, c: Step, end: State)
    requires Enabled(s, a) && Enabled(Stepped(s, a), b) && Enabled(Stepped(Stepped(s, a), b), c)
    requires Stepped(Stepped(Stepped(s, a), b), c) == end
    ensures Runs(s, [a, b, c]) && End(s, [a, b, c]) == end
  {
    hide Enabled, Stepped, Runs, End;
    Two(Stepped(s, a), b, c, end);
    Then(s, a, [b, c], end);
    assert [a] + [b, c] == [a, b, c];
  }

  lemma Standings0()
    ensures StandingOf(REQUESTED) == QUEUED && StandingOf(REVISED) == QUEUED
    ensures StandingOf(CLOSED) == Standing(JobState.Failed, 0, None)
    ensures FromEvents(CLOSED).base.Some? && FromEvents(CLOSED).provider.Some?
  {
    assert REQUESTED == [] + [REQUEST] && CLOSED == REQUESTED + [CANCELLED] && REVISED == CLOSED + [REQUEST];
    AppendedReport([], REQUEST);
    AppendedReport(REQUESTED, CANCELLED);
    AppendedReport(CLOSED, REQUEST);
  }

  lemma StandingAt(s: State, log: Log)
    requires s.logs == map[0 := log]
    ensures s.At(0) == StandingOf(log) && s.LogOf(0) == log
  {
  }

  lemma Starts()
    ensures var steps := [Booting(2, []), Serving]; Runs(INITIALLY, steps) && End(INITIALLY, steps) == ServingNone()
  {
    var s := INITIALLY;
    assert OwedAtOnce([], map[]) == [] && ToRequeue([], map[]) == [] && ByRequestTime([], map[]) == [];
    assert Enumerates([], map[]);
    Two(s, Booting(2, []), Serving, ServingNone());
  }

  lemma Submits()
    ensures var steps := [Checking(0), Requesting(0, REQUEST), Enqueueing(0)];
            Runs(ServingNone(), steps) && End(ServingNone(), steps) == InLine()
  {
    var s := ServingNone();
    var s1 := Stepped(s, Checking(0));
    assert s1 == s.(submits := map[0 := Checked]);
    var s2 := Stepped(s1, Requesting(0, REQUEST));
    assert s1.LogOf(0) + [REQUEST] == REQUESTED;
    assert s2.logs == map[0 := REQUESTED] && s2.submits == map[0 := Recorded] && s2.passedOver == {};
    assert s2.submits - {0} == map[];
    assert Stepped(s2, Enqueueing(0)) == InLine();
    Three(s, Checking(0), Requesting(0, REQUEST), Enqueueing(0), InLine());
  }

  /// The dispatcher takes job 0 up to reading its log under the lock.
  lemma Takes(s: State, log: Log, seen: State)
    requires s.up && s.logs == map[0 := log] && s.dispatcher == Idle && s.lock == Free
    requires s.queue.pending == [0] && !s.queue.stopping && s.queue.running < s.maxJobs
    requires StandingOf(log) == QUEUED
    requires seen == s.(dispatcher := Slotted(0), taken := s.taken + 1, queue := s.queue.(pending := []))
    ensures Runs(s, [Taking, Slotting]) && End(s, [Taking, Slotting]) == seen
    ensures seen.At(0) == QUEUED
  {
    var s1 := Stepped(s, Taking);
    assert s1 == s.(dispatcher := Holding(0), taken := s.taken + 1, queue := s.queue.(pending := []));
    Two(s, Taking, Slotting, seen);
  }

  lemma IsDispatched()
    ensures var steps := [Taking, Slotting] + [DispatchReading, DispatchActing];
            Runs(InLine(), steps) && End(InLine(), steps) == Dispatched()
  {
    hide Runs, End, FromEvents, StandingOf, StandingsOf;
    var s := InLine();
    var slotted := s.(dispatcher := Slotted(0), taken := 1, queue := s.queue.(pending := []));
    Standings0();
    Takes(s, REQUESTED, slotted);
    var read := Stepped(slotted, DispatchReading);
    assert read == slotted.(lock := DispatchHolds(0, QUEUED));
    assert Stepped(read, DispatchActing) == Dispatched();
    Two(slotted, DispatchReading, DispatchActing, Dispatched());
    OneAfterAnother(s, [Taking, Slotting], slotted, [DispatchReading, DispatchActing], Dispatched());
  }

  lemma IsFired(fired: State)
    requires fired == Dispatched().(queue := Dispatched().queue.(fired := {0}))
    ensures var steps := [CancelReading(0), CancelActing(0)];
            Runs(Dispatched(), steps) && End(Dispatched(), steps) == fired
  {
    hide FromEvents, StandingOf, StandingsOf;
    var s := Dispatched();
    Standings0();
    StandingAt(s, REQUESTED);
    var s1 := Stepped(s, CancelReading(0));
    assert s1 == s.(lock := CancelHolds(0, QUEUED));
    assert Stepped(s1, CancelActing(0)) == fired;
    Two(s, CancelReading(0), CancelActing(0), fired);
  }

  lemma IsCancelled()
    ensures var steps := [CancelReading(0), CancelActing(0)] + [Recording(0, CANCELLED, Over)];
            Runs(Dispatched(), steps) && End(Dispatched(), steps) == CancelledInTime()
  {
    hide FromEvents, StandingOf, StandingsOf;
    var s := Dispatched();
    var fired := s.(queue := s.queue.(fired := {0}));
    IsFired(fired);
    assert fired.LogOf(0) + [CANCELLED] == CLOSED;
    var step := Recording(0, CANCELLED, Over);
    assert Stepped(fired, step) == CancelledInTime();
    Nothing(CancelledInTime());
    Then(fired, step, [], CancelledInTime());
    assert [step] + [] == [step];
    OneAfterAnother(s, [CancelReading(0), CancelActing(0)], fired, [step], CancelledInTime());
  }

  lemma IsRevised()
    ensures var steps := [Checking(0), Requesting(0, REQUEST), Enqueueing(0)];
            Runs(CancelledInTime(), steps) && End(CancelledInTime(), steps) == Revised()
  {
    hide FromEvents, StandingOf, StandingsOf;
    var s := CancelledInTime();
    Standings0();
    StandingAt(s, CLOSED);
    var s1 := Stepped(s, Checking(0));
    assert s1 == s.(submits := map[0 := Checked]);
    var s2 := Stepped(s1, Requesting(0, REQUEST));
    assert s1.LogOf(0) + [REQUEST] == REVISED;
    assert s2.logs == map[0 := REVISED] && s2.submits == map[0 := Recorded] && s2.passedOver == {};
    assert s2.submits - {0} == map[];
    assert Stepped(s2, Enqueueing(0)) == Revised();
    Three(s, Checking(0), Requesting(0, REQUEST), Enqueueing(0), Revised());
  }

  lemma IsPassedOver()
    ensures var steps := [Taking, Slotting] + [DispatchReading, DispatchActing];
            Runs(Revised(), steps) && End(Revised(), steps) == PassedOver()
  {
    hide Runs, End, FromEvents, StandingOf, StandingsOf;
    var s := Revised();
    var slotted := s.(dispatcher := Slotted(0), taken := 2, queue := s.queue.(pending := []));
    Standings0();
    Takes(s, REVISED, slotted);
    var read := Stepped(slotted, DispatchReading);
    assert read == slotted.(lock := DispatchHolds(0, QUEUED), passedOver := {0});
    assert Stepped(read, DispatchActing) == PassedOver();
    Two(slotted, DispatchReading, DispatchActing, PassedOver());
    OneAfterAnother(s, [Taking, Slotting], slotted, [DispatchReading, DispatchActing], PassedOver());
  }

  /// The cancelled round's task drops its tally, its Registration and its slot.
  lemma TaskGoes(s: State, end: State)
    requires s.up && s.lock == Free && s.tasks == map[0 := Task(0, 1, Over, true)] && s.queue.table == TABLE
    requires end == s.(tasks := map[],
                       queue := s.queue.(table := map[], launching := s.queue.launching - 1,
                       running := s.queue.running - 1))
    ensures var steps := [Settling(0), Unregistering(0), Finishing(0)];
            Runs(s, steps) && End(s, steps) == end
  {
    hide *;
    var queue := s.queue.(launching := s.queue.launching - 1);
    var settled := s.(tasks := map[0 := Task(0, 1, Over, false)], queue := queue);
    var dropped := s.(tasks := map[0 := Task(0, 1, Unregistered, false)], queue := queue.(table := map[]));
    assert Enabled(s, Settling(0)) && Stepped(s, Settling(0)) == settled by { Settles(s, settled); }
    assert Enabled(settled, Unregistering(0)) && Stepped(settled, Unregistering(0)) == dropped by {
      Unregisters0(settled, dropped);
    }
    assert Enabled(dropped, Finishing(0)) && Stepped(dropped, Finishing(0)) == end by { Finishes(dropped, end); }
    Three(s, Settling(0), Unregistering(0), Finishing(0), end);
  }

  lemma Settles(s: State, s': State)
    requires s.up && s.tasks == map[0 := Task(0, 1, Over, true)]
    requires s' == s.(tasks := map[0 := Task(0, 1, Over, false)], queue := s.queue.(launching := s.queue.launching - 1))
    ensures Enabled(s, Settling(0)) && Stepped(s, Settling(0)) == s'
  {
    assert s.tasks[0 := s'.tasks[0]] == s'.tasks;
  }

  lemma Unregisters0(s: State, s': State)
    requires s.up && s.lock == Free && s.tasks == map[0 := Task(0, 1, Over, false)] && s.queue.table == TABLE
    requires s' == s.(tasks := map[0 := Task(0, 1, Unregistered, false)], queue := s.queue.(table := map[]))
    ensures Enabled(s, Unregistering(0)) && Stepped(s, Unregistering(0)) == s'
  {
    assert s.tasks[0 := s'.tasks[0]] == s'.tasks && TABLE - {0} == map[];
  }

  lemma Finishes(s: State, s': State)
    requires s.up && s.tasks == map[0 := Task(0, 1, Unregistered, false)]
    requires s' == s.(tasks := map[], queue := s.queue.(running := s.queue.running - 1))
    ensures Enabled(s, Finishing(0)) && Stepped(s, Finishing(0)) == s'
  {
    assert s.tasks - {0} == map[];
  }

  /// From the start to job 0's round having its task.
  lemma UpToTheDispatch() returns (trace: seq<Step>)
    ensures Runs(INITIALLY, trace) && End(INITIALLY, trace) == Dispatched()
  {
    hide Runs, End;
    Starts();
    trace := [Booting(2, []), Serving];
    Submits();
    trace := Onward(trace, ServingNone(), [Checking(0), Requesting(0, REQUEST), Enqueueing(0)], InLine());
    IsDispatched();
    trace := Onward(trace, InLine(), [Taking, Slotting] + [DispatchReading, DispatchActing], Dispatched());
  }

  /// From the start to job 0 revised while its cancelled round's Registration
  /// is still there.
  lemma UpToTheRevise() returns (trace: seq<Step>)
    ensures Runs(INITIALLY, trace) && End(INITIALLY, trace) == Revised()
  {
    hide Runs, End;
    trace := UpToTheDispatch();
    IsCancelled();
    trace := Onward(trace, Dispatched(), [CancelReading(0), CancelActing(0)] + [Recording(0, CANCELLED, Over)],
                    CancelledInTime());
    IsRevised();
    trace := Onward(trace, CancelledInTime(), [Checking(0), Requesting(0, REQUEST), Enqueueing(0)], Revised());
  }

  /// A serving daemon, not stopping, with every task over, every slot free and
  /// nothing in line — and a job still Queued.
  lemma AQueuedJobCanLoseItsPlace() returns (trace: seq<Step>)
    ensures Runs(INITIALLY, trace)
    ensures var s := End(INITIALLY, trace);
            && s.up && s.serving && !s.queue.stopping && s.dispatcher == Idle
            && s.tasks == map[] && s.queue.running == 0 && s.queue.pending == []
            && s.At(0).state == Queued
            && !HasPlace(0, s.tasks, s.queue.table, s.queue.pending, Hands(s.dispatcher, s.lock, s.queue.table),
                s.submits)
  {
    hide Runs, End;
    trace := UpToTheRevise();
    IsPassedOver();
    trace := Onward(trace, Revised(), [Taking, Slotting] + [DispatchReading, DispatchActing], PassedOver());
    TaskGoes(PassedOver(), Forgotten());
    trace := Onward(trace, PassedOver(), [Settling(0), Unregistering(0), Finishing(0)], Forgotten());
    Standings0();
    StandingAt(Forgotten(), REVISED);
  }

  // ----- a cancel that is lost -----

  /// Revised, in line, and the cancelled round's task gone.
  function Freed(): State {
    Serving0(map[0 := REVISED], QueueState(map[], {0}, 1, [0], 0, 0, false), map[],
             Free, Idle, map[], [0, 0], 1, [0], {})
  }

  /// Dispatched again, with a token of its own.
  function DispatchedAgain(): State {
    Serving0(map[0 := REVISED], QueueState(map[0 := LaunchedRound(1, 1)], {0}, 2, [], 1, 1, false),
             map[1 := Task(0, 1, Waiting, true)], Free, Idle, map[], [0, 0], 2, [0, 1], {})
  }

  /// The cancel is answered as that of a running round, and changes nothing.
  lemma IsNotCancelled()
    ensures var steps := [CancelReading(0), CancelActing(7)];
            Runs(Revised(), steps) && End(Revised(), steps) == Revised()
    ensures Revised().queue.CancelDecision(0, Revised().At(0)) == Fire(0)
  {
    hide FromEvents, StandingOf, StandingsOf;
    var s := Revised();
    Standings0();
    StandingAt(s, REVISED);
    var s1 := Stepped(s, CancelReading(0));
    assert s1 == s.(lock := CancelHolds(0, QUEUED));
    assert s.queue.fired + {0} == s.queue.fired;
    assert Stepped(s1, CancelActing(7)) == s;
    Two(s, CancelReading(0), CancelActing(7), s);
  }

  lemma IsDispatchedAgain()
    ensures var steps := [Taking, Slotting] + [DispatchReading, DispatchActing];
            Runs(Freed(), steps) && End(Freed(), steps) == DispatchedAgain()
  {
    hide Runs, End, FromEvents, StandingOf, StandingsOf;
    var s := Freed();
    var slotted := s.(dispatcher := Slotted(0), taken := 2, queue := s.queue.(pending := []));
    Standings0();
    Takes(s, REVISED, slotted);
    var read := Stepped(slotted, DispatchReading);
    assert read == slotted.(lock := DispatchHolds(0, QUEUED));
    assert Stepped(read, DispatchActing) == DispatchedAgain();
    Two(slotted, DispatchReading, DispatchActing, DispatchedAgain());
    OneAfterAnother(s, [Taking, Slotting], slotted, [DispatchReading, DispatchActing], DispatchedAgain());
  }

  /// A Queued job's cancel is accepted and changes nothing; with no other
  /// cancel in between, its round's task is then spawned all the same, with a
  /// token nobody has fired.
  lemma AnAcceptedCancelCanBeLost() returns (before: seq<Step>, after: seq<Step>)
    ensures var cancel := [CancelReading(0), CancelActing(7)];
            && Runs(INITIALLY, before + cancel + after)
            && (var s := End(INITIALLY, before);
                Runs(INITIALLY, before) && s.At(0).state == Queued && s.queue.CancelDecision(0, s.At(0)) == Fire(0)
                && End(INITIALLY, before + cancel) == s)
            && (var s := End(INITIALLY, before + cancel + after);
                s.tasks == map[1 := Task(0, 1, Waiting, true)] && 1 !in s.queue.fired && s.At(0).state == Queued)
    ensures forall i :: 0 <= i < |after| ==> !after[i].CancelReading?
  {
    hide Runs, End;
    before := UpToTheRevise();
    var cancel := [CancelReading(0), CancelActing(7)];
    IsNotCancelled();
    OneAfterAnother(INITIALLY, before, Revised(), cancel, Revised());
    TaskGoes(Revised(), Freed());
    IsDispatchedAgain();
    var drops := [Settling(0), Unregistering(0), Finishing(0)];
    var dispatch := [Taking, Slotting] + [DispatchReading, DispatchActing];
    after := drops + dispatch;
    OneAfterAnother(Revised(), drops, Freed(), dispatch, DispatchedAgain());
    OneAfterAnother(INITIALLY, before + cancel, Revised(), after, DispatchedAgain());
    Standings0();
    StandingAt(Revised(), REVISED);
    StandingAt(DispatchedAgain(), REVISED);
  }

  /// Dispatched, the daemon stopping since a cancel read its log.
  function StoppedMeanwhile(): State {
    Serving0(map[0 := REQUESTED], QueueState(TABLE, {}, 1, [], 1, 1, true), map[0 := Task(0, 1, Over, true)],
             CancelHolds(0, QUEUED), Idle, map[], [0], 1, [0], {})
  }

  lemma StopsMeanwhile()
    ensures var steps := [CancelReading(0), Stopping, Moving(0, Over)];
            Runs(Dispatched(), steps) && End(Dispatched(), steps) == StoppedMeanwhile()
  {
    hide FromEvents, StandingOf, StandingsOf;
    var s := Dispatched();
    Standings0();
    StandingAt(s, REQUESTED);
    var s1 := Stepped(s, CancelReading(0));
    assert s1 == s.(lock := CancelHolds(0, QUEUED));
    var s2 := Stepped(s1, Stopping);
    assert s2 == s1.(queue := s1.queue.(stopping := true));
    assert Stepped(s2, Moving(0, Over)) == StoppedMeanwhile();
    Three(s, CancelReading(0), Stopping, Moving(0, Over), StoppedMeanwhile());
  }

  /// The token is fired of a task already over.
  function FiredTooLate(): State {
    Serving0(map[0 := REQUESTED], QueueState(TABLE, {0}, 1, [], 1, 1, true), map[0 := Task(0, 1, Over, true)],
             Free, Idle, map[], [0], 1, [0], {})
  }

  lemma FiresTooLate()
    ensures Runs(StoppedMeanwhile(), [CancelActing(7)]) && End(StoppedMeanwhile(), [CancelActing(7)]) == FiredTooLate()
  {
    hide FromEvents, StandingOf, StandingsOf;
    assert Stepped(StoppedMeanwhile(), CancelActing(7)) == FiredTooLate();
    Nothing(FiredTooLate());
    Then(StoppedMeanwhile(), CancelActing(7), [], FiredTooLate());
    assert [CancelActing(7)] + [] == [CancelActing(7)];
  }

  /// A cancel that reads outside the window, of a task that could still have
  /// been stopped, and acts inside it: the daemon stops in between, the task
  /// leaves its job queued, and the cancel is lost.
  lemma AStopCanLoseACancel() returns (before: seq<Step>, meanwhile: seq<Step>)
    ensures Runs(INITIALLY, before + meanwhile + [CancelActing(7)])
    ensures meanwhile == [CancelReading(0), Stopping, Moving(0, Over)]
    ensures var s := End(INITIALLY, before);
            && Runs(INITIALLY, before) && CanCancel(s, 0) && s.At(0).state == Queued
            && s.queue.CancelDecision(0, s.At(0)) == Fire(0) && CanStillStop(s, 0) && !InWindow(s, 0)
            && var s' := End(INITIALLY, before + meanwhile + [CancelActing(7)]);
               s'.logs == s.logs && s'.At(0).state == Queued && s'.tasks[0 := s.tasks[0]] == s.tasks
               && s'.queue == s.queue.(fired := {0}, stopping := true) && InWindow(s', 0)
  {
    hide Runs, End;
    before := UpToTheDispatch();
    meanwhile := [CancelReading(0), Stopping, Moving(0, Over)];
    StopsMeanwhile();
    OneAfterAnother(INITIALLY, before, Dispatched(), meanwhile, StoppedMeanwhile());
    FiresTooLate();
    OneAfterAnother(INITIALLY, before + meanwhile, StoppedMeanwhile(), [CancelActing(7)], FiredTooLate());
    Standings0();
    StandingAt(Dispatched(), REQUESTED);
    StandingAt(FiredTooLate(), REQUESTED);
  }

  lemma Onward(before: seq<Step>, middle: State, steps: seq<Step>, end: State) returns (trace: seq<Step>)
    requires Runs(INITIALLY, before) && End(INITIALLY, before) == middle
    requires Runs(middle, steps) && End(middle, steps) == end
    ensures Runs(INITIALLY, trace) && End(INITIALLY, trace) == end
  {
    trace := before + steps;
    OneAfterAnother(INITIALLY, before, middle, steps, end);
  }
}
