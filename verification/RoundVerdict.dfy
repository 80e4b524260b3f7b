// One verdict per round: whatever a round meets, and wherever its stream is
// cut (src/round.rs, src/run.rs, src/frame.rs, src/collect.rs).
module RoundVerdict {
  import opened Events
  import opened Report
  import opened Recovery
  import opened Decimal
  import opened Frames
  import opened Collect
  import opened Round
  import CC = CollectorCrash

  function EventsTold(told: seq<Told>): seq<EventKind> {
    if told == [] then []
    else
      var n := |told| - 1;
      EventsTold(told[..n]) + if told[n].Tells? then [told[n].kind] else []
  }

  function KindsOf(events: seq<Event>): seq<EventKind> {
    seq(|events|, i requires 0 <= i < |events| => events[i].kind)
  }

  lemma {:induction false} EventsAreTold(bodies: seq<FrameBody>)
    ensures KindsOf(EventsIn(bodies)) == EventsTold(ToldOf(bodies))
  {
    if bodies != [] {
      var n := |bodies| - 1;
      assert ToldOf(bodies)[..n] == ToldOf(bodies[..n]);
      EventsAreTold(bodies[..n]);
      KindsInParts(EventsIn(bodies[..n]), if bodies[n].EventBody? then [bodies[n].event] else []);
    }
  }

  lemma KindsInParts(first: seq<Event>, second: seq<Event>)
    ensures KindsOf(first + second) == KindsOf(first) + KindsOf(second)
  {
  }

  lemma {:induction false} ToldInParts(first: seq<Told>, second: seq<Told>)
    ensures EventsTold(first + second) == EventsTold(first) + EventsTold(second)
  {
    if second == [] {
      assert first + second == first;
    } else {
      var n := |second| - 1;
      assert (first + second)[..|first| + n] == first + second[..n];
      ToldInParts(first, second[..n]);
    }
  }

  lemma {:induction false} OutputTellsNothing(lines: seq<string>)
    ensures EventsTold(SaysAll(lines)) == []
  {
    if lines != [] {
      var n := |lines| - 1;
      assert SaysAll(lines)[..n] == SaysAll(lines[..n]);
      OutputTellsNothing(lines[..n]);
    }
  }

  lemma {:induction false} AllAreTold(kinds: seq<EventKind>)
    ensures EventsTold(TellsAll(kinds)) == kinds
  {
    if kinds != [] {
      var n := |kinds| - 1;
      assert TellsAll(kinds)[..n] == TellsAll(kinds[..n]);
      AllAreTold(kinds[..n]);
    }
  }

  function PullRequestTold(c: Circumstances, before: Option<string>): seq<EventKind> {
    if Objection(c).None? && c.isAhead(Tip(c, before)) && Delivery(c.delivered).Tells?
    then [Delivery(c.delivered).kind] else []
  }

  /// The events of a round's stream: what it recorded of the work, whatever
  /// came of it; what `verify` said against it; its verdict; its pull request.
  lemma EventsOfARound(c: Circumstances, before: Option<string>)
    ensures EventsTold(StreamOf(c, before))
            == WorkTold(c) + RejectionTold(c) + [VerdictTold(c)] + PullRequestTold(c, before)
  {
    hide WorkTold, RejectionTold, VerdictTold, Objection, SaysAll, TellsAll, OutputSaid, EventsTold, Tip;
    var said: seq<Told> := if c.checkout.Some? then [] else SaysAll(OutputSaid(c));
    var kinds := WorkTold(c) + RejectionTold(c) + [VerdictTold(c)];
    OutputTellsNothing(OutputSaid(c));
    ShortTales([]);
    AllAreTold(kinds);
    ToldInParts(said, TellsAll(kinds));
    ToldInParts(said + TellsAll(kinds), DeliveryTold(c, before));
    ToldInParts(said + TellsAll(kinds) + DeliveryTold(c, before), DiscardTold(c));
    ShortTales(DeliveryTold(c, before));
    ShortTales(DiscardTold(c));
    assert [] + kinds == kinds;
  }

  lemma ShortTales(told: seq<Told>)
    requires |told| <= 1
    ensures EventsTold(told) == if told != [] && told[0].Tells? then [told[0].kind] else []
  {
    if told != [] {
      assert told[..0] == [];
    }
  }

  lemma ARoundTellsOne(c: Circumstances, before: Option<string>, events: seq<Event>)
    requires KindsOf(events) == EventsTold(StreamOf(c, before))
    ensures var n := |WorkTold(c) + RejectionTold(c)|;
            && TellsOneRound(events, n) && events[n].kind == VerdictTold(c)
            && (events[n].kind.RoundPassed? <==> Objection(c).None?)
  {
    hide Objection, StreamOf, WorkComplaint, AgentRuns, VerifyRuns, RulingOf, Tip;
    EventsOfARound(c, before);
    var kinds := KindsOf(events);
    assert forall i :: 0 <= i < |events| ==> events[i].kind == kinds[i];
  }

  predicate Succeeded(outcome: Result<ShellOutcome>) {
    outcome == Ok(Exited(0))
  }

  predicate Provisioned(c: Circumstances) {
    c.provisions ==> forall i: nat :: i < 2 ==> c.steps(i).inTime && Succeeded(c.steps(i).ran.outcome)
  }

  /// A commit to keep, measured, and on the remote by one push or another.
  predicate Published(c: Circumstances) {
    c.commit.Ok? && c.commit.value.Some? && c.stat.Ok? && exists i: nat :: i < 3 && c.pushes(i).None?
  }

  lemma ProvisioningComplains(c: Circumstances)
    ensures ProvisioningComplaint(c).None? <==> Provisioned(c)
  {
    hide ShownInt;
    StepComplains(c.steps(0), STEPS[0]);
    StepComplains(c.steps(1), STEPS[1]);
  }

  lemma StepComplains(step: ProvisioningStep, args: string)
    ensures StepComplaint(step, args).None? <==> step.inTime && Succeeded(step.ran.outcome)
  {
    hide ShownInt;
  }

  lemma AgentAndVerifyComplain(c: Circumstances)
    ensures AgentComplaint(c).None? <==> Succeeded(c.agent.outcome)
    ensures RulingOf(c.verify).Complains().None? <==> c.verify.None? || Succeeded(c.verify.value.outcome)
    ensures RulingOf(c.verify).Rejected? <==>
              && c.verify.Some? && c.verify.value.outcome.Ok? && c.verify.value.outcome.value.Exited?
              && !Succeeded(c.verify.value.outcome)
    ensures RulingOf(c.verify).Rejected? ==>
              RulingOf(c.verify).reason == "exit " + ShownInt(c.verify.value.outcome.value.code)
  {
    hide ShownInt;
  }

  lemma WorkComplains(c: Circumstances)
    ensures WorkComplaint(c).None? <==> (c.commit.Ok? && c.commit.value.None?) || Published(c)
  {
  }

  /// A round passes exactly when its checkout and provisioning worked, what
  /// work there is was published, and the agent and `verify` exited 0.
  lemma PassesExactly(c: Circumstances)
    ensures Objection(c).None? <==>
              && c.checkout.None? && Provisioned(c)
              && ((c.commit.Ok? && c.commit.value.None?) || Published(c))
              && Succeeded(c.agent.outcome)
              && (c.verify.None? || Succeeded(c.verify.value.outcome))
  {
    hide ProvisioningComplaint, AgentComplaint, RulingOf, WorkComplaint, Provisioned, Published;
    ProvisioningComplains(c);
    AgentAndVerifyComplain(c);
    WorkComplains(c);
  }

  /// Where in a round's telling each kind of event can be.
  lemma KindsOfARound(c: Circumstances, before: Option<string>, k: EventKind)
    ensures k in EventsTold(StreamOf(c, before)) <==>
              k in WorkTold(c) || k in RejectionTold(c) || k == VerdictTold(c) || k in PullRequestTold(c, before)
    ensures VerdictTold(c).IsVerdict() && (VerdictTold(c).RoundPassed? <==> Objection(c).None?)
  {
    hide StreamOf, Objection, EventsTold, WorkTold, RejectionTold, PullRequestTold;
    EventsOfARound(c, before);
  }

  /// Work is told of exactly when it was published, whatever the agent and
  /// `verify` did, and exactly as it was committed, measured and pushed.
  lemma WorkIsToldExactly(c: Circumstances, before: Option<string>)
    ensures var kinds := EventsTold(StreamOf(c, before));
            && (forall sha, files, insertions, deletions ::
                  RoundCommitted(sha, files, insertions, deletions) in kinds <==>
                    && c.checkout.None? && Provisioned(c) && Published(c)
                    && c.commit.value == Some(sha) && c.stat.value == DiffSummary(files, insertions, deletions))
            && (forall branch, remote ::
                  BranchPushed(branch, remote) in kinds <==>
                    && c.checkout.None? && Provisioned(c) && Published(c)
                    && branch == c.branch && remote == c.remote)
  {
    hide StreamOf, Objection, EventsTold, RulingOf, WorkTold, VerdictTold, Provisioned, Published;
    WorkIsTold(c);
    PublishedIsCommitted(c);
    forall k: EventKind | k.RoundCommitted? || k.BranchPushed?
      ensures k in EventsTold(StreamOf(c, before)) <==> k in WorkTold(c)
    {
      KindsOfARound(c, before, k);
    }
  }

  /// A rejection is told exactly when the agent succeeded, its work is safe
  /// and `verify` ran to an end other than 0, and gives that exit code.
  lemma RejectionIsToldExactly(c: Circumstances, before: Option<string>, reason: string)
    ensures VerifyRejected(reason) in EventsTold(StreamOf(c, before)) <==>
              && c.checkout.None? && Provisioned(c) && Succeeded(c.agent.outcome)
              && ((c.commit.Ok? && c.commit.value.None?) || Published(c))
              && c.verify.Some? && c.verify.value.outcome.Ok? && c.verify.value.outcome.value.Exited?
              && c.verify.value.outcome.value.code != 0
              && reason == "exit " + ShownInt(c.verify.value.outcome.value.code)
  {
    hide StreamOf, Objection, EventsTold, RulingOf, WorkTold, VerdictTold, AgentComplaint, WorkComplaint,
      ProvisioningComplaint, Provisioned, Published;
    AgentAndVerifyComplain(c);
    ProvisioningComplains(c);
    WorkComplains(c);
    WorkIsTold(c);
    KindsOfARound(c, before, VerifyRejected(reason));
  }

  /// A pull request is told of exactly when the round passed, the tip of the
  /// branch is ahead of the base, and it is the one the forge has open.
  lemma PullRequestIsToldExactly(c: Circumstances, before: Option<string>, url: string)
    ensures PullRequestOpened(url) in EventsTold(StreamOf(c, before)) <==>
              && RoundPassed in EventsTold(StreamOf(c, before))
              && c.isAhead(if Published(c) then c.commit.value.value
                           else if before.Some? then before.value else c.startSha)
              && (c.delivered == Opened(url) || c.delivered == AlreadyOpen(url))
  {
    hide StreamOf, EventsTold, RulingOf, WorkTold, AgentComplaint, WorkComplaint, ProvisioningComplaint;
    WorkIsTold(c);
    PassesExactly(c);
    ProvisioningComplains(c);
    KindsOfARound(c, before, PullRequestOpened(url));
    KindsOfARound(c, before, RoundPassed);
  }

  lemma WorkIsTold(c: Circumstances)
    ensures WorkTold(c)
            == if c.checkout.None? && Provisioned(c) && Published(c) then
                 [RoundCommitted(c.commit.value.value, c.stat.value.files, c.stat.value.insertions,
                                 c.stat.value.deletions),
                  BranchPushed(c.branch, c.remote)]
               else []
  {
    hide ProvisioningComplaint, WorkComplaint, Provisioned, Published;
    ProvisioningComplains(c);
    WorkComplains(c);
    PublishedIsCommitted(c);
  }

  lemma PublishedIsCommitted(c: Circumstances)
    ensures Published(c) ==> c.commit.Ok? && c.commit.value.Some? && c.stat.Ok?
  {
  }

  lemma {:induction false} OneVerdictCounted(events: seq<Event>, n: nat)
    requires TellsOneRound(events, n)
    ensures VerdictCount(events) == 1
    ensures VerdictOf(events) == if events[n].kind.RoundPassed? then Passes else Fails
  {
    var judged := events[..n + 1];
    assert judged[..n] == events[..n];
    NoVerdictCounted(events[..n]);
    if |events| == n + 1 {
      assert judged == events;
    }
  }

  /// A stream that ends early, with what a collector then adds, still tells
  /// one round: the same verdict if it got that far, a failure if not.
  lemma CutStillTellsOne(events: seq<Event>, n: nat, cut: nat, because: string, now: Instant)
    requires TellsOneRound(events, n) && cut <= |events|
    ensures var told := events[..cut] + Settled(events[..cut], because, now);
            && TellsOneRound(told, if cut <= n then cut else n)
            && (if cut <= n then told[cut].kind.RoundFailed? else told == events[..cut])
  {
    var seen := events[..cut];
    if cut <= n {
      assert VerdictMissingFrom(seen, because).Some?;
    } else {
      assert seen[n].kind.IsVerdict();
      assert seen + [] == seen;
    }
  }

  // ----- from the frames -----

  lemma {:induction false} CollectedIsTold(bodies: seq<FrameBody>)
    ensures EventsLanded(RoutedBy(FROM_THE_START, Numbered(bodies))) == EventsIn(bodies)
  {
    if bodies != [] {
      var n := |bodies| - 1;
      assert Numbered(bodies)[..n] == Numbered(bodies[..n]);
      CollectedIsTold(bodies[..n]);
      ReaderAgreesWithWriter(bodies);
      var routed := RoutedBy(FROM_THE_START, Numbered(bodies));
      assert routed[..n] == RoutedBy(FROM_THE_START, Numbered(bodies[..n]));
    }
  }

  lemma {:induction false} EventsInPrefix(bodies: seq<FrameBody>, cut: nat)
    requires cut <= |bodies|
    ensures EventsIn(bodies[..cut]) <= EventsIn(bodies)
  {
    if cut < |bodies| {
      var n := |bodies| - 1;
      assert bodies[..n][..cut] == bodies[..cut];
      EventsInPrefix(bodies[..n], cut);
    } else {
      assert bodies[..cut] == bodies;
    }
  }

  /// Whatever a round meets and wherever its stream is cut, what is collected
  /// of it and what the collector settles hold exactly one verdict, after the
  /// work and before at most a pull request; it is a pass only if nothing was
  /// to object; and the verdict collected is the one the job's log folds to.
  lemma OneVerdictHoweverCut(
      c: Circumstances, bodies: seq<FrameBody>, cut: nat, because: string, now: Instant, log: Log)
    requires ToldOf(bodies) == StreamOf(c, None) && cut <= |bodies|
    ensures var collected := EventsLanded(RoutedBy(FROM_THE_START, Numbered(bodies)[..cut]));
            var told := collected + Settled(collected, because, now);
            && VerdictCount(told) == 1
            && (exists n: nat :: TellsOneRound(told, n))
            && FromEvents(log + told).state == (if VerdictOf(told).Passes? then Passed else JobState.Failed)
            && (VerdictOf(told).Passes? ==> Objection(c).None?)
            && (Settled(collected, because, now) == [] ==> (VerdictOf(told).Passes? <==> Objection(c).None?))
            && (cut == |bodies| ==> Settled(collected, because, now) == [] && told == EventsIn(bodies))
  {
    hide Objection, StreamOf, WorkTold, RejectionTold, EventsIn, ToldOf, KindsOf, RoutedBy, EventsLanded,
      VerdictCount, VerdictOf, FromEvents;
    var events, n := EventsIn(bodies), |WorkTold(c) + RejectionTold(c)|;
    EventsAreTold(bodies);
    ARoundTellsOne(c, None, events);
    var collected := EventsIn(bodies[..cut]);
    assert Numbered(bodies)[..cut] == Numbered(bodies[..cut]);
    CollectedIsTold(bodies[..cut]);
    EventsInPrefix(bodies, cut);
    CutStillTellsOne(events, n, |collected|, because, now);
    var told := collected + Settled(collected, because, now);
    var at := if |collected| <= n then |collected| else n;
    OneVerdictCounted(told, at);
    VerdictAgreesWithReport(log, told);
    assert TellsOneRound(told, at);
    if cut == |bodies| {
      assert bodies[..cut] == bodies;
      assert |collected| == |events| > n;
    }
  }

  /// `run`'s verdict, the report it prints and `collect`'s result agree.
  lemma ConclusionsAgree(c: Circumstances, bodies: seq<FrameBody>, because: string, now: Instant)
    requires ToldOf(bodies) == StreamOf(c, None)
    ensures var verdict: Verdict := if Objection(c).None? then Passes else Fails;
            var collected := EventsLanded(RoutedBy(FROM_THE_START, Numbered(bodies)));
            && VerdictOf(collected + Settled(collected, because, now)) == verdict
            && FromEvents(EventsIn(bodies)).state == (if verdict.Passes? then Passed else JobState.Failed)
  {
    hide Objection, StreamOf, EventsIn, ToldOf, RoutedBy, EventsLanded, VerdictOf, FromEvents;
    OneVerdictHoweverCut(c, bodies, |bodies|, because, now, []);
    assert Numbered(bodies)[..|bodies|] == Numbered(bodies);
    CollectedIsTold(bodies);
    assert [] + EventsIn(bodies) == EventsIn(bodies);
  }

  // ----- across crashes of the collector -----

  /// Line `v` carries the one verdict of `stream`, if any line does.
  ghost predicate OnlyVerdictAt(stream: seq<Line>, v: nat) {
    forall i :: 0 <= i < |stream| && i != v ==> !IsVerdictLine(stream[i])
  }

  predicate IsVerdictLine(line: Line) {
    line.Framed? && line.body.EventBody? && line.body.event.kind.IsVerdict()
  }

  lemma {:induction false} OneLandingOneVerdict(stream: seq<Line>, landed: seq<nat>, v: nat)
    requires forall i :: 0 <= i < |landed| ==> landed[i] < |stream|
    requires OnlyVerdictAt(stream, v)
    requires v < |stream| && IsVerdictLine(stream[v]) ==> CC.LandedOnce(landed, v)
    ensures VerdictCount(CC.EventsAt(stream, landed)) == if v in landed && IsVerdictLine(stream[v]) then 1 else 0
  {
    hide VerdictCount;
    if landed == [] {
      NoVerdictCounted([]);
    } else {
      var n := |landed| - 1;
      OneLandingOneVerdict(stream, landed[..n], v);
      var line := stream[landed[n]];
      VerdictCountedLast(CC.EventsAt(stream, landed[..n]),
          if line.Framed? && line.body.EventBody? then [line.body.event] else []);
      assert landed == landed[..n] + [landed[n]];
    }
  }

  lemma VerdictCountedLast(events: seq<Event>, more: seq<Event>)
    requires |more| <= 1
    ensures VerdictCount(events + more)
            == VerdictCount(events) + if more != [] && more[0].kind.IsVerdict() then 1 else 0
  {
    if more == [] {
      assert events + more == events;
    } else {
      assert (events + more)[..|events|] == events;
    }
  }

  lemma {:induction false} VerdictCountInParts(first: seq<Event>, second: seq<Event>)
    ensures VerdictCount(first + second) == VerdictCount(first) + VerdictCount(second)
  {
    if second == [] {
      assert first + second == first;
    } else {
      var n := |second| - 1;
      assert (first + second)[..|first| + n] == first + second[..n];
      VerdictCountInParts(first, second[..n]);
    }
  }

  // A daemon begins to collect a round only where its log has it reattach.

  predicate Reattaches(log: Log) {
    ForReport(StandingOf(log)).Some? && ForReport(StandingOf(log)).value.Reattach?
  }

  ghost predicate BeginsAsOwed(c: CC.Collector, stream: seq<Line>, trace: seq<CC.Step>)
    requires CC.Runs(c, stream, trace)
    decreases |trace|
  {
    trace == []
    || (&& (trace[0].Begin? ==> Reattaches(c.events))
        && BeginsAsOwed(CC.Stepped(c, stream, trace[0]), stream, trace[1..]))
  }

  /// A round's stream neither asks for a round nor starts one.
  ghost predicate NeverRestarts(stream: seq<Line>) {
    forall i :: 0 <= i < |stream| && stream[i].Framed? && stream[i].body.EventBody? ==>
                  !stream[i].body.event.kind.RoundRequested? && !stream[i].body.event.kind.RoundStarted?
  }

  lemma {:induction false} JudgedStaysJudged(prior: Log, stream: seq<Line>, landed: seq<nat>, v: nat)
    requires forall i :: 0 <= i < |landed| ==> landed[i] < |stream|
    requires NeverRestarts(stream) && v in landed && IsVerdictLine(stream[v])
    ensures StandingOf(prior + CC.EventsAt(stream, landed)).state != Running
  {
    var n := |landed| - 1;
    var line := stream[landed[n]];
    var before := CC.EventsAt(stream, landed[..n]);
    if landed[n] != v {
      assert landed == landed[..n] + [landed[n]];
      JudgedStaysJudged(prior, stream, landed[..n], v);
    }
    if line.Framed? && line.body.EventBody? {
      assert prior + (before + [line.body.event]) == (prior + before) + [line.body.event];
      AppendedReport(prior + before, line.body.event);
    } else {
      assert before + [] == before;
    }
  }

  /// So none begins with the round's verdict landed.
  lemma {:induction false} BeginsBeforeItsVerdict(
      c: CC.Collector, stream: seq<Line>, prior: Log, trace: seq<CC.Step>, v: nat)
    requires InOrder(stream) && CC.Inv(c, stream, prior) && CC.Runs(c, stream, trace)
    requires BeginsAsOwed(c, stream, trace) && NeverRestarts(stream) && v < |stream| && IsVerdictLine(stream[v])
    ensures CC.BeginsBefore(c, stream, trace, v)
    decreases |trace|
  {
    hide CC.Stepped, CC.Enabled, CC.EventsAt, CC.OutputAt, CC.Resumable, CC.LifeOk, InOrder, NeverRestarts,
      IsVerdictLine, Reattaches;
    if trace != [] {
      if trace[0].Begin? && v in c.landed {
        JudgedStaysJudged(prior, stream, c.landed, v);
        ReattachesRunning(c.events);
      }
      CC.StepKeeps(c, stream, prior, trace[0]);
      BeginsBeforeItsVerdict(CC.Stepped(c, stream, trace[0]), stream, prior, trace[1..], v);
    }
  }

  lemma ReattachesRunning(log: Log)
    requires Reattaches(log)
    ensures StandingOf(log).state == Running
  {
  }

  ghost predicate NoneRestarts(events: seq<Event>) {
    forall i :: 0 <= i < |events| ==> !events[i].kind.RoundRequested? && !events[i].kind.RoundStarted?
  }

  lemma {:induction false} LandedNeverRestarts(stream: seq<Line>, landed: seq<nat>)
    requires forall i :: 0 <= i < |landed| ==> landed[i] < |stream|
    requires NeverRestarts(stream)
    ensures NoneRestarts(CC.EventsAt(stream, landed))
  {
    if landed != [] {
      var n := |landed| - 1;
      assert landed[n] < |stream|;
      LandedNeverRestarts(stream, landed[..n]);
    }
  }

  lemma {:induction false} RunningIsUnjudged(prior: Log, events: seq<Event>)
    requires NoneRestarts(events)
    requires StandingOf(prior + events).state == Running
    ensures VerdictCount(events) == 0
  {
    if events != [] {
      var n := |events| - 1;
      assert prior + events == (prior + events[..n]) + [events[n]];
      AppendedReport(prior + events[..n], events[n]);
      RunningIsUnjudged(prior, events[..n]);
    }
  }

  // ----- of a whole round -----

  lemma {:induction false} NoVerdictLine(bodies: seq<FrameBody>)
    requires VerdictCount(EventsIn(bodies)) == 0
    ensures forall i :: 0 <= i < |bodies| ==> !IsVerdictLine(Framed(i + 1, bodies[i]))
  {
    if bodies != [] {
      var n := |bodies| - 1;
      VerdictCountedLast(EventsIn(bodies[..n]), if bodies[n].EventBody? then [bodies[n].event] else []);
      NoVerdictLine(bodies[..n]);
    }
  }

  lemma {:induction false} OneVerdictLine(bodies: seq<FrameBody>) returns (v: nat)
    requires VerdictCount(EventsIn(bodies)) <= 1
    ensures OnlyVerdictAt(Numbered(bodies), v)
  {
    v := 0;
    if bodies != [] {
      var n := |bodies| - 1;
      VerdictCountedLast(EventsIn(bodies[..n]), if bodies[n].EventBody? then [bodies[n].event] else []);
      if bodies[n].EventBody? && bodies[n].event.kind.IsVerdict() {
        NoVerdictLine(bodies[..n]);
        v := n;
      } else {
        v := OneVerdictLine(bodies[..n]);
        assert forall i :: 0 <= i < n ==> Numbered(bodies)[i] == Numbered(bodies[..n])[i];
      }
    }
  }

  lemma {:induction false} ToldInEvents(bodies: seq<FrameBody>, i: nat)
    requires i < |bodies| && bodies[i].EventBody?
    ensures bodies[i].event in EventsIn(bodies)
  {
    if i < |bodies| - 1 {
      ToldInEvents(bodies[..|bodies| - 1], i);
    }
  }

  /// Whatever a round meets, and however often its collector crashes and is
  /// resumed, its job's log gains exactly one verdict of it.
  lemma ARoundIsJudgedOnce(
      c: Circumstances, bodies: seq<FrameBody>, prior: Log, trace: seq<CC.Step>,
      earlier: seq<Event>, collected: seq<Event>, because: string, now: Instant)
    requires ToldOf(bodies) == StreamOf(c, None)
    requires var stream := Numbered(bodies);
             && CC.Runs(CC.Fresh(prior), stream, trace) && BeginsAsOwed(CC.Fresh(prior), stream, trace)
             && CC.End(CC.Fresh(prior), stream, trace).events == prior + earlier + collected
    requires Reattaches(prior + earlier)
    ensures VerdictCount(earlier + collected + Settled(collected, because, now)) == 1
  {
    hide StreamOf, ToldOf, EventsIn, VerdictCount, Settled, CC.Stepped, Reattaches, WorkTold, RejectionTold,
      Objection;
    EventsAreTold(bodies);
    ARoundTellsOne(c, None, EventsIn(bodies));
    var n := |WorkTold(c) + RejectionTold(c)|;
    OneVerdictCounted(EventsIn(bodies), n);
    var v := OneVerdictLine(bodies);
    NumberedInOrder(bodies);
    forall i | 0 <= i < |bodies| && bodies[i].EventBody?
      ensures !bodies[i].event.kind.RoundRequested? && !bodies[i].event.kind.RoundStarted?
    {
      ToldInEvents(bodies, i);
    }
    OneVerdictAcrossCrashes(Numbered(bodies), v, prior, trace, earlier, collected, because, now);
  }

  /// A collector crashed and resumed any number of times, as the log has the
  /// daemon do, leaves exactly one verdict there when the last collection,
  /// having collected `collected` itself, settles.
  lemma OneVerdictAcrossCrashes(
      stream: seq<Line>, v: nat, prior: Log, trace: seq<CC.Step>,
      earlier: seq<Event>, collected: seq<Event>, because: string, now: Instant)
    requires InOrder(stream) && OnlyVerdictAt(stream, v) && NeverRestarts(stream)
    requires CC.Runs(CC.Fresh(prior), stream, trace) && BeginsAsOwed(CC.Fresh(prior), stream, trace)
    requires CC.End(CC.Fresh(prior), stream, trace).events == prior + earlier + collected
    requires Reattaches(prior + earlier)
    ensures VerdictCount(earlier + collected + Settled(collected, because, now)) == 1
  {
    hide CC.Stepped, InOrder, CC.EventsAt, VerdictCount, Settled, FromEvents, Reattaches, NeverRestarts,
      IsVerdictLine, CC.Inv, CC.BeginsBefore, BeginsAsOwed, OnlyVerdictAt;
    var c := CC.End(CC.Fresh(prior), stream, trace);
    CC.CrashesLoseNothing(stream, prior, trace);
    if v < |stream| && IsVerdictLine(stream[v]) {
      CC.FreshOk(stream, prior);
      BeginsBeforeItsVerdict(CC.Fresh(prior), stream, prior, trace, v);
      CC.LandsOnce(CC.Fresh(prior), stream, trace, v);
    }
    OneLandingOneVerdict(stream, c.landed, v);
    assert prior + (earlier + collected) == prior + CC.EventsAt(stream, c.landed);
    SamePrior(prior, earlier + collected, CC.EventsAt(stream, c.landed));
    VerdictCountInParts(earlier, collected);
    LandedNeverRestarts(stream, c.landed);
    assert forall i :: 0 <= i < |earlier| ==> earlier[i] == (earlier + collected)[i];
    assert StandingOf(prior + earlier).state == Running by { ReattachesRunning(prior + earlier); }
    RunningIsUnjudged(prior, earlier);
    SettledHasOneVerdict(collected, because, now);
    var settled := Settled(collected, because, now);
    assert earlier + collected + settled == earlier + (collected + settled);
    VerdictCountInParts(earlier, collected + settled);
  }

  lemma SamePrior(prior: Log, a: seq<Event>, b: seq<Event>)
    requires prior + a == prior + b
    ensures a == b
  {
    assert a == (prior + a)[|prior|..] == (prior + b)[|prior|..] == b;
  }
}
