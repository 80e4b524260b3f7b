// What a round tells, line by line and reason by reason, in terms of what it
// met (src/round.rs, src/run.rs, src/delivery.rs).
module RoundTold {
  import opened Events
  import opened Report
  import opened Decimal
  import opened Frames
  import opened Collect
  import opened Round
  import opened RoundVerdict

  /// Frames tell what they carry, one for one.
  lemma ToldByPosition(bodies: seq<FrameBody>, lines: seq<string>, kinds: seq<EventKind>, i: nat)
    ensures |ToldOf(bodies)| == |bodies| && |SaysAll(lines)| == |lines| && |TellsAll(kinds)| == |kinds|
    ensures i < |bodies| ==>
              match bodies[i]
              case OutputBody(text) => ToldOf(bodies)[i] == Says(text)
              case EventBody(event) => ToldOf(bodies)[i] == Tells(event.kind)
    ensures i < |lines| ==> SaysAll(lines)[i] == Says(lines[i])
    ensures i < |kinds| ==> TellsAll(kinds)[i] == Tells(kinds[i])
  {
  }

  /// The last commit told is the one no other follows.
  lemma {:induction false} LastCommitToldIsLast(told: seq<Told>) returns (at: nat)
    ensures match LastCommitTold(told)
            case Some(sha) =>
              && at < |told| && told[at].Tells? && told[at].kind.RoundCommitted? && told[at].kind.sha == sha
              && forall i :: at < i < |told| ==> !(told[i].Tells? && told[i].kind.RoundCommitted?)
            case None =>
              forall i :: 0 <= i < |told| ==> !(told[i].Tells? && told[i].kind.RoundCommitted?)
  {
    at := 0;
    if told != [] {
      var n := |told| - 1;
      if told[n].Tells? && told[n].kind.RoundCommitted? {
        at := n;
      } else {
        at := LastCommitToldIsLast(told[..n]);
        assert forall i :: 0 <= i < n ==> told[i] == told[..n][i];
      }
    }
  }

  // ----- what went wrong -----

  /// A command's end, if it is not a success, in words.
  ghost predicate EndsIn(outcome: Result<ShellOutcome>, why: string) {
    match outcome
    case Ok(Exited(code)) => code != 0 && why == "exit " + ShownInt(code)
    case Ok(TimedOut) => why == "timed out"
    case Ok(Cancelled) => why == "cancelled"
    case Err(reason) => why == reason
  }

  ghost predicate StepWorks(step: ProvisioningStep) {
    step.inTime && step.ran.outcome == Ok(Exited(0))
  }

  ghost predicate StepEndsIn(step: ProvisioningStep, command: string, why: string) {
    if !step.inTime || step.ran.outcome == Ok(TimedOut) then
      why == "provisioning timed out after 15m"
    else
      match step.ran.outcome
      case Ok(Exited(code)) =>
        code != 0 && why == "provisioning the toolchain failed: `mise " + command + "` " + ("exit " + ShownInt(code))
      case Ok(_) => why == "provisioning the toolchain failed: `mise " + command + "` " + "cancelled"
      case Err(reason) => why == reason
  }

  ghost predicate VerifyEndsIn(outcome: Result<ShellOutcome>, why: string) {
    match outcome
    case Ok(Exited(code)) => code != 0 && why == "verify rejected the work: " + ("exit " + ShownInt(code))
    case Ok(TimedOut) => why == "verify timed out"
    case Ok(Cancelled) => why == "verify cancelled"
    case Err(reason) => why == "verify could not run: " + reason
  }

  /// The first thing to go wrong, in the order things are settled: work that
  /// could not be kept weighs more than how the agent ended.
  ghost predicate FailsFor(c: Circumstances, why: string) {
    if c.checkout.Some? then why == c.checkout.value
    else if c.provisions && !StepWorks(c.steps(0)) then StepEndsIn(c.steps(0), "trust --all --yes", why)
    else if c.provisions && !StepWorks(c.steps(1)) then StepEndsIn(c.steps(1), "install --yes", why)
    else if c.commit.Err? then why == c.commit.why
    else if c.commit.value.Some? && c.stat.Err? then why == c.stat.why
    else if c.commit.value.Some? && c.pushes(0).Some? && c.pushes(1).Some? && c.pushes(2).Some? then
      why == "could not publish " + c.branch + " — the work is lost with the scratch checkout: " + c.pushes(2).value
    else if c.agent.outcome != Ok(Exited(0)) then EndsIn(c.agent.outcome, why)
    else c.verify.Some? && VerifyEndsIn(c.verify.value.outcome, why)
  }

  lemma ProvisioningIsToldWhole(c: Circumstances, why: string)
    ensures ProvisioningComplaint(c) == Some(why) <==>
              && c.provisions
              && if !StepWorks(c.steps(0)) then StepEndsIn(c.steps(0), "trust --all --yes", why)
                 else !StepWorks(c.steps(1)) && StepEndsIn(c.steps(1), "install --yes", why)
    ensures ProvisioningComplaint(c).None? <==> c.provisions ==> StepWorks(c.steps(0)) && StepWorks(c.steps(1))
  {
    hide ShownInt;
    StepIsToldWhole(c.steps(0), "trust --all --yes", why);
    StepIsToldWhole(c.steps(1), "install --yes", why);
    StepComplains(c.steps(0), "trust --all --yes");
    StepComplains(c.steps(1), "install --yes");
  }

  lemma StepIsToldWhole(step: ProvisioningStep, command: string, why: string)
    ensures StepComplaint(step, command) == Some(why) <==> !StepWorks(step) && StepEndsIn(step, command, why)
  {
    hide ShownInt;
  }

  lemma WorkIsToldWhole(c: Circumstances, why: string)
    ensures WorkComplaint(c) == Some(why) <==>
              if c.commit.Err? then why == c.commit.why
              else if c.commit.value.None? then false
              else if c.stat.Err? then why == c.stat.why
              else
                && c.pushes(0).Some? && c.pushes(1).Some? && c.pushes(2).Some?
                && why == "could not publish " + c.branch + " — the work is lost with the scratch checkout: "
                          + c.pushes(2).value
    ensures WorkComplaint(c).None? <==>
              && c.commit.Ok?
              && (c.commit.value.None?
                  || (c.stat.Ok? && (c.pushes(0).None? || c.pushes(1).None? || c.pushes(2).None?)))
  {
    assert (exists i: nat :: i < PUSH_ATTEMPTS && c.pushes(i).None?) <==>
        c.pushes(0).None? || c.pushes(1).None? || c.pushes(2).None?;
  }

  lemma AgentAndVerifyAreToldWhole(c: Circumstances, why: string)
    ensures AgentComplaint(c) == Some(why) <==> EndsIn(c.agent.outcome, why)
    ensures RulingOf(c.verify).Complains() == Some(why) <==>
              c.verify.Some? && VerifyEndsIn(c.verify.value.outcome, why)
  {
    hide ShownInt;
  }

  /// A failed round gives the one reason that decides it, and no other.
  lemma FailureIsToldExactly(c: Circumstances, before: Option<string>, why: string)
    ensures RoundFailed(why) in EventsTold(StreamOf(c, before)) <==> FailsFor(c, why)
  {
    hide StreamOf, EventsTold, WorkTold, ProvisioningComplaint, WorkComplaint, AgentComplaint, RulingOf, StepEndsIn,
      EndsIn, VerifyEndsIn, ShownInt;
    KindsOfARound(c, before, RoundFailed(why));
    WorkIsTold(c);
    ProvisioningIsToldWhole(c, why);
    WorkIsToldWhole(c, why);
    AgentAndVerifyAreToldWhole(c, why);
    AgentAndVerifyComplain(c);
  }

  // ----- in what order -----

  function Rank(kind: EventKind): nat {
    match kind
    case RoundCommitted(_, _, _, _) => 1
    case BranchPushed(_, _) => 2
    case VerifyRejected(_) => 3
    case RoundPassed => 4
    case RoundFailed(_) => 4
    case PullRequestOpened(_) => 5
    case _ => 0
  }

  /// Commit, push, rejection, verdict, pull request: each at most once, in
  /// this order, and nothing else.
  lemma ToldInOrder(c: Circumstances, before: Option<string>)
    ensures var kinds := EventsTold(StreamOf(c, before));
            && (forall i :: 0 <= i < |kinds| ==> Rank(kinds[i]) > 0)
            && (forall i, k :: 0 <= i < k < |kinds| ==> Rank(kinds[i]) < Rank(kinds[k]))
  {
    hide StreamOf, EventsTold, Objection, VerifyRuns, RulingOf, Tip, WorkTold, Published, Provisioned;
    EventsOfARound(c, before);
    WorkIsTold(c);
  }

  // ----- the output -----

  /// All that a round tells: what its commands said, in turn, its events, and
  /// what there is to say of a delivery without a pull request and of a
  /// checkout left behind.
  lemma ARoundIsToldWhole(c: Circumstances, before: Option<string>)
    ensures var kinds := EventsTold(StreamOf(c, before));
            var ahead := c.isAhead(if Published(c) then c.commit.value.value
                                   else if before.Some? then before.value else c.startSha);
            var provisioned := c.provisions ==> StepWorks(c.steps(0)) && StepWorks(c.steps(1));
            var said :=
              (if c.provisions && c.steps(0).inTime then c.steps(0).ran.said else [])
              + (if c.provisions && StepWorks(c.steps(0)) && c.steps(1).inTime then c.steps(1).ran.said else [])
              + (if provisioned then c.agent.said else [])
              + (if provisioned && c.agent.outcome == Ok(Exited(0)) && c.verify.Some? then c.verify.value.said else []);
            StreamOf(c, before)
            == SaysAll(if c.checkout.Some? then [] else said)
               + TellsAll(kinds)
               + (if RoundPassed !in kinds || !ahead then []
                  else
                    match c.delivered
                    case Skipped(why) => [Says("not delivered: " + why)]
                    case Pushed(branch, because) =>
                      [Says("pushed " + branch + " — no pull request opened: " + because)]
                    case _ => [])
               + (if c.checkout.None? && c.discard.Some?
                  then [Says("could not remove the scratch checkout: " + c.discard.value)] else [])
  {
    hide EventsTold, Objection, RulingOf, WorkTold, RejectionTold, VerdictTold, OutputSaid, SaysAll, TellsAll, Tip,
      Published, StepWorks;
    EventsOfARound(c, before);
    KindsOfARound(c, before, RoundPassed);
    NoPassElsewhere(c, before);
    if c.checkout.None? {
      OutputIsToldWhole(c);
    }
    if Objection(c).None? {
      TipOfAPass(c, before);
    }
    NothingSaid();
    var judged := WorkTold(c) + RejectionTold(c) + [VerdictTold(c)];
    TellsMore(judged, PullRequestTold(c, before));
    assert judged + PullRequestTold(c, before) == EventsTold(StreamOf(c, before));
  }

  lemma TellsMore(kinds: seq<EventKind>, more: seq<EventKind>)
    requires |more| <= 1
    ensures TellsAll(kinds + more) == TellsAll(kinds) + if more == [] then [] else [Tells(more[0])]
  {
  }

  lemma NoPassElsewhere(c: Circumstances, before: Option<string>)
    ensures RoundPassed in EventsTold(StreamOf(c, before)) <==> Objection(c).None?
  {
    hide EventsTold, StreamOf, Objection, Published, Provisioned, RulingOf, WorkTold, Tip;
    KindsOfARound(c, before, RoundPassed);
    WorkIsTold(c);
  }

  lemma TipOfAPass(c: Circumstances, before: Option<string>)
    requires Objection(c).None?
    ensures Tip(c, before)
            == if Published(c) then c.commit.value.value else if before.Some? then before.value else c.startSha
  {
    hide Provisioned;
    PassesExactly(c);
    WorkIsTold(c);
  }

  lemma OutputIsToldWhole(c: Circumstances)
    requires c.checkout.None?
    ensures var provisioned := c.provisions ==> StepWorks(c.steps(0)) && StepWorks(c.steps(1));
            OutputSaid(c)
            == (if c.provisions && c.steps(0).inTime then c.steps(0).ran.said else [])
               + (if c.provisions && StepWorks(c.steps(0)) && c.steps(1).inTime then c.steps(1).ran.said else [])
               + (if provisioned then c.agent.said else [])
               + (if provisioned && c.agent.outcome == Ok(Exited(0)) && c.verify.Some? then c.verify.value.said else [])
  {
    hide StepComplaint, ShownInt;
    StepComplains(c.steps(0), "trust --all --yes");
    StepComplains(c.steps(1), "install --yes");
    AgentAndVerifyComplain(c);
  }
}
