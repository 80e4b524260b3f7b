// One round in its checkout, from the agent to the frames that tell how it
// went (src/round.rs, src/run.rs). What git, the agent, `verify` and the forge
// do comes in as `Circumstances`.
module Round {
  import opened Events
  import opened Report
  import opened Decimal
  import opened Frames
  import opened Collect

  // ----- what the round meets -----

  datatype ShellOutcome = Exited(code: int) | TimedOut | Cancelled
  {
    function FailureReason(): Option<string> {
      match this
      case Exited(code) => if code == 0 then None else Some("exit " + ShownInt(code))
      case TimedOut => Some("timed out")
      case Cancelled => Some("cancelled")
    }
  }

  /// A command's lines of output, and how it ended: an error when it could not
  /// be spawned.
  datatype Ran = Ran(said: seq<string>, outcome: Result<ShellOutcome>)

  /// A provisioning step, and whether any of the deadline was left for it.
  datatype ProvisioningStep = ProvisioningStep(inTime: bool, ran: Ran)

  datatype Delivered =
    | Opened(url: string)
    | AlreadyOpen(url: string)
    | Skipped(why: string)
    | Pushed(branch: string, because: string)

  /// A step that failed with a complaint, or did not.
  type Complaint = Option<string>

  datatype Circumstances = Circumstances(
    branch: string,
    remote: string,
    startSha: string,
    checkout: Complaint,
    provisions: bool,
    steps: nat -> ProvisioningStep,
    agent: Ran,
    commit: Result<Option<string>>,
    stat: Result<DiffSummary>,
    pushes: nat -> Complaint,
    verify: Option<Ran>,
    isAhead: string -> bool,
    delivered: Delivered,
    discard: Complaint)

  const STEPS: seq<string> := ["trust --all --yes", "install --yes"]
  const PUSH_ATTEMPTS: nat := 3

  // ----- what each part of it complains of -----

  function StepComplaint(step: ProvisioningStep, args: string): Complaint {
    if !step.inTime || step.ran.outcome == Ok(TimedOut) then Some("provisioning timed out after 15m")
    else
      match step.ran.outcome
      case Err(why) => Some(why)
      case Ok(outcome) =>
        match outcome.FailureReason()
        case None => None
        case Some(reason) => Some("provisioning the toolchain failed: `mise " + args + "` " + reason)
  }

  function ProvisioningComplaint(c: Circumstances): Complaint {
    if !c.provisions then None
    else StepComplaint(c.steps(0), STEPS[0]).OrElse(StepComplaint(c.steps(1), STEPS[1]))
  }

  function AgentComplaint(c: Circumstances): Complaint {
    match c.agent.outcome
    case Err(why) => Some(why)
    case Ok(outcome) => outcome.FailureReason()
  }

  function PublishComplaint(c: Circumstances): Complaint {
    if exists i: nat :: i < PUSH_ATTEMPTS && c.pushes(i).None? then None
    else
      Some("could not publish " + c.branch + " — the work is lost with the scratch checkout: "
           + c.pushes(PUSH_ATTEMPTS - 1).value)
  }

  /// What keeps the agent's work from being recorded; nothing, when there is
  /// none.
  function WorkComplaint(c: Circumstances): Complaint {
    match c.commit
    case Err(why) => Some(why)
    case Ok(None) => None
    case Ok(Some(_)) => if c.stat.Err? then Some(c.stat.why) else PublishComplaint(c)
  }

  datatype VerifyRuling = NoObjection | Rejected(reason: string) | Interrupted(reason: string)
  {
    function Complains(): Complaint {
      match this
      case NoObjection => None
      case Rejected(reason) => Some("verify rejected the work: " + reason)
      case Interrupted(reason) => Some(reason)
    }
  }

  function RulingOf(verify: Option<Ran>): VerifyRuling {
    match verify
    case None => NoObjection
    case Some(ran) =>
      match ran.outcome
      case Ok(Exited(code)) => if code == 0 then NoObjection else VerifyRuling.Rejected("exit " + ShownInt(code))
      case Ok(TimedOut) => Interrupted("verify timed out")
      case Ok(Cancelled) => Interrupted("verify cancelled")
      case Err(why) => Interrupted("verify could not run: " + why)
  }

  /// What decides the round: the first complaint of these.
  function Objection(c: Circumstances): Complaint {
    c.checkout.OrElse(ProvisioningComplaint(c)).OrElse(WorkComplaint(c))
    .OrElse(AgentComplaint(c)).OrElse(RulingOf(c.verify).Complains())
  }

  predicate AgentRuns(c: Circumstances) {
    c.checkout.None? && ProvisioningComplaint(c).None?
  }

  predicate VerifyRuns(c: Circumstances) {
    AgentRuns(c) && AgentComplaint(c).None? && c.verify.Some?
  }

  // ----- what the round tells -----

  datatype Told = Says(line: string) | Tells(kind: EventKind)

  function ToldOf(bodies: seq<FrameBody>): seq<Told> {
    seq(|bodies|, i requires 0 <= i < |bodies| =>
      match bodies[i]
      case EventBody(event) => Tells(event.kind)
      case OutputBody(text) => Says(text))
  }

  function SaysAll(lines: seq<string>): seq<Told> {
    seq(|lines|, i requires 0 <= i < |lines| => Says(lines[i]))
  }

  function TellsAll(kinds: seq<EventKind>): seq<Told> {
    seq(|kinds|, i requires 0 <= i < |kinds| => Tells(kinds[i]))
  }

  function ProvisioningSaid(c: Circumstances): seq<string> {
    if !c.provisions || !c.steps(0).inTime then []
    else if StepComplaint(c.steps(0), STEPS[0]).Some? || !c.steps(1).inTime then c.steps(0).ran.said
    else c.steps(0).ran.said + c.steps(1).ran.said
  }

  /// The output before the round is judged.
  function OutputSaid(c: Circumstances): seq<string> {
    ProvisioningSaid(c)
    + (if AgentRuns(c) then c.agent.said else [])
    + (if VerifyRuns(c) then c.verify.value.said else [])
  }

  /// Whatever the agent and `verify` made of it, work that reached the remote
  /// is on record.
  function WorkTold(c: Circumstances): seq<EventKind> {
    if !AgentRuns(c) || WorkComplaint(c).Some? || c.commit.value.None? then []
    else
      [RoundCommitted(c.commit.value.value, c.stat.value.files, c.stat.value.insertions, c.stat.value.deletions),
       BranchPushed(c.branch, c.remote)]
  }

  function RejectionTold(c: Circumstances): seq<EventKind> {
    if VerifyRuns(c) && WorkComplaint(c).None? && RulingOf(c.verify).Rejected? then
      [VerifyRejected(RulingOf(c.verify).reason)]
    else
      []
  }

  function VerdictTold(c: Circumstances): EventKind {
    match Objection(c)
    case None => RoundPassed
    case Some(reason) => RoundFailed(reason)
  }

  /// This round's commit, else the last one told earlier, else its start.
  function Tip(c: Circumstances, before: Option<string>): string {
    if WorkTold(c) != [] then c.commit.value.value
    else if before.Some? then before.value
    else c.startSha
  }

  function DeliveryTold(c: Circumstances, before: Option<string>): seq<Told> {
    if Objection(c).Some? || !c.isAhead(Tip(c, before)) then [] else [Delivery(c.delivered)]
  }

  /// A delivery is told by its pull request or, without one, in words.
  function Delivery(delivered: Delivered): Told {
    match delivered
    case Opened(url) => Tells(PullRequestOpened(url))
    case AlreadyOpen(url) => Tells(PullRequestOpened(url))
    case Skipped(why) => Says("not delivered: " + why)
    case Pushed(branch, because) => Says("pushed " + branch + " — no pull request opened: " + because)
  }

  function DiscardTold(c: Circumstances): seq<Told> {
    if c.checkout.Some? || c.discard.None? then []
    else [Says("could not remove the scratch checkout: " + c.discard.value)]
  }

  /// Everything a round tells, in order.
  function StreamOf(c: Circumstances, before: Option<string>): seq<Told> {
    (if c.checkout.Some? then [] else SaysAll(OutputSaid(c)))
    + TellsAll(WorkTold(c) + RejectionTold(c) + [VerdictTold(c)])
    + DeliveryTold(c, before) + DiscardTold(c)
  }

  // ----- the round, step by step -----

  lemma ToldOneMore(bodies: seq<FrameBody>, body: FrameBody)
    ensures ToldOf(bodies + [body]) == ToldOf(bodies) + ToldOf([body])
  {
  }

  /// What `frames` has been given to tell.
  ghost function Tale(frames: FrameWriter): seq<Told>
    reads frames
  {
    ToldOf(frames.appended)
  }

  method Say(frames: FrameWriter, lines: seq<string>)
    requires frames.Valid()
    modifies frames
    ensures frames.Valid() && Tale(frames) == old(Tale(frames)) + SaysAll(lines)
  {
    for i := 0 to |lines|
      invariant frames.Valid() && Tale(frames) == old(Tale(frames)) + SaysAll(lines[..i])
    {
      ToldOneMore(frames.appended, OutputBody(lines[i]));
      frames.AppendOutput(lines[i]);
      assert SaysAll(lines[..i + 1]) == SaysAll(lines[..i]) + [Says(lines[i])];
    }
    assert lines[..|lines|] == lines;
  }

  method TellAll(frames: FrameWriter, kinds: seq<EventKind>, clock: nat -> Instant)
    requires frames.Valid()
    modifies frames
    ensures frames.Valid() && Tale(frames) == old(Tale(frames)) + TellsAll(kinds)
  {
    for i := 0 to |kinds|
      invariant frames.Valid() && Tale(frames) == old(Tale(frames)) + TellsAll(kinds[..i])
    {
      var now := clock(frames.lastSeq);
      ToldOneMore(frames.appended, EventBody(Event(now, kinds[i])));
      var _ := frames.AppendEvent(kinds[i], now);
      assert TellsAll(kinds[..i + 1]) == TellsAll(kinds[..i]) + [Tells(kinds[i])];
    }
    assert kinds[..|kinds|] == kinds;
  }

  method RunCommand(ran: Ran, frames: FrameWriter) returns (outcome: Result<ShellOutcome>)
    requires frames.Valid()
    modifies frames
    ensures frames.Valid() && Tale(frames) == old(Tale(frames)) + SaysAll(ran.said)
    ensures outcome == ran.outcome
  {
    Say(frames, ran.said);
    outcome := ran.outcome;
  }

  /// A step with no time left times out without being run, and the first step
  /// to fail ends provisioning.
  method ProvisionToolchain(c: Circumstances, frames: FrameWriter) returns (complaint: Complaint)
    requires frames.Valid()
    modifies frames
    ensures frames.Valid() && Tale(frames) == old(Tale(frames)) + SaysAll(ProvisioningSaid(c))
    ensures complaint == ProvisioningComplaint(c)
  {
    hide SaysAll, ToldOf, ShownInt;
    NothingSaid();
    if !c.provisions {
      return None;
    }
    ghost var said: seq<string> := [];
    for i := 0 to |STEPS|
      invariant frames.Valid() && Tale(frames) == old(Tale(frames)) + SaysAll(said)
      invariant i >= 1 ==> StepComplaint(c.steps(0), STEPS[0]).None? && c.steps(0).inTime
      invariant i == 2 ==> StepComplaint(c.steps(1), STEPS[1]).None? && c.steps(1).inTime
      invariant i == 0 ==> said == []
      invariant i == 1 ==> said == c.steps(0).ran.said
      invariant i == 2 ==> said == c.steps(0).ran.said + c.steps(1).ran.said
    {
      var step := c.steps(i);
      var outcome := Ok(TimedOut);
      if step.inTime {
        SaysMore(said, step.ran.said);
        said := said + step.ran.said;
        outcome := RunCommand(step.ran, frames);
      }
      match outcome {
        case Err(why) =>
          return Some(why);
        case Ok(TimedOut) =>
          return Some("provisioning timed out after 15m");
        case Ok(ended) =>
          match ended.FailureReason() {
            case None =>
            case Some(reason) =>
              return Some("provisioning the toolchain failed: `mise " + STEPS[i] + "` " + reason);
          }
      }
    }
    return None;
  }

  lemma NothingSaid()
    ensures SaysAll([]) == []
  {
  }

  lemma SaysMore(said: seq<string>, more: seq<string>)
    ensures SaysAll(said + more) == SaysAll(said) + SaysAll(more)
  {
  }

  /// The first push that succeeds ends it.
  method Publish(c: Circumstances) returns (complaint: Complaint, pushed: nat)
    ensures complaint == PublishComplaint(c)
    ensures pushed <= 3 && forall i: nat :: i + 1 < pushed ==> c.pushes(i).Some?
    ensures complaint.None? <==> 0 < pushed && c.pushes(pushed - 1).None?
  {
    pushed, complaint := 0, None;
    while pushed < PUSH_ATTEMPTS
      invariant pushed <= PUSH_ATTEMPTS && forall i: nat :: i < pushed ==> c.pushes(i).Some?
      invariant pushed > 0 ==> complaint == c.pushes(pushed - 1)
    {
      complaint := c.pushes(pushed);
      pushed := pushed + 1;
      if complaint.None? {
        return;
      }
    }
    complaint := Some("could not publish " + c.branch + " — the work is lost with the scratch checkout: "
                      + complaint.value);
  }

  datatype AgentWork = AgentWork(branch: string, sha: string, stat: DiffSummary, pushedTo: string)

  method AgentWorkOnBranch(c: Circumstances) returns (preserved: Result<Option<AgentWork>>)
    ensures Preserves(c, preserved)
  {
    match c.commit {
      case Err(why) =>
        return Err(why);
      case Ok(None) =>
        return Ok(None);
      case Ok(Some(sha)) =>
        if c.stat.Err? {
          return Err(c.stat.why);
        }
        var complaint, _ := Publish(c);
        if complaint.Some? {
          return Err(complaint.value);
        }
        return Ok(Some(AgentWork(c.branch, sha, c.stat.value, c.remote)));
    }
  }

  datatype RoundResult =
    | PassedUnchanged
    | PassedWithWork(work: AgentWork)
    | Rejected(reason: string, left: Option<AgentWork>)
    | Failed(reason: string, left: Option<AgentWork>)

  function WorkRecorded(work: Option<AgentWork>): seq<EventKind> {
    match work
    case None => []
    case Some(w) =>
      [RoundCommitted(w.sha, w.stat.files, w.stat.insertions, w.stat.deletions), BranchPushed(w.branch, w.pushedTo)]
  }

  /// How a result is told: the work, any rejection, and last the verdict.
  function EventsForCompletion(result: RoundResult): (seq<EventKind>, Verdict) {
    match result
    case PassedUnchanged => ([RoundPassed], Passes)
    case PassedWithWork(work) => (WorkRecorded(Some(work)) + [RoundPassed], Passes)
    case Rejected(reason, left) =>
      (WorkRecorded(left) + [VerifyRejected(reason), RoundFailed("verify rejected the work: " + reason)], Fails)
    case Failed(reason, left) => (WorkRecorded(left) + [RoundFailed(reason)], Fails)
  }

  /// The agent's failure wins over anything `verify` says; neither says
  /// anything when the work could not be preserved.
  function ResultFrom(agentFailure: Complaint, preserved: Result<Option<AgentWork>>, ruling: VerifyRuling)
    : Result<RoundResult>
  {
    match preserved
    case Err(why) => Err(why)
    case Ok(work) =>
      if agentFailure.Some? then Ok(RoundResult.Failed(agentFailure.value, work))
      else
        match ruling
        case Interrupted(reason) => Ok(RoundResult.Failed(reason, work))
        case Rejected(reason) => Ok(RoundResult.Rejected(reason, work))
        case NoObjection => Ok(if work.None? then PassedUnchanged else PassedWithWork(work.value))
  }

  ghost predicate Preserves(c: Circumstances, preserved: Result<Option<AgentWork>>) {
    match preserved
    case Err(why) => WorkComplaint(c) == Some(why)
    case Ok(work) =>
      && WorkComplaint(c).None?
      && (work.Some? <==> c.commit.value.Some?)
      && (work.Some? ==> work.value == AgentWork(c.branch, c.commit.value.value, c.stat.value, c.remote))
  }

  /// What a result tells is what the round is to tell.
  ghost predicate Concludes(c: Circumstances, result: Result<RoundResult>) {
    match result
    case Err(why) => Objection(c) == Some(why) && WorkTold(c) == [] == RejectionTold(c)
    case Ok(done) =>
      EventsForCompletion(done)
      == (WorkTold(c) + RejectionTold(c) + [VerdictTold(c)], if Objection(c).None? then Passes else Fails)
  }

  lemma ResultConcludes(c: Circumstances, preserved: Result<Option<AgentWork>>, ruling: VerifyRuling)
    requires AgentRuns(c) && Preserves(c, preserved)
    requires ruling == if VerifyRuns(c) then RulingOf(c.verify) else NoObjection
    ensures Concludes(c, ResultFrom(AgentComplaint(c), preserved, ruling))
  {
    hide PublishComplaint, ProvisioningComplaint, AgentComplaint;
    if preserved.Ok? {
      var work, verdict := WorkTold(c), [VerdictTold(c)];
      assert WorkRecorded(preserved.value) == work;
      assert work + [] == work && [] + verdict == verdict;
      if VerifyRuns(c) && ruling.Rejected? {
        var told := [VerifyRejected(ruling.reason), RoundFailed(ruling.Complains().value)];
        assert work + RejectionTold(c) + verdict == work + told;
      }
    }
  }

  /// The result of a round in its checkout, or why there is none.
  method ResultInWorkspace(c: Circumstances, frames: FrameWriter) returns (result: Result<RoundResult>)
    requires frames.Valid() && c.checkout.None?
    modifies frames
    ensures frames.Valid() && Tale(frames) == old(Tale(frames)) + SaysAll(OutputSaid(c))
    ensures Concludes(c, result)
  {
    hide PublishComplaint, StepComplaint, ProvisioningComplaint, ProvisioningSaid, SaysAll, EventsForCompletion,
      RulingOf;
    var unprovisioned := ProvisionToolchain(c, frames);
    if unprovisioned.Some? {
      assert OutputSaid(c) == ProvisioningSaid(c);
      return Err(unprovisioned.value);
    }
    SaysMore(ProvisioningSaid(c), c.agent.said);
    var ran := RunCommand(c.agent, frames);
    var agentFailure := match ran case Err(why) => Some(why) case Ok(outcome) => outcome.FailureReason();
    var preserved := AgentWorkOnBranch(c);
    var ruling := NoObjection;
    if agentFailure.None? && c.verify.Some? {
      SaysMore(ProvisioningSaid(c) + c.agent.said, c.verify.value.said);
      var _ := RunCommand(c.verify.value, frames);
      ruling := RulingOf(c.verify);
    }
    assert Tale(frames) == old(Tale(frames)) + SaysAll(OutputSaid(c)) by {
      assert VerifyRuns(c) || OutputSaid(c) == ProvisioningSaid(c) + c.agent.said;
    }
    ResultConcludes(c, preserved, ruling);
    result := ResultFrom(agentFailure, preserved, ruling);
  }

  /// An error on the way to a result is a failure without work.
  method RunRoundIn(c: Circumstances, frames: FrameWriter, clock: nat -> Instant) returns (verdict: Verdict)
    requires frames.Valid() && c.checkout.None?
    modifies frames
    ensures frames.Valid()
    ensures Tale(frames)
            == old(Tale(frames)) + SaysAll(OutputSaid(c)) + TellsAll(WorkTold(c) + RejectionTold(c) + [VerdictTold(c)])
    ensures verdict == if Objection(c).None? then Passes else Fails
  {
    hide Objection, WorkTold, RejectionTold, OutputSaid, SaysAll, TellsAll, ToldOf;
    var result := ResultInWorkspace(c, frames);
    var done := match result case Err(why) => RoundResult.Failed(why, None) case Ok(done) => done;
    var (kinds, settled) := EventsForCompletion(done);
    assert result.Err? ==> kinds == WorkTold(c) + RejectionTold(c) + [VerdictTold(c)];
    TellAll(frames, kinds, clock);
    verdict := settled;
  }

  // ----- delivery -----

  function LastCommitted(events: seq<Event>): Option<string> {
    if events == [] then None
    else
      var last := events[|events| - 1].kind;
      if last.RoundCommitted? then Some(last.sha) else LastCommitted(events[..|events| - 1])
  }

  function LastCommitTold(told: seq<Told>): Option<string> {
    if told == [] then None
    else
      var last := told[|told| - 1];
      if last.Tells? && last.kind.RoundCommitted? then Some(last.kind.sha) else LastCommitTold(told[..|told| - 1])
  }

  lemma {:induction false} CommitsAreTold(bodies: seq<FrameBody>)
    ensures LastCommitted(EventsIn(bodies)) == LastCommitTold(ToldOf(bodies))
  {
    if bodies != [] {
      var n := |bodies| - 1;
      assert ToldOf(bodies)[..n] == ToldOf(bodies[..n]);
      CommitsAreTold(bodies[..n]);
      if bodies[n].EventBody? {
        assert (EventsIn(bodies[..n]) + [bodies[n].event])[..|EventsIn(bodies[..n])|] == EventsIn(bodies[..n]);
      } else {
        assert EventsIn(bodies) == EventsIn(bodies[..n]);
      }
    }
  }

  lemma {:induction false} LastCommitOfBoth(before: seq<Told>, after: seq<Told>)
    ensures LastCommitTold(before + after) == LastCommitTold(after).OrElse(LastCommitTold(before))
  {
    if after == [] {
      assert before + after == before;
    } else {
      var n := |after| - 1;
      assert (before + after)[..|before| + n] == before + after[..n];
      LastCommitOfBoth(before, after[..n]);
    }
  }

  lemma {:induction false} OutputCommitsNothing(lines: seq<string>)
    ensures LastCommitTold(SaysAll(lines)) == None
  {
    if lines != [] {
      var n := |lines| - 1;
      assert SaysAll(lines)[..n] == SaysAll(lines[..n]);
      OutputCommitsNothing(lines[..n]);
    }
  }

  lemma CompletionCommits(c: Circumstances)
    ensures var told := TellsAll(WorkTold(c) + RejectionTold(c) + [VerdictTold(c)]);
            LastCommitTold(told) == if WorkTold(c) == [] then None else Some(c.commit.value.value)
  {
    hide Objection, WorkComplaint, AgentRuns, VerifyRuns, RulingOf;
    var work, rejection, verdict := WorkTold(c), RejectionTold(c), [VerdictTold(c)];
    assert TellsAll(work + rejection + verdict) == TellsAll(work) + (TellsAll(rejection) + TellsAll(verdict));
    LastCommitOfBoth(TellsAll(work), TellsAll(rejection) + TellsAll(verdict));
    LastCommitOfBoth(TellsAll(rejection), TellsAll(verdict));
    TwoToldCommit(rejection + []);
    TwoToldCommit(verdict);
    TwoToldCommit(work);
  }

  lemma TwoToldCommit(kinds: seq<EventKind>)
    requires |kinds| <= 2
    ensures LastCommitTold(TellsAll(kinds))
            == if |kinds| == 2 && kinds[1].RoundCommitted? then Some(kinds[1].sha)
               else if kinds != [] && kinds[0].RoundCommitted? then Some(kinds[0].sha) else None
  {
    if |kinds| == 2 {
      assert TellsAll(kinds)[..1] == TellsAll(kinds[..1]);
      TwoToldCommit(kinds[..1]);
    }
  }

  /// Whether the branch's tip is ahead of the base.
  method BranchCarriesWork(c: Circumstances, frames: FrameWriter) returns (carries: bool)
    requires frames.Valid()
    ensures carries == c.isAhead(match LastCommitTold(Tale(frames)) case Some(sha) => sha case None => c.startSha)
  {
    CommitsAreTold(frames.appended);
    var last := LastCommitted(frames.events);
    carries := c.isAhead(match last case Some(sha) => sha case None => c.startSha);
  }

  method Deliver(c: Circumstances, frames: FrameWriter, clock: nat -> Instant)
    requires frames.Valid()
    modifies frames
    ensures frames.Valid()
    ensures Tale(frames) == old(Tale(frames)) + [Delivery(c.delivered)]
  {
    match c.delivered {
      case Opened(url) =>
        TellAll(frames, [PullRequestOpened(url)], clock);
      case AlreadyOpen(url) =>
        TellAll(frames, [PullRequestOpened(url)], clock);
      case Skipped(why) =>
        Say(frames, ["not delivered: " + why]);
      case Pushed(branch, because) =>
        Say(frames, ["pushed " + branch + " — no pull request opened: " + because]);
    }
  }

  datatype Conclusion = Conclusion(verdict: Verdict, report: JobProgress)

  /// All of a round: checkout, result, delivery, clean-up, conclusion.
  method Run(c: Circumstances, frames: FrameWriter, clock: nat -> Instant) returns (conclusion: Conclusion)
    requires frames.Valid()
    modifies frames
    ensures frames.Valid()
    ensures Tale(frames) == old(Tale(frames)) + StreamOf(c, LastCommitTold(old(Tale(frames))))
    ensures conclusion.verdict == if Objection(c).None? then Passes else Fails
    ensures conclusion.report == FromEvents(EventsIn(frames.appended))
  {
    hide SaysAll, TellsAll, LastCommitTold, ToldOf, EventsIn, FromEvents, WorkTold, RejectionTold, OutputSaid,
      Objection, VerdictTold;
    ghost var before := Tale(frames);
    if c.checkout.Some? {
      FailedCheckout(c);
      TellAll(frames, [RoundFailed(c.checkout.value)], clock);
      return Conclusion(Fails, FromEvents(frames.events));
    }
    var verdict := RunRoundIn(c, frames, clock);
    TipIsTold(c, before);
    if verdict.Passes? {
      var carries := BranchCarriesWork(c, frames);
      if carries {
        Deliver(c, frames, clock);
      }
    }
    if c.discard.Some? {
      SaysOne("could not remove the scratch checkout: " + c.discard.value);
      Say(frames, ["could not remove the scratch checkout: " + c.discard.value]);
    }
    conclusion := Conclusion(verdict, FromEvents(frames.events));
  }

  lemma SaysOne(line: string)
    ensures SaysAll([line]) == [Says(line)]
  {
  }

  lemma FailedCheckout(c: Circumstances)
    requires c.checkout.Some?
    ensures forall before :: StreamOf(c, before) == TellsAll([RoundFailed(c.checkout.value)])
    ensures Objection(c).Some?
  {
    hide ProvisioningComplaint, WorkComplaint, AgentComplaint, RulingOf;
    assert WorkTold(c) == [] == RejectionTold(c);
    assert VerdictTold(c) == RoundFailed(c.checkout.value);
  }

  lemma TipIsTold(c: Circumstances, before: seq<Told>)
    ensures var told := before + SaysAll(OutputSaid(c)) + TellsAll(WorkTold(c) + RejectionTold(c) + [VerdictTold(c)]);
            Tip(c, LastCommitTold(before)) == match LastCommitTold(told) case Some(sha) => sha case None => c.startSha
  {
    hide LastCommitTold, SaysAll, TellsAll, OutputSaid, RejectionTold, VerdictTold;
    var completion := TellsAll(WorkTold(c) + RejectionTold(c) + [VerdictTold(c)]);
    LastCommitOfBoth(before + SaysAll(OutputSaid(c)), completion);
    LastCommitOfBoth(before, SaysAll(OutputSaid(c)));
    OutputCommitsNothing(OutputSaid(c));
    CompletionCommits(c);
  }
}
