// The account a job's log gives of itself: a left fold over its events
// (src/report.rs), and what a starting daemon owes the job it describes
// (src/daemon/fleet.rs).
module Report {
  import opened Events

  datatype DiffSummary = DiffSummary(files: nat, insertions: nat, deletions: nat)

  /// All that a report says of a job.
  datatype JobProgress = JobProgress(
    state: JobState,
    rounds: nat,
    roundStartedAt: Option<Instant>,
    lastRoundDuration: Option<nat>,
    committedDiff: Option<DiffSummary>,
    detail: Option<string>,
    branch: Option<string>,
    remoteUrl: Option<string>,
    base: Option<PinnedRef>,
    firstPrompt: Option<string>,
    latestPrompt: Option<string>,
    provider: Option<string>,
    pullRequest: Option<string>,
    launched: Option<RoundHandle>,
    requestedAt: Option<Instant>)
  {
    /// `None` before any start, and for a clock that ran backwards.
    function TimeSpentUntil(end: Instant): Option<nat> {
      match roundStartedAt
      case None => None
      case Some(start) => if start <= end then Some(end - start) else None
    }

    function Stands(): Standing {
      Standing(state, rounds, launched)
    }

    function AfterEvent(event: Event): JobProgress {
      match event.kind
      case RoundRequested(url, pinned, prompt, named) =>
        this.(state := Queued,
        roundStartedAt := None,
        lastRoundDuration := None,
        committedDiff := None,
        detail := None,
        launched := None,
        requestedAt := Some(event.at),
        remoteUrl := remoteUrl.OrElse(Some(url)),
        firstPrompt := firstPrompt.OrElse(Some(prompt)),
        latestPrompt := Some(prompt),
        base := Some(pinned),
        provider := Some(named))
      case RoundStarted(round) =>
        this.(state := Running,
        rounds := if round > rounds then round else rounds,
        roundStartedAt := Some(event.at),
        committedDiff := None,
        detail := None,
        launched := None)
      case RoundLaunched(handle) => this.(launched := Some(handle))
      case RoundCommitted(_, files, insertions, deletions) =>
        this.(committedDiff := Some(DiffSummary(files, insertions, deletions)))
      case BranchPushed(pushed, _) => this.(branch := Some(pushed))
      case PullRequestOpened(url) => this.(pullRequest := Some(url))
      case VerifyRejected(_) => this
      case RoundPassed =>
        this.(state := Passed, lastRoundDuration := TimeSpentUntil(event.at))
      case RoundFailed(reason) =>
        this.(state := Failed, lastRoundDuration := TimeSpentUntil(event.at), detail := Some(reason))
    }
  }

  const NO_PROGRESS :=
    JobProgress(Pending, 0, None, None, None, None, None, None, None, None, None, None, None, None, None)

  /// What of a report the daemon decides by; the rest is for people.
  datatype Standing = Standing(state: JobState, rounds: nat, launched: Option<RoundHandle>)
  {
    function After(kind: EventKind): Standing {
      match kind
      case RoundRequested(_, _, _, _) => Standing(Queued, rounds, None)
      case RoundStarted(round) => Standing(Running, if round > rounds then round else rounds, None)
      case RoundLaunched(handle) => this.(launched := Some(handle))
      case RoundPassed => this.(state := Passed)
      case RoundFailed(_) => this.(state := Failed)
      case _ => this
    }
  }

  const NO_STANDING := Standing(Pending, 0, None)

  function StandingOf(log: Log): Standing {
    FromEvents(log).Stands()
  }

  /// The report a log folds to. The last event is applied last.
  function FromEvents(log: Log): JobProgress {
    if log == [] then NO_PROGRESS
    else FromEvents(log[..|log| - 1]).AfterEvent(log[|log| - 1])
  }

  lemma AppendedReport(log: Log, e: Event)
    ensures FromEvents(log + [e]) == FromEvents(log).AfterEvent(e)
    ensures StandingOf(log + [e]) == StandingOf(log).After(e.kind)
  {
    assert (log + [e])[..|log|] == log;
  }
}
