// What a report says, read off the log it was folded from: which event each of
// its facts comes from (src/report.rs).
module Account {
  import opened Events
  import opened Report

  type Kinds = EventKind -> bool

  /// The last event of `wanted` with none of `cut` after it.
  function Newest(log: Log, wanted: Kinds, cut: Kinds): Option<nat> {
    if log == [] then None
    else
      var n := |log| - 1;
      if wanted(log[n].kind) then Some(n) else if cut(log[n].kind) then None else Newest(log[..n], wanted, cut)
  }

  function Oldest(log: Log, wanted: Kinds): Option<nat> {
    if log == [] then None
    else
      var n := |log| - 1;
      Oldest(log[..n], wanted).OrElse(if wanted(log[n].kind) then Some(n) else None)
  }

  lemma {:induction false} NewestIsNewest(log: Log, wanted: Kinds, cut: Kinds)
    ensures match Newest(log, wanted, cut)
            case Some(i) =>
              && i < |log| && wanted(log[i].kind)
              && forall k :: i < k < |log| ==> !wanted(log[k].kind) && !cut(log[k].kind)
            case None =>
              forall i :: 0 <= i < |log| && wanted(log[i].kind) ==>
                            exists k :: i < k < |log| && cut(log[k].kind)
  {
    if log != [] {
      var n := |log| - 1;
      NewestIsNewest(log[..n], wanted, cut);
      if Newest(log, wanted, cut) == None {
        forall i | 0 <= i < |log| && wanted(log[i].kind) ensures exists k :: i < k < |log| && cut(log[k].kind) {
          if !cut(log[n].kind) {
            assert log[..n][i] == log[i];
            var k :| i < k < n && cut(log[..n][k].kind);
            assert cut(log[k].kind);
          }
        }
      }
    }
  }

  lemma {:induction false} OldestIsOldest(log: Log, wanted: Kinds)
    ensures match Oldest(log, wanted)
            case Some(i) => i < |log| && wanted(log[i].kind) && forall k :: 0 <= k < i ==> !wanted(log[k].kind)
            case None => forall i :: 0 <= i < |log| ==> !wanted(log[i].kind)
  {
    if log != [] {
      OldestIsOldest(log[..|log| - 1], wanted);
    }
  }

  const NEVER: Kinds := (_: EventKind) => false
  const REQUESTS: Kinds := (kind: EventKind) => kind.RoundRequested?
  const STARTS: Kinds := (kind: EventKind) => kind.RoundStarted?
  const RESTARTS: Kinds := (kind: EventKind) => kind.RoundRequested? || kind.RoundStarted?
  const LAUNCHES: Kinds := (kind: EventKind) => kind.RoundLaunched?
  const COMMITS: Kinds := (kind: EventKind) => kind.RoundCommitted?
  const PUSHES: Kinds := (kind: EventKind) => kind.BranchPushed?
  const PULL_REQUESTS: Kinds := (kind: EventKind) => kind.PullRequestOpened?
  const FAILURES: Kinds := (kind: EventKind) => kind.RoundFailed?
  const VERDICTS: Kinds := (kind: EventKind) => kind.IsVerdict()

  lemma KindsAreNamed(kind: EventKind)
    ensures !NEVER(kind)
    ensures REQUESTS(kind) <==> kind.RoundRequested?
    ensures STARTS(kind) <==> kind.RoundStarted?
    ensures RESTARTS(kind) <==> kind.RoundRequested? || kind.RoundStarted?
    ensures LAUNCHES(kind) <==> kind.RoundLaunched?
    ensures COMMITS(kind) <==> kind.RoundCommitted?
    ensures PUSHES(kind) <==> kind.BranchPushed?
    ensures PULL_REQUESTS(kind) <==> kind.PullRequestOpened?
    ensures FAILURES(kind) <==> kind.RoundFailed?
    ensures VERDICTS(kind) <==> kind.RoundPassed? || kind.RoundFailed?
  {
  }

  /// A job keeps the remote and the prompt it was first asked for with; the
  /// rest of what was asked is the latest request's.
  lemma {:induction false} RequestsAreReported(log: Log)
    ensures var report := FromEvents(log);
            && (match Oldest(log, REQUESTS)
                case None => report.remoteUrl == None == report.firstPrompt
                case Some(i) =>
                  && i < |log| && log[i].kind.RoundRequested?
                  && report.remoteUrl == Some(log[i].kind.remoteUrl) && report.firstPrompt == Some(log[i].kind.prompt))
            && (match Newest(log, REQUESTS, NEVER)
                case None =>
                  && report.latestPrompt == None && report.base == None
                  && report.provider == None && report.requestedAt == None
                case Some(i) =>
                  && i < |log| && log[i].kind.RoundRequested?
                  && report.latestPrompt == Some(log[i].kind.prompt) && report.base == Some(log[i].kind.base)
                  && report.provider == Some(log[i].kind.provider) && report.requestedAt == Some(log[i].at))
  {
    if log != [] {
      RequestsAreReported(log[..|log| - 1]);
    }
  }

  /// The branch and the pull request are the last ever told of; the diff is
  /// the last round's.
  lemma {:induction false} WorkIsReported(log: Log)
    ensures var report := FromEvents(log);
            && (match Newest(log, PUSHES, NEVER)
                case None => report.branch == None
                case Some(i) => i < |log| && log[i].kind.BranchPushed? && report.branch == Some(log[i].kind.branch))
            && (match Newest(log, PULL_REQUESTS, NEVER)
                case None => report.pullRequest == None
                case Some(i) =>
                  i < |log| && log[i].kind.PullRequestOpened? && report.pullRequest == Some(log[i].kind.url))
            && (match Newest(log, COMMITS, RESTARTS)
                case None => report.committedDiff == None
                case Some(i) =>
                  && i < |log| && log[i].kind.RoundCommitted?
                  && report.committedDiff
                     == Some(DiffSummary(log[i].kind.files, log[i].kind.insertions, log[i].kind.deletions)))
  {
    if log != [] {
      WorkIsReported(log[..|log| - 1]);
    }
  }

  /// A round's handle and the reason it failed are those told since it was
  /// last asked for or started.
  lemma {:induction false} RoundIsReported(log: Log)
    ensures var report := FromEvents(log);
            && (match Newest(log, LAUNCHES, RESTARTS)
                case None => report.launched == None
                case Some(i) => i < |log| && log[i].kind.RoundLaunched? && report.launched == Some(log[i].kind.handle))
            && (match Newest(log, FAILURES, RESTARTS)
                case None => report.detail == None
                case Some(i) => i < |log| && log[i].kind.RoundFailed? && report.detail == Some(log[i].kind.reason))
  {
    if log != [] {
      RoundIsReported(log[..|log| - 1]);
    }
  }

  /// The time a round took runs from its start to its verdict; there is none
  /// for one never started, or whose clock ran backwards.
  lemma {:induction false} TimeIsReported(log: Log)
    ensures match Newest(log, STARTS, REQUESTS)
            case None => FromEvents(log).roundStartedAt == None
            case Some(i) => i < |log| && FromEvents(log).roundStartedAt == Some(log[i].at)
    ensures match Newest(log, VERDICTS, REQUESTS)
            case None => FromEvents(log).lastRoundDuration == None
            case Some(i) =>
              && i < |log|
              && FromEvents(log).lastRoundDuration ==
                 match FromEvents(log[..i]).roundStartedAt
                 case None => None
                 case Some(start) => if start <= log[i].at then Some(log[i].at - start) else None
  {
    if log != [] {
      var n := |log| - 1;
      var before := log[..n];
      TimeIsReported(before);
      NewestIsNewest(before, VERDICTS, REQUESTS);
      NewestIsNewest(before, STARTS, REQUESTS);
      var i := Newest(before, VERDICTS, REQUESTS);
      assert i.Some? ==> before[..i.value] == log[..i.value];
    }
  }

  /// The count of rounds is the highest number started.
  lemma {:induction false} RoundsAreReported(log: Log)
    ensures forall i :: 0 <= i < |log| && log[i].kind.RoundStarted? ==> log[i].kind.round <= FromEvents(log).rounds
    ensures FromEvents(log).rounds == 0
            || exists i :: 0 <= i < |log| && log[i].kind.RoundStarted? && log[i].kind.round == FromEvents(log).rounds
  {
    if log != [] {
      var n := |log| - 1;
      var before := log[..n];
      RoundsAreReported(before);
      if FromEvents(log).rounds == FromEvents(before).rounds != 0 {
        var i :| 0 <= i < n && before[i].kind.RoundStarted? && before[i].kind.round == FromEvents(before).rounds;
        assert log[i].kind.RoundStarted?;
      }
    }
  }
}
