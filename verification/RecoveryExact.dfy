// What a starting daemon owes a job, read off the job's log event by event
// (src/daemon/fleet.rs).
module RecoveryExact {
  import opened Events
  import opened Report
  import opened Recovery
  import opened Queue
  import opened Epochs
  import opened Lifecycle
  import LifecycleSafety

  predicate Restarts(kind: EventKind) {
    kind.RoundRequested? || kind.RoundStarted?
  }

  ghost predicate LastRestart(log: Log, i: nat) {
    i < |log| && Restarts(log[i].kind) && forall k :: i < k < |log| ==> !Restarts(log[k].kind)
  }

  ghost predicate NoLaunchSince(log: Log, i: nat) {
    forall k :: i < k < |log| ==> !log[k].kind.RoundLaunched?
  }

  /// The last launch recorded since `i` has this handle.
  ghost predicate LastLaunchSince(log: Log, i: nat, handle: RoundHandle) {
    exists m: nat :: IsLastLaunch(log, i, m) && log[m].kind.handle == handle
  }

  ghost predicate IsLastLaunch(log: Log, i: nat, m: nat) {
    i < m < |log| && log[m].kind.RoundLaunched? && NoLaunchSince(log, m)
  }

  lemma {:induction false} LaunchedIsLastLaunch(log: Log, i: nat)
    requires LastRestart(log, i)
    ensures StandingOf(log).launched == None <==> NoLaunchSince(log, i)
    ensures StandingOf(log).launched.Some? ==> LastLaunchSince(log, i, StandingOf(log).launched.value)
  {
    var n := |log| - 1;
    var before := log[..n];
    assert before + [log[n]] == log;
    AppendedReport(before, log[n]);
    if i < n {
      assert LastRestart(before, i);
      LaunchedIsLastLaunch(before, i);
      if log[n].kind.RoundLaunched? {
        assert IsLastLaunch(log, i, n);
      } else if StandingOf(before).launched.Some? {
        var m: nat :| IsLastLaunch(before, i, m) && before[m].kind.handle == StandingOf(before).launched.value;
        assert IsLastLaunch(log, i, m);
      } else {
        assert forall k :: i < k < |log| ==> log[k] == (before + [log[n]])[k];
      }
    }
  }

  lemma {:induction false} LastStartIsLatest(log: Log, i: nat)
    requires i < |log| && log[i].kind.RoundStarted?
    requires forall k :: i < k < |log| ==> !log[k].kind.RoundStarted?
    ensures StartNumbers(log) != [] && StartNumbers(log)[|StartNumbers(log)| - 1] == log[i].kind.round
  {
    if i < |log| - 1 {
      LastStartIsLatest(log[..|log| - 1], i);
    }
  }

  /// On every reachable log: requeue exactly when the last decisive event is
  /// a request; reattach, with the round of that start and the handle last
  /// recorded since it, exactly when it is a start with a launch since; lost
  /// exactly when it is a start with none; nothing owed in every other case.
  lemma ResumptionIsExact(trace: seq<Step>, j: Job)
    requires Runs(INITIALLY, trace)
    ensures var log := End(INITIALLY, trace).LogOf(j);
            var owed := ForReport(StandingOf(log));
            && (owed == None <==> forall i: nat :: LastDecisive(log, i) ==> log[i].kind.IsVerdict())
            && forall i: nat :: LastDecisive(log, i) ==> OwedSince(log, i, owed)
  {
    hide Runs, End, LogOk;
    LifecycleSafety.ReachableIsGood(trace);
    LifecycleSafety.EmptyLogOk();
    var log := End(INITIALLY, trace).LogOf(j);
    assert LogOk(log);
    ResumptionFrom(log);
  }

  /// What is owed when the last decisive event is the one at `i`.
  ghost predicate OwedSince(log: Log, i: nat, owed: Option<Resumption>)
    requires i < |log|
  {
    match log[i].kind
    case RoundRequested(_, _, _, _) => owed == Some(Requeue)
    case RoundStarted(round) =>
      if NoLaunchSince(log, i) then owed == Some(Resumption.LostWhileLaunching(round))
      else owed.Some? && owed.value.Reattach? && owed.value.round == round
           && LastLaunchSince(log, i, owed.value.handle)
    case _ => owed == None
  }

  lemma ResumptionFrom(log: Log)
    requires LogOk(log)
    ensures var owed := ForReport(StandingOf(log));
            && (owed == None <==> forall i: nat :: LastDecisive(log, i) ==> log[i].kind.IsVerdict())
            && forall i: nat :: LastDecisive(log, i) ==> OwedSince(log, i, owed)
  {
    hide EpochsOk, StandingOf, LastLaunchSince;
    StateIsLastDecisive(log);
    forall i: nat | LastDecisive(log, i) ensures OwedSince(log, i, ForReport(StandingOf(log))) {
      if log[i].kind.RoundStarted? {
        assert LastRestart(log, i);
        LaunchedIsLastLaunch(log, i);
        LastStartIsLatest(log, i);
      }
    }
  }
}
