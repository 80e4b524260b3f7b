// The shape of a daemon-written log: its requests divide it into epochs, each
// with at most one start and at most one verdict.
module Epochs {
  import opened Events
  import opened Report
  import opened Queue

  /// A request was recorded between the two.
  ghost predicate Separated(log: Log, i: nat, k: nat) {
    exists m :: i < m < k && m < |log| && log[m].kind.RoundRequested?
  }

  predicate ClosesUnstarted(kind: EventKind) {
    kind == RoundFailed(CANCELLED_BEFORE_IT_STARTED)
  }

  /// Two events no epoch holds in this order.
  predicate Clash(first: EventKind, second: EventKind) {
    || (first.RoundStarted? && second.RoundStarted?)
    || (first.IsVerdict() && second.IsVerdict())
    || (first.IsVerdict() && second.RoundStarted?)
    || (first.RoundStarted? && ClosesUnstarted(second))
  }

  ghost predicate EpochsOk(log: Log) {
    && (log != [] ==> log[0].kind.RoundRequested?)
    && forall i, k :: 0 <= i < k < |log| && Clash(log[i].kind, log[k].kind) ==> Separated(log, i, k)
  }

  function StartNumbers(log: Log): seq<nat> {
    if log == [] then []
    else
      var last := log[|log| - 1].kind;
      StartNumbers(log[..|log| - 1]) + if last.RoundStarted? then [last.round] else []
  }

  /// The events at these positions are the starts, numbered so, and no other is.
  ghost predicate AreTheStarts(log: Log, numbers: seq<nat>, at: seq<nat>) {
    && |at| == |numbers| && Ascends(at)
    && (forall k :: 0 <= k < |at| ==> at[k] < |log| && log[at[k]].kind == RoundStarted(numbers[k]))
    && (forall i :: 0 <= i < |log| && log[i].kind.RoundStarted? ==> i in at)
  }

  lemma OneMoreEvent(log: Log, e: Event, numbers: seq<nat>, at: seq<nat>)
    requires AreTheStarts(log, numbers, at)
    ensures if e.kind.RoundStarted? then AreTheStarts(log + [e], numbers + [e.kind.round], at + [|log|])
            else AreTheStarts(log + [e], numbers, at)
  {
    forall i | 0 <= i < |log| && log[i].kind.RoundStarted? ensures i in at + [|log|] {
      assert i in at;
    }
  }

  lemma {:induction false} StartsByPosition(log: Log) returns (at: seq<nat>)
    ensures AreTheStarts(log, StartNumbers(log), at)
  {
    at := [];
    if log == [] {
      NoStarts();
    } else {
      hide AreTheStarts;
      var n := |log| - 1;
      at := StartsByPosition(log[..n]);
      OneMoreEvent(log[..n], log[n], StartNumbers(log[..n]), at);
      assert log[..n] + [log[n]] == log && StartNumbers(log[..n]) + [] == StartNumbers(log[..n]);
      at := if log[n].kind.RoundStarted? then at + [n] else at;
    }
  }

  lemma NoStarts()
    ensures AreTheStarts([], [], [])
  {
  }

  function OneTo(n: nat): seq<nat> {
    seq(n, i => i + 1)
  }

  ghost predicate LogOk(log: Log) {
    EpochsOk(log) && StartNumbers(log) == OneTo(StandingOf(log).rounds)
  }

  /// What may be recorded next, by where the report stands.
  predicate MayFollow(r: Standing, kind: EventKind) {
    match kind
    case RoundRequested(_, _, _, _) => r.state != Queued && r.state != Running
    case RoundStarted(round) => r.state == Queued && round == r.rounds + 1
    case RoundPassed => r.state == Running
    case RoundFailed(_) => if ClosesUnstarted(kind) then r.state == Queued else r.state == Running
    case _ => r.state != Pending
  }

  predicate Decides(kind: EventKind) {
    kind.RoundRequested? || kind.RoundStarted? || kind.IsVerdict()
  }

  /// The event a report's state comes from: no later one decides it.
  ghost predicate LastDecisive(log: Log, i: nat) {
    i < |log| && Decides(log[i].kind) && forall k :: i < k < |log| ==> !Decides(log[k].kind)
  }

  function StateFrom(kind: EventKind): JobState {
    match kind
    case RoundRequested(_, _, _, _) => Queued
    case RoundStarted(_) => Running
    case RoundPassed => Passed
    case _ => Failed
  }

  /// A report's state is the one its last request, start or verdict gives.
  lemma {:induction false} StateIsLastDecisive(log: Log)
    ensures StandingOf(log).state == Pending <==> forall i :: 0 <= i < |log| ==> !Decides(log[i].kind)
    ensures StandingOf(log).state != Pending ==> exists i: nat :: LastDecisive(log, i)
    ensures forall i: nat :: LastDecisive(log, i) ==> StandingOf(log).state == StateFrom(log[i].kind)
    ensures forall i: nat :: LastDecisive(log, i) ==>
                               match log[i].kind
                               case RoundRequested(_, _, _, _) => StandingOf(log).state == Queued
                               case RoundStarted(_) => StandingOf(log).state == Running
                               case RoundPassed => StandingOf(log).state == Passed
                               case RoundFailed(_) => StandingOf(log).state == Failed
                               case _ => false
  {
    if log != [] {
      var n := |log| - 1;
      var before := log[..n];
      StateIsLastDecisive(before);
      AppendedReport(before, log[n]);
      assert before + [log[n]] == log;
      if Decides(log[n].kind) {
        assert LastDecisive(log, n);
      } else {
        forall i: nat | LastDecisive(log, i) ensures LastDecisive(before, i) {
        }
        if i: nat :| LastDecisive(before, i) {
          assert LastDecisive(log, i);
        }
      }
    }
  }

  /// An event that clashes with the next one has a request after it.
  lemma RequestSinceClash(log: Log, i: nat, kind: EventKind) returns (q: nat)
    requires EpochsOk(log) && MayFollow(StandingOf(log), kind)
    requires i < |log| && Clash(log[i].kind, kind)
    ensures i < q < |log| && log[q].kind.RoundRequested?
  {
    StateIsLastDecisive(log);
    var m: nat :| LastDecisive(log, m);
    assert StandingOf(log).state == StateFrom(log[m].kind);
    assert i <= m;
    if log[m].kind.RoundRequested? {
      q := m;
    } else {
      assert Separated(log, i, m);
      q :| i < q < m && log[q].kind.RoundRequested?;
    }
  }

  lemma AppendKeepsEpochs(log: Log, e: Event)
    requires EpochsOk(log) && MayFollow(StandingOf(log), e.kind)
    ensures EpochsOk(log + [e])
  {
    hide StandingOf, MayFollow, Clash;
    var log' := log + [e];
    assert log != [] || e.kind.RoundRequested? by { FirstIsRequest(log, e.kind); }
    forall i, k | 0 <= i < k < |log'| && Clash(log'[i].kind, log'[k].kind) ensures Separated(log', i, k) {
      if k < |log| {
        assert Separated(log, i, k);
        var m :| i < m < k && log[m].kind.RoundRequested?;
        assert log'[m].kind.RoundRequested?;
      } else {
        var q := RequestSinceClash(log, i, e.kind);
        assert log'[q].kind.RoundRequested?;
      }
    }
  }

  lemma FirstIsRequest(log: Log, kind: EventKind)
    requires MayFollow(StandingOf(log), kind)
    ensures log != [] || kind.RoundRequested?
  {
  }

  lemma AppendKeepsLogOk(log: Log, e: Event)
    requires LogOk(log) && MayFollow(StandingOf(log), e.kind)
    ensures LogOk(log + [e])
  {
    AppendKeepsEpochs(log, e);
    AppendedReport(log, e);
    assert (log + [e])[..|log|] == log;
    var n := StandingOf(log).rounds;
    if e.kind.RoundStarted? {
      assert OneTo(n + 1) == OneTo(n) + [n + 1];
    }
  }

  /// From its first request on, a job is named: its repository, base and
  /// provider are known.
  lemma {:induction false} NamedOnceRequested(log: Log)
    requires log != [] && log[0].kind.RoundRequested?
    ensures var report := FromEvents(log);
            report.remoteUrl.Some? && report.base.Some? && report.provider.Some? && report.requestedAt.Some?
            && report.firstPrompt == Some(log[0].kind.prompt)
    ensures FromEvents(log).state != Pending
  {
    if |log| > 1 {
      NamedOnceRequested(log[..|log| - 1]);
    } else {
      assert log[..0] == [];
    }
  }
}
