// What happens to one job, as its append-only log records it (src/event.rs,
// src/state.rs). JSON and RFC 3339 are left out: an event is a value and an
// instant a natural number.
module Events {

  datatype Option<T> = None | Some(value: T)
  {
    function OrElse(other: Option<T>): Option<T> {
      if Some? then this else other
    }
  }

  datatype Result<T> = Ok(value: T) | Err(why: string)

  type Instant = nat

  datatype PinnedRef = PinnedRef(name: string, sha: string)

  /// What a runner can find a round by, whoever launched it.
  datatype RoundHandle =
    | Local(pid: int, frames: string)
    | Docker(container: string)
    | Kubernetes(job: string)

  datatype JobState = Pending | Queued | Running | Passed | Failed

  datatype EventKind =
    | RoundRequested(remoteUrl: string, base: PinnedRef, prompt: string, provider: string)
    | RoundStarted(round: nat)
    | RoundLaunched(handle: RoundHandle)
    | RoundCommitted(sha: string, files: nat, insertions: nat, deletions: nat)
    | BranchPushed(branch: string, pushedTo: string)
    | PullRequestOpened(url: string)
    | VerifyRejected(reason: string)
    | RoundPassed
    | RoundFailed(reason: string)
  {
    predicate IsVerdict() { RoundPassed? || RoundFailed? }

    /// What a round's stream may carry before its verdict.
    predicate IsWork() { RoundCommitted? || BranchPushed? || VerifyRejected? }
  }

  datatype Event = Event(at: Instant, kind: EventKind)

  type Log = seq<Event>

  /// Work, then one verdict, at `n`; and after a pass, perhaps a pull request.
  ghost predicate TellsOneRound(events: seq<Event>, n: nat) {
    && n < |events| && events[n].kind.IsVerdict()
    && (forall i :: 0 <= i < n ==> events[i].kind.IsWork())
    && (|events| == n + 1
        || (|events| == n + 2 && events[n].kind.RoundPassed? && events[n + 1].kind.PullRequestOpened?))
  }

  /// Positions in order.
  predicate Ascends(at: seq<nat>) {
    forall k, m :: 0 <= k < m < |at| ==> at[k] < at[m]
  }
}
