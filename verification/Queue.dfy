// The cancel table, the line and the two tallies, as values
// (src/daemon/dispatch.rs). `Dispatch.Daemon` updates them in place.
module Queue {
  import opened Report

  /// A job's address, compared and never looked into.
  type Job = nat

  /// A cancellation token, known by when it was made.
  type Token = nat

  const CANCELLED_BEFORE_IT_STARTED := "cancelled before it started"

  datatype LaunchedRound = LaunchedRound(round: nat, token: Token)
  {
    /// A Queued report awaits the round after its count, a Running one the
    /// last it counts, any other none.
    predicate IsAwaitedBy(report: Standing) {
      match report.state
      case Queued => report.rounds + 1 == round
      case Running => report.rounds == round
      case _ => false
    }
  }

  predicate HasAwaited(table: map<Job, LaunchedRound>, j: Job, report: Standing) {
    j in table && table[j].IsAwaitedBy(report)
  }

  datatype Decision = Fire(token: Token) | Close | Refuse

  datatype QueueState = QueueState(
    table: map<Job, LaunchedRound>,
    fired: set<Token>,
    nextToken: Token,
    pending: seq<Job>,
    running: int,
    launching: int,
    stopping: bool)
  {
    predicate Awaits(j: Job, report: Standing) {
      HasAwaited(table, j, report)
    }

    function CancelDecision(j: Job, report: Standing): Decision {
      if Awaits(j, report) then Fire(table[j].token)
      else if report.state.Queued? then Close
      else Refuse
    }

    predicate MayRegister(j: Job, report: Standing) {
      report.state.Queued? && !Awaits(j, report)
    }

    function Registering(j: Job, round: nat): QueueState {
      this.(table := table[j := LaunchedRound(round, nextToken)], nextToken := nextToken + 1)
    }

    /// Only the entry of this very round goes; a later round's stays.
    function Unregistering(j: Job, round: nat): QueueState {
      if j in table && table[j].round == round then this.(table := table - {j}) else this
    }

    function Firing(token: Token): QueueState { this.(fired := fired + {token}) }

    function Enqueuing(j: Job): QueueState { this.(pending := pending + [j]) }

    function Slotting(): QueueState { this.(running := running + 1) }

    function SlotFreed(): QueueState { this.(running := running - 1) }

    function CountingLaunch(): QueueState { this.(launching := launching + 1) }

    function LaunchSettled(): QueueState { this.(launching := launching - 1) }
  }

  const EMPTY_QUEUE := QueueState(map[], {}, 0, [], 0, 0, false)
}
