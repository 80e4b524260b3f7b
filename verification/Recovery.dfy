// From where a job's report stands to what the next daemon does about it
// (src/daemon/fleet.rs).
module Recovery {
  import opened Events
  import opened Report

  datatype Resumption =
    | Requeue
    | Reattach(round: nat, handle: RoundHandle)
    | LostWhileLaunching(round: nat)

  /// The failure of a started round that left no handle.
  const LOST_WHILE_LAUNCHING := "the daemon was killed while this round was launching"

  function ForReport(report: Standing): Option<Resumption> {
    match report.state
    case Queued => Some(Requeue)
    case Running =>
      (match report.launched
       case Some(handle) => Some(Reattach(report.rounds, handle))
       case None => Some(LostWhileLaunching(report.rounds)))
    case _ => None
  }
}
