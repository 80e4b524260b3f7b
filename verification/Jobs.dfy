// A job's id, the branch named for it, and the next free one (src/job.rs,
// src/paths.rs).
module Jobs {
  import opened Events
  import opened Decimal

  const BRANCH_PREFIX := "al/job-"

  function BranchName(id: nat): string {
    BRANCH_PREFIX + Shown(id)
  }

  function FromBranchName(branch: string): Option<nat> {
    if !(BRANCH_PREFIX <= branch) then None
    else
      match ParseU64(branch[|BRANCH_PREFIX|..])
      case None => None
      case Some(id) => if BranchName(id) == branch then Some(id) else None
  }

  /// A branch is a job's exactly when it is the name that id's job is given:
  /// no two ids share one, and near misses belong to none.
  lemma BranchNamesAreExact(branch: string, id: nat)
    ensures FromBranchName(branch) == Some(id) <==> id <= 18446744073709551615 && branch == "al/job-" + Shown(id)
    ensures BranchName(id) == "al/job-" + Shown(id)
  {
    ParseShown(id);
    assert BranchName(id)[|BRANCH_PREFIX|..] == Shown(id);
  }

  lemma BranchNamesTellApart(a: nat, b: nat)
    requires BranchName(a) == BranchName(b)
    ensures a == b
  {
    assert BranchName(a)[|BRANCH_PREFIX|..] == Shown(a);
    assert BranchName(b)[|BRANCH_PREFIX|..] == Shown(b);
    ShownTellsApart(a, b);
  }

  /// The highest id any of the branches is named for; 0 when none is.
  function HighestId(branches: seq<string>): nat {
    if branches == [] then 0
    else
      var below := HighestId(branches[1..]);
      match FromBranchName(branches[0])
      case None => below
      case Some(id) => if id > below then id else below
  }

  function JobIdPast(branches: seq<string>): Option<nat> {
    if HighestId(branches) == U64_MAX then None else Some(HighestId(branches) + 1)
  }

  lemma {:induction false} HighestIdIsHighest(branches: seq<string>)
    ensures HighestId(branches) <= U64_MAX
    ensures HighestId(branches) == 0 || BranchName(HighestId(branches)) in branches
    ensures forall id: nat :: id <= U64_MAX && BranchName(id) in branches ==> id <= HighestId(branches)
  {
    if branches != [] {
      HighestIdIsHighest(branches[1..]);
      forall id: nat | id <= U64_MAX && BranchName(id) in branches ensures id <= HighestId(branches) {
        BranchNamesAreExact(branches[0], id);
      }
      var first := FromBranchName(branches[0]);
      if first.Some? {
        BranchNamesAreExact(branches[0], first.value);
      }
    }
  }

  /// The next id is past every job's branch and one past some job's, or is 1;
  /// none is left exactly when some branch has the highest
  /// id of 64 bits.
  lemma JobIdPastIsNext(branches: seq<string>)
    ensures JobIdPast(branches) == None <==> BranchName(18446744073709551615) in branches
    ensures JobIdPast(branches).Some? ==>
              var id := JobIdPast(branches).value;
              && 1 <= id <= 18446744073709551615 && BranchName(id) !in branches
              && (id == 1 || BranchName(id - 1) in branches)
              && forall taken: nat :: taken <= U64_MAX && BranchName(taken) in branches ==> taken < id
  {
    hide BranchName, HighestId;
    HighestIdIsHighest(branches);
  }
}
