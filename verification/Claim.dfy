// Claiming job ids by creating their branches: any number of claimers, each
// listing and pushing, against one remote (src/claim.rs, src/git.rs). Job
// branches are only ever created, and only by claims.
module Claim {
  import opened Events
  import opened Decimal
  import opened Jobs

  const CLAIM_ATTEMPTS: nat := 16

  type Branches = map<string, string>

  /// `remote_branches_matching(al/job-*)`, in whatever order.
  ghost predicate Lists(listed: seq<string>, branches: Branches) {
    forall b :: b in listed <==> b in branches && BRANCH_PREFIX <= b
  }

  predicate IsJobs(branch: string) {
    FromBranchName(branch).Some?
  }

  datatype Phase =
    | Idle
    | Listing
    | Pushing(id: nat)
    | Won(id: nat)
    | OutOfIds
    | GaveUp
    | Broken

  /// One call of `claim_job`, at `sha`. `lost` are the ids it tried for and
  /// lost, in turn; `began` how many claims there had been when it began.
  datatype Claimer = Claimer(sha: string, phase: Phase, lost: seq<nat>, began: nat)

  /// `winners` are the claimers whose pushes created a branch, in turn.
  datatype Race = Race(branches: Branches, claimers: seq<Claimer>, winners: seq<nat>)

  datatype Step =
    | Begin(i: nat)
    | List(i: nat, listed: seq<string>)
    | Push(i: nat)
    | Fail(i: nat, created: bool)
    | Elsewhere(branch: string, sha: Option<string>)

  ghost predicate Enabled(r: Race, step: Step) {
    match step
    case Begin(i) => i < |r.claimers| && r.claimers[i].phase.Idle?
    case List(i, listed) => i < |r.claimers| && r.claimers[i].phase.Listing? && Lists(listed, r.branches)
    case Push(i) => i < |r.claimers| && r.claimers[i].phase.Pushing?
    case Fail(i, created) =>
      && i < |r.claimers| && (r.claimers[i].phase.Listing? || r.claimers[i].phase.Pushing?)
      && (created ==> r.claimers[i].phase.Pushing? && BranchName(r.claimers[i].phase.id) !in r.branches)
    case Elsewhere(branch, _) => !IsJobs(branch)
  }

  function WithClaimer(r: Race, i: nat, c: Claimer): Race
    requires i < |r.claimers|
  {
    r.(claimers := r.claimers[i := c])
  }

  function Created(r: Race, i: nat): Race
    requires i < |r.claimers| && r.claimers[i].phase.Pushing?
  {
    r.(branches := r.branches[BranchName(r.claimers[i].phase.id) := r.claimers[i].sha], winners := r.winners + [i])
  }

  ghost function Stepped(r: Race, step: Step): Race
    requires Enabled(r, step)
  {
    match step
    case Begin(i) =>
      WithClaimer(r, i, r.claimers[i].(phase := Listing, began := |r.winners|))
    case List(i, listed) =>
      var phase := match JobIdPast(listed) case None => OutOfIds case Some(id) => Pushing(id);
      WithClaimer(r, i, r.claimers[i].(phase := phase))
    case Push(i) =>
      var c := r.claimers[i];
      if BranchName(c.phase.id) !in r.branches then
        WithClaimer(Created(r, i), i, c.(phase := Won(c.phase.id)))
      else
        var lost := c.lost + [c.phase.id];
        WithClaimer(r, i, c.(lost := lost, phase := if |lost| == CLAIM_ATTEMPTS then GaveUp else Listing))
    case Fail(i, created) =>
      WithClaimer(if created then Created(r, i) else r, i, r.claimers[i].(phase := Broken))
    case Elsewhere(branch, sha) =>
      r.(branches := match sha case Some(at) => r.branches[branch := at] case None => r.branches - {branch})
  }

  ghost predicate Runs(r: Race, trace: seq<Step>)
    decreases |trace|
  {
    trace == [] || (Enabled(r, trace[0]) && Runs(Stepped(r, trace[0]), trace[1..]))
  }

  ghost function End(r: Race, trace: seq<Step>): Race
    requires Runs(r, trace)
    decreases |trace|
  {
    if trace == [] then r else End(Stepped(r, trace[0]), trace[1..])
  }

  // ----- the invariant -----

  /// `initial` is the highest id when the race began: the ids above it are
  /// `initial + 1` to `initial + |winners|`, one for each claim there has been.
  ghost predicate IdsOk(branches: Branches, initial: nat, claims: nat) {
    && initial + claims <= U64_MAX
    && (initial > 0 ==> BranchName(initial) in branches)
    && forall id: nat :: initial < id <= U64_MAX ==> (BranchName(id) in branches <==> id <= initial + claims)
  }

  ghost predicate LostOk(lost: seq<nat>, initial: nat, began: nat, claims: nat) {
    && (forall k :: 0 <= k < |lost| ==> initial + began < lost[k] <= initial + claims)
    && (forall k, m :: 0 <= k < m < |lost| ==> lost[k] < lost[m])
  }

  /// Claimer `i`'s own claim, if it has made one, is the one its id stands for.
  ghost predicate ClaimerOk(c: Claimer, i: nat, initial: nat, winners: seq<nat>) {
    && c.began <= |winners|
    && LostOk(c.lost, initial, c.began, |winners|)
    && |c.lost| <= CLAIM_ATTEMPTS && (|c.lost| == CLAIM_ATTEMPTS <==> c.phase.GaveUp?)
    && (c.phase.Idle? ==> c.lost == [])
    && (c.phase.Pushing? ==>
          && initial + c.began < c.phase.id <= initial + |winners| + 1 && c.phase.id <= U64_MAX
          && forall k :: 0 <= k < |c.lost| ==> c.lost[k] < c.phase.id)
    && (c.phase.Won? ==>
          && initial + c.began < c.phase.id <= initial + |winners|
          && winners[c.phase.id - initial - 1] == i
          && forall k :: 0 <= k < |c.lost| ==> c.lost[k] < c.phase.id)
    && (c.phase.OutOfIds? ==> initial + |winners| == U64_MAX)
    && (i in winners ==> c.phase.Won? || c.phase.Broken?)
  }

  ghost predicate WinnersOk(winners: seq<nat>, n: nat) {
    && (forall k :: 0 <= k < |winners| ==> winners[k] < n)
    && (forall k, m :: 0 <= k < m < |winners| ==> winners[k] != winners[m])
  }

  ghost predicate WonShas(r: Race) {
    forall i :: 0 <= i < |r.claimers| && r.claimers[i].phase.Won? ==>
                  BranchName(r.claimers[i].phase.id) in r.branches
                  && r.branches[BranchName(r.claimers[i].phase.id)] == r.claimers[i].sha
  }

  ghost predicate Inv(r: Race, initial: nat) {
    && IdsOk(r.branches, initial, |r.winners|)
    && WinnersOk(r.winners, |r.claimers|)
    && (forall i :: 0 <= i < |r.claimers| ==> ClaimerOk(r.claimers[i], i, initial, r.winners))
    && WonShas(r)
  }

  ghost predicate Starts(r: Race, initial: nat) {
    && IdsOk(r.branches, initial, 0) && r.winners == []
    && forall i :: 0 <= i < |r.claimers| ==>
                     r.claimers[i].phase.Idle? && r.claimers[i].lost == [] && r.claimers[i].began == 0
  }

  lemma JobsAreListed()
    ensures forall id: nat :: BRANCH_PREFIX <= BranchName(id)
  {
  }

  lemma ListedNext(r: Race, initial: nat, listed: seq<string>)
    requires IdsOk(r.branches, initial, |r.winners|) && Lists(listed, r.branches)
    ensures JobIdPast(listed)
            == if initial + |r.winners| == U64_MAX then None else Some(initial + |r.winners| + 1)
  {
    hide BranchName, JobIdPast;
    JobsAreListed();
    JobIdPastIsNext(listed);
    var top := initial + |r.winners|;
    if top > 0 {
      assert BranchName(top) in listed;
    }
    if top < U64_MAX {
      assert BranchName(U64_MAX) !in listed;
      var id := JobIdPast(listed).value;
      assert top > 0 ==> top < id;
      assert id > 1 ==> BranchName(id - 1) in r.branches;
    }
  }

  lemma OneMoreClaim(branches: Branches, initial: nat, claims: nat, id: nat, sha: string)
    requires IdsOk(branches, initial, claims) && initial < id <= initial + claims + 1 && id <= U64_MAX
    requires BranchName(id) !in branches
    ensures id == initial + claims + 1 && IdsOk(branches[BranchName(id) := sha], initial, claims + 1)
  {
    forall other: nat | initial < other <= U64_MAX
      ensures BranchName(other) in branches[BranchName(id) := sha] <==> other <= initial + claims + 1
    {
      if BranchName(other) == BranchName(id) {
        BranchNamesTellApart(other, id);
      }
    }
  }

  lemma OthersUnmoved(c: Claimer, i: nat, initial: nat, winners: seq<nat>, winner: nat)
    requires ClaimerOk(c, i, initial, winners) && i != winner && initial + |winners| < U64_MAX
    ensures ClaimerOk(c, i, initial, winners + [winner])
  {
  }

  lemma WinnerOk(c: Claimer, i: nat, initial: nat, winners: seq<nat>, phase: Phase)
    requires ClaimerOk(c, i, initial, winners) && c.phase.Pushing?
    requires c.phase.id == initial + |winners| + 1
    requires phase == Won(c.phase.id) || phase == Broken
    ensures ClaimerOk(c.(phase := phase), i, initial, winners + [i])
  {
  }

  lemma PushingFacts(c: Claimer, i: nat, initial: nat, winners: seq<nat>)
    requires ClaimerOk(c, i, initial, winners) && c.phase.Pushing?
    ensures initial < c.phase.id <= initial + |winners| + 1 && c.phase.id <= U64_MAX && i !in winners
  {
  }

  lemma WinnersOneMore(winners: seq<nat>, n: nat, i: nat)
    requires WinnersOk(winners, n) && i < n && i !in winners
    ensures WinnersOk(winners + [i], n)
  {
  }

  lemma CreateKeeps(r: Race, initial: nat, i: nat, phase: Phase)
    requires Inv(r, initial) && i < |r.claimers| && r.claimers[i].phase.Pushing?
    requires BranchName(r.claimers[i].phase.id) !in r.branches
    requires phase == Won(r.claimers[i].phase.id) || phase == Broken
    ensures Inv(WithClaimer(Created(r, i), i, r.claimers[i].(phase := phase)), initial)
  {
    hide BranchName, IdsOk, ClaimerOk, WinnersOk;
    var c := r.claimers[i];
    var r' := WithClaimer(Created(r, i), i, c.(phase := phase));
    PushingFacts(c, i, initial, r.winners);
    OneMoreClaim(r.branches, initial, |r.winners|, c.phase.id, c.sha);
    WinnersOneMore(r.winners, |r.claimers|, i);
    forall k | 0 <= k < |r.claimers| ensures ClaimerOk(r'.claimers[k], k, initial, r'.winners) {
      if k != i {
        OthersUnmoved(r.claimers[k], k, initial, r.winners, i);
      } else {
        WinnerOk(c, i, initial, r.winners, phase);
      }
    }
    assert WonShas(r');
  }

  /// A step that changes one claimer and no branch.
  lemma MoveKeeps(r: Race, initial: nat, i: nat, c: Claimer)
    requires Inv(r, initial) && i < |r.claimers| && ClaimerOk(c, i, initial, r.winners)
    requires c.phase.Won? ==> c == r.claimers[i]
    ensures Inv(WithClaimer(r, i, c), initial)
  {
    hide BranchName, IdsOk, ClaimerOk, WinnersOk;
    var r' := WithClaimer(r, i, c);
    forall k | 0 <= k < |r.claimers| ensures ClaimerOk(r'.claimers[k], k, initial, r'.winners) {
    }
  }

  lemma LossKeeps(r: Race, initial: nat, i: nat)
    requires Inv(r, initial) && Enabled(r, Push(i)) && BranchName(r.claimers[i].phase.id) in r.branches
    ensures Inv(Stepped(r, Push(i)), initial)
  {
    var c := r.claimers[i];
    assert ClaimerOk(c, i, initial, r.winners);
    assert c.phase.id <= initial + |r.winners|;
    var lost := c.lost + [c.phase.id];
    LossOk(c, i, initial, r.winners);
    MoveKeeps(r, initial, i, c.(lost := lost, phase := if |lost| == CLAIM_ATTEMPTS then GaveUp else Listing));
  }

  lemma LossOk(c: Claimer, i: nat, initial: nat, winners: seq<nat>)
    requires ClaimerOk(c, i, initial, winners) && c.phase.Pushing? && c.phase.id <= initial + |winners|
    ensures var lost := c.lost + [c.phase.id];
            var phase := if |lost| == CLAIM_ATTEMPTS then GaveUp else Listing;
            ClaimerOk(c.(lost := lost, phase := phase), i, initial, winners)
  {
  }

  lemma ElsewhereKeeps(r: Race, initial: nat, branch: string, sha: Option<string>)
    requires Inv(r, initial) && !IsJobs(branch)
    ensures Inv(Stepped(r, Elsewhere(branch, sha)), initial)
  {
    hide BranchName, ClaimerOk, WinnersOk, FromBranchName;
    var r' := Stepped(r, Elsewhere(branch, sha));
    forall id: nat | id <= U64_MAX
      ensures BranchName(id) != branch
    {
      BranchNamesAreExact(branch, id);
    }
    assert IdsOk(r'.branches, initial, |r.winners|);
    forall i | 0 <= i < |r.claimers| && r.claimers[i].phase.Won?
      ensures BranchName(r.claimers[i].phase.id) != branch
    {
      WonFits(r.claimers[i], i, initial, r.winners);
    }
  }

  lemma WonFits(c: Claimer, i: nat, initial: nat, winners: seq<nat>)
    requires ClaimerOk(c, i, initial, winners) && c.phase.Won? && initial + |winners| <= U64_MAX
    ensures c.phase.id <= U64_MAX
  {
  }

  lemma ListOk(c: Claimer, i: nat, initial: nat, winners: seq<nat>)
    requires ClaimerOk(c, i, initial, winners) && c.phase.Listing?
    ensures initial + |winners| == U64_MAX ==> ClaimerOk(c.(phase := OutOfIds), i, initial, winners)
    ensures initial + |winners| < U64_MAX ==>
              ClaimerOk(c.(phase := Pushing(initial + |winners| + 1)), i, initial, winners)
  {
  }

  lemma StepKeeps(r: Race, initial: nat, step: Step)
    requires Inv(r, initial) && Enabled(r, step)
    ensures Inv(Stepped(r, step), initial)
  {
    hide IdsOk, BranchName, ClaimerOk, WinnersOk, WonShas, LostOk, Lists, JobIdPast;
    match step
    case Begin(i) =>
      BeginOk(r.claimers[i], i, initial, r.winners);
      MoveKeeps(r, initial, i, r.claimers[i].(phase := Listing, began := |r.winners|));
    case List(i, listed) =>
      ListedNext(r, initial, listed);
      ListOk(r.claimers[i], i, initial, r.winners);
      TopFits(r.branches, initial, |r.winners|);
      MoveKeeps(r, initial, i, Stepped(r, step).claimers[i]);
    case Push(i) =>
      if BranchName(r.claimers[i].phase.id) !in r.branches {
        CreateKeeps(r, initial, i, Won(r.claimers[i].phase.id));
      } else {
        LossKeeps(r, initial, i);
      }
    case Fail(i, created) =>
      if created {
        CreateKeeps(r, initial, i, Broken);
      } else {
        BreakOk(r.claimers[i], i, initial, r.winners);
        MoveKeeps(r, initial, i, r.claimers[i].(phase := Broken));
      }
    case Elsewhere(branch, sha) => ElsewhereKeeps(r, initial, branch, sha);
  }

  lemma TopFits(branches: Branches, initial: nat, claims: nat)
    requires IdsOk(branches, initial, claims)
    ensures initial + claims <= U64_MAX
  {
  }

  lemma BeginOk(c: Claimer, i: nat, initial: nat, winners: seq<nat>)
    requires ClaimerOk(c, i, initial, winners) && c.phase.Idle?
    ensures ClaimerOk(c.(phase := Listing, began := |winners|), i, initial, winners)
  {
  }

  lemma BreakOk(c: Claimer, i: nat, initial: nat, winners: seq<nat>)
    requires ClaimerOk(c, i, initial, winners) && (c.phase.Listing? || c.phase.Pushing?)
    ensures ClaimerOk(c.(phase := Broken), i, initial, winners)
  {
  }

  lemma {:induction false} RunKeeps(r: Race, initial: nat, trace: seq<Step>)
    requires Inv(r, initial) && Runs(r, trace)
    ensures Inv(End(r, trace), initial)
    decreases |trace|
  {
    hide Inv, Enabled, Stepped;
    if trace != [] {
      StepKeeps(r, initial, trace[0]);
      RunKeeps(Stepped(r, trace[0]), initial, trace[1..]);
    }
  }

  lemma StartsOk(r: Race, initial: nat)
    requires Starts(r, initial)
    ensures Inv(r, initial)
  {
  }

  // ----- what every race keeps -----

  /// Claims number the ids past the highest one at the start without a gap;
  /// no two claimers won the same one, and each branch is where its winner put
  /// it.
  lemma ClaimsAreContiguous(r: Race, initial: nat, trace: seq<Step>)
    requires Starts(r, initial) && Runs(r, trace)
    ensures var e := End(r, trace);
            && (forall id: nat :: initial < id <= U64_MAX ==>
                                    (BranchName(id) in e.branches <==> id <= initial + |e.winners|))
            && (forall i :: 0 <= i < |e.claimers| && e.claimers[i].phase.Won? ==>
                              var id := e.claimers[i].phase.id;
                              && initial < id && BranchName(id) in e.branches
                              && e.branches[BranchName(id)] == e.claimers[i].sha)
            && (forall i, k :: (0 <= i < k < |e.claimers| && e.claimers[i].phase.Won? && e.claimers[k].phase.Won?) ==>
                                 e.claimers[i].phase.id != e.claimers[k].phase.id)
  {
    hide Stepped, Enabled, BranchName;
    StartsOk(r, initial);
    RunKeeps(r, initial, trace);
    var e := End(r, trace);
    forall i, k | 0 <= i < k < |e.claimers| && e.claimers[i].phase.Won? && e.claimers[k].phase.Won?
      ensures e.claimers[i].phase.id != e.claimers[k].phase.id
    {
      assert ClaimerOk(e.claimers[i], i, initial, e.winners) && ClaimerOk(e.claimers[k], k, initial, e.winners);
    }
  }

  /// The ids a claimer tries strictly increase, and each one it lost went to a
  /// claim made since it began: it loses at most as often as others win.
  lemma LossesAreOthersWins(r: Race, initial: nat, trace: seq<Step>, i: nat)
    requires Starts(r, initial) && Runs(r, trace) && i < |End(r, trace).claimers|
    ensures var e := End(r, trace);
            var c := e.claimers[i];
            && (forall k, m :: 0 <= k < m < |c.lost| ==> c.lost[k] < c.lost[m])
            && (forall k :: 0 <= k < |c.lost| ==>
                              initial + c.began < c.lost[k] <= initial + |e.winners|
                              && (c.phase.Pushing? || c.phase.Won? ==> c.lost[k] < c.phase.id)
                              && (!c.phase.Broken? ==> e.winners[c.lost[k] - initial - 1] != i))
            && |c.lost| <= |e.winners| - c.began && |c.lost| <= 16
  {
    hide Stepped, Enabled, BranchName;
    StartsOk(r, initial);
    RunKeeps(r, initial, trace);
    var e := End(r, trace);
    var c := e.claimers[i];
    assert ClaimerOk(c, i, initial, e.winners);
    IncreasingFits(c.lost, initial + c.began, initial + |e.winners|);
    forall k | 0 <= k < |c.lost| && !c.phase.Broken? ensures e.winners[c.lost[k] - initial - 1] != i {
      if c.phase.Won? {
        assert c.lost[k] < c.phase.id;
        assert WinnersOk(e.winners, |e.claimers|);
      }
    }
  }

  lemma {:induction false} IncreasingFits(s: seq<nat>, above: nat, top: nat)
    requires forall k, m :: 0 <= k < m < |s| ==> s[k] < s[m]
    requires forall k :: 0 <= k < |s| ==> above < s[k] <= top
    requires above <= top
    ensures |s| <= top - above
  {
    if s != [] {
      var n := |s| - 1;
      if above < s[n] {
        IncreasingFits(s[..n], above, s[n] - 1);
      }
    }
  }

  /// A claimer gives up only when sixteen claims have been made under it...
  lemma GivesUpOnlyWhenSixteenWon(r: Race, initial: nat, trace: seq<Step>, i: nat)
    requires Starts(r, initial) && Runs(r, trace) && i < |End(r, trace).claimers|
    requires End(r, trace).claimers[i].phase.GaveUp?
    ensures |End(r, trace).winners| - End(r, trace).claimers[i].began >= 16
    ensures |End(r, trace).claimers[i].lost| == 16 && |r.claimers| > 16
  {
    hide Stepped, Enabled, BranchName;
    LossesAreOthersWins(r, initial, trace, i);
    StartsOk(r, initial);
    RunKeeps(r, initial, trace);
    var e := End(r, trace);
    assert ClaimerOk(e.claimers[i], i, initial, e.winners);
    WinnersFit(e.winners + [i], |e.claimers|);
    SameClaimers(r, trace);
  }

  function Below(n: nat): (s: set<nat>)
    ensures |s| == n && forall k: nat :: k in s <==> k < n
  {
    if n == 0 then {} else Below(n - 1) + {n - 1}
  }

  function Members(winners: seq<nat>): (s: set<nat>)
    ensures forall w :: w in s <==> w in winners
  {
    if winners == [] then {} else Members(winners[..|winners| - 1]) + {winners[|winners| - 1]}
  }

  lemma {:induction false} WinnersCounted(winners: seq<nat>, n: nat)
    requires WinnersOk(winners, n)
    ensures |Members(winners)| == |winners|
  {
    if winners != [] {
      var k := |winners| - 1;
      WinnersCounted(winners[..k], n);
      assert winners[k] !in Members(winners[..k]);
    }
  }

  lemma WinnersFit(winners: seq<nat>, n: nat)
    requires WinnersOk(winners, n)
    ensures |winners| <= n
  {
    WinnersCounted(winners, n);
    assert Members(winners) <= Below(n);
    assert Below(n) == Members(winners) + (Below(n) - Members(winners));
  }

  lemma {:induction false} SameClaimers(r: Race, trace: seq<Step>)
    requires Runs(r, trace)
    ensures |End(r, trace).claimers| == |r.claimers|
    decreases |trace|
  {
    if trace != [] {
      SameClaimers(Stepped(r, trace[0]), trace[1..]);
    }
  }

  /// ...so of up to sixteen claimers, on a remote with ids to spare, each one
  /// that has no step left has won, unless the remote failed it.
  lemma SixteenClaimersAllSucceed(r: Race, initial: nat, trace: seq<Step>, i: nat)
    requires Starts(r, initial) && Runs(r, trace) && i < |r.claimers| <= 16
    requires initial + |r.claimers| <= 18446744073709551615
    ensures |End(r, trace).claimers| == |r.claimers|
    ensures var phase := End(r, trace).claimers[i].phase;
            && (phase.Idle? || phase.Listing? || phase.Pushing? || phase.Won? || phase.Broken?)
            && ((forall step :: Enabled(End(r, trace), step) ==> !IsBy(step, i)) ==> phase.Won? || phase.Broken?)
  {
    hide Stepped, Enabled, BranchName;
    SameClaimers(r, trace);
    StartsOk(r, initial);
    RunKeeps(r, initial, trace);
    var e := End(r, trace);
    assert ClaimerOk(e.claimers[i], i, initial, e.winners);
    if e.claimers[i].phase.GaveUp? {
      GivesUpOnlyWhenSixteenWon(r, initial, trace, i);
    } else if e.claimers[i].phase.OutOfIds? {
      WinnersFit(e.winners + [i], |e.claimers|);
    }
    if !e.claimers[i].phase.Won? && !e.claimers[i].phase.Broken? {
      SomeStepIsLeft(e, i);
    }
  }

  lemma SomeStepIsLeft(r: Race, i: nat)
    requires i < |r.claimers|
    requires r.claimers[i].phase.Idle? || r.claimers[i].phase.Listing? || r.claimers[i].phase.Pushing?
    ensures exists step :: Enabled(r, step) && IsBy(step, i)
  {
    var step := if r.claimers[i].phase.Idle? then Begin(i) else Fail(i, false);
    assert Enabled(r, step) && IsBy(step, i);
  }

  /// How many more steps a claimer has in it: two an attempt, and its start.
  function StepsLeft(c: Claimer): int {
    match c.phase
    case Idle => 2 * CLAIM_ATTEMPTS + 1
    case Listing => 2 * (CLAIM_ATTEMPTS - |c.lost|)
    case Pushing(_) => 2 * (CLAIM_ATTEMPTS - |c.lost|) - 1
    case _ => 0
  }

  predicate IsBy(step: Step, i: nat) {
    !step.Elsewhere? && step.i == i
  }

  function StepsBy(trace: seq<Step>, i: nat): nat {
    if trace == [] then 0 else (if IsBy(trace[0], i) then 1 else 0) + StepsBy(trace[1..], i)
  }

  lemma OwnStepsRunOut(r: Race, initial: nat, step: Step, i: nat)
    requires Inv(r, initial) && Enabled(r, step) && i < |r.claimers|
    ensures var r' := Stepped(r, step);
            && |r'.claimers| == |r.claimers|
            && 0 <= StepsLeft(r'.claimers[i]) <= StepsLeft(r.claimers[i]) - if IsBy(step, i) then 1 else 0
  {
    hide BranchName, IdsOk, WinnersOk, WonShas, Lists, JobIdPast;
    assert ClaimerOk(r.claimers[i], i, initial, r.winners);
    StepKeeps(r, initial, step);
    assert ClaimerOk(Stepped(r, step).claimers[i], i, initial, Stepped(r, step).winners);
  }

  /// A claimer is through after at most sixteen listings and sixteen pushes,
  /// however others' steps come between.
  lemma {:induction false} ClaimersAreSoonThrough(r: Race, initial: nat, trace: seq<Step>, i: nat)
    requires Inv(r, initial) && Runs(r, trace) && i < |r.claimers|
    ensures i < |End(r, trace).claimers|
    ensures 0 <= StepsLeft(End(r, trace).claimers[i]) <= StepsLeft(r.claimers[i]) - StepsBy(trace, i)
    ensures StepsBy(trace, i) <= 33
    decreases |trace|
  {
    hide Inv, Enabled, Stepped, StepsLeft;
    SomeStepsLeft(r, initial, i);
    if trace != [] {
      OwnStepsRunOut(r, initial, trace[0], i);
      StepKeeps(r, initial, trace[0]);
      ClaimersAreSoonThrough(Stepped(r, trace[0]), initial, trace[1..], i);
    }
  }

  lemma SomeStepsLeft(r: Race, initial: nat, i: nat)
    requires Inv(r, initial) && i < |r.claimers|
    ensures 0 <= StepsLeft(r.claimers[i]) <= 33
  {
    assert ClaimerOk(r.claimers[i], i, initial, r.winners);
  }

  /// No job's branch ever moves or goes.
  lemma {:induction false} NoBranchMoves(r: Race, trace: seq<Step>, branch: string)
    requires Runs(r, trace) && IsJobs(branch) && branch in r.branches
    ensures branch in End(r, trace).branches && End(r, trace).branches[branch] == r.branches[branch]
    decreases |trace|
  {
    hide IsJobs, BranchName;
    if trace != [] {
      NoBranchMoves(Stepped(r, trace[0]), trace[1..], branch);
    }
  }

  // ----- one claimer -----

  /// A remote others push to at any moment: at each use of it, what `others`
  /// have made of its branches since the last. `complaint` is why that use of
  /// it fails, if it does.
  class Remote {
    var branches: Branches
    var clock: nat
    const others: (nat, Branches) -> Branches
    const complaint: nat -> Option<string>

    constructor (branches: Branches, others: (nat, Branches) -> Branches, complaint: nat -> Option<string>)
      ensures this.branches == branches && this.others == others && this.complaint == complaint
    {
      this.branches, clock, this.others, this.complaint := branches, 0, others, complaint;
    }

    /// The branches as the next use of the remote finds them.
    function Found(): Branches
      reads this
    {
      others(clock, branches)
    }

    method BranchesMatching() returns (listed: Result<seq<string>>)
      modifies this
      ensures branches == old(Found()) && clock == old(clock) + 1
      ensures match complaint(old(clock)) case Some(why) => listed == Err(why) case None => listed.Ok?
      ensures listed.Ok? ==> Lists(listed.value, branches)
    {
      branches := Found();
      clock := clock + 1;
      if complaint(clock - 1).Some? {
        return Err(complaint(clock - 1).value);
      }
      var rest, names := branches.Keys, [];
      while rest != {}
        invariant rest <= branches.Keys && branches == old(Found()) && clock == old(clock) + 1
        invariant forall b :: b in names <==> b in branches && b !in rest && BRANCH_PREFIX <= b
      {
        var b :| b in rest;
        rest := rest - {b};
        if BRANCH_PREFIX <= b {
          names := names + [b];
        }
      }
      listed := Ok(names);
    }

    /// `false` for a branch that is there already.
    method CreateBranchIfAbsent(sha: string, branch: string) returns (created: Result<bool>)
      modifies this
      ensures clock == old(clock) + 1
      ensures match complaint(old(clock)) case Some(why) => created == Err(why) case None => created.Ok?
      ensures created.Ok? ==> (created.value <==> branch !in old(Found()))
      ensures branches == if created == Ok(true) then old(Found())[branch := sha] else old(Found())
    {
      branches := Found();
      clock := clock + 1;
      if complaint(clock - 1).Some? {
        created := Err(complaint(clock - 1).value);
      } else if branch in branches {
        created := Ok(false);
      } else {
        branches := branches[branch := sha];
        created := Ok(true);
      }
    }
  }

  ghost predicate Keeps(before: Branches, after: Branches) {
    forall id: nat :: id <= U64_MAX && BranchName(id) in before ==>
                        BranchName(id) in after && after[BranchName(id)] == before[BranchName(id)]
  }

  /// Others create branches, and move or delete none that is a job's.
  ghost predicate OthersOnlyCreate(others: (nat, Branches) -> Branches) {
    forall t: nat, b: Branches :: Keeps(b, others(t, b))
  }

  ghost predicate LostTo(lost: seq<nat>, branches: Branches) {
    && (forall k :: 0 <= k < |lost| ==> lost[k] <= U64_MAX && BranchName(lost[k]) in branches)
    && (forall k, m :: 0 <= k < m < |lost| ==> lost[k] < lost[m])
  }

  ghost predicate NoIdLeft(branches: Branches) {
    BranchName(18446744073709551615) in branches
  }

  /// `id` is claimed: past every id lost, on a remote that had no such branch.
  ghost predicate ClaimedAt(id: nat, sha: string, lost: seq<nat>, found: Branches, branches: Branches) {
    && 1 <= id <= U64_MAX
    && (forall k :: 0 <= k < |lost| ==> lost[k] < id)
    && BranchName(id) !in found && branches == found[BranchName(id) := sha]
  }

  /// One listing and one push. `None` is a race lost for `id`.
  method Attempt(remote: Remote, sha: string, ghost lost: seq<nat>)
    returns (won: Option<Result<nat>>, ghost id: nat, ghost found: Branches)
    requires OthersOnlyCreate(remote.others) && LostTo(lost, remote.branches)
    modifies remote
    ensures remote.clock > old(remote.clock)
    ensures Keeps(old(remote.branches), found) && Keeps(found, remote.branches)
    ensures LostTo(if won.None? then lost + [id] else lost, remote.branches)
    ensures won.Some? && won.value.Ok? ==> ClaimedAt(won.value.value, sha, lost, found, remote.branches)
    ensures won.Some? && won.value.Err? ==>
              NoIdLeft(remote.branches) || remote.complaint(remote.clock - 1) == Some(won.value.why)
  {
    hide BranchName, JobIdPast, IsJobs;
    id, found := 0, remote.Found();
    StillLost(lost, remote.branches, found);
    var taken := remote.BranchesMatching();
    if taken.Err? {
      return Some(Err(taken.why)), id, found;
    }
    JobIdPastIsNext(taken.value);
    JobsAreListed();
    var next := JobIdPast(taken.value);
    if next.None? {
      return Some(Err("a job branch has taken the last job id")), id, found;
    }
    id := next.value;
    LostIsTaken(lost, remote.branches, taken.value, id);
    ghost var listed := found;
    found := remote.Found();
    StillLost(lost, listed, found);
    assert Keeps(old(remote.branches), found);
    var created := remote.CreateBranchIfAbsent(sha, BranchName(next.value));
    StillLost(lost, found, remote.branches);
    if created.Err? {
      return Some(Err(created.why)), id, found;
    }
    won := if created.value then Some(Ok(next.value)) else None;
  }

  /// List, then push, until a push makes its branch. An id is lost only to a
  /// branch that is on the remote, each lost one is past the one before, and no
  /// job's branch moves.
  method ClaimJob(remote: Remote, sha: string)
    returns (claimed: Result<nat>, ghost lost: seq<nat>, ghost found: Branches)
    requires OthersOnlyCreate(remote.others)
    modifies remote
    ensures remote.clock > old(remote.clock)
    ensures Keeps(old(remote.branches), found) && Keeps(found, remote.branches)
    ensures LostTo(lost, remote.branches) && |lost| <= 16
    ensures claimed.Ok? ==> |lost| < 16 && ClaimedAt(claimed.value, sha, lost, found, remote.branches)
    ensures claimed.Err? && |lost| < 16 ==>
              NoIdLeft(remote.branches) || remote.complaint(remote.clock - 1) == Some(claimed.why)
  {
    hide BranchName, IsJobs, ClaimedAt, NoIdLeft, LostTo;
    lost, found := [], remote.branches;
    assert LostTo(lost, remote.branches) by { NothingLost(remote.branches); }
    for attempt := 0 to CLAIM_ATTEMPTS
      invariant |lost| == attempt && LostTo(lost, remote.branches)
      invariant remote.clock >= old(remote.clock) && (attempt > 0 ==> remote.clock > old(remote.clock))
      invariant Keeps(old(remote.branches), found) && Keeps(found, remote.branches)
    {
      var won: Option<Result<nat>>;
      ghost var id: nat;
      won, id, found := Attempt(remote, sha, lost);
      if won.Some? {
        return won.value, lost, found;
      }
      lost := lost + [id];
    }
    claimed := Err("could not claim a job id: every attempt lost to another claimer — try again");
  }

  lemma NothingLost(branches: Branches)
    ensures LostTo([], branches)
  {
  }

  lemma StillLost(lost: seq<nat>, before: Branches, after: Branches)
    requires LostTo(lost, before) && Keeps(before, after)
    ensures LostTo(lost, after)
  {
  }

  lemma LostIsTaken(lost: seq<nat>, branches: Branches, taken: seq<string>, id: nat)
    requires LostTo(lost, branches) && Lists(taken, branches) && JobIdPast(taken) == Some(id)
    ensures forall k :: 0 <= k < |lost| ==> lost[k] < id
  {
    hide BranchName, JobIdPast;
    JobsAreListed();
    JobIdPastIsNext(taken);
  }
}
