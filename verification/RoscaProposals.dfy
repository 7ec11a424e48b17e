/**
 What a decided proposal does to the group, field by field, and that a member voted out is
 never paid again until the admin brings it back.
 */
module RoscaProposals {
  import opened Common
  import opened Sums
  import opened RoscaModel
  import opened RoscaGovernance
  import opened RoscaPots
  import opened RoscaTurns

  // --- What an execution changes ---

  /** Group, standing and configuration are as they were. */
  predicate NothingEnacted(s: State, u: State) {
    u.group == s.group && u.standing == s.standing && u.gov.quorumPercent == s.gov.quorumPercent
    && u.gov.maxMembers == s.gov.maxMembers
  }

  /** The target owes no defaults any more and is not suspended; everybody else as before. */
  ghost predicate Pardoned(s: State, u: State, target: Address) {
    && u.group == s.group && u.gov.quorumPercent == s.gov.quorumPercent && u.gov.maxMembers == s.gov.maxMembers
    && u.standing == s.standing.(defaults := s.standing.defaults[target := 0], suspended := u.standing.suspended)
    && TakenOut(s.standing.suspended, u.standing.suspended, target)
  }

  /** The target is neither a member nor in the payout order; everybody else as before. */
  ghost predicate Removed(s: State, u: State, target: Address) {
    && u.standing == s.standing && u.gov.quorumPercent == s.gov.quorumPercent && u.gov.maxMembers == s.gov.maxMembers
    && u.group == s.group.(members := u.group.members, order := u.group.order)
    && TakenOut(s.group.members, u.group.members, target) && TakenOut(s.group.order, u.group.order, target)
  }

  /** The quorum becomes the proposed percentage, if that is one. */
  predicate QuorumSet(s: State, u: State, data: Option<int>) {
    && u.group == s.group && u.standing == s.standing && u.gov.maxMembers == s.gov.maxMembers
    && u.gov.quorumPercent == if data.Some? && 1 <= data.value <= 100 then data.value else s.gov.quorumPercent
  }

  /** The member limit becomes what the low 32 bits of the data say, if the members fit. */
  predicate LimitSet(s: State, u: State, data: Option<int>) {
    && u.group == s.group && u.standing == s.standing && u.gov.quorumPercent == s.gov.quorumPercent
    && u.gov.maxMembers == if data.Some? && 1 <= data.value % 4_294_967_296 <= 100
                              && |s.group.members| <= data.value % 4_294_967_296
                           then data.value % 4_294_967_296 else s.gov.maxMembers
  }

  ghost predicate Enacted(s: State, u: State, p: Proposal) {
    match p.kind
    case PenaltyAppeal => Pardoned(s, u, p.target)
    case RuleChange => QuorumSet(s, u, p.data)
    case MemberRemoval => Removed(s, u, p.target)
    case MaxMembersUpdate => LimitSet(s, u, p.data)
  }

  lemma EnactDoes(s: State, p: Proposal)
    ensures Enacted(s, Enact(s, p), p)
    ensures var u := Enact(s, p); u == s.(group := u.group, standing := u.standing, gov := u.gov)
  {
    if p.kind == PenaltyAppeal {
      WithoutTakesOut(s.standing.suspended, p.target);
    } else if p.kind == MemberRemoval {
      WithoutTakesOut(s.group.members, p.target);
      WithoutTakesOut(s.group.order, p.target);
    }
  }

  lemma SameEnacted(s: State, v: State, u: State, p: Proposal)
    requires Enacted(s, v, p) && u.group == v.group && u.standing == v.standing
    requires u.gov.quorumPercent == v.gov.quorumPercent && u.gov.maxMembers == v.gov.maxMembers
    ensures Enacted(s, u, p)
  {
  }

  lemma ExecuteIs(s: State, e: Env, id: nat, u: State) returns (v: State)
    requires Execute(s, e, id) == Some(u)
    ensures id in s.gov.proposals && id in u.gov.proposals
    ensures v == if u.gov.proposals[id].status == Executed then Enact(s, s.gov.proposals[id]) else s
    ensures u == v.(gov := v.gov.(proposals := u.gov.proposals))
  {
    v := if Passes(s, s.gov.proposals[id]) then Enact(s, s.gov.proposals[id]) else s;
  }

  /** A proposal is decided past its deadline, and only its status changes; one that ends
      executed has exactly its effect, and one that ends rejected has none. */
  lemma ExecutionExact(s: State, e: Env, id: nat, u: State)
    requires Step(s, e, ExecuteCall(id)) == Some(u)
    ensures id in s.gov.proposals && id in u.gov.proposals
    ensures var p, q := s.gov.proposals[id], u.gov.proposals[id];
            && s.pausedAt.None? && p.status == Pending && e.now > p.deadline && q == p.(status := q.status)
            && u == s.(group := u.group, standing := u.standing, gov := u.gov)
            && u.gov == s.gov.(proposals := s.gov.proposals[id := q], quorumPercent := u.gov.quorumPercent,
                               maxMembers := u.gov.maxMembers)
            && (q.status == Executed ==> Enacted(s, u, p))
            && (q.status != Executed ==> q.status == Rejected && NothingEnacted(s, u))
  {
    var v := ExecuteIs(s, e, id, u);
    ExecuteUnfolds(s, e, id);
    GovernanceFrame(s, e, id, u);
    if u.gov.proposals[id].status == Executed {
      EnactDoes(s, s.gov.proposals[id]);
      SameEnacted(s, v, u, s.gov.proposals[id]);
    }
  }

  lemma GovernanceFrame(s: State, e: Env, id: nat, u: State)
    requires Execute(s, e, id) == Some(u)
    ensures u == s.(group := u.group, standing := u.standing, gov := u.gov)
    ensures u.gov == s.gov.(proposals := u.gov.proposals, quorumPercent := u.gov.quorumPercent,
                            maxMembers := u.gov.maxMembers)
  {
    var v := ExecuteIs(s, e, id, u);
    EnactFrame(s, s.gov.proposals[id]);
  }

  lemma EnactFrame(s: State, p: Proposal)
    ensures var u := Enact(s, p);
            && u == s.(group := u.group, standing := u.standing, gov := u.gov)
            && u.gov == s.gov.(quorumPercent := u.gov.quorumPercent, maxMembers := u.gov.maxMembers)
  {
  }

  // --- A member voted out ---

  ghost predicate NotAdministered(run: Run) {
    forall i :: 0 <= i < |run| ==> !run[i].1.AdministerCall?
  }

  /** Only the admin puts anybody into the order. */
  lemma OrderShrinks(s: State, e: Env, c: Call, m: Address)
    requires !c.AdministerCall? && m !in s.group.order
    ensures m !in Next(s, e, c).group.order
  {
    if Step(s, e, c).Some? {
      var u := Step(s, e, c).value;
      if c.ExecuteCall? {
        ExecutionExact(s, e, c.id, u);
        if u.group != s.group {
          assert Removed(s, u, s.gov.proposals[c.id].target);
          NotAdded(s.group.order, u.group.order, s.gov.proposals[c.id].target, m);
        }
      } else {
        OthersSameOrder(s, e, c, u);
      }
    }
  }

  lemma NotAdded(q: seq<Address>, r: seq<Address>, x: Address, m: Address)
    requires TakenOut(q, r, x) && m !in q
    ensures m !in r
  {
    var places :| Picks(q, r, places);
  }

  lemma CompleteSameGroup(s: State, e: Env, u: State)
    requires CompleteRound(s, e) == Some(u)
    ensures u.group == s.group
  {
  }

  lemma RoundSameGroup(s: State, e: Env, c: Call, u: State)
    requires (c.ContributeCall? || c.FinalizeRoundCall?) && Step(s, e, c) == Some(u)
    ensures u.group == s.group
  {
    if c.ContributeCall? {
      var installed := ContributeUnfolds(s, e, c.who, c.token, c.amount);
      if CompleteRound(installed, e) == Some(u) {
        CompleteSameGroup(installed, e, u);
      }
    } else {
      FinalSameGroup(s, e, u);
    }
  }

  lemma FinalSameGroup(s: State, e: Env, u: State)
    requires FinalizeRound(s, e) == Some(u)
    ensures u.group == s.group
  {
    var s1 := s.(standing := s.standing.(defaulters := Defaulters(s, s.group.members)));
    CompleteSameGroup(s1, e, CompleteRound(s1, e).value);
  }

  /** The calls of members that pay out no round. */
  predicate MembersCall(c: Call) {
    c.RequestSkipCall? || c.ClaimRewardsCall? || c.SetReinvestCall? || c.CreateProposalCall? || c.VoteCall?
    || c.DelegateCall? || c.RevokeCall? || c.DepositRewardsCall?
  }

  lemma MembersSameGroup(s: State, e: Env, c: Call, u: State)
    requires MembersCall(c) && Step(s, e, c) == Some(u)
    ensures u.group == s.group
  {
  }

  lemma OthersSameOrder(s: State, e: Env, c: Call, u: State)
    requires !c.AdministerCall? && !c.ExecuteCall? && Step(s, e, c) == Some(u)
    ensures u.group == s.group
  {
    if c.ContributeCall? || c.FinalizeRoundCall? {
      RoundSameGroup(s, e, c, u);
    } else if MembersCall(c) {
      MembersSameGroup(s, e, c, u);
    } else {
      AdminsSameGroup(s, e, c, u);
    }
  }

  lemma AdminsSameGroup(s: State, e: Env, c: Call, u: State)
    requires c.CloseRoundCall? || c.PenaliseCall? || c.SetRewardDistCall? || c.UpdateFeeCall? || c.PauseCall?
             || c.ResumeCall? || c.LapseDelegationsCall? || c.OutsideCall?
    requires Step(s, e, c) == Some(u)
    ensures u.group == s.group
  {
  }

  /** The records that `u` has beyond those of `s` pay others than `m`. */
  ghost predicate NotPaid(s: State, u: State, m: Address) {
    && |s.history| <= |u.history| && u.history[..|s.history|] == s.history
    && forall i :: |s.history| <= i < |u.history| ==> u.history[i].recipient != m
  }

  lemma StepNotPaid(s: State, e: Env, c: Call, m: Address)
    requires m !in s.group.order
    ensures NotPaid(s, Next(s, e, c), m)
  {
    if c.CloseRoundCall? {
      CloseSameHistory(s, e);
    } else {
      StepTurn(s, e, c);
      TurnNotPaid(s, Next(s, e, c), m);
    }
  }

  lemma TurnNotPaid(s: State, u: State, m: Address)
    requires m !in s.group.order && (PaysTurn(s, u) || SameRound(s, u))
    ensures NotPaid(s, u, m)
  {
    if PaysTurn(s, u) {
      RecipientInOrder(s);
    }
  }

  lemma CloseSameHistory(s: State, e: Env)
    ensures Next(s, e, CloseRoundCall).history == s.history
  {
  }

  lemma NotPaidTwice(s: State, t: State, u: State, m: Address)
    requires NotPaid(s, t, m) && NotPaid(t, u, m)
    ensures NotPaid(s, u, m)
  {
    assert u.history[..|s.history|] == u.history[..|t.history|][..|s.history|];
    forall i | |s.history| <= i < |u.history| ensures u.history[i].recipient != m {
      if i < |t.history| {
        assert u.history[i] == u.history[..|t.history|][i];
      }
    }
  }

  /** Whoever is not in the order gets no payout over any run in which the admin does not put
      it there. */
  lemma {:induction false} NeverPaid(s: State, run: Run, m: Address)
    requires m !in s.group.order && NotAdministered(run)
    ensures m !in Exec(s, run).group.order && NotPaid(s, Exec(s, run), m)
    decreases |run|
  {
    if run != [] {
      var t := Next(s, run[0].0, run[0].1);
      OrderShrinks(s, run[0].0, run[0].1, m);
      StepNotPaid(s, run[0].0, run[0].1, m);
      NeverPaid(t, run[1..], m);
      NotPaidTwice(s, t, Exec(t, run[1..]), m);
    }
  }

  /** So a member voted out is not paid again by any later round. */
  lemma RemovedForGood(s: State, e: Env, id: nat, u: State, run: Run)
    requires Step(s, e, ExecuteCall(id)) == Some(u) && id in s.gov.proposals && NotAdministered(run)
    requires s.gov.proposals[id].kind == MemberRemoval
    requires id in u.gov.proposals && u.gov.proposals[id].status == Executed
    ensures NotPaid(u, Exec(u, run), s.gov.proposals[id].target)
    ensures s.gov.proposals[id].target !in Exec(u, run).group.order
  {
    ExecutionExact(s, e, id, u);
    assert Enacted(s, u, s.gov.proposals[id]);
    NeverPaid(u, run, s.gov.proposals[id].target);
  }
}
