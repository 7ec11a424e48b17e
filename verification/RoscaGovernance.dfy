/**
 Delegated voting: delegations never form a cycle, tallies count every address once,
 and a proposal is decided once, by the quorum and majority it was created under.
 */
module RoscaGovernance {
  import opened Common
  import opened Ledger
  import opened Sums
  import opened RoscaModel

  type Delegations = map<Address, Address>

  // --- The delegation graph ---

  function Hop(d: Delegations, m: Address): Address {
    if m in d then d[m] else m
  }

  /** Where following delegations from `m` leads after `k` hops. */
  function Walk(d: Delegations, m: Address, k: nat): Address
    decreases k
  {
    if k == 0 then m else Walk(d, Hop(d, m), k - 1)
  }

  /** Delegates to nobody, or to itself. */
  predicate Terminal(d: Delegations, m: Address) {
    Hop(d, m) == m
  }

  predicate Settles(d: Delegations, m: Address, k: nat) {
    Terminal(d, Walk(d, m, k))
  }

  ghost predicate Acyclic(d: Delegations) {
    forall m :: Settles(d, m, |d|)
  }

  lemma {:induction false} WalkFromTerminal(d: Delegations, m: Address, k: nat)
    ensures Terminal(d, m) ==> Walk(d, m, k) == m
    decreases k
  {
    if k > 0 {
      WalkFromTerminal(d, m, k - 1);
    }
  }

  lemma {:induction false} SettlesLater(d: Delegations, m: Address, k: nat, j: nat)
    requires k <= j && Settles(d, m, k)
    ensures Settles(d, m, j)
    decreases k
  {
    if k == 0 {
      WalkFromTerminal(d, m, j);
    } else {
      SettlesLater(d, Hop(d, m), k - 1, j - 1);
    }
  }

  /** The delegators met on the way to the end of a chain are all different. */
  lemma {:induction false} ChainMembers(d: Delegations, m: Address, k: nat) returns (chain: set<Address>)
    requires Settles(d, m, k) && (k > 0 ==> !Settles(d, m, k - 1))
    ensures |chain| == k && chain <= d.Keys && forall x :: x in chain ==> Settles(d, x, k)
    decreases k
  {
    if k == 0 {
      chain := {};
    } else {
      var next := Hop(d, m);
      var rest := ChainMembers(d, next, k - 1);
      forall x | x in rest ensures x != m && Settles(d, x, k) {
        SettlesLater(d, x, k - 1, k);
      }
      WalkFromTerminal(d, m, k - 1);
      chain := {m} + rest;
    }
  }

  lemma {:induction false} Shorten(d: Delegations, m: Address, k: nat)
    requires Settles(d, m, k)
    ensures Settles(d, m, |d|)
  {
    if k > 0 && Settles(d, m, k - 1) {
      Shorten(d, m, k - 1);
    } else {
      var chain := ChainMembers(d, m, k);
      SubsetOfEqualSize(chain, d.Keys);
      SettlesLater(d, m, k, |d|);
    }
  }

  /** Delegating to someone who does not delegate lengthens a chain by at most one. */
  lemma {:induction false} DelegateSettles(d: Delegations, from: Address, to: Address, m: Address, k: nat)
    requires to !in d && Settles(d, m, k)
    ensures Settles(d[from := to], m, k + 1)
    decreases k
  {
    var after := d[from := to];
    if m == from {
      assert Terminal(after, to);
      WalkFromTerminal(after, to, k);
    } else if Terminal(d, m) {
      WalkFromTerminal(after, m, k + 1);
    } else {
      if k == 0 {
        assert false;
      }
      DelegateSettles(d, from, to, Hop(d, m), k - 1);
    }
  }

  lemma {:induction false} RevokeSettles(d: Delegations, from: Address, m: Address, k: nat)
    requires Settles(d, m, k)
    ensures Settles(d - {from}, m, k)
    decreases k
  {
    var after := d - {from};
    if m == from || Terminal(d, m) {
      WalkFromTerminal(after, m, k);
    } else if k > 0 {
      RevokeSettles(d, from, Hop(d, m), k - 1);
    }
  }

  lemma {:induction false} WalkThenHop(d: Delegations, m: Address, k: nat)
    ensures Walk(d, Hop(d, m), k) == Hop(d, Walk(d, m, k))
    decreases k
  {
    if k > 0 {
      WalkThenHop(d, Hop(d, m), k - 1);
    }
  }

  /** Whoever is reached again from itself delegates to nobody else. */
  lemma {:induction false} NoCycle(d: Delegations, m: Address, k: nat, j: nat)
    requires Settles(d, m, k) && j > 0 && Walk(d, m, j) == m
    ensures Terminal(d, m)
    decreases k
  {
    if k > 0 && !Terminal(d, m) {
      WalkThenHop(d, m, j);
      WalkFromTerminal(d, Hop(d, m), j - 1);
      NoCycle(d, Hop(d, m), k - 1, j);
    }
  }

  lemma DelegateAcyclic(d: Delegations, from: Address, to: Address)
    requires Acyclic(d) && to !in d
    ensures Acyclic(d[from := to])
  {
    var u := d[from := to];
    forall m ensures Settles(u, m, |u|) {
      assert Settles(d, m, |d|);
      DelegateSettles(d, from, to, m, |d|);
      Shorten(u, m, |d| + 1);
    }
  }

  lemma RevokeAcyclic(d: Delegations, from: Address)
    requires Acyclic(d)
    ensures Acyclic(d - {from})
  {
    var u := d - {from};
    forall m ensures Settles(u, m, |u|) {
      assert Settles(d, m, |d|);
      RevokeSettles(d, from, m, |d|);
      Shorten(u, m, |d|);
    }
  }

  lemma DelegationsStepAcyclic(s: State, e: Env, c: Call)
    requires Acyclic(s.gov.delegations) && (c.DelegateCall? || c.RevokeCall?)
    ensures Acyclic(Next(s, e, c).gov.delegations)
  {
    if Step(s, e, c).Some? {
      if c.DelegateCall? {
        DelegateAcyclic(s.gov.delegations, c.who, c.to);
      } else {
        RevokeAcyclic(s.gov.delegations, c.who);
      }
    }
  }

  // --- What the other calls leave alone ---

  predicate SameBallots(s: State, u: State) {
    && u.cfg == s.cfg && u.gov.proposals == s.gov.proposals && u.gov.votes == s.gov.votes
    && u.gov.counter == s.gov.counter
  }

  predicate Ballots(c: Call) {
    c.CreateProposalCall? || c.VoteCall? || c.ExecuteCall?
  }

  lemma CompleteRoundGovernance(s: State, e: Env)
    requires CompleteRound(s, e).Some?
    ensures var u := CompleteRound(s, e).value; u.gov == s.gov && u.cfg == s.cfg
  {
  }

  lemma RoundsGovernance(s: State, e: Env, c: Call)
    requires (c.ContributeCall? || c.FinalizeRoundCall?) && Step(s, e, c).Some?
    ensures var u := Step(s, e, c).value; u.gov == s.gov && u.cfg == s.cfg
  {
    if c.ContributeCall? {
      var installed := ContributeUnfolds(s, e, c.who, c.token, c.amount);
      if CompleteRound(installed, e).Some? {
        CompleteRoundGovernance(installed, e);
      }
    } else {
      CompleteRoundGovernance(s.(standing := s.standing.(defaulters := Defaulters(s, s.group.members))), e);
    }
  }

  predicate ChangesDelegations(c: Call) {
    c.DelegateCall? || c.RevokeCall? || c.LapseDelegationsCall?
  }

  lemma OthersSameBallots(s: State, e: Env, c: Call)
    requires !Ballots(c) && !c.ContributeCall? && !c.FinalizeRoundCall? && Step(s, e, c).Some?
    ensures SameBallots(s, Step(s, e, c).value)
    ensures !ChangesDelegations(c) ==> Step(s, e, c).value.gov.delegations == s.gov.delegations
  {
  }

  lemma BallotsSameDelegations(s: State, e: Env, c: Call)
    requires Ballots(c) && Step(s, e, c).Some?
    ensures var u := Step(s, e, c).value; u.cfg == s.cfg && u.gov.delegations == s.gov.delegations
  {
  }

  lemma StepKeepsAcyclic(s: State, e: Env, c: Call)
    requires Acyclic(s.gov.delegations)
    ensures Acyclic(Next(s, e, c).gov.delegations)
  {
    if Step(s, e, c).Some? {
      if c.DelegateCall? || c.RevokeCall? {
        DelegationsStepAcyclic(s, e, c);
      } else if c.LapseDelegationsCall? {
        assert Next(s, e, c).gov.delegations == map[];
      } else if Ballots(c) {
        BallotsSameDelegations(s, e, c);
      } else if c.ContributeCall? || c.FinalizeRoundCall? {
        RoundsGovernance(s, e, c);
      } else {
        OthersSameBallots(s, e, c);
      }
    }
  }

  lemma {:induction false} RunKeepsAcyclic(s: State, run: Run)
    requires Acyclic(s.gov.delegations)
    ensures Acyclic(Exec(s, run).gov.delegations)
    decreases |run|
  {
    if run != [] {
      StepKeepsAcyclic(s, run[0].0, run[0].1);
      RunKeepsAcyclic(Next(s, run[0].0, run[0].1), run[1..]);
    }
  }

  /** In every reachable state, a chain of delegations from any member ends, within as
      many hops as there are delegations, at somebody who delegates to nobody else; and
      nobody but such a member is ever met again by following its own chain. */
  lemma DelegationsSettle(e: Env, cfg: Config, members: seq<Address>, order: Option<seq<Address>>, feeBps: nat,
                          maxMembers: nat, bal: Balances, run: Run, m: Address)
    requires Init(e, cfg, members, order, feeBps, maxMembers, bal).Some?
    ensures var d := Exec(Init(e, cfg, members, order, feeBps, maxMembers, bal).value, run).gov.delegations;
            && Settles(d, m, |d|)
            && forall j: nat :: j > 0 && Walk(d, m, j) == m ==> Terminal(d, m)
  {
    var s := Init(e, cfg, members, order, feeBps, maxMembers, bal).value;
    RunKeepsAcyclic(s, run);
    var d := Exec(s, run).gov.delegations;
    forall j: nat | j > 0 && Walk(d, m, j) == m ensures Terminal(d, m) {
      NoCycle(d, m, |d|, j);
    }
  }

  // --- Tallies ---

  ghost function Voters(votes: map<Address, bool>, support: bool): set<Address> {
    set a | a in votes && votes[a] == support
  }

  ghost predicate Tallied(p: Proposal, votes: map<Address, bool>) {
    p.votesFor == |Voters(votes, true)| && p.votesAgainst == |Voters(votes, false)|
  }

  ghost predicate TallyInv(g: Governance) {
    forall id: nat :: id in g.proposals ==> id < g.counter && id in g.votes && Tallied(g.proposals[id], g.votes[id])
  }

  /** What a vote writes into the record of votes: the voter and those it carries, none of
      whom was there, and nothing else. */
  lemma VoteRecords(s: State, e: Env, voter: Address, id: nat, support: bool)
    requires Vote(s, e, voter, id, support).Some? && id in s.gov.votes
    ensures var before, after := s.gov.votes[id], Vote(s, e, voter, id, support).value.gov.votes[id];
            var added := {voter} + Carried(s.gov.delegations, before[voter := support], voter);
            && added !! before.Keys && after.Keys == before.Keys + added
            && (forall a :: a in added ==> after[a] == support)
            && (forall a :: a in before ==> after[a] == before[a])
  {
  }

  /** Under equal weights a vote weighs as many as it adds to the record. */
  lemma EqualWeight(s: State, carried: set<Address>)
    requires !s.cfg.weightedVotes
    ensures CarriedWeight(s, carried) == |carried|
  {
    var weights := map d | d in carried :: VoteWeight(s, d);
    SumConstant(weights, 1);
    assert weights.Keys == carried;
  }

  lemma AddedVoters(before: map<Address, bool>, after: map<Address, bool>, added: set<Address>, support: bool)
    requires added !! before.Keys && after.Keys == before.Keys + added
    requires (forall a :: a in added ==> after[a] == support) && (forall a :: a in before ==> after[a] == before[a])
    ensures Voters(after, support) == Voters(before, support) + added
    ensures Voters(after, !support) == Voters(before, !support)
    ensures Voters(before, support) !! added
  {
    forall a | a in added ensures a in after {
      assert a in after.Keys;
    }
    forall a | a in after ensures a in before || a in added {
      assert a in after.Keys;
    }
  }

  /** The one proposal a vote changes, and how. */
  lemma VoteUnfolds(s: State, e: Env, voter: Address, id: nat, support: bool)
    requires Vote(s, e, voter, id, support).Some?
    ensures id in s.gov.proposals && voter in s.group.members && voter !in s.gov.delegations
    ensures var g, u := s.gov, Vote(s, e, voter, id, support).value;
            var own := (if id in g.votes then g.votes[id] else map[])[voter := support];
            var weight := VoteWeight(s, voter) + CarriedWeight(s, Carried(g.delegations, own, voter));
            var p := g.proposals[id];
            && p.status == Pending && e.now <= p.deadline
            && u.gov.proposals == g.proposals[id := if support then p.(votesFor := p.votesFor + weight)
                                                    else p.(votesAgainst := p.votesAgainst + weight)]
            && u.gov.counter == g.counter && u.cfg == s.cfg
            && id in u.gov.votes && u.gov.votes == g.votes[id := u.gov.votes[id]]
  {
  }

  lemma VoteTallied(s: State, e: Env, voter: Address, id: nat, support: bool)
    requires !s.cfg.weightedVotes && Vote(s, e, voter, id, support).Some?
    requires id in s.gov.votes && Tallied(s.gov.proposals[id], s.gov.votes[id])
    ensures var u := Vote(s, e, voter, id, support).value;
            id in u.gov.proposals && id in u.gov.votes && Tallied(u.gov.proposals[id], u.gov.votes[id])
  {
    var u := Vote(s, e, voter, id, support).value;
    var before := s.gov.votes[id];
    var carried := Carried(s.gov.delegations, before[voter := support], voter);
    VoteUnfolds(s, e, voter, id, support);
    VoteRecords(s, e, voter, id, support);
    EqualWeight(s, carried);
    AddedVoters(before, u.gov.votes[id], {voter} + carried, support);
    assert |{voter} + carried| == 1 + |carried|;
    assert |Voters(u.gov.votes[id], support)| == |Voters(before, support)| + 1 + |carried|;
  }

  lemma VoteKeepsTally(s: State, e: Env, voter: Address, id: nat, support: bool)
    requires !s.cfg.weightedVotes && TallyInv(s.gov) && Vote(s, e, voter, id, support).Some?
    ensures TallyInv(Vote(s, e, voter, id, support).value.gov)
  {
    var u := Vote(s, e, voter, id, support).value;
    VoteUnfolds(s, e, voter, id, support);
    VoteTallied(s, e, voter, id, support);
    forall k: nat | k in u.gov.proposals
      ensures k < u.gov.counter && k in u.gov.votes && Tallied(u.gov.proposals[k], u.gov.votes[k])
    {
      if k != id {
        assert u.gov.proposals[k] == s.gov.proposals[k] && u.gov.votes[k] == s.gov.votes[k];
      }
    }
  }

  lemma CreateProposalKeepsTally(s: State, e: Env, c: Call)
    requires c.CreateProposalCall? && TallyInv(s.gov) && Step(s, e, c).Some?
    ensures TallyInv(Step(s, e, c).value.gov)
  {
    assert Voters(map[], true) == {} && Voters(map[], false) == {};
  }

  lemma EnactKeepsBallots(s: State, p: Proposal)
    ensures SameBallots(s, Enact(s, p)) && Enact(s, p).gov.delegations == s.gov.delegations
  {
  }

  /** Closing a proposal changes its status only, whatever it enacts. */
  lemma ExecuteUnfolds(s: State, e: Env, id: nat)
    requires Execute(s, e, id).Some?
    ensures id in s.gov.proposals
    ensures var g, u := s.gov, Execute(s, e, id).value;
            var p := g.proposals[id];
            && p.status == Pending && e.now > p.deadline && u.cfg == s.cfg
            && u.gov.counter == g.counter && u.gov.votes == g.votes && u.gov.delegations == g.delegations
            && u.gov.proposals == g.proposals[id := p.(status := if Passes(s, p) then Executed else Rejected)]
  {
    EnactKeepsBallots(s, s.gov.proposals[id]);
  }

  lemma StepKeepsTally(s: State, e: Env, c: Call)
    requires !s.cfg.weightedVotes && TallyInv(s.gov)
    ensures TallyInv(Next(s, e, c).gov) && Next(s, e, c).cfg == s.cfg
  {
    if Step(s, e, c).Some? {
      if c.VoteCall? {
        VoteUnfolds(s, e, c.who, c.id, c.support);
        VoteKeepsTally(s, e, c.who, c.id, c.support);
      } else if c.CreateProposalCall? {
        CreateProposalKeepsTally(s, e, c);
      } else if c.ExecuteCall? {
        ExecuteUnfolds(s, e, c.id);
      } else if c.ContributeCall? || c.FinalizeRoundCall? {
        RoundsGovernance(s, e, c);
      } else {
        OthersSameBallots(s, e, c);
      }
    }
  }

  lemma {:induction false} RunKeepsTally(s: State, run: Run)
    requires !s.cfg.weightedVotes && TallyInv(s.gov)
    ensures TallyInv(Exec(s, run).gov) && Exec(s, run).cfg == s.cfg
    decreases |run|
  {
    if run != [] {
      StepKeepsTally(s, run[0].0, run[0].1);
      RunKeepsTally(Next(s, run[0].0, run[0].1), run[1..]);
    }
  }

  /** With equal weights, in every reachable state, the tallies are the number of recorded
      votes for and against: nobody is counted twice, and nobody uncounted is recorded. */
  lemma TalliesCountVoters(e: Env, cfg: Config, members: seq<Address>, order: Option<seq<Address>>, feeBps: nat,
                           maxMembers: nat, bal: Balances, run: Run, id: nat)
    requires Init(e, cfg, members, order, feeBps, maxMembers, bal).Some? && !cfg.weightedVotes
    requires id in Exec(Init(e, cfg, members, order, feeBps, maxMembers, bal).value, run).gov.proposals
    ensures var g := Exec(Init(e, cfg, members, order, feeBps, maxMembers, bal).value, run).gov;
            && id in g.votes
            && g.proposals[id].votesFor == |Voters(g.votes[id], true)|
            && g.proposals[id].votesAgainst == |Voters(g.votes[id], false)|
  {
    RunKeepsTally(Init(e, cfg, members, order, feeBps, maxMembers, bal).value, run);
  }

  // --- Turnout under fixed membership ---

  ghost predicate FixedMembers(s: State, run: Run)
    decreases |run|
  {
    run == []
    || (Next(s, run[0].0, run[0].1).group.members == s.group.members
        && FixedMembers(Next(s, run[0].0, run[0].1), run[1..]))
  }

  /** Only members delegate and only members are recorded as voting. */
  ghost predicate MembersOnly(g: Governance, members: seq<Address>) {
    && (forall d :: d in g.delegations ==> d in members)
    && forall id: nat, a :: id in g.votes && a in g.votes[id] ==> a in members
  }

  lemma VoteMembersOnly(s: State, e: Env, voter: Address, id: nat, support: bool)
    requires MembersOnly(s.gov, s.group.members) && Vote(s, e, voter, id, support).Some?
    ensures MembersOnly(Vote(s, e, voter, id, support).value.gov, s.group.members)
  {
    var u := Vote(s, e, voter, id, support).value;
    BallotsSameDelegations(s, e, VoteCall(voter, id, support));
    VoteUnfolds(s, e, voter, id, support);
    var before := if id in s.gov.votes then s.gov.votes[id] else map[];
    forall k: nat, a | k in u.gov.votes && a in u.gov.votes[k] ensures a in s.group.members {
      if k == id {
        assert a in before || a == voter || a in Carried(s.gov.delegations, before[voter := support], voter);
      } else {
        assert u.gov.votes[k] == s.gov.votes[k];
      }
    }
  }

  lemma StepMembersOnly(s: State, e: Env, c: Call)
    requires MembersOnly(s.gov, s.group.members)
    ensures MembersOnly(Next(s, e, c).gov, s.group.members)
  {
    if Step(s, e, c).Some? {
      if c.VoteCall? {
        VoteMembersOnly(s, e, c.who, c.id, c.support);
      } else if c.CreateProposalCall? {
        BallotsSameDelegations(s, e, c);
      } else if c.ExecuteCall? {
        ExecuteUnfolds(s, e, c.id);
      } else if c.ContributeCall? || c.FinalizeRoundCall? {
        RoundsGovernance(s, e, c);
      } else {
        OthersSameBallots(s, e, c);
      }
    }
  }

  lemma {:induction false} RunMembersOnly(s: State, run: Run)
    requires MembersOnly(s.gov, s.group.members) && FixedMembers(s, run)
    ensures MembersOnly(Exec(s, run).gov, s.group.members) && Exec(s, run).group.members == s.group.members
    decreases |run|
  {
    if run != [] {
      StepMembersOnly(s, run[0].0, run[0].1);
      RunMembersOnly(Next(s, run[0].0, run[0].1), run[1..]);
    }
  }

  /** With equal weights and fixed membership no proposal ever draws more votes than there
      are members. */
  lemma TurnoutBounded(e: Env, cfg: Config, members: seq<Address>, order: Option<seq<Address>>, feeBps: nat,
                       maxMembers: nat, bal: Balances, run: Run, id: nat)
    requires Init(e, cfg, members, order, feeBps, maxMembers, bal).Some? && !cfg.weightedVotes
    requires FixedMembers(Init(e, cfg, members, order, feeBps, maxMembers, bal).value, run)
    requires id in Exec(Init(e, cfg, members, order, feeBps, maxMembers, bal).value, run).gov.proposals
    ensures var p := Exec(Init(e, cfg, members, order, feeBps, maxMembers, bal).value, run).gov.proposals[id];
            p.votesFor + p.votesAgainst <= |members|
  {
    var s := Init(e, cfg, members, order, feeBps, maxMembers, bal).value;
    TalliesCountVoters(e, cfg, members, order, feeBps, maxMembers, bal, run, id);
    RunMembersOnly(s, run);
    var votes := Exec(s, run).gov.votes[id];
    assert |Voters(votes, true) + Voters(votes, false)| == |Voters(votes, true)| + |Voters(votes, false)|;
    SubsetOfEqualSize(Voters(votes, true) + Voters(votes, false), Elements(members));
    ElementsCount(members);
  }

  // --- A proposal is decided once ---

  /** An executed proposal reached its quorum, counted exactly and not rounded, and a
      majority; a rejected one did not. */
  lemma DecidedByQuorumAndMajority(s: State, e: Env, id: nat)
    requires id in s.gov.proposals
    ensures Execute(s, e, id).Some? <==>
              s.pausedAt.None? && s.gov.proposals[id].status == Pending && e.now > s.gov.proposals[id].deadline
    ensures Execute(s, e, id).Some? ==>
              var p := s.gov.proposals[id];
              var after := Execute(s, e, id).value.gov.proposals;
              && id in after && after[id].status != Pending
              && (after[id].status == Executed <==>
                  BPS * (p.votesFor + p.votesAgainst) >= PossibleVotes(s) * p.quorum && p.votesFor > p.votesAgainst)
  {
    if Execute(s, e, id).Some? {
      ExecuteUnfolds(s, e, id);
      var p := s.gov.proposals[id];
      RoundedUp(PossibleVotes(s) * p.quorum, p.votesFor + p.votesAgainst);
    }
  }

  lemma RoundedUp(x: int, total: int)
    ensures total >= (x + 9999) / BPS <==> BPS * total >= x
  {
  }

  /** A step leaves a decided proposal exactly as it is, and a pending one can only be
      decided by executing it. */
  lemma StepDecides(s: State, e: Env, c: Call, id: nat)
    requires id in s.gov.proposals && id < s.gov.counter
    ensures var g := Next(s, e, c).gov;
            && id in g.proposals && id < g.counter
            && (s.gov.proposals[id].status != Pending ==> g.proposals[id] == s.gov.proposals[id])
            && (g.proposals[id].status != s.gov.proposals[id].status ==> c == ExecuteCall(id))
            && g.proposals[id].quorum == s.gov.proposals[id].quorum
            && g.proposals[id].deadline == s.gov.proposals[id].deadline
  {
    if Step(s, e, c).Some? {
      if c.VoteCall? {
        VoteUnfolds(s, e, c.who, c.id, c.support);
      } else if c.ExecuteCall? {
        ExecuteUnfolds(s, e, c.id);
      } else if c.CreateProposalCall? {
        assert s.gov.counter != id;
      } else if c.ContributeCall? || c.FinalizeRoundCall? {
        RoundsGovernance(s, e, c);
      } else {
        OthersSameBallots(s, e, c);
      }
    }
  }

  /** Ids are given out in order. */
  ghost predicate Numbered(g: Governance) {
    forall id: nat :: id in g.proposals ==> id < g.counter
  }

  lemma StepKeepsNumbers(s: State, e: Env, c: Call)
    requires Numbered(s.gov)
    ensures Numbered(Next(s, e, c).gov)
  {
    if Step(s, e, c).Some? {
      if c.VoteCall? {
        VoteUnfolds(s, e, c.who, c.id, c.support);
      } else if c.ExecuteCall? {
        ExecuteUnfolds(s, e, c.id);
      } else if c.CreateProposalCall? {
        assert Step(s, e, c).value.gov.counter == s.gov.counter + 1;
      } else if c.ContributeCall? || c.FinalizeRoundCall? {
        RoundsGovernance(s, e, c);
      } else {
        OthersSameBallots(s, e, c);
      }
    }
  }

  lemma {:induction false} RunKeepsNumbers(s: State, run: Run)
    requires Numbered(s.gov)
    ensures Numbered(Exec(s, run).gov)
    decreases |run|
  {
    if run != [] {
      StepKeepsNumbers(s, run[0].0, run[0].1);
      RunKeepsNumbers(Next(s, run[0].0, run[0].1), run[1..]);
    }
  }

  lemma {:induction false} StaysDecided(s: State, run: Run, id: nat)
    requires id in s.gov.proposals && id < s.gov.counter && s.gov.proposals[id].status != Pending
    ensures id in Exec(s, run).gov.proposals && Exec(s, run).gov.proposals[id] == s.gov.proposals[id]
    decreases |run|
  {
    if run != [] {
      StepDecides(s, run[0].0, run[0].1, id);
      StaysDecided(Next(s, run[0].0, run[0].1), run[1..], id);
    }
  }

  /** In every reachable state, however votes are weighed, a decided proposal is never
      reopened, recounted or enacted again. */
  lemma DecidedForGood(e: Env, cfg: Config, members: seq<Address>, order: Option<seq<Address>>, feeBps: nat,
                       maxMembers: nat, bal: Balances, before: Run, s: State, run: Run, id: nat)
    requires Init(e, cfg, members, order, feeBps, maxMembers, bal).Some?
    requires s == Exec(Init(e, cfg, members, order, feeBps, maxMembers, bal).value, before)
    requires id in s.gov.proposals && s.gov.proposals[id].status != Pending
    ensures id in Exec(s, run).gov.proposals && Exec(s, run).gov.proposals[id] == s.gov.proposals[id]
  {
    RunKeepsNumbers(Init(e, cfg, members, order, feeBps, maxMembers, bal).value, before);
    StaysDecided(s, run, id);
  }

  /** And only executing a pending one decides it; its quorum and deadline never change. */
  lemma OnlyExecutionDecides(e0: Env, cfg: Config, members: seq<Address>, order: Option<seq<Address>>, feeBps: nat,
                             maxMembers: nat, bal: Balances, before: Run, s: State, e: Env, c: Call, id: nat)
    requires Init(e0, cfg, members, order, feeBps, maxMembers, bal).Some?
    requires s == Exec(Init(e0, cfg, members, order, feeBps, maxMembers, bal).value, before) && id in s.gov.proposals
    ensures var g := Next(s, e, c).gov;
            && id in g.proposals
            && (g.proposals[id].status != s.gov.proposals[id].status
                ==> c == ExecuteCall(id) && s.gov.proposals[id].status == Pending)
            && g.proposals[id].quorum == s.gov.proposals[id].quorum
            && g.proposals[id].deadline == s.gov.proposals[id].deadline
  {
    RunKeepsNumbers(Init(e0, cfg, members, order, feeBps, maxMembers, bal).value, before);
    StepDecides(s, e, c, id);
  }
}
