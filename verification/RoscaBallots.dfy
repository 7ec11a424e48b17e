/**
 What a ballot is: who may propose, vote and delegate, how much a vote weighs with those it
 carries, and what a quorum is taken of.
 */
module RoscaBallots {
  import opened Common
  import opened Sums
  import opened RoscaModel
  import opened RoscaGovernance
  import opened RoscaCalls

  // --- Proposals and delegations ---

  /** A member's proposal is on record under the next id, undecided and without votes, with
      the quorum in force for its kind, in basis points. */
  lemma ProposalExact(s: State, e: Env, who: Address, kind: ProposalKind, target: Address, duration: nat,
                      data: Option<int>)
    ensures var u := Step(s, e, CreateProposalCall(who, kind, target, duration, data));
            && (u.Some? <==> s.pausedAt.None? && Signed(e, who) && who in s.group.members)
            && (u.Some? ==>
                  var id := s.gov.counter;
                  var quorum := if kind in s.gov.quorumPerKind then s.gov.quorumPerKind[kind]
                                else s.gov.quorumPercent * 100;
                  var p := Proposal(kind, target, 0, 0, e.now + duration, Pending, data, quorum);
                  u.value == s.(gov := s.gov.(counter := id + 1, proposals := s.gov.proposals[id := p],
                                              votes := s.gov.votes[id := map[]])))
  {
  }

  /** A member delegates to a member who has not delegated, and takes a delegation back. */
  lemma DelegationExact(s: State, e: Env, from: Address, to: Address)
    ensures var u := Step(s, e, DelegateCall(from, to));
            && (u.Some? <==> s.pausedAt.None? && Signed(e, from) && from in s.group.members && to in s.group.members
                             && to !in s.gov.delegations)
            && (u.Some? ==> u.value == s.(gov := s.gov.(delegations := s.gov.delegations[from := to])))
    ensures var u := Step(s, e, RevokeCall(from));
            && (u.Some? <==> s.pausedAt.None? && Signed(e, from) && from in s.gov.delegations)
            && (u.Some? ==> u.value == s.(gov := s.gov.(delegations := s.gov.delegations - {from})))
  {
  }

  // --- Votes ---

  /** One, or what the member has contributed to the round. */
  function Weight(s: State, m: Address): int {
    if s.cfg.weightedVotes then SoFar(s, m) else 1
  }

  function Recorded(s: State, id: nat): map<Address, bool> {
    if id in s.gov.votes then s.gov.votes[id] else map[]
  }

  /** The vote of `voter` counts for `a` too: itself, or one that delegated to it and is not
      recorded yet. */
  predicate CountsFor(s: State, id: nat, voter: Address, a: Address) {
    a !in Recorded(s, id) && (a == voter || (a in s.gov.delegations && s.gov.delegations[a] == voter))
  }

  ghost predicate MayVote(s: State, e: Env, voter: Address, id: nat) {
    && s.pausedAt.None? && Signed(e, voter) && voter in s.group.members && voter !in s.gov.delegations
    && id in s.gov.proposals && s.gov.proposals[id].status == Pending && e.now <= s.gov.proposals[id].deadline
    && voter !in Recorded(s, id) && (s.cfg.weightedVotes ==> SoFar(s, voter) != 0)
  }

  /** The weights of all those a vote counts for. */
  ghost function WeightAdded(s: State, id: nat, voter: Address): int {
    SumMap(map a | a in s.gov.delegations.Keys + {voter} && CountsFor(s, id, voter, a) :: Weight(s, a))
  }

  /** Everybody the vote counts for is on record with it. */
  ghost predicate Balloted(s: State, voter: Address, id: nat, support: bool, votes: map<Address, bool>) {
    && (forall a :: a in votes <==> a in Recorded(s, id) || CountsFor(s, id, voter, a))
    && forall a :: a in votes ==> votes[a] == if a in Recorded(s, id) then Recorded(s, id)[a] else support
  }

  /** The votes are on record and the tally is up by their weight. */
  ghost predicate Voted(s: State, voter: Address, id: nat, support: bool, u: State)
    requires id in s.gov.proposals
  {
    var p, added := s.gov.proposals[id], WeightAdded(s, id, voter);
    && id in u.gov.votes && Balloted(s, voter, id, support, u.gov.votes[id])
    && u == s.(gov := s.gov.(votes := s.gov.votes[id := u.gov.votes[id]],
                             proposals := s.gov.proposals[id := if support then p.(votesFor := p.votesFor + added)
                                                                else p.(votesAgainst := p.votesAgainst + added)]))
  }

  lemma VoteCommits(s: State, e: Env, voter: Address, id: nat, support: bool)
    ensures Vote(s, e, voter, id, support).Some? <==> MayVote(s, e, voter, id)
  {
  }

  /** The voter and those it carries are those the vote counts for. */
  lemma AddedIs(s: State, id: nat, voter: Address, carried: set<Address>, support: bool)
    requires voter !in s.gov.delegations && voter !in Recorded(s, id)
    requires carried == Carried(s.gov.delegations, Recorded(s, id)[voter := support], voter)
    ensures VoteWeight(s, voter) + CarriedWeight(s, carried) == WeightAdded(s, id, voter)
  {
    var weights := map d | d in carried :: VoteWeight(s, d);
    var all := map a | a in s.gov.delegations.Keys + {voter} && CountsFor(s, id, voter, a) :: Weight(s, a);
    assert all == weights[voter := Weight(s, voter)];
    SumUpdate(weights, voter, Weight(s, voter));
  }

  lemma VoteIs(s: State, e: Env, voter: Address, id: nat, support: bool, carried: set<Address>, u: State)
    requires Vote(s, e, voter, id, support) == Some(u)
    requires carried == Carried(s.gov.delegations, Recorded(s, id)[voter := support], voter)
    ensures id in s.gov.proposals && voter !in s.gov.delegations && voter !in Recorded(s, id)
    ensures u == BookVotes(s, id, support, WithVotes(Recorded(s, id)[voter := support], carried, support),
                           VoteWeight(s, voter) + CarriedWeight(s, carried))
  {
  }

  lemma BallotsAre(s: State, voter: Address, id: nat, support: bool, carried: set<Address>)
    requires carried == Carried(s.gov.delegations, Recorded(s, id)[voter := support], voter)
    requires voter !in Recorded(s, id)
    ensures Balloted(s, voter, id, support, WithVotes(Recorded(s, id)[voter := support], carried, support))
  {
  }

  lemma VoteDoes(s: State, e: Env, voter: Address, id: nat, support: bool, u: State)
    requires Vote(s, e, voter, id, support) == Some(u)
    ensures id in s.gov.proposals && Voted(s, voter, id, support, u)
  {
    var carried := Carried(s.gov.delegations, Recorded(s, id)[voter := support], voter);
    VoteIs(s, e, voter, id, support, carried, u);
    AddedIs(s, id, voter, carried, support);
    BallotsAre(s, voter, id, support, carried);
    Booked(s, voter, id, support, u, WithVotes(Recorded(s, id)[voter := support], carried, support));
  }

  lemma Booked(s: State, voter: Address, id: nat, support: bool, u: State, votes: map<Address, bool>)
    requires id in s.gov.proposals && u == BookVotes(s, id, support, votes, WeightAdded(s, id, voter))
    requires Balloted(s, voter, id, support, votes)
    ensures Voted(s, voter, id, support, u)
  {
  }

  /** A member that has not delegated votes exactly once, in time, and with a stake where
      votes are weighed; the vote counts for its delegators that are not on record. */
  lemma VoteExact(s: State, e: Env, voter: Address, id: nat, support: bool, u: Option<State>)
    requires u == Step(s, e, VoteCall(voter, id, support))
    ensures u.Some? <==> MayVote(s, e, voter, id)
    ensures u.Some? ==> id in s.gov.proposals && Voted(s, voter, id, support, u.value)
  {
    VoteCommits(s, e, voter, id, support);
    if u.Some? {
      VoteDoes(s, e, voter, id, support, u.value);
    }
  }

  // --- The quorum ---

  /** All the weight that can be cast, member by member. */
  ghost function AllWeights(s: State, members: seq<Address>): int {
    if members == [] then 0 else Weight(s, members[0]) + AllWeights(s, members[1..])
  }

  lemma {:induction false} WeightsInFront(s: State, members: seq<Address>, m: Address)
    ensures AllWeights(s, members + [m]) == AllWeights(s, members) + Weight(s, m)
  {
    if members == [] {
      assert [m][1..] == [];
      assert members + [m] == [m];
    } else {
      assert (members + [m])[1..] == members[1..] + [m];
      WeightsInFront(s, members[1..], m);
    }
  }

  lemma {:induction false} VotesPossible(s: State, members: seq<Address>)
    ensures AllWeights(s, members)
            == if s.cfg.weightedVotes then SumOver(members, s.round.contributions) else |members|
  {
    if members != [] {
      var n := |members| - 1;
      VotesPossible(s, members[..n]);
      WeightsInFront(s, members[..n], members[n]);
      assert members == members[..n] + [members[n]];
    }
  }

  /** A proposal is decided once, after its deadline: it passes exactly with a majority of a
      turnout that is its quorum of all the weight the members can cast. */
  lemma DecisionExact(s: State, e: Env, id: nat)
    ensures Step(s, e, ExecuteCall(id)).Some?
            <==> s.pausedAt.None? && id in s.gov.proposals && s.gov.proposals[id].status == Pending
                 && e.now > s.gov.proposals[id].deadline
    ensures Step(s, e, ExecuteCall(id)).Some? ==>
              var p, after := s.gov.proposals[id], Step(s, e, ExecuteCall(id)).value.gov.proposals;
              && id in after
              && after[id].status == if 10_000 * (p.votesFor + p.votesAgainst)
                                        >= AllWeights(s, s.group.members) * p.quorum && p.votesFor > p.votesAgainst
                                     then Executed else Rejected
  {
    if id in s.gov.proposals {
      DecidedByQuorumAndMajority(s, e, id);
      VotesPossible(s, s.group.members);
      if Execute(s, e, id).Some? {
        ExecuteUnfolds(s, e, id);
      }
    }
  }
}
