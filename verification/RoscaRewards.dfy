/**
 Rewards are never over-distributed: while membership and distribution stay as they
 are, what has been claimed fits in the reward pool and every positive claim is payable.
 */
module RoscaRewards {
  import opened Common
  import opened Ledger
  import opened Sums
  import opened RoscaModel
  import opened RoscaMoney

  // --- The arithmetic of a division of the pool ---

  ghost function Scaled(m: map<Address, int>, c: int): (r: map<Address, int>)
    ensures r.Keys == m.Keys
  {
    map k | k in m :: c * m[k]
  }

  lemma {:induction false} SumScaled(m: map<Address, int>, c: int)
    ensures SumMap(Scaled(m, c)) == c * SumMap(m)
    decreases |m|
  {
    if m == map[] {
      assert Scaled(m, c) == map[];
    } else {
      var k :| k in m;
      var rest := m - {k};
      assert rest.Keys == m.Keys - {k} && rest.Keys < m.Keys;
      SumScaled(rest, c);
      ScaledWithout(m, c, k);
      SumWithout(m, k);
      Distribute(c, SumMap(m), m[k], SumMap(rest));
    }
  }

  lemma ScaledWithout(m: map<Address, int>, c: int, k: Address)
    requires k in m
    ensures SumMap(Scaled(m, c)) == c * m[k] + SumMap(Scaled(m - {k}, c))
  {
    SumWithout(Scaled(m, c), k);
    assert Scaled(m, c) - {k} == Scaled(m - {k}, c);
  }

  lemma Distribute(c: int, total: int, a: int, b: int)
    requires total == a + b
    ensures c * total == c * a + c * b
  {
  }

  /** Claims that each stay within their weight's part of the pool sum to no more than the pool. */
  lemma PartsFit(claimed: map<Address, int>, weights: map<Address, int>, pool: nat, total: nat)
    requires NonNegative(weights) && claimed.Keys <= weights.Keys
    requires forall k :: k in claimed ==> Scaled(claimed, total)[k] <= Scaled(weights, pool)[k]
    ensures total * SumMap(claimed) <= pool * SumMap(weights)
  {
    SumScaled(claimed, total);
    SumScaled(weights, pool);
    forall k | k in weights ensures 0 <= Scaled(weights, pool)[k] {
      MulMonotone(pool, 0, weights[k]);
    }
    SumMonotone(Scaled(claimed, total), Scaled(weights, pool));
  }

  lemma Cancel(total: nat, a: int, b: int)
    requires total > 0 && total * a <= b * total
    ensures a <= b
  {
    if a > b {
      MulMonotone(total, b + 1, a);
    }
  }

  /** The weights a distribution goes by: participation, the weights that are set, or 1 for
      everyone when none are. */
  ghost function Weights(w: Rewards, members: seq<Address>): map<Address, int> {
    if w.dist == Proportional then map m | m in Elements(members) + w.participation.Keys :: Count(w.participation, m)
    else if ByWeight(w) then map m | m in Elements(members) + w.weights.Keys :: Count(w.weights, m)
    else map m | m in Elements(members) :: 1
  }

  ghost predicate ByWeight(w: Rewards) {
    w.dist == Weighted && TotalWeight(w.weights) > 0
  }

  ghost function Total(w: Rewards, members: seq<Address>): int {
    if w.dist == Proportional then w.participations else if ByWeight(w) then TotalWeight(w.weights) else |members|
  }

  /** Nobody has yet anything to be shared out by. */
  predicate NothingToShareBy(w: Rewards) {
    w.dist == Proportional && w.participations == 0
  }

  lemma ShareByWeight(w: Rewards, members: seq<Address>, m: Address)
    requires m in members && w.pool >= 0 && !NothingToShareBy(w)
    ensures Total(w, members) > 0
    ensures Total(w, members) * RewardShare(w, |members|, m) <= w.pool * Weights(w, members)[m]
  {
    assert m in Elements(members);
    if w.dist == Proportional {
      FloorPart(w.pool * Count(w.participation, m), w.participations);
    } else if ByWeight(w) {
      FloorPart(w.pool * Count(w.weights, m), TotalWeight(w.weights));
    } else {
      FloorPart(w.pool, |members|);
    }
  }

  lemma FloorPart(parts: int, total: int)
    requires total > 0
    ensures total * (parts / total) <= parts
  {
    assert parts == total * (parts / total) + parts % total;
  }

  /** Padding with members of no weight does not change the total. */
  lemma {:induction false} SumOfWeights(weights: map<Address, nat>, keys: set<Address>)
    requires weights.Keys <= keys
    ensures SumMap(map m | m in keys :: Count(weights, m) as int) == TotalWeight(weights)
    decreases |keys|
  {
    var padded := map m | m in keys :: Count(weights, m) as int;
    if k :| k in keys && k !in weights {
      SumWithout(padded, k);
      assert padded - {k} == map m | m in keys - {k} :: Count(weights, m) as int;
      SumOfWeights(weights, keys - {k});
    } else {
      assert keys == weights.Keys;
      assert padded == map m | m in weights :: weights[m] as int;
    }
  }

  /** Participations are counted one by one. */
  ghost predicate Counted(w: Rewards) {
    TotalWeight(w.participation) <= w.participations
  }

  lemma CountsAsWeights(weights: map<Address, nat>, keys: set<Address>, all: map<Address, int>)
    requires weights.Keys <= keys && all == map m | m in keys :: Count(weights, m) as int
    ensures NonNegative(all) && SumMap(all) == TotalWeight(weights)
  {
    SumOfWeights(weights, keys);
  }

  lemma EqualWeights(members: seq<Address>, all: map<Address, int>)
    requires all == map m | m in Elements(members) :: 1
    ensures NonNegative(all) && SumMap(all) <= |members|
  {
    SumConstant(all, 1);
    ElementsCount(members);
    assert all.Keys == Elements(members);
  }

  lemma WeightsWithinTotal(w: Rewards, members: seq<Address>)
    requires Counted(w)
    ensures NonNegative(Weights(w, members)) && SumMap(Weights(w, members)) <= Total(w, members)
  {
    var all := Weights(w, members);
    if w.dist == Proportional {
      CountsAsWeights(w.participation, Elements(members) + w.participation.Keys, all);
    } else if ByWeight(w) {
      CountsAsWeights(w.weights, Elements(members) + w.weights.Keys, all);
    } else {
      EqualWeights(members, all);
    }
  }

  // --- The invariant ---

  /** Only members have claimed, each at most its share of today's pool. */
  ghost predicate Fair(w: Rewards, members: seq<Address>) {
    forall m :: m in w.claimed ==> m in members && w.claimed[m] <= RewardShare(w, |members|, m)
  }

  /** Whatever the division, claims within today's shares fit in the pool. */
  lemma ClaimsFit(w: Rewards, members: seq<Address>)
    requires w.pool >= 0 && Counted(w) && NonNegative(w.claimed) && Fair(w, members)
    ensures SumMap(w.claimed) <= w.pool
  {
    if NothingToShareBy(w) {
      SumConstant(w.claimed, 0);
    } else if m :| m in w.claimed {
      var weights, total := Weights(w, members), Total(w, members);
      WeightsWithinTotal(w, members);
      forall k | k in w.claimed ensures k in weights && Scaled(w.claimed, total)[k] <= Scaled(weights, w.pool)[k] {
        ShareByWeight(w, members, k);
        assert k in Elements(members);
        MulMonotone(total, w.claimed[k], RewardShare(w, |members|, k));
      }
      ShareByWeight(w, members, m);
      PartsFit(w.claimed, weights, w.pool, total);
      MulMonotone(w.pool, SumMap(weights), total);
      Cancel(total, SumMap(w.claimed), w.pool);
    } else {
      assert w.claimed == map[];
    }
  }

  lemma MulMonotone(n: nat, a: int, b: int)
    requires a <= b
    ensures n * a <= n * b
  {
    assert n * b == n * a + n * (b - a);
    assert n * (b - a) >= 0;
  }

  /** A larger pool gives nobody a smaller share. */
  lemma ShareGrows(w: Rewards, members: nat, m: Address, pool: int)
    requires members > 0 && 0 <= w.pool <= pool
    ensures RewardShare(w, members, m) <= RewardShare(w.(pool := pool), members, m)
  {
    if w.dist == Proportional {
      PartGrows(w.pool, pool, Count(w.participation, m), w.participations);
    } else if ByWeight(w) {
      PartGrows(w.pool, pool, Count(w.weights, m), TotalWeight(w.weights));
    } else {
      DivMonotone(w.pool, pool, members);
    }
  }

  lemma PartGrows(a: int, b: int, weight: nat, total: nat)
    requires a <= b
    ensures total > 0 ==> (a * weight) / total <= (b * weight) / total
  {
    MulMonotone(weight, a, b);
    if total > 0 {
      DivMonotone(a * weight, b * weight, total);
    }
  }

  lemma DivMonotone(a: int, b: int, d: int)
    requires a <= b && d > 0
    ensures a / d <= b / d
  {
    if a / d > b / d {
      MulMonotone(d, b / d + 1, a / d);
    }
  }

  // --- Runs ---

  /** What the statement holds fixed: the members, how rewards are divided, and, once
      anything has been claimed from a Proportional division, what it is proportional to. */
  ghost predicate SameDivision(s: State, u: State) {
    && u.group.members == s.group.members && u.rewards.dist == s.rewards.dist && u.rewards.weights == s.rewards.weights
    && (s.rewards.dist == Proportional && s.rewards.claimed != map[] ==> SameParticipation(s.rewards, u.rewards))
  }

  predicate SameParticipation(w: Rewards, v: Rewards) {
    v.participation == w.participation && v.participations == w.participations
  }

  ghost predicate Stable(s: State, run: Run)
    decreases |run|
  {
    run == [] || (SameDivision(s, Next(s, run[0].0, run[0].1)) && Stable(Next(s, run[0].0, run[0].1), run[1..]))
  }

  ghost predicate FairInv(s: State) {
    PoolInv(s) && Counted(s.rewards) && Fair(s.rewards, s.group.members)
  }

  // --- Participation is counted one by one ---

  lemma ParticipateKeepsCount(w: Rewards, m: Address)
    requires Counted(w)
    ensures Counted(Participate(w, m))
  {
    var v := Participate(w, m);
    var before := map k | k in w.participation :: w.participation[k] as int;
    SumUpdate(before, m, Count(w.participation, m) + 1);
    assert before[m := Count(w.participation, m) + 1] == map k | k in v.participation :: v.participation[k] as int;
  }

  lemma CompleteRoundKeepsCount(s: State, e: Env)
    requires Counted(s.rewards) && CompleteRound(s, e).Some?
    ensures Counted(CompleteRound(s, e).value.rewards)
  {
    var to := Recipient(s.group, s.standing, s.round.number).value;
    ParticipateKeepsCount(s.rewards, to);
  }

  lemma ContributeKeepsCount(s: State, e: Env, who: Address, token: Address, amount: int)
    requires Counted(s.rewards) && Contribute(s, e, who, token, amount).Some?
    ensures Counted(Contribute(s, e, who, token, amount).value.rewards)
  {
    var installed := ContributeUnfolds(s, e, who, token, amount);
    ParticipateKeepsCount(s.rewards, who);
    if CompleteRound(installed, e).Some? {
      CompleteRoundKeepsCount(installed, e);
    }
  }

  lemma OtherSameParticipation(s: State, e: Env, c: Call)
    requires !c.ContributeCall? && !c.FinalizeRoundCall? && Step(s, e, c).Some?
    ensures SameParticipation(s.rewards, Step(s, e, c).value.rewards)
  {
  }

  lemma StepKeepsCount(s: State, e: Env, c: Call)
    requires Counted(s.rewards)
    ensures Counted(Next(s, e, c).rewards)
  {
    if Step(s, e, c).Some? {
      if c.ContributeCall? {
        ContributeKeepsCount(s, e, c.who, c.token, c.amount);
      } else if c.FinalizeRoundCall? {
        CompleteRoundKeepsCount(s.(standing := s.standing.(defaulters := Defaulters(s, s.group.members))), e);
      } else {
        OtherSameParticipation(s, e, c);
      }
    }
  }

  // --- The main results ---

  lemma FairCarries(w: Rewards, v: Rewards, members: seq<Address>)
    requires Fair(w, members) && 0 <= w.pool <= v.pool
    requires v.claimed == w.claimed && v.dist == w.dist && v.weights == w.weights
    requires w.dist == Proportional && w.claimed != map[] ==> SameParticipation(w, v)
    ensures Fair(v, members)
  {
    forall m | m in v.claimed ensures v.claimed[m] <= RewardShare(v, |members|, m) {
      ShareGrows(w, |members|, m, v.pool);
      assert RewardShare(v, |members|, m) == RewardShare(w.(pool := v.pool), |members|, m);
    }
  }

  lemma ClaimKeepsFair(s: State, e: Env, m: Address)
    requires FairInv(s) && ClaimRewards(s, e, m).Some?
    ensures Fair(ClaimRewards(s, e, m).value.rewards, s.group.members)
  {
    var v := ClaimRewards(s, e, m).value.rewards;
    forall k | k in v.claimed ensures k in s.group.members && v.claimed[k] <= RewardShare(v, |s.group.members|, k) {
      assert RewardShare(v, |s.group.members|, k) == RewardShare(s.rewards, |s.group.members|, k);
    }
  }

  lemma StepKeepsFair(s: State, e: Env, c: Call)
    requires FairInv(s) && SameDivision(s, Next(s, e, c))
    ensures FairInv(Next(s, e, c)) && Next(s, e, c).cfg == s.cfg
  {
    StepKeepsPool(s, e, c);
    StepKeepsCount(s, e, c);
    if c.ClaimRewardsCall? {
      if Step(s, e, c).Some? {
        ClaimKeepsFair(s, e, c.who);
      }
    } else {
      FairCarries(s.rewards, Next(s, e, c).rewards, s.group.members);
    }
  }

  /** Under fixed membership and a fixed division, and whatever else is called in whatever
      token, the claims fit in the pool and the contract still holds what is left of it. */
  lemma {:induction false} NeverOverDistributed(s: State, run: Run)
    requires FairInv(s) && Stable(s, run)
    ensures var u := Exec(s, run);
            && FairInv(u) && SumMap(u.rewards.claimed) <= u.rewards.pool
            && Bal(u.bal, s.cfg.base, This) >= u.rewards.pool - SumMap(u.rewards.claimed)
            && u.cfg == s.cfg
    decreases |run|
  {
    if run == [] {
      ClaimsFit(s.rewards, s.group.members);
    } else {
      StepKeepsFair(s, run[0].0, run[0].1);
      NeverOverDistributed(Next(s, run[0].0, run[0].1), run[1..]);
    }
  }

  /** In particular from deployment on. */
  lemma RewardsSafeFromDeployment(e: Env, cfg: Config, members: seq<Address>, order: Option<seq<Address>>, feeBps: nat,
                                  maxMembers: nat, bal: Balances, run: Run)
    requires Init(e, cfg, members, order, feeBps, maxMembers, bal).Some? && Bal(bal, cfg.base, This) >= 0
    requires Stable(Init(e, cfg, members, order, feeBps, maxMembers, bal).value, run)
    ensures var u := Exec(Init(e, cfg, members, order, feeBps, maxMembers, bal).value, run);
            && SumMap(u.rewards.claimed) <= u.rewards.pool
            && Bal(u.bal, cfg.base, This) >= u.rewards.pool - SumMap(u.rewards.claimed)
  {
    InitialFair(e, cfg, members, order, feeBps, maxMembers, bal);
    NeverOverDistributed(Init(e, cfg, members, order, feeBps, maxMembers, bal).value, run);
  }

  lemma InitialFair(e: Env, cfg: Config, members: seq<Address>, order: Option<seq<Address>>, feeBps: nat,
                    maxMembers: nat, bal: Balances)
    requires Init(e, cfg, members, order, feeBps, maxMembers, bal).Some? && Bal(bal, cfg.base, This) >= 0
    ensures FairInv(Init(e, cfg, members, order, feeBps, maxMembers, bal).value)
  {
    var s := Init(e, cfg, members, order, feeBps, maxMembers, bal).value;
    var nobody: set<Address> := {};
    assert (map m | m in nobody :: Count(s.rewards.participation, m) as int) == map[];
    SumOfWeights(s.rewards.participation, nobody);
    assert SumMap<Address>(map[]) == 0;
  }

  /** So every positive claim of a member can be paid, in full. */
  lemma EveryClaimPayable(s: State, run: Run, e: Env, m: Address)
    requires FairInv(s) && Stable(s, run)
    ensures var u := Exec(s, run);
            ClaimRewards(u, e, m).Some? <==> u.pausedAt.None? && e.Authorised(m) && Claimable(u, m) > 0
    ensures var u := Exec(s, run);
            ClaimRewards(u, e, m).Some? ==>
              && Bal(ClaimRewards(u, e, m).value.bal, s.cfg.base, m) == Bal(u.bal, s.cfg.base, m) + Claimable(u, m)
              && Claimable(ClaimRewards(u, e, m).value, m) == 0
  {
    var u := Exec(s, run);
    NeverOverDistributed(s, run);
    if u.pausedAt.None? && e.Authorised(m) && Claimable(u, m) > 0 {
      ClaimWithinHolding(u, m);
    }
  }

  lemma ClaimWithinHolding(s: State, m: Address)
    requires FairInv(s) && Claimable(s, m) > 0
    ensures Claimable(s, m) <= Bal(s.bal, s.cfg.base, This)
  {
    var total := Get(s.rewards.claimed, m) + Claimable(s, m);
    var v := s.rewards.(claimed := s.rewards.claimed[m := total]);
    forall k | k in v.claimed ensures k in s.group.members && v.claimed[k] <= RewardShare(v, |s.group.members|, k) {
      assert RewardShare(v, |s.group.members|, k) == RewardShare(s.rewards, |s.group.members|, k);
    }
    ClaimsFit(v, s.group.members);
    SumUpdate(s.rewards.claimed, m, total);
  }

  // --- Shares that shrink after they were claimed ---

  /** What a call adds to the claims. */
  ghost function ClaimedBy(s: State, e: Env, c: Call): int {
    if c.ClaimRewardsCall? && Step(s, e, c).Some? then Claimable(s, c.who) else 0
  }

  /** What it adds to the pool. */
  ghost function DonatedBy(s: State, e: Env, c: Call): int {
    if c.DepositRewardsCall? && Step(s, e, c).Some? then c.amount else 0
  }

  ghost function ClaimedIn(s: State, run: Run): int
    decreases |run|
  {
    if run == [] then 0 else ClaimedBy(s, run[0].0, run[0].1) + ClaimedIn(Next(s, run[0].0, run[0].1), run[1..])
  }

  ghost function DonatedIn(s: State, run: Run): int
    decreases |run|
  {
    if run == [] then 0 else DonatedBy(s, run[0].0, run[0].1) + DonatedIn(Next(s, run[0].0, run[0].1), run[1..])
  }

  /** What is left of the pool. */
  ghost function Left(s: State): int {
    s.rewards.pool - SumMap(s.rewards.claimed)
  }

  lemma ClaimTakesFromPool(s: State, e: Env, m: Address)
    requires ClaimRewards(s, e, m).Some?
    ensures Left(ClaimRewards(s, e, m).value) == Left(s) - Claimable(s, m)
  {
    SumUpdate(s.rewards.claimed, m, Get(s.rewards.claimed, m) + Claimable(s, m));
  }

  lemma ContributeLeavesPool(s: State, e: Env, c: Call)
    requires c.ContributeCall? && Step(s, e, c).Some?
    ensures Left(Step(s, e, c).value) == Left(s)
  {
    var installed := ContributeUnfolds(s, e, c.who, c.token, c.amount);
    if CompleteRound(installed, e).Some? {
      var to, p := CompleteRoundUnfolds(installed, e);
    }
  }

  lemma FinalizeLeavesPool(s: State, e: Env)
    requires FinalizeRound(s, e).Some?
    ensures Left(FinalizeRound(s, e).value) == Left(s)
  {
    var to, p := CompleteRoundUnfolds(s.(standing := s.standing.(defaulters := Defaulters(s, s.group.members))), e);
  }

  lemma StepPool(s: State, e: Env, c: Call)
    requires PoolInv(s)
    ensures Left(Next(s, e, c)) == Left(s) + DonatedBy(s, e, c) - ClaimedBy(s, e, c)
  {
    if Step(s, e, c).Some? {
      if c.ClaimRewardsCall? {
        ClaimTakesFromPool(s, e, c.who);
      } else if c.ContributeCall? {
        ContributeLeavesPool(s, e, c);
      } else if c.FinalizeRoundCall? {
        FinalizeLeavesPool(s, e);
      } else if !Handles(c) {
        OtherMoneyAlike(s, e, c);
      }
    }
  }

  lemma {:induction false} RunPool(s: State, run: Run)
    requires PoolInv(s)
    ensures Left(Exec(s, run)) == Left(s) + DonatedIn(s, run) - ClaimedIn(s, run)
    decreases |run|
  {
    if run != [] {
      StepPool(s, run[0].0, run[0].1);
      StepKeepsPool(s, run[0].0, run[0].1);
      RunPool(Next(s, run[0].0, run[0].1), run[1..]);
    }
  }

  /** Over every run from deployment, with whatever division and whoever joins or takes part
      when: the claims end within the pool if and only if no more was claimed than donated. */
  lemma ClaimsStillFit(e: Env, cfg: Config, members: seq<Address>, order: Option<seq<Address>>, feeBps: nat,
                       maxMembers: nat, bal: Balances, run: Run)
    requires Init(e, cfg, members, order, feeBps, maxMembers, bal).Some? && Bal(bal, cfg.base, This) >= 0
    ensures var s := Init(e, cfg, members, order, feeBps, maxMembers, bal).value;
            var u := Exec(s, run);
            SumMap(u.rewards.claimed) <= u.rewards.pool <==> ClaimedIn(s, run) <= DonatedIn(s, run)
  {
    var s := Init(e, cfg, members, order, feeBps, maxMembers, bal).value;
    assert SumMap<Address>(map[]) == 0;
    RunPool(s, run);
  }
}
