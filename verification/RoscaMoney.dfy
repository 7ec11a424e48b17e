/**
 Who is paid, and where the money is: recipient selection, the backing of pot and
 reward pool over every run, and the bound on reward claims.
 */
module RoscaMoney {
  import opened Common
  import opened Ledger
  import opened Sums
  import opened RoscaModel

  // --- Recipient selection ---

  /** `j` places after the round's own position, cyclically. */
  function Candidate(g: Group, round: nat, j: nat): Address
    requires g.order != []
  {
    g.order[(round + j) % |g.order|]
  }

  lemma {:induction false} ScanFinds(g: Group, st: Standing, round: nat, idx: nat, attempts: nat) returns (j: nat)
    requires g.order != [] && attempts <= |g.order| && idx == (round + attempts) % |g.order|
    ensures attempts <= j <= |g.order|
    ensures forall k :: attempts <= k < j ==> !Eligible(g, st, round, Candidate(g, round, k))
    ensures j < |g.order| ==> Eligible(g, st, round, Candidate(g, round, j))
    ensures Scan(g, st, round, idx, attempts) == if j < |g.order| then Some((round + j) % |g.order|) else None
    decreases |g.order| - attempts
  {
    if attempts == |g.order| || Eligible(g, st, round, g.order[idx]) {
      j := attempts;
    } else {
      ModAdd(round + attempts, 1, |g.order|);
      j := ScanFinds(g, st, round, (idx + 1) % |g.order|, attempts + 1);
    }
  }

  /** The scan picks the first eligible member in cyclic order from the round's position,
      and finds nobody exactly when nobody in the order is eligible. */
  lemma RecipientSelection(g: Group, st: Standing, round: nat)
    ensures Recipient(g, st, round).None? <==> forall m :: m in g.order ==> !Eligible(g, st, round, m)
    ensures Recipient(g, st, round).Some? ==>
              g.order != []
              && exists j :: 0 <= j < |g.order| && Recipient(g, st, round).value == Candidate(g, round, j)
                             && Eligible(g, st, round, Candidate(g, round, j))
                             && forall k :: 0 <= k < j ==> !Eligible(g, st, round, Candidate(g, round, k))
  {
    if g.order != [] {
      var n := |g.order|;
      var j := ScanFinds(g, st, round, round % n, 0);
      if j == n {
        forall m | m in g.order ensures !Eligible(g, st, round, m) {
          var i :| 0 <= i < n && g.order[i] == m;
          var k := RotationHits(round, n, i);
          assert Candidate(g, round, k) == m;
        }
      } else {
        assert Candidate(g, round, j) in g.order;
      }
    }
  }

  // --- What a payout leaves behind ---

  /** Paying out never digs into the reward pool, nor into what is kept for reinvestment. */
  lemma {:induction false} PayTokensLeave(s: State, tokens: seq<Address>, to: Address, reinvest: bool)
    requires s.rewards.pool >= 0 && s.feeBps <= MAX_FEE && PayTokens(s, tokens, to, reinvest).Some?
    ensures var p := PayTokens(s, tokens, to, reinvest).value;
            && p.reinvested >= 0 && (!reinvest ==> p.reinvested == 0)
            && Bal(p.bal, s.cfg.base, This) >= Min(Bal(s.bal, s.cfg.base, This), s.rewards.pool) + p.reinvested
  {
    if tokens != [] {
      var n := |tokens| - 1;
      PayTokensLeave(s, tokens[..n], to, reinvest);
      PayTokenLeaves(s, PayTokens(s, tokens[..n], to, reinvest).value, tokens[n], to, reinvest);
    }
  }

  lemma PayTokenLeaves(s: State, p: Payout, token: Address, to: Address, reinvest: bool)
    requires s.rewards.pool >= 0 && s.feeBps <= MAX_FEE && PayToken(s, p, token, to, reinvest).Some?
    requires p.reinvested >= 0 && (!reinvest ==> p.reinvested == 0)
    requires Bal(p.bal, s.cfg.base, This) >= Min(Bal(s.bal, s.cfg.base, This), s.rewards.pool) + p.reinvested
    ensures var q := PayToken(s, p, token, to, reinvest).value;
            && q.reinvested >= 0 && (!reinvest ==> q.reinvested == 0)
            && Bal(q.bal, s.cfg.base, This) >= Min(Bal(s.bal, s.cfg.base, This), s.rewards.pool) + q.reinvested
  {
    var pot := Bal(p.bal, token, This) - if token == s.cfg.base then s.rewards.pool else 0;
    if pot > 0 {
      FeeBounds(s, pot);
      PayPotLeaves(s, p.(recorded := if token == s.cfg.base then pot else p.recorded), token, to, reinvest, pot,
                   FeeOn(s, pot));
    }
  }

  /** The protocol fee is between nothing and 5%. */
  lemma FeeBounds(s: State, amount: nat)
    requires s.feeBps <= MAX_FEE
    ensures 0 <= FeeOn(s, amount) && FeeOn(s, amount) * 20 <= amount
  {
    assert 0 <= amount * s.feeBps <= amount * MAX_FEE;
  }

  lemma PayPotLeaves(s: State, p: Payout, token: Address, to: Address, reinvest: bool, pot: int, fee: int)
    requires 0 <= fee <= pot && PayPot(s, p, token, to, reinvest, pot, fee).Some?
    ensures var q := PayPot(s, p, token, to, reinvest, pot, fee).value;
            if token == s.cfg.base
            then && Bal(q.bal, s.cfg.base, This) >= Bal(p.bal, s.cfg.base, This) - pot
                 + (if reinvest then pot - fee else 0)
                 && q.reinvested == if reinvest then pot - fee else p.reinvested
            else Bal(q.bal, s.cfg.base, This) == Bal(p.bal, s.cfg.base, This) && q.reinvested == p.reinvested
  {
  }

  // --- The backing invariant ---

  ghost predicate NonNegative(m: map<Address, int>) {
    forall k :: k in m ==> m[k] >= 0
  }

  /** The contract holds, in base token, the reward pool less what was claimed from it,
      plus everything contributed to the round in progress. */
  ghost predicate Backed(base: Address, bal: Balances, w: Rewards, contributions: map<Address, int>) {
    Bal(bal, base, This) >= w.pool - SumMap(w.claimed) + SumMap(contributions)
  }

  ghost predicate MoneyInv(s: State) {
    && s.feeBps <= MAX_FEE && s.rewards.pool >= 0
    && NonNegative(s.round.contributions) && NonNegative(s.rewards.claimed)
    && Backed(s.cfg.base, s.bal, s.rewards, s.round.contributions)
  }

  /** Contributions are made in the base token. */
  predicate InBase(base: Address, c: Call) {
    c.ContributeCall? ==> c.token == base
  }

  lemma {:induction false} SumNonNegative(m: map<Address, int>)
    requires NonNegative(m)
    ensures SumMap(m) >= 0
    decreases |m|
  {
    if m != map[] {
      var k :| k in m && SumMap(m) == m[k] + SumMap(m - {k});
      assert (m - {k}).Keys == m.Keys - {k} && m.Keys - {k} < m.Keys;
      SumNonNegative(m - {k});
    }
  }

  /** The claims are as they were and the reward pool has not shrunk. */
  predicate SameClaims(s: State, u: State) {
    u.cfg == s.cfg && u.rewards.claimed == s.rewards.claimed && u.rewards.pool >= s.rewards.pool
  }

  /** A payout, in one piece. */
  lemma CompleteRoundUnfolds(s: State, e: Env) returns (to: Address, p: Payout)
    requires CompleteRound(s, e).Some?
    ensures Recipient(s.group, s.standing, s.round.number) == Some(to)
    ensures var reinvest := to in s.standing.reinvesting;
            var u := CompleteRound(s, e).value;
            && PayTokens(s, s.group.approved, to, reinvest) == Some(p)
            && u.bal == p.bal && u.history == s.history + [PayoutRecord(to, p.recorded)]
            && u.cfg == s.cfg && u.feeBps == s.feeBps
            && u.rewards.pool == s.rewards.pool && u.rewards.claimed == s.rewards.claimed
            && u.round.contributions == if reinvest && p.reinvested > 0 then map[to := p.reinvested] else map[]
  {
    to := Recipient(s.group, s.standing, s.round.number).value;
    p := PayTokens(s, s.group.approved, to, to in s.standing.reinvesting).value;
  }

  lemma CompleteRoundKeeps(s: State, e: Env)
    requires MoneyInv(s) && CompleteRound(s, e).Some?
    ensures MoneyInv(CompleteRound(s, e).value) && SameClaims(s, CompleteRound(s, e).value)
  {
    var to, p := CompleteRoundUnfolds(s, e);
    PayTokensLeave(s, s.group.approved, to, to in s.standing.reinvesting);
    SumNonNegative(s.rewards.claimed);
    SumNonNegative(s.round.contributions);
    assert SumMap<Address>(map[]) == 0;
    SumUpdate<Address>(map[], to, p.reinvested);
    assert map[to := p.reinvested] == map[][to := p.reinvested];
  }

  lemma InstalledBacked(s: State, who: Address, amount: int, bal: Balances, full: bool)
    requires MoneyInv(s) && amount > 0 && who != This && Transfer(s.bal, s.cfg.base, who, This, amount) == Some(bal)
    ensures MoneyInv(Installed(s, who, bal, Get(s.round.contributions, who) + amount, full))
  {
    SumUpdate(s.round.contributions, who, Get(s.round.contributions, who) + amount);
  }

  lemma ContributeKeeps(s: State, e: Env, who: Address, amount: int)
    requires MoneyInv(s) && Contribute(s, e, who, s.cfg.base, amount).Some?
    ensures MoneyInv(Contribute(s, e, who, s.cfg.base, amount).value)
    ensures SameClaims(s, Contribute(s, e, who, s.cfg.base, amount).value)
  {
    var installed := ContributeUnfolds(s, e, who, s.cfg.base, amount);
    var full := Get(s.round.contributions, who) + amount == Required(s.cfg, s.group, who);
    InstalledBacked(s, who, amount, installed.bal, full);
    if full && |installed.round.paid| == |s.group.members| {
      CompleteRoundKeeps(installed, e);
    }
  }

  lemma FinalizeRoundKeeps(s: State, e: Env)
    requires MoneyInv(s) && FinalizeRound(s, e).Some?
    ensures MoneyInv(FinalizeRound(s, e).value) && SameClaims(s, FinalizeRound(s, e).value)
  {
    CompleteRoundKeeps(s.(standing := s.standing.(defaulters := Defaulters(s, s.group.members))), e);
  }

  lemma ClaimKeeps(s: State, e: Env, m: Address)
    requires MoneyInv(s) && ClaimRewards(s, e, m).Some?
    ensures MoneyInv(ClaimRewards(s, e, m).value)
  {
    SumUpdate(s.rewards.claimed, m, Get(s.rewards.claimed, m) + Claimable(s, m));
  }

  /** Closing a round early forgets its contributions; the money stays. */
  lemma CloseRoundKeeps(s: State, e: Env)
    requires MoneyInv(s) && CloseRound(s, e).Some?
    ensures MoneyInv(CloseRound(s, e).value)
  {
    SumNonNegative(s.round.contributions);
    assert SumMap<Address>(map[]) == 0;
  }

  /** Nothing the money invariant speaks of has changed, except that the contract may
      hold more. */
  ghost predicate MoneyAlike(s: State, u: State) {
    && u.cfg == s.cfg && u.feeBps <= MAX_FEE && u.round.contributions == s.round.contributions
    && u.rewards.claimed == s.rewards.claimed && u.rewards.pool == s.rewards.pool
    && Bal(u.bal, s.cfg.base, This) >= Bal(s.bal, s.cfg.base, This)
  }

  predicate Governs(c: Call) {
    c.CreateProposalCall? || c.VoteCall? || c.ExecuteCall? || c.DelegateCall? || c.RevokeCall? || c.AdministerCall?
    || c.LapseDelegationsCall?
  }

  lemma GovernanceMoneyAlike(s: State, e: Env, c: Call)
    requires s.feeBps <= MAX_FEE && Governs(c) && Step(s, e, c).Some?
    ensures MoneyAlike(s, Step(s, e, c).value)
  {
  }

  lemma PenaliseMoneyAlike(s: State, e: Env, m: Address)
    requires s.feeBps <= MAX_FEE && Penalise(s, e, m).Some?
    ensures MoneyAlike(s, Penalise(s, e, m).value)
  {
  }

  predicate Handles(c: Call) {
    c.ContributeCall? || c.CloseRoundCall? || c.FinalizeRoundCall? || c.ClaimRewardsCall? || c.DepositRewardsCall?
  }

  lemma OtherMoneyAlike(s: State, e: Env, c: Call)
    requires s.feeBps <= MAX_FEE && !Handles(c) && Step(s, e, c).Some?
    ensures MoneyAlike(s, Step(s, e, c).value)
  {
    if Governs(c) {
      GovernanceMoneyAlike(s, e, c);
    } else if c.PenaliseCall? {
      PenaliseMoneyAlike(s, e, c.who);
    }
  }

  lemma StepKeeps(s: State, e: Env, c: Call)
    requires MoneyInv(s) && InBase(s.cfg.base, c)
    ensures MoneyInv(Next(s, e, c)) && Next(s, e, c).cfg == s.cfg
    ensures !c.ClaimRewardsCall? ==> SameClaims(s, Next(s, e, c))
  {
    if Step(s, e, c).Some? {
      if c.ContributeCall? {
        ContributeKeeps(s, e, c.who, c.amount);
      } else if c.FinalizeRoundCall? {
        FinalizeRoundKeeps(s, e);
      } else if c.CloseRoundCall? {
        CloseRoundKeeps(s, e);
      } else if c.ClaimRewardsCall? {
        ClaimKeeps(s, e, c.who);
      } else if c.DepositRewardsCall? {
        assert Transfer(s.bal, s.cfg.base, c.who, This, c.amount).Some?;
      } else {
        OtherMoneyAlike(s, e, c);
      }
    }
  }

  predicate AllInBase(base: Address, run: Run) {
    forall i :: 0 <= i < |run| ==> InBase(base, run[i].1)
  }

  /** The contract always holds the reward pool less the claims plus the round's
      contributions, over every run of base-token contributions and anything else. */
  lemma {:induction false} RunKeeps(s: State, run: Run)
    requires MoneyInv(s) && AllInBase(s.cfg.base, run)
    ensures MoneyInv(Exec(s, run)) && Exec(s, run).cfg == s.cfg
    ensures (forall i :: 0 <= i < |run| ==> !run[i].1.ClaimRewardsCall?)
            ==> Exec(s, run).rewards.claimed == s.rewards.claimed
    decreases |run|
  {
    if run != [] {
      StepKeeps(s, run[0].0, run[0].1);
      RunKeeps(Next(s, run[0].0, run[0].1), run[1..]);
    }
  }

  /** From deployment on and as long as nobody claims rewards, the contract holds the
      reward pool and everything contributed to the round in progress. */
  lemma PotBacking(e: Env, cfg: Config, members: seq<Address>, order: Option<seq<Address>>, feeBps: nat,
                   maxMembers: nat, bal: Balances, run: Run)
    requires Init(e, cfg, members, order, feeBps, maxMembers, bal).Some? && Bal(bal, cfg.base, This) >= 0
    requires AllInBase(cfg.base, run) && forall i :: 0 <= i < |run| ==> !run[i].1.ClaimRewardsCall?
    ensures var s := Exec(Init(e, cfg, members, order, feeBps, maxMembers, bal).value, run);
            Bal(s.bal, cfg.base, This) >= s.rewards.pool + SumMap(s.round.contributions)
  {
    assert SumMap<Address>(map[]) == 0;
    RunKeeps(Init(e, cfg, members, order, feeBps, maxMembers, bal).value, run);
  }

  // --- The reward pool, whatever tokens are contributed ---

  /** The contract holds what is left of the reward pool after the claims. */
  ghost predicate PoolInv(s: State) {
    && s.feeBps <= MAX_FEE && s.rewards.pool >= 0 && NonNegative(s.rewards.claimed)
    && Bal(s.bal, s.cfg.base, This) >= s.rewards.pool - SumMap(s.rewards.claimed)
  }

  lemma CompleteRoundKeepsPool(s: State, e: Env)
    requires PoolInv(s) && CompleteRound(s, e).Some?
    ensures PoolInv(CompleteRound(s, e).value) && SameClaims(s, CompleteRound(s, e).value)
  {
    var to, p := CompleteRoundUnfolds(s, e);
    PayTokensLeave(s, s.group.approved, to, to in s.standing.reinvesting);
    SumNonNegative(s.rewards.claimed);
  }

  lemma ContributeKeepsPool(s: State, e: Env, who: Address, token: Address, amount: int)
    requires PoolInv(s) && Contribute(s, e, who, token, amount).Some?
    ensures PoolInv(Contribute(s, e, who, token, amount).value)
            && SameClaims(s, Contribute(s, e, who, token, amount).value)
  {
    var installed := ContributeUnfolds(s, e, who, token, amount);
    assert PoolInv(installed) && SameClaims(s, installed);
    if CompleteRound(installed, e).Some? {
      CompleteRoundKeepsPool(installed, e);
    }
  }

  lemma FinalizeKeepsPool(s: State, e: Env)
    requires PoolInv(s) && FinalizeRound(s, e).Some?
    ensures PoolInv(FinalizeRound(s, e).value) && SameClaims(s, FinalizeRound(s, e).value)
  {
    CompleteRoundKeepsPool(s.(standing := s.standing.(defaulters := Defaulters(s, s.group.members))), e);
  }

  lemma ClaimKeepsPool(s: State, e: Env, m: Address)
    requires PoolInv(s) && ClaimRewards(s, e, m).Some?
    ensures PoolInv(ClaimRewards(s, e, m).value)
  {
    SumUpdate(s.rewards.claimed, m, Get(s.rewards.claimed, m) + Claimable(s, m));
  }

  /** Every call keeps the pool, whatever token it deals in. */
  lemma StepKeepsPool(s: State, e: Env, c: Call)
    requires PoolInv(s)
    ensures PoolInv(Next(s, e, c)) && Next(s, e, c).cfg == s.cfg
    ensures !c.ClaimRewardsCall? ==> SameClaims(s, Next(s, e, c))
  {
    if Step(s, e, c).Some? {
      if c.ContributeCall? {
        ContributeKeepsPool(s, e, c.who, c.token, c.amount);
      } else if c.FinalizeRoundCall? {
        FinalizeKeepsPool(s, e);
      } else if c.ClaimRewardsCall? {
        ClaimKeepsPool(s, e, c.who);
      } else if c.DepositRewardsCall? {
        assert Transfer(s.bal, s.cfg.base, c.who, This, c.amount).Some?;
      } else if !c.CloseRoundCall? {
        OtherMoneyAlike(s, e, c);
      }
    }
  }

  lemma {:induction false} RunKeepsPool(s: State, run: Run)
    requires PoolInv(s)
    ensures PoolInv(Exec(s, run))
    decreases |run|
  {
    if run != [] {
      StepKeepsPool(s, run[0].0, run[0].1);
      RunKeepsPool(Next(s, run[0].0, run[0].1), run[1..]);
    }
  }

  // --- What a payout pays ---

  /** Base-token balances after `pot` has been paid out, less the fee, to `to`, or kept. */
  ghost predicate PotPaid(s: State, after: Balances, pot: int, to: Address, reinvest: bool) {
    var fee := FeeOn(s, pot);
    forall a ::
      Bal(after, s.cfg.base, a) == Bal(s.bal, s.cfg.base, a)
                                   - (if a == This then (if reinvest then fee else pot) else 0)
                                   + (if a == to && !reinvest then pot - fee else 0)
                                   + (if Some(a) == s.cfg.feeRecipient then fee else 0)
  }

  lemma PayBasePotAt(s: State, p: Payout, to: Address, reinvest: bool, pot: int, fee: int, q: Payout, a: Address)
    requires 0 <= fee <= pot && PayPot(s, p, s.cfg.base, to, reinvest, pot, fee) == Some(q) && fee == FeeOn(s, pot)
    ensures Bal(q.bal, s.cfg.base, a)
            == Bal(p.bal, s.cfg.base, a) - (if a == This then (if reinvest then fee else pot) else 0)
               + (if a == to && !reinvest then pot - fee else 0) + (if Some(a) == s.cfg.feeRecipient then fee else 0)
  {
  }

  lemma PayPotRecords(s: State, p: Payout, to: Address, reinvest: bool, pot: int, fee: int, q: Payout)
    requires PayPot(s, p, s.cfg.base, to, reinvest, pot, fee) == Some(q)
    ensures q.recorded == p.recorded && q.reinvested == if reinvest then pot - fee else p.reinvested
  {
  }

  lemma PayBasePot(s: State, p: Payout, to: Address, reinvest: bool, pot: int, fee: int)
    requires 0 <= fee <= pot && PayPot(s, p, s.cfg.base, to, reinvest, pot, fee).Some?
    requires fee == FeeOn(s, pot)
    requires forall a :: Bal(p.bal, s.cfg.base, a) == Bal(s.bal, s.cfg.base, a)
    ensures var q := PayPot(s, p, s.cfg.base, to, reinvest, pot, fee).value;
            && q.recorded == p.recorded && PotPaid(s, q.bal, pot, to, reinvest)
            && q.reinvested == if reinvest then pot - fee else p.reinvested
  {
    var q := PayPot(s, p, s.cfg.base, to, reinvest, pot, fee).value;
    PayPotRecords(s, p, to, reinvest, pot, fee, q);
    BasePotPaid(s, p, to, reinvest, pot, fee, q);
  }

  lemma BasePotPaid(s: State, p: Payout, to: Address, reinvest: bool, pot: int, fee: int, q: Payout)
    requires 0 <= fee <= pot && PayPot(s, p, s.cfg.base, to, reinvest, pot, fee) == Some(q) && fee == FeeOn(s, pot)
    requires forall a :: Bal(p.bal, s.cfg.base, a) == Bal(s.bal, s.cfg.base, a)
    ensures PotPaid(s, q.bal, pot, to, reinvest)
  {
    forall a
      ensures Bal(q.bal, s.cfg.base, a)
              == Bal(s.bal, s.cfg.base, a) - (if a == This then (if reinvest then fee else pot) else 0)
                 + (if a == to && !reinvest then pot - fee else 0) + (if Some(a) == s.cfg.feeRecipient then fee else 0)
    {
      PayBasePotAt(s, p, to, reinvest, pot, fee, q, a);
    }
  }

  lemma PayBaseToken(s: State, p: Payout, to: Address, reinvest: bool)
    requires s.feeBps <= MAX_FEE && PayToken(s, p, s.cfg.base, to, reinvest).Some?
    requires forall a :: Bal(p.bal, s.cfg.base, a) == Bal(s.bal, s.cfg.base, a)
    ensures var q := PayToken(s, p, s.cfg.base, to, reinvest).value;
            var pot := Bal(s.bal, s.cfg.base, This) - s.rewards.pool;
            && q.recorded == pot
            && PotPaid(s, q.bal, if pot > 0 then pot else 0, to, reinvest)
            && q.reinvested == if reinvest && pot > 0 then pot - FeeOn(s, pot) else p.reinvested
  {
    var pot := Bal(s.bal, s.cfg.base, This) - s.rewards.pool;
    if pot > 0 {
      FeeBounds(s, pot);
      PayBasePot(s, p.(recorded := pot), to, reinvest, pot, FeeOn(s, pot));
    } else {
      FeeBounds(s, 0);
    }
  }

  lemma PayOtherPot(s: State, p: Payout, token: Address, to: Address, reinvest: bool, pot: int, fee: int)
    requires token != s.cfg.base && PayPot(s, p, token, to, reinvest, pot, fee).Some?
    ensures var q := PayPot(s, p, token, to, reinvest, pot, fee).value;
            && q.recorded == p.recorded && q.reinvested == p.reinvested
            && forall a :: Bal(q.bal, s.cfg.base, a) == Bal(p.bal, s.cfg.base, a)
  {
  }

  lemma PayOtherToken(s: State, p: Payout, token: Address, to: Address, reinvest: bool)
    requires token != s.cfg.base && PayToken(s, p, token, to, reinvest).Some?
    ensures var q := PayToken(s, p, token, to, reinvest).value;
            && q.recorded == p.recorded && q.reinvested == p.reinvested
            && forall a :: Bal(q.bal, s.cfg.base, a) == Bal(p.bal, s.cfg.base, a)
  {
    var pot := Bal(p.bal, token, This);
    if pot > 0 {
      PayOtherPot(s, p, token, to, reinvest, pot, FeeOn(s, pot));
    }
  }

  /** With the base token approved once, a payout moves exactly the base-token holding
      beyond the reward pool, whatever else is approved. */
  lemma {:induction false} PayTokensPayPot(s: State, tokens: seq<Address>, to: Address, reinvest: bool)
    requires s.feeBps <= MAX_FEE && NoDup(tokens) && PayTokens(s, tokens, to, reinvest).Some?
    ensures var p := PayTokens(s, tokens, to, reinvest).value;
            var pot := Bal(s.bal, s.cfg.base, This) - s.rewards.pool;
            if s.cfg.base in tokens
            then && p.recorded == pot && PotPaid(s, p.bal, if pot > 0 then pot else 0, to, reinvest)
                 && p.reinvested == (if reinvest && pot > 0 then pot - FeeOn(s, pot) else 0)
            else p.recorded == 0 && p.reinvested == 0
                 && forall a :: Bal(p.bal, s.cfg.base, a) == Bal(s.bal, s.cfg.base, a)
  {
    if tokens != [] {
      var n := |tokens| - 1;
      assert tokens == tokens[..n] + [tokens[n]];
      PayTokensPayPot(s, tokens[..n], to, reinvest);
      var p := PayTokens(s, tokens[..n], to, reinvest).value;
      if tokens[n] == s.cfg.base {
        assert s.cfg.base !in tokens[..n];
        PayBaseToken(s, p, to, reinvest);
      } else {
        PayOtherToken(s, p, tokens[n], to, reinvest);
      }
    }
  }
}
