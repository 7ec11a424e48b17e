/**
 What a claim is worth: the pool in proportion to a weight, rounded down once, whichever
 way the pool is divided; and who can claim.
 */
module RoscaShares {
  import opened Common
  import opened Ledger
  import opened Sums
  import opened RoscaModel
  import opened RoscaMoney

  // --- The division of the pool ---

  /** Everybody counts the same under an equal division, and under a weighted one for which
      no weights are set. */
  ghost predicate CountsEqually(w: Rewards) {
    w.dist == Equal || (w.dist == Weighted && SumMap(map k | k in w.weights :: w.weights[k] as int) <= 0)
  }

  ghost function WeightOf(w: Rewards, m: Address): int {
    if CountsEqually(w) then 1
    else if w.dist == Proportional then (if m in w.participation then w.participation[m] else 0)
    else (if m in w.weights then w.weights[m] else 0)
  }

  ghost function TotalOf(w: Rewards, members: nat): int {
    if CountsEqually(w) then members
    else if w.dist == Proportional then w.participations
    else SumMap(map k | k in w.weights :: w.weights[k] as int)
  }

  /** `part` is `weight` parts in `total` of the pool, rounded down. */
  predicate PartOf(part: int, pool: int, weight: int, total: int) {
    total * part <= pool * weight < total * (part + 1)
  }

  lemma FloorIsPart(x: int, total: int)
    requires total > 0
    ensures total * (x / total) <= x < total * (x / total + 1)
  {
    assert x == total * (x / total) + x % total;
  }

  /** A quotient rounded down reaches `q` exactly when `q` fits. */
  lemma FloorReaches(x: int, total: int, part: int, q: int)
    requires total > 0 && total * part <= x < total * (part + 1)
    ensures q <= part <==> total * q <= x
  {
    if q <= part {
      MulUp(total, q, part);
    } else {
      MulUp(total, part + 1, q);
    }
  }

  lemma ShareIsPart(w: Rewards, members: nat, m: Address)
    requires members > 0
    ensures TotalOf(w, members) >= 0
    ensures TotalOf(w, members) > 0 ==>
              PartOf(RewardShare(w, members, m), w.pool, WeightOf(w, m), TotalOf(w, members))
    ensures TotalOf(w, members) == 0 ==> RewardShare(w, members, m) == 0
  {
    var total := TotalOf(w, members);
    if total > 0 {
      FloorIsPart(w.pool * WeightOf(w, m), total);
      OneTimes(w.pool);
    }
  }

  lemma OneTimes(x: int)
    ensures x * 1 == x
  {
  }

  // --- Claims ---

  function Claimed(s: State, m: Address): int {
    if m in s.rewards.claimed then s.rewards.claimed[m] else 0
  }

  /** A member has something to claim when one unit more than it has claimed fits its part,
      and can be paid it when the contract holds what its part exceeds its claims by. */
  ghost predicate CanClaim(s: State, e: Env, m: Address) {
    var total, claimed := TotalOf(s.rewards, |s.group.members|), Claimed(s, m);
    var worth := s.rewards.pool * WeightOf(s.rewards, m);
    && s.pausedAt.None? && m in e.signers && m != This && m in s.group.members && total > 0
    && total * (claimed + 1) <= worth < total * (claimed + Bal(s.bal, s.cfg.base, This) + 1)
  }

  /** `m`'s claims have come to its part, and it has been paid the difference. */
  ghost predicate PaidItsPart(s: State, u: State, m: Address) {
    var total := TotalOf(s.rewards, |s.group.members|);
    && m in u.rewards.claimed
    && PartOf(u.rewards.claimed[m], s.rewards.pool, WeightOf(s.rewards, m), total)
    && u == s.(bal := u.bal, rewards := s.rewards.(claimed := s.rewards.claimed[m := u.rewards.claimed[m]]))
    && Moved(s.bal, u.bal, s.cfg.base, This, m, u.rewards.claimed[m] - Claimed(s, m))
  }

  lemma ClaimableIs(s: State, m: Address)
    requires PoolInv(s) && m in s.group.members
    ensures var total := TotalOf(s.rewards, |s.group.members|);
            total >= 0
            && (total > 0 ==> PartOf(Claimed(s, m) + Claimable(s, m), s.rewards.pool, WeightOf(s.rewards, m), total)
                              || (s.rewards.pool == 0 && Claimable(s, m) == 0))
            && (total == 0 ==> Claimable(s, m) <= 0)
  {
    ShareIsPart(s.rewards, |s.group.members|, m);
  }

  lemma ClaimCommits(s: State, e: Env, m: Address)
    requires PoolInv(s)
    ensures ClaimRewards(s, e, m).Some? <==> CanClaim(s, e, m)
  {
    var total, claimed := TotalOf(s.rewards, |s.group.members|), Claimed(s, m);
    if m in s.group.members {
      ClaimableIs(s, m);
      var worth, part := s.rewards.pool * WeightOf(s.rewards, m), claimed + Claimable(s, m);
      if s.rewards.pool == 0 {
        NoPool(total, claimed, WeightOf(s.rewards, m));
      } else if total > 0 {
        FloorReaches(worth, total, part, claimed + 1);
        FloorReaches(worth, total, part, claimed + Bal(s.bal, s.cfg.base, This) + 1);
      }
    }
  }

  lemma NoPool(total: int, claimed: nat, weight: int)
    ensures total > 0 ==> total * (claimed + 1) > 0 * weight
  {
    assert 0 * weight == 0;
    if total > 0 {
      MulUp(claimed + 1, 1, total);
    }
  }

  lemma ClaimPays(s: State, e: Env, m: Address, u: State)
    requires PoolInv(s) && ClaimRewards(s, e, m) == Some(u)
    ensures PaidItsPart(s, u, m)
  {
    ClaimCommits(s, e, m);
    ClaimableIs(s, m);
  }

  /** In every reachable state: a member can claim exactly when a unit more than it has
      claimed fits its part of the pool and the contract can pay, and a claim pays and books
      all that is missing to that part, and nothing else. */
  lemma ClaimExact(e0: Env, cfg: Config, members: seq<Address>, order: Option<seq<Address>>, feeBps: nat,
                   maxMembers: nat, bal: Balances, before: Run, s: State, e: Env, m: Address)
    requires Init(e0, cfg, members, order, feeBps, maxMembers, bal).Some? && Bal(bal, cfg.base, This) >= 0
    requires s == Exec(Init(e0, cfg, members, order, feeBps, maxMembers, bal).value, before)
    ensures Step(s, e, ClaimRewardsCall(m)).Some? <==> CanClaim(s, e, m)
    ensures Step(s, e, ClaimRewardsCall(m)).Some? ==> PaidItsPart(s, Step(s, e, ClaimRewardsCall(m)).value, m)
  {
    assert SumMap<Address>(map[]) == 0;
    RunKeepsPool(Init(e0, cfg, members, order, feeBps, maxMembers, bal).value, before);
    ClaimCommits(s, e, m);
    if Step(s, e, ClaimRewardsCall(m)).Some? {
      ClaimPays(s, e, m, Step(s, e, ClaimRewardsCall(m)).value);
    }
  }
}
