/**
 When claims can outgrow the reward pool: from any state, exactly when what the members
 have claimed, or could claim if that is more, adds up to more than the pool.
 */
module RoscaOverclaims {
  import opened Common
  import opened Ledger
  import opened Sums
  import opened RoscaModel
  import opened RoscaMoney

  /** What a member's claims come to once it has claimed all it can: its share of today's
      pool, or what it has claimed already if that is more. */
  ghost function Ceiling(s: State, m: Address): int {
    var claimed := Get(s.rewards.claimed, m);
    if m == This || m !in s.group.members || s.rewards.pool == 0 then claimed
    else
      var share := RewardShare(s.rewards, |s.group.members|, m);
      if share > claimed then share else claimed
  }

  /** The members, and whoever else has claimed. */
  ghost function Claimants(s: State): set<Address> {
    Elements(s.group.members) + s.rewards.claimed.Keys
  }

  ghost function Ceilings(s: State): map<Address, int> {
    map m | m in Claimants(s) :: Ceiling(s, m)
  }

  /** Nothing is called but claims, and others may give the contract tokens, from a time and
      a ledger on. */
  predicate ClaimsAndGifts(run: Run, now: nat, sequence: nat) {
    forall i :: 0 <= i < |run| ==> ClaimOrGift(run[i].1) && now <= run[i].0.now && sequence <= run[i].0.sequence
  }

  predicate ClaimOrGift(c: Call) {
    c.ClaimRewardsCall? || c.OutsideCall?
  }

  /** What decides everybody's share is the same. */
  predicate SameShares(s: State, u: State) {
    && u.group.members == s.group.members && u.pausedAt == s.pausedAt && u.cfg == s.cfg
    && u.rewards == s.rewards.(claimed := u.rewards.claimed)
  }

  /** Nobody has claimed beyond the ceiling it had in `s0`, and everybody has the same one. */
  ghost predicate WithinCeilings(s0: State, s: State) {
    && SameShares(s0, s) && Claimants(s) <= Claimants(s0)
    && (forall m :: m in s.rewards.claimed ==> s.rewards.claimed[m] <= Ceiling(s0, m))
    && (forall m :: Ceiling(s, m) == Ceiling(s0, m))
  }

  // --- One claim ---

  /** A claim brings its member to its ceiling and leaves every ceiling where it was. */
  lemma ClaimReaches(s: State, e: Env, m: Address)
    requires ClaimRewards(s, e, m).Some?
    ensures var u := ClaimRewards(s, e, m).value;
            && SameShares(s, u) && m in s.group.members && Get(u.rewards.claimed, m) == Ceiling(s, m)
            && u.rewards.claimed == s.rewards.claimed[m := Ceiling(s, m)]
  {
  }

  lemma SameCeiling(s: State, u: State, m: Address, k: Address)
    requires SameShares(s, u) && m in s.group.members && u.rewards.claimed == s.rewards.claimed[m := Ceiling(s, m)]
    ensures Ceiling(u, k) == Ceiling(s, k)
  {
    if k in s.group.members && s.rewards.pool != 0 {
      var members := |s.group.members|;
      assert RewardShare(u.rewards, members, k) == RewardShare(s.rewards, members, k);
    }
  }

  lemma ClaimStaysWithin(s0: State, s: State, e: Env, m: Address)
    requires WithinCeilings(s0, s) && ClaimRewards(s, e, m).Some?
    ensures WithinCeilings(s0, ClaimRewards(s, e, m).value)
  {
    var u := ClaimRewards(s, e, m).value;
    ClaimReaches(s, e, m);
    forall k ensures Ceiling(u, k) == Ceiling(s0, k) {
      SameCeiling(s, u, m, k);
    }
    assert m in Elements(s.group.members);
  }

  lemma GiftStaysWithin(s0: State, s: State, e: Env, c: Call)
    requires WithinCeilings(s0, s) && c.OutsideCall? && Step(s, e, c).Some?
    ensures WithinCeilings(s0, Step(s, e, c).value)
  {
    var u := Step(s, e, c).value;
    forall k ensures Ceiling(u, k) == Ceiling(s, k) {
      assert Claimable(u, k) == Claimable(s, k);
    }
  }

  lemma StartsWithin(s: State)
    ensures WithinCeilings(s, s)
  {
  }

  // --- No run of claims goes beyond the ceilings ---

  lemma {:induction false} RunStaysWithin(s0: State, s: State, run: Run)
    requires WithinCeilings(s0, s) && forall i :: 0 <= i < |run| ==> ClaimOrGift(run[i].1)
    ensures WithinCeilings(s0, Exec(s, run))
    decreases |run|
  {
    if run != [] {
      var e, c := run[0].0, run[0].1;
      if Step(s, e, c).Some? {
        if c.ClaimRewardsCall? {
          ClaimStaysWithin(s0, s, e, c.who);
        } else {
          GiftStaysWithin(s0, s, e, c);
        }
      }
      RunStaysWithin(s0, Next(s, e, c), run[1..]);
    }
  }

  lemma BelowCeilings(s0: State, s: State)
    requires NonNegative(s0.rewards.claimed) && WithinCeilings(s0, s)
    ensures SumMap(s.rewards.claimed) <= SumMap(Ceilings(s0))
  {
    SumMonotone(s.rewards.claimed, Ceilings(s0));
  }

  // --- Some run of claims reaches them ---

  lemma {:induction false} ExecAppend(s: State, run: Run, more: Run)
    ensures Exec(s, run + more) == Exec(Exec(s, run), more)
    decreases |run|
  {
    if run == [] {
      assert run + more == more;
    } else {
      assert (run + more)[0] == run[0] && (run + more)[1..] == run[1..] + more;
      ExecAppend(Next(s, run[0].0, run[0].1), run[1..], more);
    }
  }

  lemma TwoCalls(s: State, e: Env, c0: Call, t: State, c1: Call, u: State) returns (run: Run)
    requires Step(s, e, c0) == Some(t) && Step(t, e, c1) == Some(u)
    requires ClaimOrGift(c0) && ClaimOrGift(c1)
    ensures Exec(s, run) == u && ClaimsAndGifts(run, e.now, e.sequence)
  {
    run := [(e, c0), (e, c1)];
    assert run[1..] == [(e, c1)] && run[1..][1..] == [];
    assert Exec(t, run[1..]) == u;
  }

  /** Nobody's claims have shrunk. */
  ghost predicate Raised(s: State, u: State) {
    NonNegative(u.rewards.claimed) && forall m :: Get(u.rewards.claimed, m) >= Get(s.rewards.claimed, m)
  }

  /** Somebody gives the contract enough to pay `amount`. */
  lemma Funded(s: State, e: Env, amount: int) returns (c: Call, t: State)
    ensures c.OutsideCall? && Step(s, e, c) == Some(t)
    ensures t == s.(bal := t.bal) && Bal(t.bal, s.cfg.base, This) >= amount
  {
    var held := Bal(s.bal, s.cfg.base, This);
    t := s.(bal := SetBal(s.bal, s.cfg.base, This, if held >= amount then held else amount));
    c := OutsideCall(t.bal);
  }

  lemma ClaimPaid(s: State, e: Env, m: Address) returns (u: State)
    requires s.pausedAt.None? && m in e.signers && m != This && 0 < Claimable(s, m) <= Bal(s.bal, s.cfg.base, This)
    ensures ClaimRewards(s, e, m) == Some(u)
  {
    u := ClaimRewards(s, e, m).value;
  }

  lemma ClaimRaises(s: State, u: State, m: Address)
    requires NonNegative(s.rewards.claimed) && u.rewards.claimed == s.rewards.claimed[m := Ceiling(s, m)]
    ensures Raised(s, u)
  {
  }

  /** Whoever still can, claims, after somebody has given the contract enough to pay it. */
  lemma OneClaims(s0: State, s: State, m: Address, e: Env) returns (run: Run)
    requires WithinCeilings(s0, s) && s.pausedAt.None? && NonNegative(s.rewards.claimed) && m in e.signers
    ensures ClaimsAndGifts(run, e.now, e.sequence) && WithinCeilings(s0, Exec(s, run)) && Raised(s, Exec(s, run))
    ensures Get(Exec(s, run).rewards.claimed, m) == Ceiling(s0, m)
  {
    if m == This || Claimable(s, m) <= 0 {
      run := [];
    } else {
      var amount := Claimable(s, m);
      var c, t := Funded(s, e, amount);
      GiftStaysWithin(s0, s, e, c);
      SameClaimable(s, t, m);
      var u := ClaimPaid(t, e, m);
      ClaimReaches(t, e, m);
      ClaimStaysWithin(s0, t, e, m);
      ClaimRaises(t, u, m);
      run := TwoCalls(s, e, c, t, ClaimRewardsCall(m), u);
    }
  }

  lemma SameClaimable(s: State, t: State, m: Address)
    requires t == s.(bal := t.bal)
    ensures Claimable(t, m) == Claimable(s, m)
  {
  }

  /** The first `k` members have reached their ceilings. */
  ghost predicate Reached(s: State, u: State, k: nat)
    requires k <= |s.group.members|
  {
    forall i :: 0 <= i < k ==> Get(u.rewards.claimed, s.group.members[i]) == Ceiling(s, s.group.members[i])
  }

  lemma StaysReached(s: State, t: State, u: State, k: nat)
    requires k <= |s.group.members| && NonNegative(s.rewards.claimed)
    requires Reached(s, t, k) && Raised(t, u) && WithinCeilings(s, u)
    ensures Reached(s, u, k)
  {
    forall i | 0 <= i < k ensures Get(u.rewards.claimed, s.group.members[i]) == Ceiling(s, s.group.members[i]) {
      var m := s.group.members[i];
      assert Get(u.rewards.claimed, m) >= Ceiling(s, m);
    }
  }

  lemma {:induction false} ManyClaim(s: State, k: nat, now: nat, sequence: nat) returns (run: Run)
    requires k <= |s.group.members| && s.pausedAt.None? && NonNegative(s.rewards.claimed)
    ensures ClaimsAndGifts(run, now, sequence)
    ensures WithinCeilings(s, Exec(s, run)) && Raised(s, Exec(s, run)) && Reached(s, Exec(s, run), k)
  {
    if k == 0 {
      StartsWithin(s);
      run := [];
    } else {
      var first := ManyClaim(s, k - 1, now, sequence);
      var t, m := Exec(s, first), s.group.members[k - 1];
      var last := OneClaims(s, t, m, Env(now, sequence, {m}));
      run := first + last;
      ExecAppend(s, first, last);
      StaysReached(s, t, Exec(t, last), k - 1);
    }
  }

  lemma AtCeilings(s: State, u: State)
    requires NonNegative(s.rewards.claimed) && WithinCeilings(s, u) && Raised(s, u) && Reached(s, u, |s.group.members|)
    ensures SumMap(u.rewards.claimed) == SumMap(Ceilings(s))
  {
    forall m | m in Claimants(s) ensures Get(u.rewards.claimed, m) == Ceiling(s, m) {
      if i :| 0 <= i < |s.group.members| && s.group.members[i] == m {
        assert Get(u.rewards.claimed, s.group.members[i]) == Ceiling(s, s.group.members[i]);
      } else {
        assert m !in s.group.members;
      }
    }
    SumPadded(u.rewards.claimed, Ceilings(s));
  }

  // --- When claims outgrow the pool ---

  ghost predicate Outgrows(s: State, now: nat, sequence: nat, run: Run) {
    ClaimsAndGifts(run, now, sequence) && SumMap(Exec(s, run).rewards.claimed) > Exec(s, run).rewards.pool
  }

  lemma OutgrowsIffCeilings(s: State, now: nat, sequence: nat)
    requires s.pausedAt.None? && NonNegative(s.rewards.claimed)
    ensures (exists run :: Outgrows(s, now, sequence, run)) <==> SumMap(Ceilings(s)) > s.rewards.pool
  {
    if SumMap(Ceilings(s)) > s.rewards.pool {
      var run := ManyClaim(s, |s.group.members|, now, sequence);
      AtCeilings(s, Exec(s, run));
      assert Outgrows(s, now, sequence, run);
    } else {
      forall run ensures !Outgrows(s, now, sequence, run) {
        if ClaimsAndGifts(run, now, sequence) {
          StartsWithin(s);
          RunStaysWithin(s, s, run);
          BelowCeilings(s, Exec(s, run));
        }
      }
    }
  }

  /** In every reachable state of an unpaused group, under any division and after any change
      of members or participation: claims alone can outgrow the pool if and only if what each
      has claimed, or its share of today's pool if that is more, adds up to more than it. */
  lemma ClaimsCanOutgrow(e: Env, cfg: Config, members: seq<Address>, order: Option<seq<Address>>, feeBps: nat,
                         maxMembers: nat, bal: Balances, before: Run, s: State, now: nat, sequence: nat)
    requires Init(e, cfg, members, order, feeBps, maxMembers, bal).Some? && Bal(bal, cfg.base, This) >= 0
    requires s == Exec(Init(e, cfg, members, order, feeBps, maxMembers, bal).value, before) && s.pausedAt.None?
    ensures (exists run :: Outgrows(s, now, sequence, run)) <==> SumMap(Ceilings(s)) > s.rewards.pool
  {
    assert SumMap<Address>(map[]) == 0;
    RunKeepsPool(Init(e, cfg, members, order, feeBps, maxMembers, bal).value, before);
    OutgrowsIffCeilings(s, now, sequence);
  }
}
