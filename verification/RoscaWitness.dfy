/**
 Three short runs of a group of two, from deployment on: a proportional division promises
 more than the reward pool, a claim leaves the next pot short, and a member is paid in two
 rounds running because the other is suspended.
 */
module RoscaWitness {
  import opened Common
  import opened Ledger
  import opened Sums
  import opened RoscaModel

  const BASE := Party(9)
  const ADMIN := Party(0)
  const ANN := Party(1)
  const BEN := Party(2)
  const DONOR := Party(3)

  /** Everyone signs every call. */
  const ENV := Env(0, 0, {ADMIN, ANN, BEN, DONOR})

  const TERMS := Config(ADMIN, BASE, 10, 100, false, 0, 0, None, 3, 0, 0, false, None)

  /** A group of two that contributes 10 a round; each of them and a donor hold 10. */
  function Start(): State {
    State(TERMS, 0, Group(ADMIN, [ANN, BEN], [ANN, BEN], [], [BASE], map[], map[], map[]),
          Round(0, [], map[], 100, 0), Standing([], map[], [], {}, map[], {}),
          Rewards(0, map[], Equal, map[], map[], 0), [], None, Governance(map[], map[], map[], 0, 51, map[], 50),
          map[(BASE, ANN) := 10, (BASE, BEN) := 10, (BASE, DONOR) := 10])
  }

  lemma StartIsDeployment()
    ensures Init(ENV, TERMS, [ANN, BEN], None, 0, 50, Start().bal) == Some(Start())
  {
  }

  lemma Required10(g: Group, m: Address)
    requires g.tiers == map[]
    ensures Required(TERMS, g, m) == 10
  {
  }

  /** A payment in full by someone who has not paid anything yet. */
  lemma PaysInFull(s: State, m: Address)
    requires s.cfg == TERMS && s.pausedAt.None? && s.round.deadline == 100 && m in [ANN, BEN]
    requires s.group == Start().group && m !in s.round.paid && m !in s.round.contributions && Bal(s.bal, BASE, m) >= 10
    ensures var moved := Transfer(s.bal, BASE, m, This, 10);
            moved.Some? &&
            var installed := Installed(s, m, moved.value, 10, true);
            Contribute(s, ENV, m, BASE, 10)
            == if |s.round.paid| == 1 then CompleteRound(installed, ENV) else Some(installed)
  {
    Required10(s.group, m);
  }

  /** Without a fee, and with one token, a round pays what the contract holds beyond the
      reward pool. */
  lemma PaysPot(s: State, e: Env, to: Address, pot: int)
    requires s.cfg.base == BASE && s.feeBps == 0 && s.group.approved == [BASE] && s.standing.reinvesting == {}
    requires Recipient(s.group, s.standing, s.round.number) == Some(to)
    requires pot == Bal(s.bal, BASE, This) - s.rewards.pool && pot > 0 && s.rewards.pool >= 0
    ensures var u := CompleteRound(s, e);
            && u.Some? && Moved(s.bal, u.value.bal, BASE, This, to, pot)
            && u.value == s.(bal := u.value.bal, history := s.history + [PayoutRecord(to, pot)],
                             round := ResetRound(s.cfg, s.round, e))
  {
    assert s.group.approved[..0] == [] && s.group.approved[0] == BASE;
    assert PayTokens(s, s.group.approved[..0], to, false) == Some(Payout(s.bal, 0, 0));
    assert FeeOn(s, pot) == 0;
    assert PayTokens(s, s.group.approved, to, false) == PayToken(s, Payout(s.bal, 0, 0), BASE, to, false);
  }

  /** The first round pays Ann what the contract holds beyond the reward pool. */
  lemma FirstPot(s: State)
    requires s.cfg == TERMS && s.feeBps == 0 && s.group == Start().group && s.standing == Start().standing
    requires s.round.number == 0 && s.history == [] && Bal(s.bal, BASE, This) > s.rewards.pool >= 0
    ensures var pot := Bal(s.bal, BASE, This) - s.rewards.pool;
            var u := CompleteRound(s, ENV);
            && u.Some? && u.value.history == [PayoutRecord(ANN, pot)]
            && u.value == s.(bal := u.value.bal, history := u.value.history, round := ResetRound(TERMS, s.round, ENV))
            && Bal(u.value.bal, BASE, This) == s.rewards.pool
  {
    assert Recipient(s.group, s.standing, 0) == Some(ANN);
    PaysPot(s, ENV, ANN, Bal(s.bal, BASE, This) - s.rewards.pool);
  }

  /** The donor gives 10, the division is made proportional, Ann pays and claims. */
  ghost function AnnClaims(): State {
    var s1 := Next(Start(), ENV, DepositRewardsCall(DONOR, 10));
    var s2 := Next(s1, ENV, SetRewardDistCall(Proportional, None));
    var s3 := Next(s2, ENV, ContributeCall(ANN, BASE, 10));
    Next(s3, ENV, ClaimRewardsCall(ANN))
  }

  lemma DonorGives()
    ensures var u := Next(Start(), ENV, DepositRewardsCall(DONOR, 10));
            && u == Start().(bal := u.bal, rewards := Start().rewards.(pool := 10))
            && Bal(u.bal, BASE, This) == 10 && Bal(u.bal, BASE, ANN) == 10 && Bal(u.bal, BASE, BEN) == 10
  {
  }

  lemma AnnPays(s: State)
    requires s == Start().(bal := s.bal, rewards := s.rewards) && Bal(s.bal, BASE, ANN) >= 10
    ensures var u := Next(s, ENV, ContributeCall(ANN, BASE, 10));
            && u == s.(bal := u.bal, rewards := Participate(s.rewards, ANN),
                       round := Round(0, [ANN], map[ANN := 10], 100, 0))
            && Bal(u.bal, BASE, This) == Bal(s.bal, BASE, This) + 10 && Bal(u.bal, BASE, BEN) == Bal(s.bal, BASE, BEN)
  {
    PaysInFull(s, ANN);
  }

  lemma AnnTakesThePool()
    ensures var s := AnnClaims();
            && s == Start().(bal := s.bal, rewards := s.rewards, round := Round(0, [ANN], map[ANN := 10], 100, 0))
            && s.rewards == Rewards(10, map[ANN := 10], Proportional, map[], map[ANN := 1], 1)
            && Bal(s.bal, BASE, This) == 10 && Bal(s.bal, BASE, BEN) == 10
  {
    DonorGives();
    var s1 := Next(Start(), ENV, DepositRewardsCall(DONOR, 10));
    var s2 := s1.(rewards := s1.rewards.(dist := Proportional));
    assert Next(s1, ENV, SetRewardDistCall(Proportional, None)) == s2;
    AnnPays(s2);
    AnnCollects(Next(s2, ENV, ContributeCall(ANN, BASE, 10)));
  }

  lemma AnnCollects(s: State)
    requires s.cfg == TERMS && s.pausedAt.None? && s.group == Start().group && Bal(s.bal, BASE, This) == 20
    requires s.rewards == Rewards(10, map[], Proportional, map[], map[ANN := 1], 1)
    ensures var u := Next(s, ENV, ClaimRewardsCall(ANN));
            && u == s.(bal := u.bal, rewards := s.rewards.(claimed := map[ANN := 10]))
            && Bal(u.bal, BASE, This) == 10 && Bal(u.bal, BASE, BEN) == Bal(s.bal, BASE, BEN)
  {
    assert Claimable(s, ANN) == 10;
  }

  lemma BenPays(s: State)
    requires s == Start().(bal := s.bal, rewards := s.rewards, round := Round(0, [ANN], map[ANN := 10], 100, 0))
    requires Bal(s.bal, BASE, This) + 10 > s.rewards.pool >= 0 && Bal(s.bal, BASE, BEN) >= 10
    ensures var u := Next(s, ENV, ContributeCall(BEN, BASE, 10));
            && u.cfg == TERMS && u.pausedAt.None? && u.group == s.group && u.rewards == Participate(s.rewards, BEN)
            && u.history == [PayoutRecord(ANN, Bal(s.bal, BASE, This) + 10 - s.rewards.pool)]
            && Bal(u.bal, BASE, This) == s.rewards.pool
  {
    PaysInFull(s, BEN);
    FirstPot(Installed(s, BEN, Transfer(s.bal, BASE, BEN, This, 10).value, 10, true));
  }

  lemma BenCollects(s: State)
    requires s.cfg == TERMS && s.pausedAt.None? && s.group == Start().group && Bal(s.bal, BASE, This) == 10
    requires s.rewards == Rewards(10, map[ANN := 10], Proportional, map[], map[ANN := 1, BEN := 1], 2)
    ensures var u := Next(s, ENV, ClaimRewardsCall(BEN));
            u.rewards.pool == 10 && u.rewards.claimed == map[ANN := 10, BEN := 5] && Bal(u.bal, BASE, This) == 5
  {
    assert Claimable(s, BEN) == 5;
  }

  /** Ann claims a proportional share while only she has participated; Ben's share of the
      same pool then comes on top: 15 claimed of a pool of 10. */
  lemma ProportionalCanOverDistribute()
    ensures var s5 := Next(AnnClaims(), ENV, ContributeCall(BEN, BASE, 10));
            var s6 := Next(s5, ENV, ClaimRewardsCall(BEN));
            s6.rewards.pool == 10 && SumMap(s6.rewards.claimed) == 15 && Bal(s6.bal, BASE, This) == 5
  {
    AnnTakesThePool();
    BenPays(AnnClaims());
    var s5 := Next(AnnClaims(), ENV, ContributeCall(BEN, BASE, 10));
    assert s5.rewards == Rewards(10, map[ANN := 10], Proportional, map[], map[ANN := 1, BEN := 1], 2);
    BenCollects(s5);
    assert SumMap<Address>(map[]) == 0;
    SumUpdate(map[], ANN, 10);
    SumUpdate(map[ANN := 10], BEN, 5);
    assert map[][ANN := 10] == map[ANN := 10] && map[ANN := 10][BEN := 5] == map[ANN := 10, BEN := 5];
  }

  /** Ann claims 5 of a pool of 10, and the pot of 20 contributed in that round is 15. */
  lemma ClaimLeavesPotShort()
    ensures var s1 := Next(Start(), ENV, DepositRewardsCall(DONOR, 10));
            var s2 := Next(s1, ENV, ClaimRewardsCall(ANN));
            var s3 := Next(s2, ENV, ContributeCall(ANN, BASE, 10));
            var s4 := Next(s3, ENV, ContributeCall(BEN, BASE, 10));
            s4.history == [PayoutRecord(ANN, 15)]
  {
    DonorGives();
    var s1 := Next(Start(), ENV, DepositRewardsCall(DONOR, 10));
    var s2 := Next(s1, ENV, ClaimRewardsCall(ANN));
    AnnTakesFive(s1);
    AnnPays(s2);
    BenPays(Next(s2, ENV, ContributeCall(ANN, BASE, 10)));
  }

  lemma AnnTakesFive(s: State)
    requires s == Start().(bal := s.bal, rewards := Start().rewards.(pool := 10)) && Bal(s.bal, BASE, This) == 10
    requires Bal(s.bal, BASE, ANN) == 10 && Bal(s.bal, BASE, BEN) == 10
    ensures var u := Next(s, ENV, ClaimRewardsCall(ANN));
            && u == s.(bal := u.bal, rewards := s.rewards.(claimed := map[ANN := 5]))
            && Bal(u.bal, BASE, This) == 5 && Bal(u.bal, BASE, ANN) == 15 && Bal(u.bal, BASE, BEN) == 10
  {
    assert Claimable(s, ANN) == 5;
  }

  // --- A stand-in ---

  /** One missed round suspends. */
  const STRICT := TERMS.(maxDefaults := 1)

  /** Past the deadline of the first round, before that of the second. */
  const LATE := Env(101, 0, {ADMIN, ANN, BEN, DONOR})

  function StrictStart(): State {
    Start().(cfg := STRICT)
  }

  lemma StrictStartIsDeployment()
    ensures Init(ENV, STRICT, [ANN, BEN], None, 0, 50, StrictStart().bal) == Some(StrictStart())
  {
  }

  lemma PaysUnderStrict(s: State, e: Env, m: Address)
    requires s.cfg == STRICT && s.group == Start().group && s.pausedAt.None? && e.Authorised(m)
             && e.now <= s.round.deadline
    requires m in [ANN, BEN] && m !in s.round.paid && m !in s.round.contributions && Bal(s.bal, BASE, m) >= 10
    ensures var moved := Transfer(s.bal, BASE, m, This, 10);
            moved.Some? &&
            var installed := Installed(s, m, moved.value, 10, true);
            Contribute(s, e, m, BASE, 10)
            == if |s.round.paid| == 1 then CompleteRound(installed, e) else Some(installed)
  {
    assert Required(STRICT, s.group, m) == 10;
  }

  /** After Ann has paid her installment in the first round. */
  predicate AnnHasPaid(s: State) {
    && s == StrictStart().(bal := s.bal, rewards := s.rewards, round := Round(0, [ANN], map[ANN := 10], 100, 0))
    && s.rewards.pool == 0 && Bal(s.bal, BASE, This) == 10 && Bal(s.bal, BASE, ANN) == 0 && Bal(s.bal, BASE, BEN) == 10
  }

  lemma AnnInstalled(bal: Balances)
    requires Transfer(StrictStart().bal, BASE, ANN, This, 10) == Some(bal)
    ensures AnnHasPaid(Installed(StrictStart(), ANN, bal, 10, true))
  {
    assert Moved(StrictStart().bal, bal, BASE, ANN, This, 10);
  }

  lemma AnnPaysFirst()
    ensures AnnHasPaid(Next(StrictStart(), ENV, ContributeCall(ANN, BASE, 10)))
  {
    var s := StrictStart();
    PaysUnderStrict(s, ENV, ANN);
    var bal := Transfer(s.bal, BASE, ANN, This, 10).value;
    AnnInstalled(bal);
    assert Step(s, ENV, ContributeCall(ANN, BASE, 10)) == Some(Installed(s, ANN, bal, 10, true));
  }

  lemma BenMissed(s: State)
    requires s.round.paid == [ANN] && s.group.exited == [] && s.standing.skips == {}
    ensures Defaulters(s, [ANN, BEN]) == [BEN]
  {
    assert [ANN, BEN][..1] == [ANN] && [ANN][..0] == [];
    assert Defaulters(s, []) == [] && Defaulters(s, [ANN]) == [];
  }

  lemma BenSuspended(st: Standing)
    requires st == Standing([BEN], map[], [], {}, map[], {})
    ensures RecordDefaults(st, [BEN], 1) == Standing([BEN], map[BEN := 1], [BEN], {}, map[], {})
  {
    assert [BEN][..0] == [] && RecordDefaults(st, [], 1) == st;
    assert RecordDefaults(st, [BEN], 1) == RecordDefault(st, BEN, 1);
  }

  /** After the admin has finalised it. */
  predicate BenIsOut(s: State) {
    && s.cfg == STRICT && s.feeBps == 0 && s.group == Start().group && s.pausedAt.None?
    && s.standing == Standing([BEN], map[BEN := 1], [BEN], {}, map[], {})
    && s.round == Round(1, [], map[], 201, 0) && s.history == [PayoutRecord(ANN, 10)] && s.rewards.pool == 0
    && Bal(s.bal, BASE, This) == 0 && Bal(s.bal, BASE, ANN) == 10 && Bal(s.bal, BASE, BEN) == 10
  }

  lemma FinalisedState(s: State, v: State)
    requires AnnHasPaid(s) && Moved(s.bal, v.bal, BASE, This, ANN, 10)
    requires v == s.(standing := v.standing, bal := v.bal, history := [PayoutRecord(ANN, 10)],
                     round := ResetRound(STRICT, s.round, LATE))
    ensures BenIsOut(v.(standing := Standing([BEN], map[BEN := 1], [BEN], {}, map[], {})))
  {
  }

  lemma FinalizeIs(s: State, e: Env, out: seq<Address>, s1: State, v: State)
    requires MayClose(s, e) && Defaulters(s, s.group.members) == out && CompleteRound(s1, e) == Some(v)
    requires s1 == s.(standing := s.standing.(defaulters := out))
    ensures Step(s, e, FinalizeRoundCall) == Some(v.(standing := RecordDefaults(v.standing, out, s.cfg.maxDefaults)))
  {
  }

  lemma FirstRoundPays(s: State, s1: State) returns (v: State)
    requires AnnHasPaid(s) && s1 == s.(standing := s.standing.(defaulters := [BEN]))
    ensures CompleteRound(s1, LATE) == Some(v) && v.standing == s1.standing && Moved(s.bal, v.bal, BASE, This, ANN, 10)
    ensures v == s.(standing := v.standing, bal := v.bal, history := [PayoutRecord(ANN, 10)],
                    round := ResetRound(STRICT, s.round, LATE))
  {
    assert Recipient(s1.group, s1.standing, 0) == Some(ANN);
    PaysPot(s1, LATE, ANN, 10);
    v := CompleteRound(s1, LATE).value;
  }

  lemma RoundFinalised(s: State)
    requires AnnHasPaid(s)
    ensures BenIsOut(Next(s, LATE, FinalizeRoundCall))
  {
    BenMissed(s);
    var s1 := s.(standing := s.standing.(defaulters := [BEN]));
    BenSuspended(s1.standing);
    var v := FirstRoundPays(s, s1);
    FinalisedState(s, v);
    Finalised(s, s1, v);
  }

  lemma Finalised(s: State, s1: State, v: State)
    requires MayClose(s, LATE) && s.cfg == STRICT && Defaulters(s, s.group.members) == [BEN]
    requires s1 == s.(standing := s.standing.(defaulters := [BEN])) && CompleteRound(s1, LATE) == Some(v)
    requires BenIsOut(v.(standing := RecordDefaults(v.standing, [BEN], 1)))
    ensures BenIsOut(Next(s, LATE, FinalizeRoundCall))
  {
    FinalizeIs(s, LATE, [BEN], s1, v);
  }

  lemma BothPay(s: State)
    requires BenIsOut(s)
    ensures var s1 := Next(s, LATE, ContributeCall(ANN, BASE, 10));
            var s2 := Next(s1, LATE, ContributeCall(BEN, BASE, 10));
            && s2.history == [PayoutRecord(ANN, 10), PayoutRecord(ANN, 20)]
            && Bal(s2.bal, BASE, ANN) == 20 && Bal(s2.bal, BASE, BEN) == 0
  {
    PaysUnderStrict(s, LATE, ANN);
    var s1 := Next(s, LATE, ContributeCall(ANN, BASE, 10));
    assert s1 == Installed(s, ANN, s1.bal, 10, true);
    PaysUnderStrict(s1, LATE, BEN);
    var installed := Installed(s1, BEN, Transfer(s1.bal, BASE, BEN, This, 10).value, 10, true);
    SecondTurn(installed.group, installed.standing);
    PaysPot(installed, LATE, ANN, 20);
    assert Next(s1, LATE, ContributeCall(BEN, BASE, 10)) == CompleteRound(installed, LATE).value;
  }

  lemma SecondTurn(g: Group, st: Standing)
    requires g == Start().group && st == Standing([BEN], map[BEN := 1], [BEN], {}, map[], {})
    ensures Recipient(g, st, 1) == Some(ANN)
  {
    assert !Eligible(g, st, 1, BEN) && Eligible(g, st, 1, ANN);
    assert Scan(g, st, 1, 0, 1) == Some(0);
    assert Scan(g, st, 1, 1, 0) == Some(0);
  }

  /** Ben misses a round and is suspended; he pays in full in the next, his own, and Ann is
      paid a second time running. */
  lemma StandInPaidTwice()
    ensures var s1 := Next(StrictStart(), ENV, ContributeCall(ANN, BASE, 10));
            var s2 := Next(s1, LATE, FinalizeRoundCall);
            var s3 := Next(s2, LATE, ContributeCall(ANN, BASE, 10));
            var s4 := Next(s3, LATE, ContributeCall(BEN, BASE, 10));
            && s4.history == [PayoutRecord(ANN, 10), PayoutRecord(ANN, 20)]
            && Bal(s4.bal, BASE, ANN) == 20 && Bal(s4.bal, BASE, BEN) == 0
  {
    AnnPaysFirst();
    var s1 := Next(StrictStart(), ENV, ContributeCall(ANN, BASE, 10));
    RoundFinalised(s1);
    BothPay(Next(s1, LATE, FinalizeRoundCall));
  }
}
