/**
 When the calls of the savings group go through and what they change: contributions,
 rounds, skips and penalties. A round that somebody may receive is always paid out.
 */
module RoscaCalls {
  import opened Common
  import opened Ledger
  import opened Sums
  import opened RoscaModel
  import opened RoscaMoney
  import RoscaPots
  import opened RoscaStanding
  import opened RoscaPayouts

  function Deadline(s: State): nat {
    if s.cfg.byTimestamp then s.round.tsDeadline else s.round.deadline
  }

  /** What a member owes the round: the contribution, or its tier's percentage of it. */
  function Owes(s: State, m: Address): int {
    if m !in s.group.tiers then s.cfg.contribution
    else
      var share := s.cfg.contribution * s.group.tiers[m];
      if share >= 0 then share / 10_000 else -((-share) / 10_000)
  }

  function SoFar(s: State, m: Address): int {
    if m in s.round.contributions then s.round.contributions[m] else 0
  }

  lemma OwesIs(s: State, m: Address)
    ensures Required(s.cfg, s.group, m) == Owes(s, m)
  {
  }

  // --- A payout goes through ---

  ghost predicate SomebodyMayReceive(s: State) {
    exists m :: m in s.group.order && MayReceive(s, m)
  }

  lemma TokenPayable(s: State, p: Payout, token: Address, to: Address, reinvest: bool)
    requires s.feeBps <= MAX_FEE && s.rewards.pool >= 0
    ensures PayToken(s, p, token, to, reinvest).Some?
  {
    var pot := Bal(p.bal, token, This) - if token == s.cfg.base then s.rewards.pool else 0;
    if pot > 0 {
      FeePartIs(s, pot);
    }
  }

  lemma {:induction false} TokensPayable(s: State, tokens: seq<Address>, to: Address, reinvest: bool)
    requires s.feeBps <= MAX_FEE && s.rewards.pool >= 0
    ensures PayTokens(s, tokens, to, reinvest).Some?
  {
    if tokens != [] {
      var n := |tokens| - 1;
      TokensPayable(s, tokens[..n], to, reinvest);
      TokenPayable(s, PayTokens(s, tokens[..n], to, reinvest).value, tokens[n], to, reinvest);
    }
  }

  lemma RecipientExists(s: State)
    ensures Recipient(s.group, s.standing, s.round.number).Some? <==> SomebodyMayReceive(s)
  {
    RecipientSelection(s.group, s.standing, s.round.number);
    if Recipient(s.group, s.standing, s.round.number).Some? {
      var j :| 0 <= j < |s.group.order|
               && Recipient(s.group, s.standing, s.round.number).value == Candidate(s.group, s.round.number, j)
               && Eligible(s.group, s.standing, s.round.number, Candidate(s.group, s.round.number, j));
      assert MayReceive(s, Candidate(s.group, s.round.number, j));
    } else {
      forall m | m in s.group.order ensures !MayReceive(s, m) {
        MayReceiveIs(s, m);
      }
    }
  }

  lemma PayoutCommits(s: State, e: Env)
    requires s.feeBps <= MAX_FEE && s.rewards.pool >= 0
    ensures CompleteRound(s, e).Some? <==> SomebodyMayReceive(s)
  {
    RecipientExists(s);
    var to := Recipient(s.group, s.standing, s.round.number);
    if to.Some? {
      TokensPayable(s, s.group.approved, to.value, to.value in s.standing.reinvesting);
    }
  }

  /** One more round on a member's account. */
  predicate Participated(w: Rewards, w': Rewards, m: Address) {
    w' == w.(participation := w.participation[m := (if m in w.participation then w.participation[m] else 0) + 1],
             participations := w.participations + 1)
  }

  /** `u` is `s` with the next round open: who receives and reinvests has contributed to it,
      and has paid its part if that is enough. */
  ghost predicate NextRound(s: State, e: Env, u: State, to: Address) {
    var kept := if to in u.round.contributions then u.round.contributions[to] else 0;
    var paid := to in u.round.contributions && kept >= Owes(s, to);
    && u == s.(bal := u.bal, history := u.history, round := u.round, rewards := u.rewards)
    && u.round == Round(s.round.number + 1, if paid then [to] else [], u.round.contributions, e.now + s.cfg.duration,
                        if s.cfg.byTimestamp then e.now + s.cfg.tsDuration else s.round.tsDeadline)
    && if paid then Participated(s.rewards, u.rewards, to) else u.rewards == s.rewards
  }

  lemma CompleteStages(s: State, e: Env, u: State, to: Address) returns (s1: State, kept: int)
    requires CompleteRound(s, e) == Some(u) && Recipient(s.group, s.standing, s.round.number) == Some(to)
    ensures s1 == s.(bal := s1.bal, history := s1.history, round := ResetRound(s.cfg, s.round, e))
    ensures u == if kept > 0 then Reinvest(s1, to, kept) else s1
  {
    var p := PayTokens(s, s.group.approved, to, to in s.standing.reinvesting).value;
    kept := if to in s.standing.reinvesting then p.reinvested else 0;
    s1 := s.(bal := p.bal, history := s.history + [PayoutRecord(to, p.recorded)],
             round := ResetRound(s.cfg, s.round, e));
  }

  lemma ReinvestOpensNext(s: State, e: Env, s1: State, to: Address, kept: int)
    requires kept > 0 && s1 == s.(bal := s1.bal, history := s1.history, round := ResetRound(s.cfg, s.round, e))
    ensures NextRound(s, e, Reinvest(s1, to, kept), to)
  {
    OwesIs(s, to);
    assert map[][to := kept] == map[to := kept];
  }

  lemma CompleteOpensNext(s: State, e: Env, u: State, to: Address)
    requires CompleteRound(s, e) == Some(u) && Recipient(s.group, s.standing, s.round.number) == Some(to)
    ensures NextRound(s, e, u, to)
  {
    var s1, kept := CompleteStages(s, e, u, to);
    if kept > 0 {
      ReinvestOpensNext(s, e, s1, to, kept);
    }
  }

  // --- Contributions ---

  /** What the token contracts and the member's part allow. */
  predicate MayTake(s: State, who: Address, token: Address, amount: int) {
    var taken := TakenBy(s, ContributeCall(who, token, amount), token);
    var total := SoFar(s, who) + amount;
    && (token == s.cfg.base || (token in s.group.rates && s.group.rates[token] > 0))
    && (token in s.group.limits ==> taken <= s.group.limits[token]) && Bal(s.bal, token, who) >= taken
    && total <= Owes(s, who) && (total == Owes(s, who) ==> s.cfg.goal != Some(0))
  }

  ghost predicate MayContribute(s: State, e: Env, who: Address, token: Address, amount: int) {
    && s.pausedAt.None? && Signed(e, who) && amount > 0 && e.now <= Deadline(s)
    && who in s.group.members && who !in s.group.exited && who !in s.round.paid && token in s.group.approved
    && MayTake(s, who, token, amount)
    && (SoFar(s, who) + amount == Owes(s, who) && |s.round.paid| + 1 == |s.group.members| ==> SomebodyMayReceive(s))
  }

  /** The member's part is on record, and counts once it is complete. */
  ghost predicate PaidIn(s: State, v: State, who: Address, token: Address, amount: int) {
    var total := SoFar(s, who) + amount;
    var full := total == Owes(s, who);
    && Moved(s.bal, v.bal, token, who, This, TakenBy(s, ContributeCall(who, token, amount), token))
    && v == s.(bal := v.bal, rewards := v.rewards,
               round := s.round.(contributions := s.round.contributions[who := total],
                                 paid := if full then s.round.paid + [who] else s.round.paid))
    && if full then Participated(s.rewards, v.rewards, who) else v.rewards == s.rewards
  }

  /** The contribution leaves the round open, or completes it and has it paid out. */
  ghost predicate Contributes(s: State, e: Env, who: Address, token: Address, amount: int, u: State) {
    if SoFar(s, who) + amount == Owes(s, who) && |s.round.paid| + 1 == |s.group.members|
    then exists v, to :: PaidIn(s, v, who, token, amount) && InTurn(v, to) && NextRound(v, e, u, to)
    else PaidIn(s, u, who, token, amount)
  }

  lemma TakeCommits(s: State, who: Address, token: Address, amount: int)
    requires amount > 0
    ensures TakeInstallment(s, who, token, amount).Some? <==> MayTake(s, who, token, amount)
  {
    OwesIs(s, who);
  }

  lemma TakeDoes(s: State, who: Address, token: Address, amount: int, v: State)
    requires amount > 0 && TakeInstallment(s, who, token, amount) == Some(v)
    ensures PaidIn(s, v, who, token, amount)
  {
    OwesIs(s, who);
  }

  lemma ContributeStages(s: State, e: Env, who: Address, token: Address, amount: int)
    ensures Contribute(s, e, who, token, amount)
            == if s.pausedAt.Some? || !Signed(e, who) || amount <= 0 || e.now > Deadline(s) || who in s.group.exited
                  || who !in s.group.members || who in s.round.paid || token !in s.group.approved
                  || TakeInstallment(s, who, token, amount).None?
               then None
               else
                 var v := TakeInstallment(s, who, token, amount).value;
                 if who in v.round.paid && |v.round.paid| == |s.group.members| then CompleteRound(v, e) else Some(v)
  {
  }

  lemma PaidInCounts(s: State, v: State, who: Address, token: Address, amount: int)
    requires PaidIn(s, v, who, token, amount) && who !in s.round.paid
    ensures (who in v.round.paid && |v.round.paid| == |s.group.members|)
            <==> SoFar(s, who) + amount == Owes(s, who) && |s.round.paid| + 1 == |s.group.members|
    ensures SomebodyMayReceive(v) <==> SomebodyMayReceive(s)
    ensures v.feeBps == s.feeBps && v.rewards.pool == s.rewards.pool
  {
    forall m ensures MayReceive(v, m) <==> MayReceive(s, m) {
    }
  }

  lemma ContributeCommits(s: State, e: Env, who: Address, token: Address, amount: int)
    requires s.feeBps <= MAX_FEE && s.rewards.pool >= 0
    ensures Contribute(s, e, who, token, amount).Some? <==> MayContribute(s, e, who, token, amount)
  {
    ContributeStages(s, e, who, token, amount);
    if amount > 0 && who !in s.round.paid {
      TakeCommits(s, who, token, amount);
      if TakeInstallment(s, who, token, amount).Some? {
        var v := TakeInstallment(s, who, token, amount).value;
        TakeDoes(s, who, token, amount, v);
        PaidInCounts(s, v, who, token, amount);
        PayoutCommits(v, e);
      }
    }
  }

  lemma ContributeDoes(s: State, e: Env, who: Address, token: Address, amount: int, u: State)
    requires Contribute(s, e, who, token, amount) == Some(u)
    ensures Contributes(s, e, who, token, amount, u)
  {
    ContributeStages(s, e, who, token, amount);
    var v := TakeInstallment(s, who, token, amount).value;
    TakeDoes(s, who, token, amount, v);
    PaidInCounts(s, v, who, token, amount);
    if who in v.round.paid && |v.round.paid| == |s.group.members| {
      LastPaysOut(s, e, who, token, amount, v, u);
    }
  }

  lemma LastPaysOut(s: State, e: Env, who: Address, token: Address, amount: int, v: State, u: State)
    requires PaidIn(s, v, who, token, amount) && CompleteRound(v, e) == Some(u)
    requires SoFar(s, who) + amount == Owes(s, who) && |s.round.paid| + 1 == |s.group.members|
    ensures Contributes(s, e, who, token, amount, u)
  {
    var to := Recipient(v.group, v.standing, v.round.number).value;
    RecipientInTurn(v, to);
    CompleteOpensNext(v, e, u, to);
  }

  /** In every reachable state a contribution commits exactly when the member may still pay
      that much in that token and holds it, and, if it completes the round, somebody may
      receive it; no payout is ever short of tokens. */
  lemma ContributionExact(e0: Env, cfg: Config, members: seq<Address>, order: Option<seq<Address>>, feeBps: nat,
                          maxMembers: nat, bal: Balances, before: Run, s: State, e: Env, who: Address, token: Address,
                          amount: int)
    requires Init(e0, cfg, members, order, feeBps, maxMembers, bal).Some? && Bal(bal, cfg.base, This) >= 0
    requires s == Exec(Init(e0, cfg, members, order, feeBps, maxMembers, bal).value, before)
    ensures Step(s, e, ContributeCall(who, token, amount)).Some? <==> MayContribute(s, e, who, token, amount)
    ensures Step(s, e, ContributeCall(who, token, amount)).Some? ==>
              Contributes(s, e, who, token, amount, Step(s, e, ContributeCall(who, token, amount)).value)
  {
    assert SumMap<Address>(map[]) == 0;
    RunKeepsPool(Init(e0, cfg, members, order, feeBps, maxMembers, bal).value, before);
    ContributeCommits(s, e, who, token, amount);
    if Contribute(s, e, who, token, amount).Some? {
      ContributeDoes(s, e, who, token, amount, Contribute(s, e, who, token, amount).value);
    }
  }

  // --- Closing a round ---

  /** The round is over, and the admin closes it. */
  predicate Closable(s: State, e: Env) {
    s.pausedAt.None? && Signed(e, s.group.admin) && e.now > Deadline(s)
  }

  /** `list` names the members that missed the round, each as often as it is listed and in the
      order of the members. */
  ghost predicate MissedList(s: State, list: seq<Address>) {
    && (forall m :: multiset(list)[m] == if Missed(s, m) then multiset(s.group.members)[m] else 0)
    && exists places :: Picks(s.group.members, list, places)
  }

  lemma {:induction false} DefaultersPick(s: State, members: seq<Address>) returns (places: seq<nat>)
    ensures Picks(members, Defaulters(s, members), places)
  {
    if members == [] {
      places := [];
    } else {
      var n := |members| - 1;
      places := DefaultersPick(s, members[..n]);
      if Missed(s, members[n]) {
        places := places + [n];
      }
    }
  }

  lemma DefaultersMissed(s: State)
    ensures MissedList(s, Defaulters(s, s.group.members))
  {
    DefaultersExact(s, s.group.members);
    var places := DefaultersPick(s, s.group.members);
  }

  /** The round is forgotten, and those who missed it are named. */
  ghost predicate Closed(s: State, e: Env, u: State) {
    && MissedList(s, u.standing.defaulters)
    && u == s.(standing := s.standing.(defaulters := u.standing.defaulters),
               round := Round(s.round.number + 1, [], map[], e.now + s.cfg.duration,
                              if s.cfg.byTimestamp then e.now + s.cfg.tsDuration else s.round.tsDeadline))
  }

  lemma ClosedIs(s: State, e: Env, u: State)
    requires CloseRound(s, e) == Some(u)
    ensures Closed(s, e, u)
  {
    DefaultersMissed(s);
  }

  /** Closing a round without paying it out forgets its contributions and names those who
      missed it. */
  lemma CloseExact(s: State, e: Env)
    ensures Step(s, e, CloseRoundCall).Some? <==> Closable(s, e)
    ensures Step(s, e, CloseRoundCall).Some? ==> Closed(s, e, Step(s, e, CloseRoundCall).value)
  {
    if CloseRound(s, e).Some? {
      ClosedIs(s, e, CloseRound(s, e).value);
    }
  }

  /** Everybody who missed the round has one default more for every time it is listed, and is
      suspended once it has as many as are tolerated. */
  ghost predicate DefaultsRecorded(s: State, u: State) {
    && MissedList(s, u.standing.defaulters)
    && (forall m :: Count(u.standing.defaults, m)
                    == Count(s.standing.defaults, m) + multiset(u.standing.defaulters)[m])
    && (forall m :: m in u.standing.suspended <==> Count(u.standing.defaults, m) >= s.cfg.maxDefaults)
    && u.standing == s.standing.(defaulters := u.standing.defaulters, defaults := u.standing.defaults,
                                 suspended := u.standing.suspended)
  }

  lemma DefaultsAreRecorded(s: State, e: Env, u: State)
    requires s.cfg.maxDefaults >= 1 && Exact(s.standing, s.cfg.maxDefaults) && FinalizeRound(s, e) == Some(u)
    ensures DefaultsRecorded(s, u)
  {
    var d := Defaulters(s, s.group.members);
    DefaultersMissed(s);
    FinalizeStanding(s, e);
    RecordDefaultsKeep(s.standing.(defaulters := d), d, s.cfg.maxDefaults);
  }

  lemma FinalizeStages(s: State, e: Env, s1: State)
    requires s1 == s.(standing := s.standing.(defaulters := Defaulters(s, s.group.members)))
    ensures FinalizeRound(s, e)
            == if !Closable(s, e) || CompleteRound(s1, e).None? then None
               else
                 var v := CompleteRound(s1, e).value;
                 Some(v.(standing := RecordDefaults(v.standing, s1.standing.defaulters, s.cfg.maxDefaults)))
  {
  }

  lemma FinalizeCommits(s: State, e: Env)
    requires s.feeBps <= MAX_FEE && s.rewards.pool >= 0
    ensures FinalizeRound(s, e).Some? <==> Closable(s, e) && SomebodyMayReceive(s)
  {
    var s1 := s.(standing := s.standing.(defaulters := Defaulters(s, s.group.members)));
    FinalizeStages(s, e, s1);
    PayoutCommits(s1, e);
    forall m ensures MayReceive(s1, m) <==> MayReceive(s, m) {
    }
  }

  lemma FinalizeOpensNext(s: State, e: Env, u: State) returns (to: Address)
    requires FinalizeRound(s, e) == Some(u)
    ensures InTurn(s, to) && NextRound(s, e, u.(standing := s.standing), to)
  {
    var s1 := s.(standing := s.standing.(defaulters := Defaulters(s, s.group.members)));
    FinalizeStages(s, e, s1);
    RoscaPots.SameStanding(s, s1);
    var v := CompleteRound(s1, e).value;
    to := Recipient(s1.group, s1.standing, s1.round.number).value;
    RecipientInTurn(s, to);
    CompleteOpensNext(s1, e, v, to);
    NextAlike(s, s1, e, v, u, to);
  }

  lemma NextAlike(s: State, s1: State, e: Env, v: State, u: State, to: Address)
    requires s1 == s.(standing := s1.standing) && NextRound(s1, e, v, to) && u == v.(standing := u.standing)
    ensures NextRound(s, e, u.(standing := s.standing), to)
  {
  }

  /** In every reachable state the admin can finalise a round that is over exactly when
      somebody may receive it; it is paid out, and then the defaults are recorded. */
  lemma FinalizeExact(e0: Env, cfg: Config, members: seq<Address>, order: Option<seq<Address>>, feeBps: nat,
                      maxMembers: nat, bal: Balances, before: Run, s: State, e: Env)
    requires Init(e0, cfg, members, order, feeBps, maxMembers, bal).Some? && Bal(bal, cfg.base, This) >= 0
    requires s == Exec(Init(e0, cfg, members, order, feeBps, maxMembers, bal).value, before)
    ensures Step(s, e, FinalizeRoundCall).Some? <==> Closable(s, e) && SomebodyMayReceive(s)
    ensures Step(s, e, FinalizeRoundCall).Some? ==>
              var u := Step(s, e, FinalizeRoundCall).value;
              DefaultsRecorded(s, u) && exists to :: InTurn(s, to) && NextRound(s, e, u.(standing := s.standing), to)
  {
    assert SumMap<Address>(map[]) == 0;
    RunKeepsPool(Init(e0, cfg, members, order, feeBps, maxMembers, bal).value, before);
    RunKeepsExact(Init(e0, cfg, members, order, feeBps, maxMembers, bal).value, before);
    FinalizeCommits(s, e);
    if FinalizeRound(s, e).Some? {
      DefaultsAreRecorded(s, e, FinalizeRound(s, e).value);
      var to := FinalizeOpensNext(s, e, FinalizeRound(s, e).value);
    }
  }

  // --- Skips and penalties ---

  /** A round that is not over, nor paid, nor skipped yet by the member, and a skip left in the
      cycle it falls in. */
  predicate MaySkip(s: State, e: Env, m: Address, round: nat) {
    && s.pausedAt.None? && Signed(e, m) && m in s.group.members && (m, round) !in s.standing.skips
    && round >= s.round.number && (round == s.round.number ==> e.now <= Deadline(s) && m !in s.round.paid)
    && s.group.order != []
    && (var cycle := round / |s.group.order|;
        (m, cycle) in s.standing.skipCounts ==> s.standing.skipCounts[(m, cycle)] < s.cfg.maxSkips)
    && ((m, round / |s.group.order|) !in s.standing.skipCounts ==> s.cfg.maxSkips > 0)
    && (s.cfg.skipFee > 0 ==> Bal(s.bal, s.cfg.base, m) >= s.cfg.skipFee)
  }

  ghost predicate Skipped(s: State, m: Address, round: nat, u: State)
    requires s.group.order != []
  {
    var cycle := round / |s.group.order|;
    var used := if (m, cycle) in s.standing.skipCounts then s.standing.skipCounts[(m, cycle)] else 0;
    && Moved(s.bal, u.bal, s.cfg.base, m, This, if s.cfg.skipFee > 0 then s.cfg.skipFee else 0)
    && u == s.(bal := u.bal, standing := s.standing.(skips := s.standing.skips + {(m, round)},
                                                     skipCounts := s.standing.skipCounts[(m, cycle) := used + 1]))
  }

  /** A member skips a round exactly when it is still open to it and it has a skip left. */
  lemma SkipExact(s: State, e: Env, m: Address, round: nat)
    ensures Step(s, e, RequestSkipCall(m, round)).Some? <==> MaySkip(s, e, m, round)
    ensures Step(s, e, RequestSkipCall(m, round)).Some? ==>
              Skipped(s, m, round, Step(s, e, RequestSkipCall(m, round)).value)
  {
  }

  /** A penalty takes two signatures, the admin's and the defaulter's, and counts as a default
      that suspends whoever has as many as are tolerated. */
  lemma PenaltyExact(s: State, e: Env, m: Address)
    ensures var u, base, penalty := Step(s, e, PenaliseCall(m)), s.cfg.base, s.cfg.penalty;
            && (u.Some? <==> s.pausedAt.None? && Signed(e, s.group.admin) && Signed(e, m)
                             && m in s.standing.defaulters && 0 < penalty <= Bal(s.bal, base, m))
            && (u.Some? ==>
                  var count := (if m in s.standing.defaults then s.standing.defaults[m] else 0) + 1;
                  var suspends := count >= s.cfg.maxDefaults && m !in s.standing.suspended;
                  && Moved(s.bal, u.value.bal, base, m, This, penalty)
                  && u.value == s.(bal := u.value.bal,
                                   standing := s.standing.(defaults := s.standing.defaults[m := count],
                                                           suspended := s.standing.suspended
                                                                        + if suspends then [m] else [])))
  {
  }

  // --- Deployment, rewards, preferences and pauses ---

  /** A group is deployed exactly with a fee of at most 5%, a tolerance of at least one default,
      a limit of 1 to 100 that its members fit, and a custom order, if any, of as many places,
      all of them members'. */
  lemma DeploymentExact(e: Env, cfg: Config, members: seq<Address>, order: Option<seq<Address>>, feeBps: nat,
                        maxMembers: nat, bal: Balances)
    ensures var u := Init(e, cfg, members, order, feeBps, maxMembers, bal);
            && (u.Some? <==> feeBps <= 500 && cfg.maxDefaults >= 1 && |members| <= maxMembers && 1 <= maxMembers <= 100
                             && (order.Some? ==> |order.value| == |members|
                                                 && forall m :: m in order.value ==> m in members))
            && (u.Some? ==>
                  && u.value.cfg == cfg && u.value.feeBps == feeBps && u.value.bal == bal && u.value.pausedAt == None
                  && u.value.group == Group(cfg.admin, members, if order.Some? then order.value else members, [],
                                            [cfg.base], map[], map[], map[])
                  && u.value.round == Round(0, [], map[], e.now + cfg.duration,
                                            if cfg.byTimestamp then e.now + cfg.tsDuration else 0)
                  && u.value.standing == Standing([], map[], [], {}, map[], {}) && u.value.history == []
                  && u.value.rewards == Rewards(0, map[], Equal, map[], map[], 0)
                  && u.value.gov == Governance(map[], map[], map[], 0, 51, map[], maxMembers))
  {
    if order.Some? {
      forall m | m in order.value && forall i :: 0 <= i < |order.value| ==> order.value[i] in members
        ensures m in members
      {
        var i :| 0 <= i < |order.value| && order.value[i] == m;
      }
    }
  }

  /** Whoever signs can add to the reward pool what it holds. */
  lemma DepositExact(s: State, e: Env, from: Address, amount: int)
    ensures var u := Step(s, e, DepositRewardsCall(from, amount));
            && (u.Some? <==> s.pausedAt.None? && Signed(e, from) && 0 <= amount <= Bal(s.bal, s.cfg.base, from))
            && (u.Some? ==>
                  && Moved(s.bal, u.value.bal, s.cfg.base, from, This, amount)
                  && u.value == s.(bal := u.value.bal, rewards := s.rewards.(pool := s.rewards.pool + amount)))
  {
  }

  /** The admin says how the pool is divided; weights not given stay. */
  lemma DistributionExact(s: State, e: Env, dist: Distribution, weights: Option<map<Address, nat>>)
    ensures var u := Step(s, e, SetRewardDistCall(dist, weights));
            && (u.Some? <==> s.pausedAt.None? && Signed(e, s.group.admin))
            && (u.Some? ==>
                  u.value == s.(rewards := s.rewards.(dist := dist, weights := if weights.Some? then weights.value
                                                                               else s.rewards.weights)))
  {
  }

  /** A member says before the deadline whether its payout is kept for the next round. */
  lemma ReinvestExact(s: State, e: Env, m: Address, on: bool)
    ensures var u := Step(s, e, SetReinvestCall(m, on));
            && (u.Some? <==> s.pausedAt.None? && Signed(e, m) && m in s.group.members && e.now <= Deadline(s))
            && (u.Some? ==>
                  && u.value == s.(standing := s.standing.(reinvesting := u.value.standing.reinvesting))
                  && forall k :: k in u.value.standing.reinvesting
                                 <==> if k == m then on else k in s.standing.reinvesting)
  {
  }

  /** The admin sets the fee, to at most 5%. */
  lemma FeeExact(s: State, e: Env, bps: nat)
    ensures var u := Step(s, e, UpdateFeeCall(bps));
            && (u.Some? <==> s.pausedAt.None? && Signed(e, s.group.admin) && bps <= 500)
            && (u.Some? ==> u.value == s.(feeBps := bps))
  {
  }

  /** The admin pauses the group, and resumes it with both deadlines, where set, later by the
      time it was paused. */
  lemma PauseExact(s: State, e: Env)
    ensures var u := Step(s, e, PauseCall);
            && (u.Some? <==> Signed(e, s.group.admin) && s.pausedAt.None?)
            && (u.Some? ==> u.value == s.(pausedAt := Some(e.now)))
    ensures var u := Step(s, e, ResumeCall);
            && (u.Some? <==> Signed(e, s.group.admin) && s.pausedAt.Some? && e.now >= s.pausedAt.value)
            && (u.Some? ==>
                  var r := s.round;
                  var paused := e.now - s.pausedAt.value;
                  u.value == s.(pausedAt := None,
                                round := r.(deadline := r.deadline + (if r.deadline > 0 then paused else 0),
                                            tsDeadline := r.tsDeadline + (if r.tsDeadline > 0 then paused else 0))))
  {
  }
}
