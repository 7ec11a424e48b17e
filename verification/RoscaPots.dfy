/**
 What every pot of a run is worth: the contributions to its round, plus what the contract
 has to spare, less what claims have drawn from it and no payout has made up yet.
 */
module RoscaPots {
  import opened Common
  import opened Ledger
  import opened Sums
  import opened RoscaModel
  import opened RoscaMoney

  // --- One payout ---

  /** Everything contributed to the round that `c` may pay out, its own amount included. */
  ghost function Contributed(s: State, c: Call): int {
    SumMap(s.round.contributions) + if c.ContributeCall? then c.amount else 0
  }

  ghost predicate PaysOut(s: State, e: Env, c: Call) {
    Step(s, e, c).Some? && |Step(s, e, c).value.history| > |s.history|
  }

  /** The contract holds the reward pool, the contributions and exactly `spare` more, or less. */
  ghost predicate Exactly(s: State, spare: int) {
    Bal(s.bal, s.cfg.base, This) == s.rewards.pool + SumMap(s.round.contributions) + spare
  }

  /** What stays of a pot when the contract itself is paid. */
  function Stays(s: State, pot: int): int {
    var to := Recipient(s.group, s.standing, s.round.number).GetOr(This);
    (if to == This && to !in s.standing.reinvesting then pot - FeeOn(s, pot) else 0)
    + if s.cfg.feeRecipient == Some(This) then FeeOn(s, pot) else 0
  }

  /** What is to spare once a round with `contributed` is paid out. */
  function SpareAfterPayout(s: State, contributed: int, spare: int): int {
    var pot := contributed + spare;
    if s.cfg.base !in s.group.approved || pot <= 0 then pot else Stays(s, pot)
  }

  function RecordedPot(s: State, contributed: int, spare: int): int {
    if s.cfg.base in s.group.approved then contributed + spare else 0
  }

  /** What the contract holds after a payout, beyond what is kept for reinvestment. */
  lemma PaidBalance(s: State, to: Address, p: Payout)
    requires s.feeBps <= MAX_FEE && NoDup(s.group.approved)
    requires Recipient(s.group, s.standing, s.round.number) == Some(to)
    requires PayTokens(s, s.group.approved, to, to in s.standing.reinvesting) == Some(p)
    ensures var held := Bal(s.bal, s.cfg.base, This) - s.rewards.pool;
            && p.reinvested >= 0 && (to !in s.standing.reinvesting ==> p.reinvested == 0)
            && Bal(p.bal, s.cfg.base, This) - s.rewards.pool - p.reinvested == SpareAfterPayout(s, held, 0)
            && p.recorded == RecordedPot(s, held, 0)
  {
    var pot := Bal(s.bal, s.cfg.base, This) - s.rewards.pool;
    PayTokensPayPot(s, s.group.approved, to, to in s.standing.reinvesting);
    FeeBounds(s, if pot > 0 then pot else 0);
  }

  lemma Reopened(to: Address, p: Payout, reinvest: bool, contributions: map<Address, int>)
    requires p.reinvested >= 0 && (!reinvest ==> p.reinvested == 0)
    requires contributions == if reinvest && p.reinvested > 0 then map[to := p.reinvested] else map[]
    ensures SumMap(contributions) == p.reinvested
  {
    assert SumMap<Address>(map[]) == 0;
    SumUpdate<Address>(map[], to, p.reinvested);
    assert map[to := p.reinvested] == map[][to := p.reinvested];
  }

  /** A payout from a contract that holds `spare` beyond pool and contributions. */
  lemma PayoutExact(s: State, e: Env, spare: int, u: State)
    requires s.feeBps <= MAX_FEE && NoDup(s.group.approved) && Exactly(s, spare) && CompleteRound(s, e) == Some(u)
    ensures var contributed := SumMap(s.round.contributions);
            var to := Recipient(s.group, s.standing, s.round.number);
            && Exactly(u, SpareAfterPayout(s, contributed, spare))
            && to.Some? && u.history == s.history + [PayoutRecord(to.value, RecordedPot(s, contributed, spare))]
  {
    var to, p := CompleteRoundUnfolds(s, e);
    PaidBalance(s, to, p);
    Reopened(to, p, to in s.standing.reinvesting, u.round.contributions);
    assert SumMap(s.round.contributions) + spare == Bal(s.bal, s.cfg.base, This) - s.rewards.pool;
  }

  // --- Every step ---

  ghost function SpareAfterStep(s: State, e: Env, c: Call, spare: int): int {
    if Step(s, e, c).None? then spare
    else if PaysOut(s, e, c) then SpareAfterPayout(s, Contributed(s, c), spare)
    else
      match c
      case ClaimRewardsCall(who) => spare - Claimable(s, who)
      case RequestSkipCall(_, _) => spare + if s.cfg.skipFee > 0 then s.cfg.skipFee else 0
      case PenaliseCall(_) => spare + s.cfg.penalty
      case CloseRoundCall => spare + SumMap(s.round.contributions)
      case OutsideCall(bal) => spare + Bal(bal, s.cfg.base, This) - Bal(s.bal, s.cfg.base, This)
      case _ => spare
  }

  /** The pot that a paying call records, if it pays. */
  ghost predicate RecordsPot(s: State, e: Env, c: Call, spare: int) {
    PaysOut(s, e, c) ==>
      Next(s, e, c).history == s.history + [PayoutRecord(Recipient(s.group, s.standing, s.round.number).GetOr(This),
                                                         RecordedPot(s, Contributed(s, c), spare))]
  }

  lemma ContributeExact(s: State, e: Env, c: Call, spare: int)
    requires c.ContributeCall? && c.token == s.cfg.base && Step(s, e, c).Some?
    requires s.feeBps <= MAX_FEE && NoDup(s.group.approved) && Exactly(s, spare)
    ensures Exactly(Step(s, e, c).value, SpareAfterStep(s, e, c, spare)) && RecordsPot(s, e, c, spare)
  {
    var installed := ContributeUnfolds(s, e, c.who, c.token, c.amount);
    SumUpdate(s.round.contributions, c.who, Get(s.round.contributions, c.who) + c.amount);
    assert SumMap(installed.round.contributions) == Contributed(s, c);
    assert Exactly(installed, spare);
    if Step(s, e, c) == CompleteRound(installed, e) {
      PayoutExact(installed, e, spare, Step(s, e, c).value);
    }
  }

  lemma FinalizeUnfolds(s: State, e: Env, u: State) returns (s1: State, v: State)
    requires FinalizeRound(s, e) == Some(u)
    ensures s1 == s.(standing := s.standing.(defaulters := s1.standing.defaulters)) && CompleteRound(s1, e) == Some(v)
    ensures u.bal == v.bal && u.rewards == v.rewards && u.round == v.round && u.history == v.history && u.cfg == v.cfg
  {
    s1 := s.(standing := s.standing.(defaulters := Defaulters(s, s.group.members)));
    v := CompleteRound(s1, e).value;
  }

  lemma FinalizePays(s: State, e: Env, spare: int, u: State)
    requires FinalizeRound(s, e) == Some(u)
    requires s.feeBps <= MAX_FEE && NoDup(s.group.approved) && Exactly(s, spare)
    ensures var contributed := SumMap(s.round.contributions);
            var to := Recipient(s.group, s.standing, s.round.number);
            && Exactly(u, SpareAfterPayout(s, contributed, spare))
            && to.Some? && u.history == s.history + [PayoutRecord(to.value, RecordedPot(s, contributed, spare))]
  {
    var s1, v := FinalizeUnfolds(s, e, u);
    assert Exactly(s1, spare);
    PayoutExact(s1, e, spare, v);
    SamePayout(s, s1, SumMap(s.round.contributions), spare);
  }

  lemma FinalizeExact(s: State, e: Env, spare: int)
    requires FinalizeRound(s, e).Some?
    requires s.feeBps <= MAX_FEE && NoDup(s.group.approved) && Exactly(s, spare)
    ensures Exactly(FinalizeRound(s, e).value, SpareAfterStep(s, e, FinalizeRoundCall, spare))
    ensures RecordsPot(s, e, FinalizeRoundCall, spare)
  {
    FinalizePays(s, e, spare, FinalizeRound(s, e).value);
    assert Step(s, e, FinalizeRoundCall) == FinalizeRound(s, e);
  }

  lemma SamePayout(s: State, s1: State, contributed: int, spare: int)
    requires s1 == s.(standing := s.standing.(defaulters := s1.standing.defaulters))
    ensures Recipient(s1.group, s1.standing, s1.round.number) == Recipient(s.group, s.standing, s.round.number)
    ensures SpareAfterPayout(s1, contributed, spare) == SpareAfterPayout(s, contributed, spare)
  {
    SameStanding(s, s1);
    assert FeeOn(s1, contributed + spare) == FeeOn(s, contributed + spare);
  }

  /** The list of defaulters has no part in who is paid. */
  lemma SameStanding(s: State, s1: State)
    requires s1 == s.(standing := s.standing.(defaulters := s1.standing.defaulters))
    ensures Recipient(s1.group, s1.standing, s1.round.number) == Recipient(s.group, s.standing, s.round.number)
  {
    if s.group.order != [] {
      SameScan(s.group, s.standing, s.group, s1.standing, s.round.number, s.round.number % |s.group.order|, 0);
    }
  }

  lemma {:induction false} SameScan(g: Group, st: Standing, g': Group, st': Standing, round: nat, idx: nat,
                                    attempts: nat)
    requires g'.order == g.order && g'.exited == g.exited && st'.suspended == st.suspended && st'.skips == st.skips
    requires idx < |g.order|
    ensures Scan(g', st', round, idx, attempts) == Scan(g, st, round, idx, attempts)
    decreases |g.order| - attempts
  {
    if attempts < |g.order| {
      SameScan(g, st, g', st', round, (idx + 1) % |g.order|, attempts + 1);
    }
  }

  lemma MovesBase(s: State, e: Env, c: Call, spare: int)
    requires c.ClaimRewardsCall? || c.RequestSkipCall? || c.PenaliseCall? || c.CloseRoundCall? || c.OutsideCall?
             || c.DepositRewardsCall?
    requires Step(s, e, c).Some? && Exactly(s, spare)
    ensures Exactly(Step(s, e, c).value, SpareAfterStep(s, e, c, spare)) && !PaysOut(s, e, c)
  {
    assert SumMap<Address>(map[]) == 0;
  }

  /** Tokens, rewards, contributions and history are as they were. */
  predicate SameMoney(s: State, u: State) {
    && u.cfg == s.cfg && u.bal == s.bal && u.rewards.pool == s.rewards.pool && u.rewards.claimed == s.rewards.claimed
    && u.round.contributions == s.round.contributions && u.round.number == s.round.number && u.history == s.history
  }

  lemma ExecuteSameMoney(s: State, e: Env, id: nat, u: State)
    requires Execute(s, e, id) == Some(u)
    ensures SameMoney(s, u)
  {
  }

  lemma GovernsSameMoney(s: State, e: Env, c: Call, u: State)
    requires Governs(c) && Step(s, e, c) == Some(u)
    ensures SameMoney(s, u)
  {
    if c.ExecuteCall? {
      ExecuteSameMoney(s, e, c.id, u);
    } else {
      BallotSameMoney(s, e, c, u);
    }
  }

  lemma BallotSameMoney(s: State, e: Env, c: Call, u: State)
    requires Governs(c) && !c.ExecuteCall? && Step(s, e, c) == Some(u)
    ensures SameMoney(s, u)
  {
  }

  lemma SettingSameMoney(s: State, e: Env, c: Call, u: State)
    requires c.SetRewardDistCall? || c.SetReinvestCall? || c.UpdateFeeCall? || c.PauseCall? || c.ResumeCall?
    requires Step(s, e, c) == Some(u)
    ensures SameMoney(s, u)
  {
  }

  lemma MovesNothing(s: State, e: Env, c: Call, spare: int)
    requires !c.ContributeCall? && !c.FinalizeRoundCall? && Step(s, e, c).Some? && Exactly(s, spare)
    requires !(c.ClaimRewardsCall? || c.RequestSkipCall? || c.PenaliseCall? || c.CloseRoundCall? || c.OutsideCall?
               || c.DepositRewardsCall?)
    ensures Exactly(Step(s, e, c).value, SpareAfterStep(s, e, c, spare)) && !PaysOut(s, e, c)
  {
    var u := Step(s, e, c).value;
    if Governs(c) {
      GovernsSameMoney(s, e, c, u);
    } else {
      SettingSameMoney(s, e, c, u);
    }
  }

  /** Every call changes what is to spare exactly as `SpareAfterStep` says, and every pot is
      what was contributed to its round plus what was to spare before it. */
  lemma StepExact(s: State, e: Env, c: Call, spare: int)
    requires s.feeBps <= MAX_FEE && NoDup(s.group.approved) && InBase(s.cfg.base, c) && Exactly(s, spare)
    ensures Exactly(Next(s, e, c), SpareAfterStep(s, e, c, spare)) && RecordsPot(s, e, c, spare)
  {
    if Step(s, e, c).Some? {
      if c.ContributeCall? {
        ContributeExact(s, e, c, spare);
      } else if c.FinalizeRoundCall? {
        FinalizeExact(s, e, spare);
      } else if c.ClaimRewardsCall? || c.RequestSkipCall? || c.PenaliseCall? || c.CloseRoundCall? || c.OutsideCall?
                || c.DepositRewardsCall? {
        MovesBase(s, e, c, spare);
      } else {
        MovesNothing(s, e, c, spare);
      }
    }
  }

  // --- Runs ---

  ghost function SpareAfter(s: State, run: Run, spare: int): int
    decreases |run|
  {
    if run == [] then spare
    else SpareAfter(Next(s, run[0].0, run[0].1), run[1..], SpareAfterStep(s, run[0].0, run[0].1, spare))
  }

  /** Contributions in the base token, and no token approved twice at any time. */
  ghost predicate Orderly(s: State, run: Run)
    decreases |run|
  {
    NoDup(s.group.approved)
    && (run == [] || (InBase(s.cfg.base, run[0].1) && Orderly(Next(s, run[0].0, run[0].1), run[1..])))
  }

  lemma {:induction false} RunExact(s: State, run: Run, spare: int)
    requires PoolInv(s) && Exactly(s, spare) && Orderly(s, run)
    ensures PoolInv(Exec(s, run)) && Exactly(Exec(s, run), SpareAfter(s, run, spare))
    ensures NoDup(Exec(s, run).group.approved) && Exec(s, run).cfg == s.cfg
    decreases |run|
  {
    if run != [] {
      StepExact(s, run[0].0, run[0].1, spare);
      StepKeepsPool(s, run[0].0, run[0].1);
      RunExact(Next(s, run[0].0, run[0].1), run[1..], SpareAfterStep(s, run[0].0, run[0].1, spare));
    }
  }

  /** The call pays the recipient in turn and puts `pot` on record. */
  ghost predicate PotIs(s: State, e: Env, c: Call, pot: int) {
    var to := Recipient(s.group, s.standing, s.round.number);
    to.Some? && Next(s, e, c).history == s.history + [PayoutRecord(to.value, pot)]
  }

  lemma PotAt(s: State, spare: int, e: Env, c: Call, pot: int)
    requires s.feeBps <= MAX_FEE && NoDup(s.group.approved) && Exactly(s, spare) && InBase(s.cfg.base, c)
    requires PaysOut(s, e, c) && s.cfg.base in s.group.approved && pot == Contributed(s, c) + spare
    ensures PotIs(s, e, c, pot)
  {
    StepExact(s, e, c, spare);
    PayoutHasRecipient(s, e, c);
    PotOnRecord(s, e, c, spare, pot);
  }

  lemma PotOnRecord(s: State, e: Env, c: Call, spare: int, pot: int)
    requires RecordsPot(s, e, c, spare) && PaysOut(s, e, c)
    requires Recipient(s.group, s.standing, s.round.number).Some? && pot == RecordedPot(s, Contributed(s, c), spare)
    ensures PotIs(s, e, c, pot)
  {
  }

  /** After any run, a pot is worth the contributions to its round plus what is to spare;
      it covers the round if and only if that is not negative. */
  lemma EveryPot(s: State, run: Run, spare: int, u: State, left: int, e: Env, c: Call, pot: int)
    requires PoolInv(s) && Exactly(s, spare) && Orderly(s, run) && InBase(s.cfg.base, c)
    requires u == Exec(s, run) && left == SpareAfter(s, run, spare) && pot == Contributed(u, c) + left
    requires PaysOut(u, e, c) && s.cfg.base in u.group.approved
    ensures PotIs(u, e, c, pot)
    ensures pot >= Contributed(u, c) <==> left >= 0
  {
    RunExact(s, run, spare);
    PotAt(u, left, e, c, pot);
  }

  lemma PayoutHasRecipient(s: State, e: Env, c: Call)
    requires PaysOut(s, e, c)
    ensures Recipient(s.group, s.standing, s.round.number).Some?
  {
    if c.ContributeCall? {
      var installed := ContributeUnfolds(s, e, c.who, c.token, c.amount);
    } else if c.FinalizeRoundCall? {
      var s1, v := FinalizeUnfolds(s, e, Step(s, e, c).value);
      SameStanding(s, s1);
    } else {
      OnlyRoundsPay(s, e, c);
    }
  }

  lemma OnlyRoundsPay(s: State, e: Env, c: Call)
    requires !c.ContributeCall? && !c.FinalizeRoundCall?
    ensures !PaysOut(s, e, c)
  {
  }

  // --- The tokens of a pot ---

  /** The base tokens move as the pot on record says: the recipient gets it less the fee, or
      it is kept for reinvestment, and whoever contributed by this call has paid in. */
  ghost predicate PotMoved(s: State, c: Call, bal: Balances, to: Address, pot: int) {
    var reinvest, paid := to in s.standing.reinvesting, if pot > 0 then pot else 0;
    forall a ::
      Bal(bal, s.cfg.base, a)
      == Bal(s.bal, s.cfg.base, a)
         + (if c.ContributeCall? then (if a == This then c.amount else 0) - (if a == c.who then c.amount else 0) else 0)
         - (if a == This then (if reinvest then FeeOn(s, paid) else paid) else 0)
         + (if a == to && !reinvest then paid - FeeOn(s, paid) else 0)
         + (if Some(a) == s.cfg.feeRecipient then FeeOn(s, paid) else 0)
  }

  lemma CompleteRoundMoves(s: State, e: Env, u: State, pot: int) returns (to: Address)
    requires s.feeBps <= MAX_FEE && NoDup(s.group.approved) && s.cfg.base in s.group.approved
    requires CompleteRound(s, e) == Some(u) && pot == Bal(s.bal, s.cfg.base, This) - s.rewards.pool
    ensures Recipient(s.group, s.standing, s.round.number) == Some(to)
    ensures PotPaid(s, u.bal, if pot > 0 then pot else 0, to, to in s.standing.reinvesting)
  {
    var p;
    to, p := CompleteRoundUnfolds(s, e);
    PayTokensPayPot(s, s.group.approved, to, to in s.standing.reinvesting);
  }

  lemma PaidAlike(s: State, s1: State, c: Call, bal: Balances, to: Address, pot: int)
    requires s1.cfg == s.cfg && s1.feeBps == s.feeBps && s1.standing.reinvesting == s.standing.reinvesting
    requires PotPaid(s1, bal, if pot > 0 then pot else 0, to, to in s1.standing.reinvesting)
    requires if c.ContributeCall? then Moved(s.bal, s1.bal, s.cfg.base, c.who, This, c.amount) else s1.bal == s.bal
    ensures PotMoved(s, c, bal, to, pot)
  {
    var paid := if pot > 0 then pot else 0;
    assert FeeOn(s1, paid) == FeeOn(s, paid);
  }

  lemma ContributeMoves(s: State, e: Env, c: Call, u: State, pot: int) returns (to: Address)
    requires c.ContributeCall? && c.token == s.cfg.base && Step(s, e, c) == Some(u) && PaysOut(s, e, c)
    requires s.feeBps <= MAX_FEE && NoDup(s.group.approved) && s.cfg.base in s.group.approved
    requires pot == Bal(s.bal, s.cfg.base, This) + c.amount - s.rewards.pool
    ensures Recipient(s.group, s.standing, s.round.number) == Some(to) && PotMoved(s, c, u.bal, to, pot)
  {
    var installed := ContributeUnfolds(s, e, c.who, c.token, c.amount);
    to := CompleteRoundMoves(installed, e, u, pot);
    PaidAlike(s, installed, c, u.bal, to, pot);
  }

  lemma FinalizeMoves(s: State, e: Env, u: State, pot: int) returns (to: Address)
    requires FinalizeRound(s, e) == Some(u)
    requires s.feeBps <= MAX_FEE && NoDup(s.group.approved) && s.cfg.base in s.group.approved
    requires pot == Bal(s.bal, s.cfg.base, This) - s.rewards.pool
    ensures Recipient(s.group, s.standing, s.round.number) == Some(to) && PotMoved(s, FinalizeRoundCall, u.bal, to, pot)
  {
    var s1, v := FinalizeUnfolds(s, e, u);
    SameStanding(s, s1);
    to := CompleteRoundMoves(s1, e, v, pot);
    PaidAlike(s, s1, FinalizeRoundCall, u.bal, to, pot);
  }

  /** The pot that goes on record is the pot that moves. */
  lemma PotMoves(s: State, spare: int, e: Env, c: Call, pot: int, to: Address)
    requires s.feeBps <= MAX_FEE && NoDup(s.group.approved) && Exactly(s, spare) && InBase(s.cfg.base, c)
    requires PaysOut(s, e, c) && s.cfg.base in s.group.approved && pot == Contributed(s, c) + spare
    requires to == Recipient(s.group, s.standing, s.round.number).GetOr(This)
    ensures Recipient(s.group, s.standing, s.round.number) == Some(to) && PotMoved(s, c, Next(s, e, c).bal, to, pot)
  {
    if c.ContributeCall? {
      var paid := ContributeMoves(s, e, c, Step(s, e, c).value, pot);
    } else if c.FinalizeRoundCall? {
      var paid := FinalizeMoves(s, e, Step(s, e, c).value, pot);
    } else {
      OnlyRoundsPay(s, e, c);
    }
  }

  // --- Claims alone ---

  /** What has been claimed and not been made up by a payout since. */
  ghost function DrawnAfterStep(s: State, e: Env, c: Call, drawn: int): int {
    if Step(s, e, c).None? then drawn
    else if PaysOut(s, e, c) then (if drawn <= Contributed(s, c) then 0 else drawn - Contributed(s, c))
    else if c.ClaimRewardsCall? then drawn + Claimable(s, c.who)
    else drawn
  }

  ghost function DrawnAfter(s: State, run: Run, drawn: int): int
    decreases |run|
  {
    if run == [] then drawn
    else DrawnAfter(Next(s, run[0].0, run[0].1), run[1..], DrawnAfterStep(s, run[0].0, run[0].1, drawn))
  }

  /** Nothing comes in but contributions and deposits, and nothing is paid to the contract
      itself: no skip, penalty, round closed without a payout or transfer by others. */
  ghost predicate ClaimsOnly(s: State, c: Call) {
    && !c.RequestSkipCall? && !c.PenaliseCall? && !c.CloseRoundCall? && !c.OutsideCall?
    && s.cfg.base in s.group.approved && This !in s.group.order && s.cfg.feeRecipient != Some(This)
  }

  ghost predicate AllClaimsOnly(s: State, run: Run)
    decreases |run|
  {
    run == [] || (ClaimsOnly(s, run[0].1) && AllClaimsOnly(Next(s, run[0].0, run[0].1), run[1..]))
  }

  lemma StepDraws(s: State, e: Env, c: Call, drawn: int, spare: int)
    requires ClaimsOnly(s, c) && spare == -drawn
    ensures SpareAfterStep(s, e, c, spare) == -DrawnAfterStep(s, e, c, drawn)
  {
    if PaysOut(s, e, c) {
      PayoutHasRecipient(s, e, c);
      NothingStays(s, Contributed(s, c) + spare);
    }
  }

  lemma NothingStays(s: State, pot: int)
    requires This !in s.group.order && s.cfg.feeRecipient != Some(This)
    requires Recipient(s.group, s.standing, s.round.number).Some?
    ensures Stays(s, pot) == 0
  {
    RecipientInOrder(s);
  }

  lemma RecipientInOrder(s: State)
    ensures var to := Recipient(s.group, s.standing, s.round.number); to.Some? ==> to.value in s.group.order
  {
    RecipientSelection(s.group, s.standing, s.round.number);
  }

  lemma {:induction false} RunDraws(s: State, run: Run, drawn: int, spare: int)
    requires AllClaimsOnly(s, run) && spare == -drawn
    ensures SpareAfter(s, run, spare) == -DrawnAfter(s, run, drawn)
    decreases |run|
  {
    if run != [] {
      var e, c := run[0].0, run[0].1;
      StepDraws(s, e, c, drawn, spare);
      RunDraws(Next(s, e, c), run[1..], DrawnAfterStep(s, e, c, drawn), SpareAfterStep(s, e, c, spare));
    }
  }

  /** From an exactly backed contract and with claims the only other outflow, each pot is
      what was contributed to its round less what claims have drawn since a pot last made
      it up: it covers the round if and only if nothing is drawn. */
  lemma ClaimsShortenPots(s: State, run: Run, u: State, drawn: int, e: Env, c: Call, pot: int)
    requires PoolInv(s) && Exactly(s, 0) && Orderly(s, run) && AllClaimsOnly(s, run) && InBase(s.cfg.base, c)
    requires u == Exec(s, run) && drawn == DrawnAfter(s, run, 0) && pot == Contributed(u, c) - drawn
    requires PaysOut(u, e, c) && s.cfg.base in u.group.approved
    ensures PotIs(u, e, c, pot) && drawn >= 0
    ensures pot >= Contributed(u, c) <==> drawn == 0
  {
    RunDraws(s, run, 0, 0);
    DrawnNotNegative(s, run, 0);
    EveryPot(s, run, 0, u, SpareAfter(s, run, 0), e, c, pot);
  }

  lemma {:induction false} DrawnNotNegative(s: State, run: Run, drawn: int)
    requires drawn >= 0
    ensures DrawnAfter(s, run, drawn) >= 0
    decreases |run|
  {
    if run != [] {
      DrawnNotNegative(Next(s, run[0].0, run[0].1), run[1..], DrawnAfterStep(s, run[0].0, run[0].1, drawn));
    }
  }

  /** A payout leaves the contract exactly backed again if and only if its pot is not
      negative: then the recipient has borne everything drawn before it. */
  lemma PotMakesUp(s: State, e: Env, c: Call, drawn: int)
    requires s.feeBps <= MAX_FEE && NoDup(s.group.approved) && InBase(s.cfg.base, c) && ClaimsOnly(s, c)
    requires Exactly(s, -drawn) && drawn >= 0 && PaysOut(s, e, c)
    ensures Exactly(Next(s, e, c), 0) <==> Contributed(s, c) - drawn >= 0
  {
    StepExact(s, e, c, -drawn);
    StepDraws(s, e, c, drawn, -drawn);
  }

  // --- Without claims ---

  /** From deployment on, with base-token contributions and as long as nobody claims
      rewards, every pot covers everything contributed to its round, and is what recipient
      and fee recipient are paid. */
  lemma PotsCoverRounds(e0: Env, cfg: Config, members: seq<Address>, order: Option<seq<Address>>, feeBps: nat,
                        maxMembers: nat, bal: Balances, run: Run, u: State, e: Env, c: Call, pot: int, to: Address)
    requires Init(e0, cfg, members, order, feeBps, maxMembers, bal).Some? && Bal(bal, cfg.base, This) >= 0
    requires AllInBase(cfg.base, run) && InBase(cfg.base, c)
             && forall i :: 0 <= i < |run| ==> !run[i].1.ClaimRewardsCall?
    requires u == Exec(Init(e0, cfg, members, order, feeBps, maxMembers, bal).value, run) && PaysOut(u, e, c)
    requires NoDup(u.group.approved) && cfg.base in u.group.approved
    requires pot == Contributed(u, c) + (Bal(u.bal, cfg.base, This) - u.rewards.pool - SumMap(u.round.contributions))
    requires to == Recipient(u.group, u.standing, u.round.number).GetOr(This)
    ensures PotIs(u, e, c, pot) && pot >= Contributed(u, c)
    ensures Recipient(u.group, u.standing, u.round.number) == Some(to) && PotMoved(u, c, Next(u, e, c).bal, to, pot)
  {
    assert SumMap<Address>(map[]) == 0;
    RunKeeps(Init(e0, cfg, members, order, feeBps, maxMembers, bal).value, run);
    var spare := Bal(u.bal, cfg.base, This) - u.rewards.pool - SumMap(u.round.contributions);
    PotAt(u, spare, e, c, pot);
    PotMoves(u, spare, e, c, pot, to);
  }
}
