/**
 Who gets what when a round is paid out: of every approved token all that the contract
 holds, less the reward pool in the case of the base token, goes to the member whose turn
 it is and to the fee recipient, and nothing else moves.
 */
module RoscaPayouts {
  import opened Common
  import opened Ledger
  import opened Sums
  import opened RoscaModel
  import opened RoscaMoney
  import opened RoscaPots

  // --- What a payout owes, token by token ---

  /** The protocol's part of a pot, rounded down; nothing when nobody is set to receive it. */
  function FeePart(pot: int, feeBps: nat, feeTo: Option<Address>): int {
    if feeTo.None? then 0 else (pot * feeBps) / 10_000
  }

  /** A balance of `a` once `pot` has left the contract: the fee to its recipient, the rest
      to `to`, unless it is kept for reinvestment. */
  function After(before: int, a: Address, pot: int, fee: int, to: Address, feeTo: Option<Address>, kept: bool): int {
    before - (if a == This then (if kept then fee else pot) else 0) + (if a == to && !kept then pot - fee else 0)
    + (if Some(a) == feeTo then fee else 0)
  }

  /** What the contract holds of a token beyond the reward pool, if anything. */
  function Holding(base: Address, pool: int, bal: Balances, token: Address): int {
    var held := Bal(bal, token, This) - if token == base then pool else 0;
    if held > 0 then held else 0
  }

  lemma FeePartIs(s: State, pot: nat)
    requires s.feeBps <= MAX_FEE
    ensures FeeOn(s, pot) == FeePart(pot, s.feeBps, s.cfg.feeRecipient) && 0 <= FeeOn(s, pot) <= pot
  {
    FeeBounds(s, pot);
    if s.feeBps == 0 {
      assert pot * s.feeBps == 0;
    }
  }

  /** The balance of `a` in `token` after the payout of a token that is approved. */
  function PaidBalanceOf(s: State, to: Address, reinvest: bool, token: Address, a: Address): int {
    var pot := Holding(s.cfg.base, s.rewards.pool, s.bal, token);
    After(Bal(s.bal, token, a), a, pot, FeePart(pot, s.feeBps, s.cfg.feeRecipient), to, s.cfg.feeRecipient,
          reinvest && token == s.cfg.base)
  }

  lemma PotPaidOut(s: State, p: Payout, token: Address, to: Address, reinvest: bool, pot: int, fee: int, q: Payout,
                   t: Address, a: Address)
    requires 0 <= fee <= pot && (s.cfg.feeRecipient.None? ==> fee == 0)
    requires PayPot(s, p, token, to, reinvest, pot, fee) == Some(q)
    ensures Bal(q.bal, t, a)
            == if t != token then Bal(p.bal, t, a)
               else After(Bal(p.bal, t, a), a, pot, fee, to, s.cfg.feeRecipient, reinvest && token == s.cfg.base)
  {
    var rest, b1 := PayPotUnfolds(s, p, token, to, reinvest, pot, fee, q);
    TwoSent(p.bal, b1, q.bal, token, to, s.cfg.feeRecipient, pot, fee, reinvest && token == s.cfg.base, t, a);
  }

  lemma TwoSent(before: Balances, mid: Balances, after: Balances, token: Address, to: Address, feeTo: Option<Address>,
                pot: int, fee: int, kept: bool, t: Address, a: Address)
    requires 0 <= fee <= pot && (feeTo.None? ==> fee == 0)
    requires SentTo(before, mid, token, to, if kept then 0 else pot - fee)
    requires SentTo(mid, after, token, feeTo.GetOr(This), fee)
    ensures Bal(after, t, a)
            == if t != token then Bal(before, t, a) else After(Bal(before, t, a), a, pot, fee, to, feeTo, kept)
  {
    Sent(before, mid, token, to, if kept then 0 else pot - fee, t, a);
    Sent(mid, after, token, feeTo.GetOr(This), fee, t, a);
    SentInAll(Bal(before, t, a), Bal(mid, t, a), Bal(after, t, a), to, feeTo, pot, fee, kept, t == token, a);
  }

  lemma SentInAll(before: int, mid: int, after: int, to: Address, feeTo: Option<Address>, pot: int, fee: int,
                  kept: bool, same: bool, a: Address)
    requires feeTo.None? ==> fee == 0
    requires var rest := if kept then 0 else pot - fee;
             mid == before + if same then (if a == to then rest else 0) - (if a == This then rest else 0) else 0
    requires after
             == mid + if same then (if a == feeTo.GetOr(This) then fee else 0) - (if a == This then fee else 0) else 0
    ensures after == if same then After(before, a, pot, fee, to, feeTo, kept) else before
  {
  }

  lemma PayPotUnfolds(s: State, p: Payout, token: Address, to: Address, reinvest: bool, pot: int, fee: int, q: Payout)
    returns (rest: nat, b1: Balances)
    requires 0 <= fee <= pot && PayPot(s, p, token, to, reinvest, pot, fee) == Some(q)
    ensures rest == if reinvest && token == s.cfg.base then 0 else pot - fee
    ensures SentTo(p.bal, b1, token, to, rest) && SentTo(b1, q.bal, token, s.cfg.feeRecipient.GetOr(This), fee)
  {
    rest := if reinvest && token == s.cfg.base then 0 else pot - fee;
    b1 := if rest > 0 then Transfer(p.bal, token, This, to, rest).value else p.bal;
  }

  ghost predicate SentTo(before: Balances, after: Balances, token: Address, to: Address, amount: int) {
    if amount > 0 then Transfer(before, token, This, to, amount) == Some(after) else after == before
  }

  lemma Sent(before: Balances, after: Balances, token: Address, to: Address, amount: nat, t: Address, a: Address)
    requires SentTo(before, after, token, to, amount)
    ensures Bal(after, t, a)
            == Bal(before, t, a)
               + if t == token then (if a == to then amount else 0) - (if a == This then amount else 0) else 0
  {
  }

  lemma OneTokenPaid(s: State, p: Payout, token: Address, to: Address, reinvest: bool, q: Payout, t: Address,
                     a: Address)
    requires s.feeBps <= MAX_FEE && PayToken(s, p, token, to, reinvest) == Some(q)
    requires Bal(p.bal, token, This) == Bal(s.bal, token, This) && Bal(p.bal, token, a) == Bal(s.bal, token, a)
    ensures Bal(q.bal, t, a) == if t == token then PaidBalanceOf(s, to, reinvest, token, a) else Bal(p.bal, t, a)
  {
    var pot := Holding(s.cfg.base, s.rewards.pool, s.bal, token);
    FeePartIs(s, pot);
    if pot > 0 {
      var p' := p.(recorded := if token == s.cfg.base then pot else p.recorded);
      PotPaidOut(s, p', token, to, reinvest, pot, FeeOn(s, pot), q, t, a);
    }
  }

  lemma {:induction false} TokensPaid(s: State, tokens: seq<Address>, to: Address, reinvest: bool, q: Payout,
                                      t: Address, a: Address)
    requires s.feeBps <= MAX_FEE && NoDup(tokens) && PayTokens(s, tokens, to, reinvest) == Some(q)
    ensures Bal(q.bal, t, a) == if t in tokens then PaidBalanceOf(s, to, reinvest, t, a) else Bal(s.bal, t, a)
  {
    if tokens != [] {
      var n := |tokens| - 1;
      LastIsNew(tokens, n, t);
      var p := PayTokens(s, tokens[..n], to, reinvest).value;
      TokensPaid(s, tokens[..n], to, reinvest, p, t, a);
      TokensPaid(s, tokens[..n], to, reinvest, p, tokens[n], a);
      TokensPaid(s, tokens[..n], to, reinvest, p, tokens[n], This);
      OneTokenPaid(s, p, tokens[n], to, reinvest, q, t, a);
    }
  }

  lemma LastIsNew(tokens: seq<Address>, n: nat, t: Address)
    requires NoDup(tokens) && |tokens| == n + 1
    ensures NoDup(tokens[..n]) && tokens[n] !in tokens[..n]
    ensures t in tokens <==> t in tokens[..n] || t == tokens[n]
  {
    assert tokens == tokens[..n] + [tokens[n]];
  }

  // --- A round that is paid out ---

  /** What a contribution takes of `token`: its amount in the base token, and otherwise its
      value at the rate, of seven decimals, that the admin has set. */
  function TakenBy(s: State, c: Call, token: Address): int {
    if !c.ContributeCall? || c.token != token then 0
    else if token == s.cfg.base then c.amount
    else if token in s.group.rates && s.group.rates[token] > 0 then (c.amount * 10_000_000) / s.group.rates[token]
    else 0
  }

  /** The balance of `a` in `token` after a call that pays out the round. */
  function RoundPays(s: State, c: Call, to: Address, token: Address, a: Address): int {
    var taken := TakenBy(s, c, token);
    var held := Bal(s.bal, token, This) + taken - if token == s.cfg.base then s.rewards.pool else 0;
    var pot := if token in s.group.approved && held > 0 then held else 0;
    After(Bal(s.bal, token, a)
          + (if c.ContributeCall? then (if a == This then taken else 0) - (if a == c.who then taken else 0) else 0),
          a, pot, FeePart(pot, s.feeBps, s.cfg.feeRecipient), to, s.cfg.feeRecipient,
          token == s.cfg.base && to in s.standing.reinvesting)
  }

  /** The recipient is on record with what the contract `held`, and what it reinvests opens
      the next round. */
  ghost predicate Recorded(s: State, held: int, u: State, to: Address) {
    && u.round.number == s.round.number + 1
    && u.history == s.history + [PayoutRecord(to, if s.cfg.base in s.group.approved then held else 0)]
    && u.round.contributions
       == if to in s.standing.reinvesting && s.cfg.base in s.group.approved && held > 0
          then map[to := held - FeePart(held, s.feeBps, s.cfg.feeRecipient)] else map[]
  }

  lemma CompletePays(s: State, e: Env, u: State, to: Address, t: Address, a: Address)
    requires s.feeBps <= MAX_FEE && NoDup(s.group.approved) && CompleteRound(s, e) == Some(u)
    requires Recipient(s.group, s.standing, s.round.number) == Some(to)
    ensures Bal(u.bal, t, a)
            == if t in s.group.approved then PaidBalanceOf(s, to, to in s.standing.reinvesting, t, a)
               else Bal(s.bal, t, a)
  {
    var to', p := CompleteRoundUnfolds(s, e);
    TokensPaid(s, s.group.approved, to, to in s.standing.reinvesting, p, t, a);
  }

  lemma PayoutAmounts(s: State, to: Address, reinvest: bool, p: Payout, held: int)
    requires s.feeBps <= MAX_FEE && NoDup(s.group.approved) && PayTokens(s, s.group.approved, to, reinvest) == Some(p)
    requires held == Bal(s.bal, s.cfg.base, This) - s.rewards.pool
    ensures p.recorded == if s.cfg.base in s.group.approved then held else 0
    ensures p.reinvested == if reinvest && s.cfg.base in s.group.approved && held > 0
                            then held - FeePart(held, s.feeBps, s.cfg.feeRecipient) else 0
  {
    PayTokensPayPot(s, s.group.approved, to, reinvest);
    if held > 0 {
      FeePartIs(s, held);
    }
  }

  lemma FeePartBelow(pot: int, feeBps: nat, feeTo: Option<Address>)
    requires pot > 0 && feeBps <= MAX_FEE
    ensures pot - FeePart(pot, feeBps, feeTo) > 0
  {
    assert pot * feeBps <= pot * MAX_FEE;
  }

  lemma CompleteRecords(s: State, e: Env, u: State, to: Address, held: int)
    requires s.feeBps <= MAX_FEE && NoDup(s.group.approved) && CompleteRound(s, e) == Some(u)
    requires Recipient(s.group, s.standing, s.round.number) == Some(to)
    requires held == Bal(s.bal, s.cfg.base, This) - s.rewards.pool
    ensures Recorded(s, held, u, to)
  {
    var to', p := CompleteRoundUnfolds(s, e);
    PayoutAmounts(s, to, to in s.standing.reinvesting, p, held);
    if held > 0 {
      FeePartBelow(held, s.feeBps, s.cfg.feeRecipient);
    }
    NextNumber(s, e, u);
  }

  lemma NextNumber(s: State, e: Env, u: State)
    requires CompleteRound(s, e) == Some(u)
    ensures u.round.number == s.round.number + 1
  {
  }

  // --- The call that pays it ---

  /** What the state after a payout call has to agree with. */
  ghost predicate Paid(s: State, c: Call, u: State, to: Address, token: Address, a: Address) {
    && Bal(u.bal, token, a) == RoundPays(s, c, to, token, a)
    && Recorded(s, Bal(s.bal, s.cfg.base, This) + TakenBy(s, c, s.cfg.base) - s.rewards.pool, u, to)
  }

  /** `s1` is `s` once the contribution of the call, if it is one, is taken. */
  ghost predicate Took(s: State, s1: State, c: Call) {
    && s1.cfg == s.cfg && s1.feeBps == s.feeBps && s1.group == s.group && s1.rewards.pool == s.rewards.pool
    && s1.standing.reinvesting == s.standing.reinvesting && s1.history == s.history && s1.round.number == s.round.number
    && if c.ContributeCall? then Moved(s.bal, s1.bal, c.token, c.who, This, TakenBy(s, c, c.token)) else s1.bal == s.bal
  }

  lemma TookBalance(s: State, s1: State, c: Call, t: Address, a: Address)
    requires Took(s, s1, c)
    ensures Bal(s1.bal, t, a)
            == Bal(s.bal, t, a)
               + if c.ContributeCall?
                 then (if a == This then TakenBy(s, c, t) else 0) - (if a == c.who then TakenBy(s, c, t) else 0) else 0
  {
  }

  lemma PaidAsOwed(s: State, s1: State, c: Call, to: Address, t: Address, a: Address)
    requires Took(s, s1, c) && (c.ContributeCall? ==> c.who != This)
    ensures RoundPays(s, c, to, t, a)
            == if t in s1.group.approved then PaidBalanceOf(s1, to, to in s1.standing.reinvesting, t, a)
               else Bal(s1.bal, t, a)
  {
    TookBalance(s, s1, c, t, a);
    TookBalance(s, s1, c, t, This);
    NoFee(s.feeBps, s.cfg.feeRecipient);
  }

  lemma NoFee(feeBps: nat, feeTo: Option<Address>)
    ensures FeePart(0, feeBps, feeTo) == 0
  {
    assert 0 * feeBps == 0;
  }

  lemma ContributeTakes(s: State, e: Env, c: Call, u: State) returns (s1: State)
    requires c.ContributeCall? && Step(s, e, c) == Some(u) && |u.history| > |s.history|
    ensures Took(s, s1, c) && CompleteRound(s1, e) == Some(u) && c.who != This && s1.standing == s.standing
  {
    s1 := ContributeUnfolds(s, e, c.who, c.token, c.amount);
  }

  lemma FinalizeTakes(s: State, e: Env, u: State) returns (s1: State, v: State)
    requires FinalizeRound(s, e) == Some(u)
    ensures Took(s, s1, FinalizeRoundCall) && CompleteRound(s1, e) == Some(v)
    ensures Recipient(s1.group, s1.standing, s1.round.number) == Recipient(s.group, s.standing, s.round.number)
    ensures u.bal == v.bal && u.round == v.round && u.history == v.history
  {
    s1, v := FinalizeUnfolds(s, e, u);
    SameStanding(s, s1);
  }

  lemma TakenPays(s: State, s1: State, e: Env, c: Call, v: State, to: Address, t: Address, a: Address)
    requires s.feeBps <= MAX_FEE && NoDup(s.group.approved) && Took(s, s1, c) && (c.ContributeCall? ==> c.who != This)
    requires CompleteRound(s1, e) == Some(v) && Recipient(s1.group, s1.standing, s1.round.number) == Some(to)
    ensures Bal(v.bal, t, a) == RoundPays(s, c, to, t, a)
  {
    PaidAsOwed(s, s1, c, to, t, a);
    CompletePays(s1, e, v, to, t, a);
  }

  lemma TakenRecords(s: State, s1: State, e: Env, c: Call, v: State, to: Address)
    requires s.feeBps <= MAX_FEE && NoDup(s.group.approved) && Took(s, s1, c) && (c.ContributeCall? ==> c.who != This)
    requires CompleteRound(s1, e) == Some(v) && Recipient(s1.group, s1.standing, s1.round.number) == Some(to)
    ensures Recorded(s, Bal(s.bal, s.cfg.base, This) + TakenBy(s, c, s.cfg.base) - s.rewards.pool, v, to)
  {
    var held := Bal(s1.bal, s1.cfg.base, This) - s1.rewards.pool;
    TookBalance(s, s1, c, s.cfg.base, This);
    CompleteRecords(s1, e, v, to, held);
    SameRecord(s, s1, c, held, v, to);
  }

  lemma SameRecord(s: State, s1: State, c: Call, held: int, v: State, to: Address)
    requires Took(s, s1, c) && Recorded(s1, held, v, to)
    ensures Recorded(s, held, v, to)
  {
  }

  lemma TakenPaid(s: State, s1: State, e: Env, c: Call, v: State, to: Address, t: Address, a: Address)
    requires s.feeBps <= MAX_FEE && NoDup(s.group.approved) && Took(s, s1, c) && (c.ContributeCall? ==> c.who != This)
    requires CompleteRound(s1, e) == Some(v) && Recipient(s1.group, s1.standing, s1.round.number) == Some(to)
    ensures Paid(s, c, v, to, t, a)
  {
    TakenPays(s, s1, e, c, v, to, t, a);
    TakenRecords(s, s1, e, c, v, to);
  }

  lemma ContributionPays(s: State, e: Env, c: Call, u: State, to: Address, t: Address, a: Address)
    requires s.feeBps <= MAX_FEE && NoDup(s.group.approved)
    requires c.ContributeCall? && Step(s, e, c) == Some(u) && |u.history| > |s.history|
    requires Recipient(s.group, s.standing, s.round.number) == Some(to)
    ensures Paid(s, c, u, to, t, a)
  {
    var s1 := ContributeTakes(s, e, c, u);
    TakenPaid(s, s1, e, c, u, to, t, a);
  }

  lemma FinalPays(s: State, e: Env, u: State, to: Address, t: Address, a: Address)
    requires s.feeBps <= MAX_FEE && NoDup(s.group.approved) && FinalizeRound(s, e) == Some(u)
    requires Recipient(s.group, s.standing, s.round.number) == Some(to)
    ensures Paid(s, FinalizeRoundCall, u, to, t, a)
  {
    var s1, v := FinalizeTakes(s, e, u);
    TakenPaid(s, s1, e, FinalizeRoundCall, v, to, t, a);
    SamePaid(s, FinalizeRoundCall, v, u, to, t, a);
  }

  lemma SamePaid(s: State, c: Call, v: State, u: State, to: Address, t: Address, a: Address)
    requires Paid(s, c, v, to, t, a) && u.bal == v.bal && u.round == v.round && u.history == v.history
    ensures Paid(s, c, u, to, t, a)
  {
  }

  lemma PayoutPays(s: State, e: Env, c: Call, u: State, to: Address, t: Address, a: Address)
    requires s.feeBps <= MAX_FEE && NoDup(s.group.approved) && Step(s, e, c) == Some(u) && |u.history| > |s.history|
    requires Recipient(s.group, s.standing, s.round.number) == Some(to)
    ensures Paid(s, c, u, to, t, a)
  {
    if c.ContributeCall? {
      ContributionPays(s, e, c, u, to, t, a);
    } else if c.FinalizeRoundCall? {
      FinalPays(s, e, u, to, t, a);
    } else {
      OnlyRoundsPay(s, e, c);
    }
  }

  // --- Whose turn it is ---

  /** Nothing bars `m` from receiving the pot of the round in progress. */
  predicate MayReceive(s: State, m: Address) {
    m !in s.standing.suspended && m !in s.group.exited && (m, s.round.number) !in s.standing.skips
  }

  /** `to` is the first in the order, from the round's own place on, who may receive. */
  ghost predicate InTurn(s: State, to: Address) {
    s.group.order != []
    && exists j: nat :: FirstAt(s, to, j)
  }

  ghost predicate FirstAt(s: State, to: Address, j: nat)
    requires s.group.order != []
  {
    && j < |s.group.order| && to == Candidate(s.group, s.round.number, j) && MayReceive(s, to)
    && forall k: nat :: k < j ==> !MayReceive(s, Candidate(s.group, s.round.number, k))
  }

  lemma MayReceiveIs(s: State, m: Address)
    ensures MayReceive(s, m) <==> Eligible(s.group, s.standing, s.round.number, m)
  {
  }

  lemma RecipientInTurn(s: State, to: Address)
    requires Recipient(s.group, s.standing, s.round.number) == Some(to)
    ensures InTurn(s, to)
  {
    var n := |s.group.order|;
    var j := ScanFinds(s.group, s.standing, s.round.number, s.round.number % n, 0);
    MayReceiveIs(s, to);
    forall k: nat | k < j ensures !MayReceive(s, Candidate(s.group, s.round.number, k)) {
      MayReceiveIs(s, Candidate(s.group, s.round.number, k));
    }
    assert FirstAt(s, to, j);
  }

  /** In every reachable state with no token approved twice, a call that adds to the payout
      history pays the first member in turn who may receive: of every approved token all the
      contract then holds, less the reward pool, to that member and the fee recipient, and of
      every other token nothing. */
  lemma EveryTokenPaid(e0: Env, cfg: Config, members: seq<Address>, order: Option<seq<Address>>, feeBps: nat,
                       maxMembers: nat, bal: Balances, before: Run, s: State, e: Env, c: Call, u: State, to: Address,
                       token: Address, a: Address)
    requires Init(e0, cfg, members, order, feeBps, maxMembers, bal).Some? && Bal(bal, cfg.base, This) >= 0
    requires s == Exec(Init(e0, cfg, members, order, feeBps, maxMembers, bal).value, before) && NoDup(s.group.approved)
    requires Step(s, e, c) == Some(u) && |u.history| > |s.history| && to == u.history[|s.history|].recipient
    ensures Paid(s, c, u, to, token, a) && InTurn(s, to)
  {
    assert SumMap<Address>(map[]) == 0;
    RunKeepsPool(Init(e0, cfg, members, order, feeBps, maxMembers, bal).value, before);
    StepPaid(s, e, c, u, to, token, a);
  }

  lemma StepPaid(s: State, e: Env, c: Call, u: State, to: Address, token: Address, a: Address)
    requires s.feeBps <= MAX_FEE && NoDup(s.group.approved)
    requires Step(s, e, c) == Some(u) && |u.history| > |s.history| && to == u.history[|s.history|].recipient
    ensures Paid(s, c, u, to, token, a) && InTurn(s, to)
  {
    PayoutHasRecipient(s, e, c);
    var paid := Recipient(s.group, s.standing, s.round.number).value;
    PayoutPays(s, e, c, u, paid, token, a);
    RecipientInTurn(s, paid);
  }
}
