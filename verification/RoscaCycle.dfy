/**
 A full ROSCA cycle: `n` fully paid rounds of a group of `n` pay every member exactly
 once and cost each of them exactly the protocol fee of one pot.
 */
module RoscaCycle {
  import opened Common
  import opened Ledger
  import opened Sums
  import opened RoscaModel
  import opened RoscaMoney

  /** A duplicate-free order over all members, the base token only, and no tiers, skips,
      exits, suspensions or reinvestment; nothing contributed yet and nothing held but
      the reward pool. */
  ghost predicate CycleStart(s: State) {
    && s.cfg.contribution > 0 && s.feeBps <= MAX_FEE && s.cfg.feeRecipient != Some(This)
    && s.group.order != [] && NoDup(s.group.order) && |s.group.order| == |s.group.members|
    && (forall m :: m in s.group.order ==> m in s.group.members)
    && s.group.approved == [s.cfg.base] && s.group.tiers == map[] && s.group.exited == []
    && s.standing.suspended == [] && s.standing.skips == {} && s.standing.reinvesting == {}
    && s.round.paid == [] && s.round.contributions == map[]
    && s.rewards.pool >= 0 && Bal(s.bal, s.cfg.base, This) == s.rewards.pool
  }

  /** Contributions of anyone in any order and size, and calls that move no money and
      change neither the group nor anyone's standing. */
  predicate InCycle(c: Call) {
    c.ContributeCall? || c.PauseCall? || c.ResumeCall? || c.CreateProposalCall? || c.VoteCall? || c.DelegateCall?
    || c.RevokeCall?
  }

  // --- What the books say after `k` rounds ---

  function Pot(s: State): int {
    |s.group.members| * s.cfg.contribution
  }

  function Turn(s: State, j: nat): Address
    requires s.group.order != []
  {
    s.group.order[(s.round.number + j) % |s.group.order|]
  }

  /** How often `a` is paid in the first `k` rounds from `s`. */
  function Received(s: State, k: nat, a: Address): nat
    requires s.group.order != []
  {
    if k == 0 then 0 else Received(s, k - 1, a) + if Turn(s, k - 1) == a then 1 else 0
  }

  function RoundEffect(s: State, k: nat, a: Address): int
    requires s.group.order != []
  {
    var fee := FeeOn(s, Pot(s));
    (if Turn(s, k) == a then Pot(s) - fee else 0) + (if s.cfg.feeRecipient == Some(a) then fee else 0)
    - (if a in s.group.members then s.cfg.contribution else 0)
  }

  /** The balance of `a` after `k` full rounds from `s`. */
  function Expected(s: State, k: nat, a: Address): int
    requires s.group.order != []
  {
    if k == 0 then Bal(s.bal, s.cfg.base, a) else Expected(s, k - 1, a) + RoundEffect(s, k - 1, a)
  }

  lemma {:induction false} ExpectedInTotal(s: State, k: nat, a: Address)
    requires s.group.order != [] && a in s.group.members
    ensures Expected(s, k, a) == Bal(s.bal, s.cfg.base, a) - k * s.cfg.contribution
                                 + Received(s, k, a) * (Pot(s) - FeeOn(s, Pot(s)))
                                 + (if s.cfg.feeRecipient == Some(a) then k * FeeOn(s, Pot(s)) else 0)
  {
    if k > 0 {
      ExpectedInTotal(s, k - 1, a);
      OneMore(k, s.cfg.contribution);
      OneMore(k, FeeOn(s, Pot(s)));
      if Turn(s, k - 1) == a {
        OneMore(Received(s, k, a), Pot(s) - FeeOn(s, Pot(s)));
      }
    }
  }

  lemma OneMore(k: int, x: int)
    ensures k * x == (k - 1) * x + x
  {
  }

  /** In `n` rounds of an order of `n`, everyone's turn comes exactly once. */
  lemma ReceivedOnce(s: State, a: Address)
    requires NoDup(s.group.order) && a in s.group.order
    ensures Received(s, |s.group.order|, a) == 1
  {
    var n := |s.group.order|;
    var i :| 0 <= i < n && s.group.order[i] == a;
    var j := RotationHits(s.round.number, n, i);
    ReceivedFrom(s, n, a, j);
  }

  lemma {:induction false} ReceivedFrom(s: State, k: nat, a: Address, j: nat)
    requires NoDup(s.group.order) && j < |s.group.order| && k <= |s.group.order| && Turn(s, j) == a
    ensures Received(s, k, a) == if j < k then 1 else 0
  {
    if k > 0 {
      ReceivedFrom(s, k - 1, a, j);
      if Turn(s, k - 1) == a {
        RotationOnce(s.round.number, |s.group.order|, j, k - 1);
      }
    }
  }

  // --- The invariant ---

  ghost predicate SameTerms(s0: State, s: State) {
    && s.cfg == s0.cfg && s.feeBps == s0.feeBps && s.group == s0.group && s.standing == s0.standing
    && s.rewards.pool == s0.rewards.pool
  }

  ghost predicate Paying(c: int, members: seq<Address>, paid: seq<Address>, contributions: map<Address, int>) {
    && NoDup(paid)
    && (forall m :: m in paid ==> m in contributions && contributions[m] == c)
    && (forall m :: m in contributions ==> m in members && m != This && 0 < contributions[m] <= c)
    && (forall m :: m in contributions && contributions[m] == c ==> m in paid)
  }

  ghost predicate Recorded(s0: State, history: seq<PayoutRecord>, k: nat)
    requires s0.group.order != []
  {
    && |history| == |s0.history| + k && history[..|s0.history|] == s0.history
    && forall j: nat :: j < k ==> history[|s0.history| + j] == PayoutRecord(Turn(s0, j), Pot(s0))
  }

  ghost predicate Balanced(s0: State, bal: Balances, contributions: map<Address, int>, k: nat)
    requires s0.group.order != []
  {
    && Bal(bal, s0.cfg.base, This) == s0.rewards.pool + SumMap(contributions)
    && forall a :: a != This ==> Bal(bal, s0.cfg.base, a) == Expected(s0, k, a) - Get(contributions, a)
  }

  ghost predicate CycleInv(s0: State, s: State) {
    && CycleStart(s0) && SameTerms(s0, s) && s.round.number >= s0.round.number
    && Paying(s0.cfg.contribution, s0.group.members, s.round.paid, s.round.contributions)
    && Recorded(s0, s.history, s.round.number - s0.round.number)
    && Balanced(s0, s.bal, s.round.contributions, s.round.number - s0.round.number)
  }

  // --- Steps ---

  /** When as many have paid as there are members, everyone has contributed in full. */
  lemma FullyPaid(c: int, members: seq<Address>, paid: seq<Address>, contributions: map<Address, int>)
    requires Paying(c, members, paid, contributions) && |paid| == |members|
    ensures This !in members
    ensures forall m :: Get(contributions, m) == if m in members then c else 0
    ensures SumMap(contributions) == |members| * c
  {
    Pigeonhole(paid, members);
    assert forall m :: m in contributions ==> m in paid && contributions[m] == c;
    SumConstant(contributions, c);
    ElementsCount(members);
    assert contributions.Keys == Elements(members);
    assert forall m :: m in members ==> m in contributions;
  }

  lemma NextInLine(s0: State, s: State)
    requires CycleInv(s0, s)
    ensures Recipient(s.group, s.standing, s.round.number) == Some(Turn(s0, s.round.number - s0.round.number))
  {
  }

  lemma PayoutKeepsBalance(s0: State, bal: Balances, after: Balances, contributions: map<Address, int>, k: nat)
    requires CycleStart(s0) && Balanced(s0, bal, contributions, k) && SumMap(contributions) == Pot(s0)
    requires forall m :: Get(contributions, m) == if m in s0.group.members then s0.cfg.contribution else 0
    requires forall a ::
               Bal(after, s0.cfg.base, a) == Bal(bal, s0.cfg.base, a) - (if a == This then Pot(s0) else 0)
                                             + (if a == Turn(s0, k) then Pot(s0) - FeeOn(s0, Pot(s0)) else 0)
                                             + (if Some(a) == s0.cfg.feeRecipient then FeeOn(s0, Pot(s0)) else 0)
    requires Turn(s0, k) != This
    ensures Balanced(s0, after, map[], k + 1)
  {
    assert SumMap<Address>(map[]) == 0;
    forall a | a != This ensures Bal(after, s0.cfg.base, a) == Expected(s0, k + 1, a) - Get(map[], a) {
      assert Expected(s0, k + 1, a) == Expected(s0, k, a) + RoundEffect(s0, k, a);
    }
  }

  lemma RecordedNext(s0: State, history: seq<PayoutRecord>, k: nat)
    requires s0.group.order != [] && Recorded(s0, history, k)
    ensures Recorded(s0, history + [PayoutRecord(Turn(s0, k), Pot(s0))], k + 1)
  {
  }

  /** A payout without reinvestment in a group that deals in the base token only. */
  lemma PlainPayout(s: State, e: Env, to: Address, pot: int)
    requires s.feeBps <= MAX_FEE && s.group.approved == [s.cfg.base] && s.standing.reinvesting == {}
    requires Recipient(s.group, s.standing, s.round.number) == Some(to) && CompleteRound(s, e).Some?
    requires pot == Bal(s.bal, s.cfg.base, This) - s.rewards.pool && pot > 0
    ensures var u := CompleteRound(s, e).value;
            && u == s.(bal := u.bal, history := s.history + [PayoutRecord(to, pot)],
                       round := ResetRound(s.cfg, s.round, e))
            && PotPaid(s, u.bal, pot, to, false)
  {
    assert NoDup(s.group.approved);
    PayTokensPayPot(s, s.group.approved, to, false);
  }

  lemma PayoutKeeps(s0: State, s: State, e: Env)
    requires CycleInv(s0, s) && |s.round.paid| == |s.group.members| && CompleteRound(s, e).Some?
    ensures CycleInv(s0, CompleteRound(s, e).value)
  {
    var k := s.round.number - s0.round.number;
    var to := Turn(s0, k);
    FullyPaid(s0.cfg.contribution, s0.group.members, s.round.paid, s.round.contributions);
    MulPositive(|s0.group.members|, s0.cfg.contribution);
    NextInLine(s0, s);
    PlainPayout(s, e, to, Pot(s0));
    var u := CompleteRound(s, e).value;
    assert Balanced(s0, u.bal, map[], k + 1) by {
      assert to in s0.group.order;
      PaidToTurn(s0, s, u.bal, k);
      PayoutKeepsBalance(s0, s.bal, u.bal, s.round.contributions, k);
    }
    RecordedNext(s0, s.history, k);
    NewRound(s0, s, u, e);
  }

  lemma NewRound(s0: State, s: State, u: State, e: Env)
    requires CycleStart(s0) && SameTerms(s0, s) && s.round.number >= s0.round.number
    requires u == s.(bal := u.bal, history := u.history, round := ResetRound(s.cfg, s.round, e))
    requires Balanced(s0, u.bal, map[], s.round.number - s0.round.number + 1)
    requires Recorded(s0, u.history, s.round.number - s0.round.number + 1)
    ensures CycleInv(s0, u)
  {
  }

  lemma PaidToTurn(s0: State, s: State, after: Balances, k: nat)
    requires CycleStart(s0) && SameTerms(s0, s) && PotPaid(s, after, Pot(s0), Turn(s0, k), false)
    ensures forall a ::
              Bal(after, s0.cfg.base, a) == Bal(s.bal, s0.cfg.base, a) - (if a == This then Pot(s0) else 0)
                                            + (if a == Turn(s0, k) then Pot(s0) - FeeOn(s0, Pot(s0)) else 0)
                                            + (if Some(a) == s0.cfg.feeRecipient then FeeOn(s0, Pot(s0)) else 0)
  {
    assert FeeOn(s, Pot(s0)) == FeeOn(s0, Pot(s0));
  }

  lemma MulPositive(a: int, b: int)
    requires a > 0 && b > 0
    ensures a * b > 0
  {
  }

  lemma InstallmentBalances(s0: State, s: State, who: Address, amount: int, bal: Balances)
    requires CycleInv(s0, s) && amount > 0 && who != This
             && Transfer(s.bal, s0.cfg.base, who, This, amount) == Some(bal)
    ensures Balanced(s0, bal, s.round.contributions[who := Get(s.round.contributions, who) + amount],
                     s.round.number - s0.round.number)
  {
    SumUpdate(s.round.contributions, who, Get(s.round.contributions, who) + amount);
  }

  lemma InstallmentPaying(c: int, members: seq<Address>, paid: seq<Address>, contributions: map<Address, int>,
                          who: Address, total: int)
    requires Paying(c, members, paid, contributions) && who in members && who != This && who !in paid && 0 < total <= c
    ensures Paying(c, members, if total == c then paid + [who] else paid, contributions[who := total])
  {
  }

  lemma RequiredWithoutTiers(cfg: Config, g: Group, m: Address)
    requires g.tiers == map[] && cfg.contribution > 0
    ensures Required(cfg, g, m) == cfg.contribution
  {
  }

  lemma InstalledKeeps(s0: State, s: State, who: Address, amount: int, bal: Balances, total: int)
    requires CycleInv(s0, s) && amount > 0 && who != This
             && Transfer(s.bal, s0.cfg.base, who, This, amount) == Some(bal)
    requires who in s.group.members && who !in s.round.paid
    requires total == Get(s.round.contributions, who) + amount && total <= s0.cfg.contribution
    ensures CycleInv(s0, Installed(s, who, bal, total, total == s0.cfg.contribution))
  {
    assert 0 < total by {
      assert who in s.round.contributions ==> s.round.contributions[who] > 0;
    }
    InstallmentBalances(s0, s, who, amount, bal);
    InstallmentPaying(s0.cfg.contribution, s0.group.members, s.round.paid, s.round.contributions, who, total);
  }

  lemma PaidOutKeeps(s0: State, s: State, e: Env, u: State)
    requires CycleInv(s0, s) && |s.round.paid| == |s.group.members| && CompleteRound(s, e) == Some(u)
    ensures CycleInv(s0, u)
  {
    PayoutKeeps(s0, s, e);
  }

  lemma ContributeKeepsCycle(s0: State, s: State, e: Env, who: Address, token: Address, amount: int, u: State)
    requires CycleInv(s0, s) && Contribute(s, e, who, token, amount) == Some(u)
    ensures CycleInv(s0, u)
  {
    var installed := ContributeUnfolds(s, e, who, token, amount);
    var total := Get(s.round.contributions, who) + amount;
    RequiredWithoutTiers(s.cfg, s.group, who);
    InstalledKeeps(s0, s, who, amount, installed.bal, total);
    if u != installed {
      PaidOutKeeps(s0, installed, e, u);
    }
  }

  lemma StepKeepsCycle(s0: State, s: State, e: Env, c: Call)
    requires CycleInv(s0, s) && InCycle(c)
    ensures CycleInv(s0, Next(s, e, c))
  {
    if c.ContributeCall? && Step(s, e, c).Some? {
      ContributeKeepsCycle(s0, s, e, c.who, c.token, c.amount, Next(s, e, c));
    }
  }

  lemma {:induction false} RunKeepsCycle(s0: State, s: State, run: Run)
    requires CycleInv(s0, s) && forall i :: 0 <= i < |run| ==> InCycle(run[i].1)
    ensures CycleInv(s0, Exec(s, run))
    decreases |run|
  {
    if run != [] {
      StepKeepsCycle(s0, s, run[0].0, run[0].1);
      RunKeepsCycle(s0, Next(s, run[0].0, run[0].1), run[1..]);
    }
  }

  /** Exactly one of the records pays `m`, and it pays `amount`. */
  ghost predicate PaidOnce(records: seq<PayoutRecord>, m: Address, amount: int) {
    exists j :: 0 <= j < |records| && records[j] == PayoutRecord(m, amount)
                && forall k :: 0 <= k < |records| && records[k].recipient == m ==> k == j
  }

  lemma EveryonePaidOnce(s0: State, records: seq<PayoutRecord>, m: Address)
    requires NoDup(s0.group.order) && m in s0.group.order && |records| == |s0.group.order|
    requires forall j: nat :: j < |records| ==> records[j] == PayoutRecord(Turn(s0, j), Pot(s0))
    ensures PaidOnce(records, m, Pot(s0))
  {
    var n := |s0.group.order|;
    var i :| 0 <= i < n && s0.group.order[i] == m;
    var j := RotationHits(s0.round.number, n, i);
    assert records[j] == PayoutRecord(Turn(s0, j), Pot(s0));
    forall k | 0 <= k < n && records[k].recipient == m ensures k == j {
      assert records[k] == PayoutRecord(Turn(s0, k), Pot(s0));
      RotationOnce(s0.round.number, n, j, k);
    }
  }

  lemma RecordsOf(s0: State, history: seq<PayoutRecord>, k: nat)
    requires s0.group.order != [] && Recorded(s0, history, k)
    ensures var records := history[|s0.history|..];
            |records| == k && forall j: nat :: j < k ==> records[j] == PayoutRecord(Turn(s0, j), Pot(s0))
  {
    forall j: nat | j < k ensures history[|s0.history|..][j] == PayoutRecord(Turn(s0, j), Pot(s0)) {
      assert history[|s0.history| + j] == PayoutRecord(Turn(s0, j), Pot(s0));
    }
  }

  lemma CycleBalance(s0: State, s: State, m: Address)
    requires CycleInv(s0, s) && s.round.number == s0.round.number + |s0.group.members| && s.round.contributions == map[]
    requires m in s0.group.order && m in s0.group.members && m != This
    ensures Bal(s.bal, s0.cfg.base, m) == Bal(s0.bal, s0.cfg.base, m) - FeeOn(s0, Pot(s0))
                                          + (if s0.cfg.feeRecipient == Some(m)
                                             then |s0.group.members| * FeeOn(s0, Pot(s0)) else 0)
  {
    var n := |s0.group.members|;
    ReceivedOnce(s0, m);
    ExpectedInTotal(s0, n, m);
    assert Get(s.round.contributions, m) == 0;
    assert Bal(s.bal, s0.cfg.base, m) == Expected(s0, n, m);
  }

  /** Once `n` rounds are complete and nothing has been contributed to the next: every
      member has received exactly one full pot, and has paid for it with exactly the fee. */
  lemma FullCycle(s0: State, run: Run, m: Address)
    requires CycleStart(s0) && forall i :: 0 <= i < |run| ==> InCycle(run[i].1)
    requires Exec(s0, run).round.number == s0.round.number + |s0.group.members|
    requires Exec(s0, run).round.contributions == map[]
    requires m in s0.group.members && m != This
    ensures var u := Exec(s0, run);
            && |u.history| == |s0.history| + |s0.group.members| && u.history[..|s0.history|] == s0.history
            && PaidOnce(u.history[|s0.history|..], m, Pot(s0))
            && Bal(u.bal, s0.cfg.base, m) == Bal(s0.bal, s0.cfg.base, m) - FeeOn(s0, Pot(s0))
                                             + (if s0.cfg.feeRecipient == Some(m)
                                                then |s0.group.members| * FeeOn(s0, Pot(s0)) else 0)
            && Bal(u.bal, s0.cfg.base, This) == s0.rewards.pool
  {
    assert SumMap<Address>(map[]) == 0;
    CycleBegins(s0);
    RunKeepsCycle(s0, s0, run);
    Pigeonhole(s0.group.order, s0.group.members);
    RecordsOf(s0, Exec(s0, run).history, |s0.group.members|);
    EveryonePaidOnce(s0, Exec(s0, run).history[|s0.history|..], m);
    CycleBalance(s0, Exec(s0, run), m);
  }

  lemma CycleBegins(s0: State)
    requires CycleStart(s0)
    ensures CycleInv(s0, s0)
  {
    assert SumMap<Address>(map[]) == 0;
  }
}
