/**
 What every entry point of the ROSCA contract does to the contract's state
 (`contracts/ahjoor-rosca/src/lib.rs` and `internals.rs`). `None` is a call that traps.
 */
module RoscaModel {
  import opened Common
  import opened Ledger
  import opened Sums

  const MAX_FEE := 500
  const MAX_GROUP := 100
  const RATE_PRECISION := 10_000_000

  // --- Data ---

  /** Set once by `init`. */
  datatype Config = Config(
    admin: Address,          // the first admin
    base: Address,
    contribution: int,
    duration: nat,
    byTimestamp: bool,       // which of the two deadlines governs
    tsDuration: nat,
    penalty: int,
    feeRecipient: Option<Address>,
    maxDefaults: nat,
    skipFee: int,
    maxSkips: nat,
    weightedVotes: bool,
    goal: Option<int>)       // the collective savings goal

  /** The admin, membership and what the admin configures about tokens and tiers. */
  datatype Group = Group(
    admin: Address,
    members: seq<Address>,
    order: seq<Address>,
    exited: seq<Address>,
    approved: seq<Address>,
    rates: map<Address, int>,
    limits: map<Address, int>,
    tiers: map<Address, nat>)

  /** The round in progress; a zero `tsDeadline` is an absent one. */
  datatype Round = Round(
    number: nat,
    paid: seq<Address>,
    contributions: map<Address, int>,
    deadline: nat,
    tsDeadline: nat)

  datatype Standing = Standing(
    defaulters: seq<Address>,
    defaults: map<Address, nat>,
    suspended: seq<Address>,
    skips: set<(Address, nat)>,
    skipCounts: map<(Address, nat), nat>,
    reinvesting: set<Address>)

  datatype Distribution = Equal | Proportional | Weighted

  datatype Rewards = Rewards(
    pool: int,
    claimed: map<Address, int>,
    dist: Distribution,
    weights: map<Address, nat>,
    participation: map<Address, nat>,
    participations: nat)

  datatype PayoutRecord = PayoutRecord(recipient: Address, amount: int)

  datatype ProposalKind = PenaltyAppeal | RuleChange | MemberRemoval | MaxMembersUpdate

  datatype ProposalStatus = Pending | Rejected | Executed

  datatype Proposal = Proposal(
    kind: ProposalKind,
    target: Address,
    votesFor: int,
    votesAgainst: int,
    deadline: nat,
    status: ProposalStatus,
    data: Option<int>,
    quorum: nat)             // basis points

  datatype Governance = Governance(
    delegations: map<Address, Address>,
    proposals: map<nat, Proposal>,
    votes: map<nat, map<Address, bool>>,
    counter: nat,
    quorumPercent: nat,
    quorumPerKind: map<ProposalKind, nat>,
    maxMembers: nat)

  datatype State = State(
    cfg: Config,
    feeBps: nat,
    group: Group,
    round: Round,
    standing: Standing,
    rewards: Rewards,
    history: seq<PayoutRecord>,
    pausedAt: Option<nat>,
    gov: Governance,
    bal: Balances)

  // --- Reading the state ---

  function Get<K>(m: map<K, int>, k: K): int {
    if k in m then m[k] else 0
  }

  function Count<K>(m: map<K, nat>, k: K): nat {
    if k in m then m[k] else 0
  }

  function ActiveDeadline(s: State): nat {
    if s.cfg.byTimestamp then s.round.tsDeadline else s.round.deadline
  }

  /** What a member owes per round under its tier (100% by default). */
  function Required(cfg: Config, g: Group, m: Address): int {
    TruncDiv(cfg.contribution * (if m in g.tiers then g.tiers[m] else BPS), BPS)
  }

  predicate Eligible(g: Group, st: Standing, round: nat, m: Address) {
    m !in st.suspended && m !in g.exited && (m, round) !in st.skips
  }

  // --- Initialisation ---

  /** `customOrder` is given exactly when the admin assigns the order. */
  function Init(e: Env, cfg: Config, members: seq<Address>, customOrder: Option<seq<Address>>, feeBps: nat,
                maxMembers: nat, bal: Balances): Option<State>
  {
    if feeBps > MAX_FEE || cfg.maxDefaults < 1 || !(1 <= maxMembers <= MAX_GROUP) || |members| > maxMembers
       || (customOrder.Some? && (|customOrder.value| != |members|
                                 || exists i :: 0 <= i < |customOrder.value| && customOrder.value[i] !in members))
    then None
    else
      Some(State(
        cfg, feeBps,
        Group(cfg.admin, members, customOrder.GetOr(members), [], [cfg.base], map[], map[], map[]),
        Round(0, [], map[], e.now + cfg.duration, if cfg.byTimestamp then e.now + cfg.tsDuration else 0),
        Standing([], map[], [], {}, map[], {}),
        Rewards(0, map[], Equal, map[], map[], 0),
        [], None,
        Governance(map[], map[], map[], 0, 51, map[], maxMembers),
        bal))
  }

  // --- The payout of a round ---

  /** Scans the order from `idx`, wrapping around, for at most |order| - attempts members. */
  function Scan(g: Group, st: Standing, round: nat, idx: nat, attempts: nat): (r: Option<nat>)
    requires idx < |g.order|
    ensures r.Some? ==> r.value < |g.order|
    decreases |g.order| - attempts
  {
    if attempts >= |g.order| then None
    else if Eligible(g, st, round, g.order[idx]) then Some(idx)
    else Scan(g, st, round, (idx + 1) % |g.order|, attempts + 1)
  }

  function Recipient(g: Group, st: Standing, round: nat): Option<Address> {
    if g.order == [] then None
    else
      var idx :- Scan(g, st, round, round % |g.order|, 0);
      Some(g.order[idx])
  }

  /** Balances during a payout, what is kept for reinvestment and the pot on record. */
  datatype Payout = Payout(bal: Balances, reinvested: int, recorded: int)

  function FeeOn(s: State, amount: int): int {
    if s.feeBps > 0 && s.cfg.feeRecipient.Some? then Share(amount, s.feeBps) else 0
  }

  /** Pays one token's pot: everything the contract holds of it, less the reward pool in
      the case of the base token. */
  function PayToken(s: State, p: Payout, token: Address, to: Address, reinvest: bool): Option<Payout> {
    var isBase := token == s.cfg.base;
    var pot := Bal(p.bal, token, This) - if isBase then s.rewards.pool else 0;
    var recorded := if isBase then pot else p.recorded;
    if pot <= 0 then Some(p.(recorded := recorded))
    else PayPot(s, p.(recorded := recorded), token, to, reinvest, pot, FeeOn(s, pot))
  }

  function PayPot(s: State, p: Payout, token: Address, to: Address, reinvest: bool, pot: int,
                  fee: int): Option<Payout> {
    var keep := reinvest && token == s.cfg.base;
    var b1 :- if !keep && pot - fee > 0 then Transfer(p.bal, token, This, to, pot - fee) else Some(p.bal);
    var b2 :- if fee > 0 then Transfer(b1, token, This, s.cfg.feeRecipient.GetOr(This), fee) else Some(b1);
    Some(Payout(b2, if keep then pot - fee else p.reinvested, p.recorded))
  }

  function PayTokens(s: State, tokens: seq<Address>, to: Address, reinvest: bool): Option<Payout> {
    if tokens == [] then Some(Payout(s.bal, 0, 0))
    else
      var p :- PayTokens(s, tokens[..|tokens| - 1], to, reinvest);
      PayToken(s, p, tokens[|tokens| - 1], to, reinvest)
  }

  function ResetRound(cfg: Config, r: Round, e: Env): Round {
    Round(r.number + 1, [], map[], e.now + cfg.duration,
          if cfg.byTimestamp then e.now + cfg.tsDuration else r.tsDeadline)
  }

  function Participate(w: Rewards, m: Address): Rewards {
    w.(participation := w.participation[m := Count(w.participation, m) + 1], participations := w.participations + 1)
  }

  /** A reinvested payout opens the next round as a contribution of the recipient. */
  function Reinvest(s: State, m: Address, amount: int): State {
    var r := s.round.(contributions := s.round.contributions[m := amount]);
    if amount >= Required(s.cfg, s.group, m)
    then s.(round := if m in r.paid then r else r.(paid := r.paid + [m]), rewards := Participate(s.rewards, m))
    else s.(round := r)
  }

  function CompleteRound(s: State, e: Env): Option<State> {
    var to :- Recipient(s.group, s.standing, s.round.number);
    var reinvest := to in s.standing.reinvesting;
    var p :- PayTokens(s, s.group.approved, to, reinvest);
    var s1 := s.(bal := p.bal, history := s.history + [PayoutRecord(to, p.recorded)],
                 round := ResetRound(s.cfg, s.round, e));
    Some(if reinvest && p.reinvested > 0 then Reinvest(s1, to, p.reinvested) else s1)
  }

  // --- Contributions ---

  /** The amount that moves: the amount itself in the base token, else its value at the
      token's rate. */
  function TransferAmount(s: State, token: Address, amount: int): Option<int> {
    if token == s.cfg.base then Some(amount)
    else if token !in s.group.rates || s.group.rates[token] <= 0 then None
    else Some((amount * RATE_PRECISION) / s.group.rates[token])
  }

  /** An installment is on record; `full` says whether the member has now paid its part. */
  function Installed(s: State, who: Address, bal: Balances, total: int, full: bool): State {
    s.(bal := bal,
       round := s.round.(contributions := s.round.contributions[who := total],
                         paid := if full then s.round.paid + [who] else s.round.paid),
       rewards := if full then Participate(s.rewards, who) else s.rewards)
  }

  function TakeInstallment(s: State, who: Address, token: Address, amount: int): Option<State> {
    var moved :- TransferAmount(s, token, amount);
    if token in s.group.limits && moved > s.group.limits[token] then None
    else Collect(s, who, token, amount, moved, Required(s.cfg, s.group, who))
  }

  /** Moves the tokens and counts the amount toward what is required. Whoever completes its
      part has the progress toward the savings goal worked out, which a goal of zero traps. */
  function Collect(s: State, who: Address, token: Address, amount: int, moved: int, required: int): Option<State> {
    var bal :- Transfer(s.bal, token, who, This, moved);
    var total := Get(s.round.contributions, who) + amount;
    if total > required || (total == required && s.cfg.goal == Some(0)) then None
    else Some(Installed(s, who, bal, total, total == required))
  }

  function Contribute(s: State, e: Env, who: Address, token: Address, amount: int): Option<State> {
    if s.pausedAt.Some? || !e.Authorised(who) || amount <= 0 || e.now > ActiveDeadline(s)
       || who in s.group.exited || who !in s.group.members || who in s.round.paid || token !in s.group.approved
    then None
    else
      var s2 :- TakeInstallment(s, who, token, amount);
      if who in s2.round.paid && |s2.round.paid| == |s.group.members| then CompleteRound(s2, e) else Some(s2)
  }

  /** A contribution that commits ends in one of two ways. */
  lemma ContributeUnfolds(s: State, e: Env, who: Address, token: Address, amount: int) returns (installed: State)
    requires Contribute(s, e, who, token, amount).Some?
    ensures amount > 0 && who != This && who in s.group.members && who !in s.round.paid && token in s.group.approved
    ensures var total := Get(s.round.contributions, who) + amount;
            var required := Required(s.cfg, s.group, who);
            && total <= required && TransferAmount(s, token, amount).Some?
            && Transfer(s.bal, token, who, This, TransferAmount(s, token, amount).value) == Some(installed.bal)
            && installed == Installed(s, who, installed.bal, total, total == required)
            && Contribute(s, e, who, token, amount)
               == if total == required && |installed.round.paid| == |s.group.members| then CompleteRound(installed, e)
                  else Some(installed)
  {
    var bal := Transfer(s.bal, token, who, This, TransferAmount(s, token, amount).value).value;
    var total := Get(s.round.contributions, who) + amount;
    installed := Installed(s, who, bal, total, total == Required(s.cfg, s.group, who));
  }

  function RequestSkip(s: State, e: Env, m: Address, round: nat): Option<State> {
    if s.pausedAt.Some? || !e.Authorised(m) || round < s.round.number
       || (round == s.round.number && e.now > ActiveDeadline(s))
       || m !in s.group.members || (m, round) in s.standing.skips
       || (round == s.round.number && m in s.round.paid) || s.group.order == []
    then None
    else TakeSkip(s, m, round, round / |s.group.order|)
  }

  /** Counts the skip against the cycle it falls in and takes the fee. */
  function TakeSkip(s: State, m: Address, round: nat, cycle: nat): Option<State> {
    var used := Count(s.standing.skipCounts, (m, cycle));
    if used >= s.cfg.maxSkips then None
    else
      var bal :- if s.cfg.skipFee > 0 then Transfer(s.bal, s.cfg.base, m, This, s.cfg.skipFee) else Some(s.bal);
      Some(s.(bal := bal, standing := s.standing.(skips := s.standing.skips + {(m, round)},
                                                  skipCounts := s.standing.skipCounts[(m, cycle) := used + 1])))
  }

  // --- Closing a round ---

  /** Members who neither paid, nor exited, nor skipped, in member order. */
  function Defaulters(s: State, members: seq<Address>): seq<Address> {
    if members == [] then []
    else
      var m := members[|members| - 1];
      Defaulters(s, members[..|members| - 1])
      + if m !in s.round.paid && m !in s.group.exited && (m, s.round.number) !in s.standing.skips then [m] else []
  }

  predicate MayClose(s: State, e: Env) {
    s.pausedAt.None? && e.Authorised(s.group.admin) && e.now > ActiveDeadline(s)
  }

  function CloseRound(s: State, e: Env): Option<State> {
    if !MayClose(s, e) then None
    else Some(s.(standing := s.standing.(defaulters := Defaulters(s, s.group.members)),
                 round := ResetRound(s.cfg, s.round, e)))
  }

  /** One more default; the member is suspended once it has `max`. */
  function RecordDefault(st: Standing, m: Address, max: nat): Standing {
    var count := Count(st.defaults, m) + 1;
    st.(defaults := st.defaults[m := count],
        suspended := if count >= max && m !in st.suspended then st.suspended + [m] else st.suspended)
  }

  function RecordDefaults(st: Standing, who: seq<Address>, max: nat): Standing {
    if who == [] then st else RecordDefault(RecordDefaults(st, who[..|who| - 1], max), who[|who| - 1], max)
  }

  /** Pays out what has come in and then records the defaults, so that the round's own
      defaults do not affect who receives it. */
  function FinalizeRound(s: State, e: Env): Option<State> {
    if !MayClose(s, e) then None
    else
      var defaulters := Defaulters(s, s.group.members);
      var s1 :- CompleteRound(s.(standing := s.standing.(defaulters := defaulters)), e);
      Some(s1.(standing := RecordDefaults(s1.standing, defaulters, s.cfg.maxDefaults)))
  }

  function Penalise(s: State, e: Env, m: Address): Option<State> {
    if s.pausedAt.Some? || !e.Authorised(s.group.admin) || s.cfg.penalty == 0 || m !in s.standing.defaulters
       || !e.Authorised(m)
    then None
    else
      var bal :- Transfer(s.bal, s.cfg.base, m, This, s.cfg.penalty);
      Some(s.(bal := bal, standing := RecordDefault(s.standing, m, s.cfg.maxDefaults)))
  }

  // --- Rewards ---

  function DepositRewards(s: State, e: Env, from: Address, amount: int): Option<State> {
    if s.pausedAt.Some? || !e.Authorised(from) then None
    else
      var bal :- Transfer(s.bal, s.cfg.base, from, This, amount);
      Some(s.(bal := bal, rewards := s.rewards.(pool := s.rewards.pool + amount)))
  }

  function SetRewardDist(s: State, e: Env, dist: Distribution, weights: Option<map<Address, nat>>): Option<State> {
    if s.pausedAt.Some? || !e.Authorised(s.group.admin) then None
    else Some(s.(rewards := s.rewards.(dist := dist, weights := weights.GetOr(s.rewards.weights))))
  }

  /** A member's part of the whole pool, before what it has already claimed. */
  ghost function RewardShare(w: Rewards, members: nat, m: Address): int
    requires members > 0
  {
    match w.dist
    case Equal => w.pool / members
    case Proportional =>
      if w.participations == 0 then 0 else (w.pool * Count(w.participation, m)) / w.participations
    case Weighted =>
      var total := TotalWeight(w.weights);
      if total <= 0 then w.pool / members else (w.pool * Count(w.weights, m)) / total
  }

  ghost function TotalWeight(weights: map<Address, nat>): int {
    SumMap(map m | m in weights :: weights[m] as int)
  }

  ghost function Claimable(s: State, m: Address): int {
    if m !in s.group.members || s.rewards.pool == 0 then 0
    else RewardShare(s.rewards, |s.group.members|, m) - Get(s.rewards.claimed, m)
  }

  ghost function ClaimRewards(s: State, e: Env, m: Address): Option<State> {
    if s.pausedAt.Some? || !e.Authorised(m) || Claimable(s, m) <= 0 then None
    else
      var amount := Claimable(s, m);
      var bal :- Transfer(s.bal, s.cfg.base, This, m, amount);
      Some(s.(bal := bal, rewards := s.rewards.(claimed := s.rewards.claimed[m := Get(s.rewards.claimed, m) + amount])))
  }

  // --- Preferences, fee and pause ---

  function SetReinvest(s: State, e: Env, m: Address, on: bool): Option<State> {
    if s.pausedAt.Some? || !e.Authorised(m) || m !in s.group.members || e.now > ActiveDeadline(s) then None
    else Some(s.(standing := s.standing.(reinvesting := if on
                                         then s.standing.reinvesting + {m} else s.standing.reinvesting - {m})))
  }

  function UpdateFee(s: State, e: Env, bps: nat): Option<State> {
    if s.pausedAt.Some? || !e.Authorised(s.group.admin) || bps > MAX_FEE then None else Some(s.(feeBps := bps))
  }

  function Pause(s: State, e: Env): Option<State> {
    if !e.Authorised(s.group.admin) || s.pausedAt.Some? then None else Some(s.(pausedAt := Some(e.now)))
  }

  /** Pushes the deadlines back by the length of the pause; an unset (zero) deadline stays. */
  function Resume(s: State, e: Env): Option<State> {
    if !e.Authorised(s.group.admin) || s.pausedAt.None? || e.now < s.pausedAt.value then None
    else
      var length := e.now - s.pausedAt.value;
      var r := s.round;
      Some(s.(pausedAt := None,
              round := r.(deadline := if r.deadline > 0 then r.deadline + length else 0,
                          tsDeadline := if r.tsDeadline > 0 then r.tsDeadline + length else 0)))
  }

  // --- Governance ---

  /** The quorum, in basis points, that a proposal created now has to reach. */
  function QuorumFor(g: Governance, kind: ProposalKind): nat {
    if kind in g.quorumPerKind then g.quorumPerKind[kind] else g.quorumPercent * 100
  }

  function CreateProposal(s: State, e: Env, creator: Address, kind: ProposalKind, target: Address, duration: nat,
                          data: Option<int>): Option<State>
  {
    if s.pausedAt.Some? || !e.Authorised(creator) || creator !in s.group.members then None
    else Some(Propose(s, Proposal(kind, target, 0, 0, e.now + duration, Pending, data, QuorumFor(s.gov, kind))))
  }

  /** Stores a proposal under the next id, with no votes. */
  function Propose(s: State, p: Proposal): State {
    var g := s.gov;
    s.(gov := g.(counter := g.counter + 1, proposals := g.proposals[g.counter := p],
                 votes := g.votes[g.counter := map[]]))
  }

  function VoteWeight(s: State, m: Address): int {
    if s.cfg.weightedVotes then Get(s.round.contributions, m) else 1
  }

  /** Those who have delegated to `voter` and are not counted yet. */
  function Carried(delegations: map<Address, Address>, votes: map<Address, bool>, voter: Address): set<Address> {
    set d | d in delegations && delegations[d] == voter && d !in votes
  }

  ghost function CarriedWeight(s: State, carried: set<Address>): int {
    SumMap(map d | d in carried :: VoteWeight(s, d))
  }

  ghost function Vote(s: State, e: Env, voter: Address, id: nat, support: bool): Option<State> {
    var g := s.gov;
    if s.pausedAt.Some? || !e.Authorised(voter) || voter !in s.group.members || voter in g.delegations
       || id !in g.proposals
    then None
    else
      var p := g.proposals[id];
      var votes := if id in g.votes then g.votes[id] else map[];
      if e.now > p.deadline || p.status != Pending || voter in votes
         || (s.cfg.weightedVotes && VoteWeight(s, voter) == 0)
      then None
      else Some(Cast(s, voter, id, support, votes[voter := support]))
  }

  function WithVotes(own: map<Address, bool>, added: set<Address>, support: bool): map<Address, bool> {
    own + map d | d in added :: support
  }

  /** Records the vote and those of the delegators it carries, and adds up their weight. */
  ghost function Cast(s: State, voter: Address, id: nat, support: bool, own: map<Address, bool>): State
    requires id in s.gov.proposals
  {
    var carried := Carried(s.gov.delegations, own, voter);
    BookVotes(s, id, support, WithVotes(own, carried, support), VoteWeight(s, voter) + CarriedWeight(s, carried))
  }

  function BookVotes(s: State, id: nat, support: bool, votes: map<Address, bool>, weight: int): State
    requires id in s.gov.proposals
  {
    var g := s.gov;
    var p := g.proposals[id];
    s.(gov := g.(votes := g.votes[id := votes],
                 proposals := g.proposals[id := if support then p.(votesFor := p.votesFor + weight)
                                                else p.(votesAgainst := p.votesAgainst + weight)]))
  }

  ghost function SumOver(members: seq<Address>, contributions: map<Address, int>): int {
    if members == [] then 0
    else SumOver(members[..|members| - 1], contributions) + Get(contributions, members[|members| - 1])
  }

  ghost function PossibleVotes(s: State): int {
    if s.cfg.weightedVotes then SumOver(s.group.members, s.round.contributions) else |s.group.members|
  }

  ghost predicate Passes(s: State, p: Proposal) {
    var needed := (PossibleVotes(s) * p.quorum + 9999) / BPS;
    p.votesFor + p.votesAgainst >= needed && p.votesFor > p.votesAgainst
  }

  /** What an approved proposal does. */
  ghost function Enact(s: State, p: Proposal): State {
    match p.kind
    case PenaltyAppeal =>
      s.(standing := s.standing.(defaults := s.standing.defaults[p.target := 0],
                                 suspended := Without(s.standing.suspended, p.target)))
    case RuleChange =>
      if p.data.Some? && 1 <= p.data.value <= 100 then s.(gov := s.gov.(quorumPercent := p.data.value)) else s
    case MemberRemoval =>
      s.(group := s.group.(members := Without(s.group.members, p.target), order := Without(s.group.order, p.target)))
    case MaxMembersUpdate =>
      if p.data.None? then s
      else
        // the cast to 32 bits keeps the low bits
        var limit := p.data.value % (U32_MAX + 1);
        if 1 <= limit <= MAX_GROUP && limit >= |s.group.members| then s.(gov := s.gov.(maxMembers := limit)) else s
  }

  ghost function Execute(s: State, e: Env, id: nat): Option<State> {
    if s.pausedAt.Some? || id !in s.gov.proposals then None
    else
      var p := s.gov.proposals[id];
      if p.status != Pending || e.now <= p.deadline then None
      else
        var passed := Passes(s, p);
        var s1 := if passed then Enact(s, p) else s;
        var closed := p.(status := if passed then Executed else Rejected);
        Some(s1.(gov := s1.gov.(proposals := s1.gov.proposals[id := closed])))
  }

  function Delegate(s: State, e: Env, from: Address, to: Address): Option<State> {
    if s.pausedAt.Some? || !e.Authorised(from) || from !in s.group.members || to !in s.group.members
       || to in s.gov.delegations
    then None
    else Some(s.(gov := s.gov.(delegations := s.gov.delegations[from := to])))
  }

  function Revoke(s: State, e: Env, from: Address): Option<State> {
    if s.pausedAt.Some? || !e.Authorised(from) || from !in s.gov.delegations then None
    else Some(s.(gov := s.gov.(delegations := s.gov.delegations - {from})))
  }

  // --- Runs ---

  /** `AdministerCall` stands for every change of the admin, membership, payout order, exits,
      tiers, approved tokens, rates, limits, per-kind quorums and the member limit by the
      entry points that only do that, whatever the new values; `LapseDelegationsCall` for the
      end of the temporary storage that holds the delegations; `OutsideCall` for token
      activity of other parties. */
  datatype Call =
    | ContributeCall(who: Address, token: Address, amount: int)
    | RequestSkipCall(who: Address, round: nat)
    | CloseRoundCall
    | FinalizeRoundCall
    | PenaliseCall(who: Address)
    | DepositRewardsCall(who: Address, amount: int)
    | SetRewardDistCall(dist: Distribution, weights: Option<map<Address, nat>>)
    | ClaimRewardsCall(who: Address)
    | SetReinvestCall(who: Address, on: bool)
    | UpdateFeeCall(bps: nat)
    | PauseCall
    | ResumeCall
    | CreateProposalCall(who: Address, kind: ProposalKind, target: Address, duration: nat, data: Option<int>)
    | VoteCall(who: Address, id: nat, support: bool)
    | ExecuteCall(id: nat)
    | DelegateCall(who: Address, to: Address)
    | RevokeCall(who: Address)
    | AdministerCall(group: Group, quorumPerKind: map<ProposalKind, nat>, maxMembers: nat)
    | LapseDelegationsCall
    | OutsideCall(bal: Balances)

  ghost function Step(s: State, e: Env, c: Call): Option<State> {
    match c
    case ContributeCall(who, token, amount) => Contribute(s, e, who, token, amount)
    case RequestSkipCall(who, round) => RequestSkip(s, e, who, round)
    case CloseRoundCall => CloseRound(s, e)
    case FinalizeRoundCall => FinalizeRound(s, e)
    case PenaliseCall(who) => Penalise(s, e, who)
    case DepositRewardsCall(who, amount) => DepositRewards(s, e, who, amount)
    case SetRewardDistCall(dist, weights) => SetRewardDist(s, e, dist, weights)
    case ClaimRewardsCall(who) => ClaimRewards(s, e, who)
    case SetReinvestCall(who, on) => SetReinvest(s, e, who, on)
    case UpdateFeeCall(bps) => UpdateFee(s, e, bps)
    case PauseCall => Pause(s, e)
    case ResumeCall => Resume(s, e)
    case CreateProposalCall(who, kind, target, duration, data) =>
      CreateProposal(s, e, who, kind, target, duration, data)
    case VoteCall(who, id, support) => Vote(s, e, who, id, support)
    case ExecuteCall(id) => Execute(s, e, id)
    case DelegateCall(who, to) => Delegate(s, e, who, to)
    case RevokeCall(who) => Revoke(s, e, who)
    case AdministerCall(group, quorumPerKind, maxMembers) =>
      Some(s.(group := group, gov := s.gov.(quorumPerKind := quorumPerKind, maxMembers := maxMembers)))
    case LapseDelegationsCall => Some(s.(gov := s.gov.(delegations := map[])))
    case OutsideCall(bal) => if OthersMoved(s.bal, bal) then Some(s.(bal := bal)) else None
  }

  /** A call that traps leaves the state as it was. */
  ghost function Next(s: State, e: Env, c: Call): State {
    Step(s, e, c).GetOr(s)
  }

  predicate Outcome(r: Option<State>, before: State, ok: bool, after: State) {
    ok == r.Some? && after == r.GetOr(before)
  }

  type Run = seq<(Env, Call)>

  ghost function Exec(s: State, run: Run): State
    decreases |run|
  {
    if run == [] then s else Exec(Next(s, run[0].0, run[0].1), run[1..])
  }
}
