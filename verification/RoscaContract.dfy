/**
 The ROSCA contract as the object it is: storage fields that the entry points load,
 change and store in loops, with the host's rollback when a call traps after its first
 write. Every method is proved to do what `RoscaModel` says.
 */
module RoscaContract {
  import opened Common
  import opened Ledger
  import opened Sums
  import Model = RoscaModel
  import opened RoscaModel

  class Contract {
    const cfg: Config
    var feeBps: nat
    var group: Group
    var number: nat
    var paid: seq<Address>
    var contributions: map<Address, int>
    var deadline: nat
    var tsDeadline: nat
    var standing: Standing
    var rewards: Rewards
    var history: seq<PayoutRecord>
    var pausedAt: Option<nat>
    var gov: Governance
    var bal: Balances

    function View(): State
      reads this
    {
      State(cfg, feeBps, group, Round(number, paid, contributions, deadline, tsDeadline), standing, rewards, history,
            pausedAt, gov, bal)
    }

    constructor (s: State)
      ensures View() == s
    {
      cfg, feeBps, group := s.cfg, s.feeBps, s.group;
      number, paid, contributions := s.round.number, s.round.paid, s.round.contributions;
      deadline, tsDeadline := s.round.deadline, s.round.tsDeadline;
      standing, rewards, history, pausedAt, gov, bal := s.standing, s.rewards, s.history, s.pausedAt, s.gov, s.bal;
    }

    /** Sets up a group, or returns null when the initialisation traps. */
    static method Deploy(e: Env, cfg: Config, members: seq<Address>, customOrder: Option<seq<Address>>, feeBps: nat,
                         maxMembers: nat, bal: Balances) returns (c: Contract?)
      ensures c == null <==> Init(e, cfg, members, customOrder, feeBps, maxMembers, bal).None?
      ensures c != null ==> fresh(c) && Some(c.View()) == Init(e, cfg, members, customOrder, feeBps, maxMembers, bal)
    {
      if feeBps > MAX_FEE || cfg.maxDefaults < 1 || maxMembers < 1 || maxMembers > MAX_GROUP || |members| > maxMembers {
        return null;
      }
      var order := members;
      if customOrder.Some? {
        order := customOrder.value;
        if |order| != |members| {
          return null;
        }
        for i := 0 to |order|
          invariant forall j :: 0 <= j < i ==> order[j] in members
        {
          if order[i] !in members {
            return null;
          }
        }
      }
      c := new Contract(State(
        cfg, feeBps,
        Group(cfg.admin, members, order, [], [cfg.base], map[], map[], map[]),
        Round(0, [], map[], e.now + cfg.duration, if cfg.byTimestamp then e.now + cfg.tsDuration else 0),
        Standing([], map[], [], {}, map[], {}),
        Rewards(0, map[], Equal, map[], map[], 0),
        [], None,
        Governance(map[], map[], map[], 0, 51, map[], maxMembers),
        bal));
    }

    /** What the host does when a call traps: nothing else has been written by then. */
    method Rollback(s: State)
      requires View()
               == s.(round := View().round, standing := standing, rewards := rewards, history := history, bal := bal)
      modifies `number, `paid, `contributions, `deadline, `tsDeadline, `standing, `rewards, `history, `bal
      ensures View() == s
    {
      RestoreRound(s);
      standing, rewards, history, bal := s.standing, s.rewards, s.history, s.bal;
    }

    method RestoreRound(s: State)
      modifies `number, `paid, `contributions, `deadline, `tsDeadline
      ensures Round(number, paid, contributions, deadline, tsDeadline) == s.round
    {
      number, paid, contributions := s.round.number, s.round.paid, s.round.contributions;
      deadline, tsDeadline := s.round.deadline, s.round.tsDeadline;
    }

    // --- The payout of a round ---

    method SelectRecipient() returns (to: Option<Address>)
      ensures to == Recipient(group, standing, number)
    {
      var n := |group.order|;
      if n == 0 {
        return None;
      }
      var idx, attempts := number % n, 0;
      while attempts < n
        invariant 0 <= idx < n && 0 <= attempts <= n
        invariant Scan(group, standing, number, number % n, 0) == Scan(group, standing, number, idx, attempts)
      {
        var candidate := group.order[idx];
        if candidate !in standing.suspended && candidate !in group.exited && (candidate, number) !in standing.skips {
          return Some(candidate);
        }
        idx := (idx + 1) % n;
        attempts := attempts + 1;
      }
      to := None;
    }

    /** Pays out a positive pot of one token, less the fee. On a trap part of it may have
        been paid. */
    method PayOutPot(ghost s: State, token: Address, to: Address, reinvest: bool, p: Payout, pot: int, fee: int)
      returns (ok: bool, q: Payout)
      requires p.bal == bal && View() == s.(bal := bal) && (fee > 0 ==> cfg.feeRecipient.Some?)
      modifies `bal
      ensures ok ==> q.bal == bal && PayPot(s, p, token, to, reinvest, pot, fee) == Some(q)
      ensures !ok ==> PayPot(s, p, token, to, reinvest, pot, fee) == None
    {
      q, ok := p, true;
      var rest := pot - fee;
      if reinvest && token == cfg.base {
        q := q.(reinvested := rest);
      } else if rest > 0 {
        var r := Transfer(bal, token, This, to, rest);
        if r.None? {
          return false, q;
        }
        bal := r.value;
      }
      if fee > 0 {
        var r := Transfer(bal, token, This, cfg.feeRecipient.value, fee);
        if r.None? {
          return false, q;
        }
        bal := r.value;
      }
      q := q.(bal := bal);
    }

    /** Pays out what the contract holds of one token, less the reward pool in the case of
        the base token. */
    method PayOut(ghost s: State, token: Address, to: Address, reinvest: bool, p: Payout) returns (ok: bool, q: Payout)
      requires p.bal == bal && View() == s.(bal := bal)
      modifies `bal
      ensures ok ==> q.bal == bal && PayToken(s, p, token, to, reinvest) == Some(q)
      ensures !ok ==> PayToken(s, p, token, to, reinvest) == None
    {
      q, ok := p, true;
      var pot := Bal(bal, token, This);
      if token == cfg.base {
        pot := pot - rewards.pool;
        q := q.(recorded := pot);
      }
      if pot > 0 {
        var fee := if feeBps > 0 && cfg.feeRecipient.Some? then (pot * feeBps) / BPS else 0;
        assert fee == FeeOn(s, pot);
        ok, q := PayOutPot(s, token, to, reinvest, q, pot, fee);
      }
    }

    method PayOutAll(to: Address, reinvest: bool) returns (ok: bool, p: Payout)
      modifies `bal
      ensures ok ==> p.bal == bal && PayTokens(old(View()), group.approved, to, reinvest) == Some(p)
      ensures !ok ==> PayTokens(old(View()), group.approved, to, reinvest) == None
    {
      ghost var s := View();
      p := Payout(bal, 0, 0);
      for i := 0 to |group.approved|
        invariant p.bal == bal && PayTokens(s, group.approved[..i], to, reinvest) == Some(p)
      {
        PayTokensStep(s, group.approved, to, reinvest, i);
        ok, p := PayOut(s, group.approved[i], to, reinvest, p);
        if !ok {
          PayTokensTraps(s, group.approved, to, reinvest, i + 1);
          return;
        }
      }
      assert group.approved[..|group.approved|] == group.approved;
      ok := true;
    }

    method ResetRoundState(e: Env)
      modifies `number, `paid, `contributions, `deadline, `tsDeadline
      ensures View() == old(View()).(round := ResetRound(cfg, old(View()).round, e))
    {
      number := number + 1;
      paid := [];
      contributions := map[];
      deadline := e.now + cfg.duration;
      if cfg.byTimestamp {
        tsDeadline := e.now + cfg.tsDuration;
      }
    }

    /** On a trap part of the payout may have happened: the caller rolls back. */
    method CompleteRoundPayout(e: Env) returns (ok: bool)
      modifies `bal, `history, `number, `paid, `contributions, `deadline, `tsDeadline, `rewards
      ensures ok ==> CompleteRound(old(View()), e) == Some(View())
      ensures !ok ==> CompleteRound(old(View()), e) == None
    {
      var to := SelectRecipient();
      if to.None? {
        return false;
      }
      var reinvest := to.value in standing.reinvesting;
      var p;
      ok, p := PayOutAll(to.value, reinvest);
      if !ok {
        return;
      }
      history := history + [PayoutRecord(to.value, p.recorded)];
      ResetRoundState(e);
      if reinvest && p.reinvested > 0 {
        OpenWithReinvestment(to.value, p.reinvested);
      }
    }

    method OpenWithReinvestment(m: Address, amount: int)
      modifies `paid, `contributions, `rewards
      ensures View() == Reinvest(old(View()), m, amount)
    {
      contributions := contributions[m := amount];
      if amount >= Required(cfg, group, m) {
        if m !in paid {
          paid := paid + [m];
        }
        rewards := Participate(rewards, m);
      }
    }

    // --- Contributions ---

    /** Takes an installment in and puts it on record. On a trap the token may have moved:
        the caller rolls back. */
    method TakeInstallment(who: Address, token: Address, amount: int) returns (ok: bool)
      modifies `bal, `contributions, `paid, `rewards
      ensures ok ==> Model.TakeInstallment(old(View()), who, token, amount) == Some(View())
      ensures !ok ==> Model.TakeInstallment(old(View()), who, token, amount) == None
    {
      var moved := TransferAmount(View(), token, amount);
      if moved.None? || (token in group.limits && moved.value > group.limits[token]) {
        return false;
      }
      ok := Collect(who, token, amount, moved.value, Required(cfg, group, who));
    }

    method Collect(who: Address, token: Address, amount: int, moved: int, required: int) returns (ok: bool)
      modifies `bal, `contributions, `paid, `rewards
      ensures ok ==> Model.Collect(old(View()), who, token, amount, moved, required) == Some(View())
      ensures !ok ==> Model.Collect(old(View()), who, token, amount, moved, required) == None
    {
      var r := Transfer(bal, token, who, This, moved);
      if r.None? {
        return false;
      }
      bal := r.value;
      var total := (if who in contributions then contributions[who] else 0) + amount;
      if total > required || (total == required && cfg.goal == Some(0)) {
        return false;
      }
      Record(who, total, total == required);
      ok := true;
    }

    method Contribute(e: Env, who: Address, token: Address, amount: int) returns (ok: bool)
      modifies `number, `paid, `contributions, `deadline, `tsDeadline, `standing, `rewards, `history, `bal
      ensures Outcome(Model.Contribute(old(View()), e, who, token, amount), old(View()), ok, View())
    {
      var saved := View();
      if pausedAt.Some? || !e.Authorised(who) || amount <= 0 || e.now > ActiveDeadline(saved)
         || who in group.exited || who !in group.members || who in paid || token !in group.approved {
        return false;
      }
      ok := TakeInstallment(who, token, amount);
      if !ok {
        Rollback(saved);
        return;
      }
      ghost var installed := View();
      assert Model.Contribute(saved, e, who, token, amount)
             == if who in installed.round.paid && |installed.round.paid| == |saved.group.members|
                then CompleteRound(installed, e) else Some(installed);
      if who in paid && |paid| == |group.members| {
        ok := CompleteRoundPayout(e);
        if !ok {
          Rollback(saved);
        }
      }
    }

    method Record(who: Address, total: int, full: bool)
      modifies `contributions, `paid, `rewards
      ensures View() == Installed(old(View()), who, bal, total, full)
    {
      contributions := contributions[who := total];
      if full {
        paid := paid + [who];
        rewards := Participate(rewards, who);
      }
    }

    method RequestSkip(e: Env, m: Address, round: nat) returns (ok: bool)
      modifies `bal, `standing
      ensures Outcome(Model.RequestSkip(old(View()), e, m, round), old(View()), ok, View())
    {
      if pausedAt.Some? || !e.Authorised(m) || round < number || (round == number && e.now > ActiveDeadline(View()))
         || m !in group.members || (m, round) in standing.skips || (round == number && m in paid) || group.order == [] {
        return false;
      }
      ok := TakeSkip(m, round, round / |group.order|);
    }

    method TakeSkip(m: Address, round: nat, cycle: nat) returns (ok: bool)
      modifies `bal, `standing
      ensures Outcome(Model.TakeSkip(old(View()), m, round, cycle), old(View()), ok, View())
    {
      var used := if (m, cycle) in standing.skipCounts then standing.skipCounts[(m, cycle)] else 0;
      if used >= cfg.maxSkips {
        return false;
      }
      if cfg.skipFee > 0 {
        var r := Transfer(bal, cfg.base, m, This, cfg.skipFee);
        if r.None? {
          return false;
        }
        bal := r.value;
      }
      standing := standing.(skips := standing.skips + {(m, round)},
                            skipCounts := standing.skipCounts[(m, cycle) := used + 1]);
      ok := true;
    }

    // --- Closing a round ---

    method FindDefaulters() returns (found: seq<Address>)
      ensures found == Defaulters(View(), group.members)
    {
      found := [];
      for i := 0 to |group.members|
        invariant found == Defaulters(View(), group.members[..i])
      {
        assert group.members[..i + 1][..i] == group.members[..i];
        var m := group.members[i];
        if m !in paid && m !in group.exited && (m, number) !in standing.skips {
          found := found + [m];
        }
      }
      assert group.members[..|group.members|] == group.members;
    }

    method CloseRound(e: Env) returns (ok: bool)
      modifies `number, `paid, `contributions, `deadline, `tsDeadline, `standing
      ensures Outcome(Model.CloseRound(old(View()), e), old(View()), ok, View())
    {
      if pausedAt.Some? || !e.Authorised(group.admin) || e.now <= ActiveDeadline(View()) {
        return false;
      }
      var defaulters := FindDefaulters();
      standing := standing.(defaulters := defaulters);
      ResetRoundState(e);
      ok := true;
    }

    method NoteDefaults(who: seq<Address>)
      modifies `standing
      ensures View() == old(View()).(standing := RecordDefaults(old(standing), who, cfg.maxDefaults))
    {
      for i := 0 to |who|
        invariant standing == RecordDefaults(old(standing), who[..i], cfg.maxDefaults)
      {
        assert who[..i + 1][..i] == who[..i];
        NoteDefault(who[i]);
      }
      assert who[..|who|] == who;
    }

    method NoteDefault(m: Address)
      modifies `standing
      ensures standing == RecordDefault(old(standing), m, cfg.maxDefaults)
    {
      var count := (if m in standing.defaults then standing.defaults[m] else 0) + 1;
      standing := standing.(defaults := standing.defaults[m := count]);
      if count >= cfg.maxDefaults && m !in standing.suspended {
        standing := standing.(suspended := standing.suspended + [m]);
      }
    }

    method FinalizeRound(e: Env) returns (ok: bool)
      modifies `number, `paid, `contributions, `deadline, `tsDeadline, `standing, `rewards, `history, `bal
      ensures Outcome(Model.FinalizeRound(old(View()), e), old(View()), ok, View())
    {
      var saved := View();
      if pausedAt.Some? || !e.Authorised(group.admin) || e.now <= ActiveDeadline(saved) {
        return false;
      }
      var defaulters := FindDefaulters();
      standing := standing.(defaulters := defaulters);
      assert View() == saved.(standing := saved.standing.(defaulters := Defaulters(saved, saved.group.members)));
      ok := CompleteRoundPayout(e);
      if !ok {
        Rollback(saved);
        return;
      }
      NoteDefaults(defaulters);
    }

    method Penalise(e: Env, m: Address) returns (ok: bool)
      modifies `bal, `standing
      ensures Outcome(Model.Penalise(old(View()), e, m), old(View()), ok, View())
    {
      if pausedAt.Some? || !e.Authorised(group.admin) || cfg.penalty == 0 || m !in standing.defaulters
         || !e.Authorised(m) {
        return false;
      }
      var r := Transfer(bal, cfg.base, m, This, cfg.penalty);
      if r.None? {
        return false;
      }
      bal := r.value;
      NoteDefault(m);
      ok := true;
    }

    // --- Rewards ---

    method DepositRewards(e: Env, from: Address, amount: int) returns (ok: bool)
      modifies `bal, `rewards
      ensures Outcome(Model.DepositRewards(old(View()), e, from, amount), old(View()), ok, View())
    {
      if pausedAt.Some? || !e.Authorised(from) {
        return false;
      }
      var r := Transfer(bal, cfg.base, from, This, amount);
      if r.None? {
        return false;
      }
      bal := r.value;
      rewards := rewards.(pool := rewards.pool + amount);
      ok := true;
    }

    /** Adds up the reward weights, in whatever order the map yields them. */
    method SumWeights() returns (total: nat)
      ensures total == TotalWeight(rewards.weights)
    {
      total := 0;
      var rest := rewards.weights;
      ghost var part: map<Address, int> := map m | m in rest :: rest[m] as int;
      while rest != map[]
        invariant part == map m | m in rest :: rest[m] as int
        invariant total + SumMap(part) == TotalWeight(rewards.weights)
        decreases |rest|
      {
        var m: Address :| m in rest;
        SumWithout(part, m);
        total := total + rest[m];
        part := part - {m};
        assert (rest - {m}).Keys == rest.Keys - {m} && rest.Keys - {m} < rest.Keys;
        rest := rest - {m};
      }
      assert part == map[];
    }

    method GetClaimable(m: Address) returns (amount: int)
      ensures amount == Claimable(View(), m)
    {
      if m !in group.members || rewards.pool == 0 {
        return 0;
      }
      var share;
      match rewards.dist {
        case Equal =>
          share := rewards.pool / |group.members|;
        case Proportional =>
          if rewards.participations == 0 {
            share := 0;
          } else {
            var count := if m in rewards.participation then rewards.participation[m] else 0;
            share := (rewards.pool * count) / rewards.participations;
          }
        case Weighted =>
          var total := SumWeights();
          if total == 0 {
            share := rewards.pool / |group.members|;
          } else {
            var weight := if m in rewards.weights then rewards.weights[m] else 0;
            share := (rewards.pool * weight) / total;
          }
      }
      amount := share - if m in rewards.claimed then rewards.claimed[m] else 0;
    }

    method ClaimRewards(e: Env, m: Address) returns (ok: bool)
      modifies `number, `paid, `contributions, `deadline, `tsDeadline, `standing, `rewards, `history, `bal
      ensures Outcome(Model.ClaimRewards(old(View()), e, m), old(View()), ok, View())
    {
      if pausedAt.Some? || !e.Authorised(m) {
        return false;
      }
      var saved := View();
      var amount := GetClaimable(m);
      if amount <= 0 {
        return false;
      }
      var claimed := if m in rewards.claimed then rewards.claimed[m] else 0;
      rewards := rewards.(claimed := rewards.claimed[m := claimed + amount]);
      var r := Transfer(bal, cfg.base, This, m, amount);
      ok := r.Some?;
      if ok {
        bal := r.value;
      } else {
        Rollback(saved);
      }
    }

    // --- Preferences, fee and pause ---

    method SetReinvest(e: Env, m: Address, on: bool) returns (ok: bool)
      modifies `standing
      ensures Outcome(Model.SetReinvest(old(View()), e, m, on), old(View()), ok, View())
    {
      if pausedAt.Some? || !e.Authorised(m) || m !in group.members || e.now > ActiveDeadline(View()) {
        return false;
      }
      standing := standing.(reinvesting := if on then standing.reinvesting + {m} else standing.reinvesting - {m});
      ok := true;
    }

    method UpdateFee(e: Env, bps: nat) returns (ok: bool)
      modifies `feeBps
      ensures Outcome(Model.UpdateFee(old(View()), e, bps), old(View()), ok, View())
    {
      if pausedAt.Some? || !e.Authorised(group.admin) || bps > MAX_FEE {
        return false;
      }
      feeBps := bps;
      ok := true;
    }

    method Pause(e: Env) returns (ok: bool)
      modifies `pausedAt
      ensures Outcome(Model.Pause(old(View()), e), old(View()), ok, View())
    {
      if !e.Authorised(group.admin) || pausedAt.Some? {
        return false;
      }
      pausedAt := Some(e.now);
      ok := true;
    }

    method Resume(e: Env) returns (ok: bool)
      modifies `pausedAt, `deadline, `tsDeadline
      ensures Outcome(Model.Resume(old(View()), e), old(View()), ok, View())
    {
      if !e.Authorised(group.admin) || pausedAt.None? || e.now < pausedAt.value {
        return false;
      }
      var length := e.now - pausedAt.value;
      if deadline > 0 {
        deadline := deadline + length;
      }
      if tsDeadline > 0 {
        tsDeadline := tsDeadline + length;
      }
      pausedAt := None;
      ok := true;
    }

    // --- Governance ---

    method CreateProposal(e: Env, creator: Address, kind: ProposalKind, target: Address, duration: nat,
                          data: Option<int>)
      returns (ok: bool)
      modifies `gov
      ensures Outcome(Model.CreateProposal(old(View()), e, creator, kind, target, duration, data), old(View()), ok,
                      View())
    {
      if pausedAt.Some? || !e.Authorised(creator) || creator !in group.members {
        return false;
      }
      var quorum := QuorumFor(gov, kind);
      Propose(Proposal(kind, target, 0, 0, e.now + duration, Pending, data, quorum));
      ok := true;
    }

    method Propose(p: Proposal)
      modifies `gov
      ensures View() == Model.Propose(old(View()), p)
    {
      var id := gov.counter;
      gov := gov.(counter := id + 1, proposals := gov.proposals[id := p], votes := gov.votes[id := map[]]);
    }

    /** Counts in those who delegate to the voter and are not on record yet, in whatever
        order the delegations are listed. */
    method CountDelegators(voter: Address, support: bool, own: map<Address, bool>)
      returns (votes: map<Address, bool>, weight: int)
      ensures var carried := Carried(gov.delegations, own, voter);
              votes == WithVotes(own, carried, support) && weight == CarriedWeight(View(), carried)
    {
      ghost var s := View();
      var rest := gov.delegations.Keys;
      votes, weight := own, 0;
      NoneCounted(s, own, voter, support);
      while rest != {}
        invariant rest <= gov.delegations.Keys
        invariant Counted(s, own, voter, support, rest, votes, weight)
        decreases |rest|
      {
        var d: Address :| d in rest;
        CountOneMore(s, own, voter, support, rest, votes, weight, d);
        if gov.delegations[d] == voter && d !in votes {
          weight := weight + VoteWeight(View(), d);
          votes := votes[d := support];
        }
        rest := rest - {d};
      }
      AllCounted(s, own, voter, support, votes, weight);
    }

    method Vote(e: Env, voter: Address, id: nat, support: bool) returns (ok: bool)
      modifies `gov
      ensures Outcome(Model.Vote(old(View()), e, voter, id, support), old(View()), ok, View())
    {
      if pausedAt.Some? || !e.Authorised(voter) || voter !in group.members || voter in gov.delegations
         || id !in gov.proposals {
        return false;
      }
      var proposal := gov.proposals[id];
      if e.now > proposal.deadline || proposal.status != Pending {
        return false;
      }
      var own := if id in gov.votes then gov.votes[id] else map[];
      if voter in own {
        return false;
      }
      if cfg.weightedVotes && VoteWeight(View(), voter) == 0 {
        return false;
      }
      Cast(voter, id, support, own[voter := support]);
      ok := true;
    }

    method Cast(voter: Address, id: nat, support: bool, own: map<Address, bool>)
      requires id in gov.proposals
      modifies `gov
      ensures View() == Model.Cast(old(View()), voter, id, support, own)
    {
      var votes, carried := CountDelegators(voter, support, own);
      BookVotes(id, support, votes, VoteWeight(View(), voter) + carried);
    }

    method BookVotes(id: nat, support: bool, votes: map<Address, bool>, weight: int)
      requires id in gov.proposals
      modifies `gov
      ensures View() == Model.BookVotes(old(View()), id, support, votes, weight)
    {
      var proposal := gov.proposals[id];
      if support {
        proposal := proposal.(votesFor := proposal.votesFor + weight);
      } else {
        proposal := proposal.(votesAgainst := proposal.votesAgainst + weight);
      }
      gov := gov.(votes := gov.votes[id := votes], proposals := gov.proposals[id := proposal]);
    }

    method CountPossibleVotes() returns (total: int)
      ensures total == PossibleVotes(View())
    {
      if !cfg.weightedVotes {
        return |group.members|;
      }
      total := 0;
      for i := 0 to |group.members|
        invariant total == SumOver(group.members[..i], contributions)
      {
        assert group.members[..i + 1][..i] == group.members[..i];
        total := total + if group.members[i] in contributions then contributions[group.members[i]] else 0;
      }
      assert group.members[..|group.members|] == group.members;
    }

    /** Copies a list, leaving one address out. */
    static method Filter(q: seq<Address>, x: Address) returns (r: seq<Address>)
      ensures r == Without(q, x)
    {
      r := [];
      for i := 0 to |q|
        invariant r == Without(q[..i], x)
      {
        assert q[..i + 1][..i] == q[..i];
        if q[i] != x {
          r := r + [q[i]];
        }
      }
      assert q[..|q|] == q;
    }

    method EnactProposal(p: Proposal)
      modifies `standing, `group, `gov
      ensures View() == Enact(old(View()), p)
    {
      match p.kind {
        case PenaltyAppeal =>
          var suspended := Filter(standing.suspended, p.target);
          standing := standing.(defaults := standing.defaults[p.target := 0], suspended := suspended);
        case RuleChange =>
          if p.data.Some? && p.data.value >= 1 && p.data.value <= 100 {
            gov := gov.(quorumPercent := p.data.value);
          }
        case MemberRemoval =>
          var members := Filter(group.members, p.target);
          group := group.(members := members);
          var order := Filter(group.order, p.target);
          group := group.(order := order);
        case MaxMembersUpdate =>
          if p.data.Some? {
            var limit := p.data.value % (U32_MAX + 1);
            if limit >= 1 && limit <= MAX_GROUP && limit >= |group.members| {
              gov := gov.(maxMembers := limit);
            }
          }
      }
    }

    method Execute(e: Env, id: nat) returns (ok: bool)
      modifies `standing, `group, `gov
      ensures Outcome(Model.Execute(old(View()), e, id), old(View()), ok, View())
    {
      if pausedAt.Some? || id !in gov.proposals {
        return false;
      }
      var proposal := gov.proposals[id];
      if proposal.status != Pending || e.now <= proposal.deadline {
        return false;
      }
      var total := proposal.votesFor + proposal.votesAgainst;
      var possible := CountPossibleVotes();
      var needed := (possible * proposal.quorum + 9999) / BPS;
      var outcome := Rejected;
      if total >= needed && proposal.votesFor > proposal.votesAgainst {
        EnactProposal(proposal);
        outcome := Executed;
      }
      gov := gov.(proposals := gov.proposals[id := proposal.(status := outcome)]);
      ok := true;
    }

    method Delegate(e: Env, from: Address, to: Address) returns (ok: bool)
      modifies `gov
      ensures Outcome(Model.Delegate(old(View()), e, from, to), old(View()), ok, View())
    {
      if pausedAt.Some? || !e.Authorised(from) || from !in group.members || to !in group.members
         || to in gov.delegations {
        return false;
      }
      gov := gov.(delegations := gov.delegations[from := to]);
      ok := true;
    }

    method Revoke(e: Env, from: Address) returns (ok: bool)
      modifies `gov
      ensures Outcome(Model.Revoke(old(View()), e, from), old(View()), ok, View())
    {
      if pausedAt.Some? || !e.Authorised(from) || from !in gov.delegations {
        return false;
      }
      gov := gov.(delegations := gov.delegations - {from});
      ok := true;
    }
  }

  lemma PayTokensStep(s: State, tokens: seq<Address>, to: Address, reinvest: bool, i: nat)
    requires i < |tokens| && PayTokens(s, tokens[..i], to, reinvest).Some?
    ensures PayTokens(s, tokens[..i + 1], to, reinvest)
            == PayToken(s, PayTokens(s, tokens[..i], to, reinvest).value, tokens[i], to, reinvest)
  {
    assert tokens[..i + 1][..i] == tokens[..i];
  }

  /** A payout with a trapping prefix traps. */
  lemma {:induction false} PayTokensTraps(s: State, tokens: seq<Address>, to: Address, reinvest: bool, k: nat)
    requires k <= |tokens| && PayTokens(s, tokens[..k], to, reinvest) == None
    ensures PayTokens(s, tokens, to, reinvest) == None
    decreases |tokens| - k
  {
    if k == |tokens| {
      assert tokens[..k] == tokens;
    } else {
      assert tokens[..k + 1][..k] == tokens[..k];
      PayTokensTraps(s, tokens, to, reinvest, k + 1);
    }
  }

  // --- Counting delegators one by one ---

  /** All who delegate to the voter are counted, except those in `rest`. */
  ghost predicate Counted(s: State, own: map<Address, bool>, voter: Address, support: bool, rest: set<Address>,
                          votes: map<Address, bool>, weight: int)
  {
    var done := Carried(s.gov.delegations, own, voter) - rest;
    votes == WithVotes(own, done, support) && weight == CarriedWeight(s, done)
  }

  lemma NoneCounted(s: State, own: map<Address, bool>, voter: Address, support: bool)
    ensures Counted(s, own, voter, support, s.gov.delegations.Keys, own, 0)
  {
    var done := Carried(s.gov.delegations, own, voter) - s.gov.delegations.Keys;
    assert done == {};
    assert WithVotes(own, done, support) == own;
    assert (map d | d in done :: VoteWeight(s, d)) == map[];
  }

  lemma AllCounted(s: State, own: map<Address, bool>, voter: Address, support: bool, votes: map<Address, bool>,
                   weight: int)
    requires Counted(s, own, voter, support, {}, votes, weight)
    ensures var carried := Carried(s.gov.delegations, own, voter);
            votes == WithVotes(own, carried, support) && weight == CarriedWeight(s, carried)
  {
    assert Carried(s.gov.delegations, own, voter) - {} == Carried(s.gov.delegations, own, voter);
  }

  lemma CountOneMore(s: State, own: map<Address, bool>, voter: Address, support: bool, rest: set<Address>,
                     votes: map<Address, bool>, weight: int, d: Address)
    requires Counted(s, own, voter, support, rest, votes, weight) && d in rest && rest <= s.gov.delegations.Keys
    ensures var counts := s.gov.delegations[d] == voter && d !in votes;
            Counted(s, own, voter, support, rest - {d}, if counts then votes[d := support] else votes,
                    if counts then weight + VoteWeight(s, d) else weight)
  {
    var carried := Carried(s.gov.delegations, own, voter);
    var done := carried - rest;
    assert d in votes <==> d in own;
    if d in carried {
      assert carried - (rest - {d}) == done + {d};
      CarryOneMore(s, done, d);
      OneMoreVote(own, done, d, support);
    } else {
      assert carried - (rest - {d}) == done;
    }
  }

  lemma OneMoreVote(own: map<Address, bool>, added: set<Address>, d: Address, support: bool)
    ensures WithVotes(own, added, support)[d := support] == WithVotes(own, added + {d}, support)
  {
  }

  lemma CarryOneMore(s: State, done: set<Address>, d: Address)
    requires d !in done
    ensures CarriedWeight(s, done + {d}) == CarriedWeight(s, done) + VoteWeight(s, d)
  {
    var before := map x | x in done :: VoteWeight(s, x);
    SumUpdate(before, d, VoteWeight(s, d));
    assert before[d := VoteWeight(s, d)] == map x | x in done + {d} :: VoteWeight(s, x);
  }
}
