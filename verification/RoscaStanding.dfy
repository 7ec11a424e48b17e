/**
 Suspension is exact: in every reachable state the suspended are those with as many
 defaults as are tolerated, each listed once.
 */
module RoscaStanding {
  import opened Common
  import opened Ledger
  import opened Sums
  import opened RoscaModel

  ghost predicate Exact(st: Standing, max: nat) {
    && NoDup(st.suspended)
    && forall m :: m in st.suspended <==> Count(st.defaults, m) >= max
  }

  lemma RecordDefaultKeeps(st: Standing, m: Address, max: nat)
    requires max >= 1 && Exact(st, max)
    ensures Exact(RecordDefault(st, m, max), max)
  {
  }

  /** Recording a list of defaults counts each occurrence, touches nothing else and keeps
      suspension exact. */
  lemma {:induction false} RecordDefaultsKeep(st: Standing, who: seq<Address>, max: nat)
    requires max >= 1 && Exact(st, max)
    ensures var r := RecordDefaults(st, who, max);
            && Exact(r, max)
            && (forall m :: Count(r.defaults, m) == Count(st.defaults, m) + multiset(who)[m])
            && r == st.(defaults := r.defaults, suspended := r.suspended)
  {
    if who != [] {
      var n := |who| - 1;
      RecordDefaultsKeep(st, who[..n], max);
      RecordDefaultKeeps(RecordDefaults(st, who[..n], max), who[n], max);
      assert who == who[..n] + [who[n]];
      assert multiset(who) == multiset(who[..n]) + multiset{who[n]};
    }
  }

  /** Owed the round a payment and did not make it. */
  predicate Missed(s: State, m: Address) {
    m !in s.round.paid && m !in s.group.exited && (m, s.round.number) !in s.standing.skips
  }

  /** The defaulters of a round are the members who missed it, each as often as it is listed. */
  lemma {:induction false} DefaultersExact(s: State, members: seq<Address>)
    ensures forall m :: multiset(Defaulters(s, members))[m] == if Missed(s, m) then multiset(members)[m] else 0
  {
    if members != [] {
      var n := |members| - 1;
      DefaultersExact(s, members[..n]);
      assert members == members[..n] + [members[n]];
    }
  }

  /** Finalising a round costs each member who missed it one default for every time it is
      listed, which is once unless the group was set up with duplicates, and nobody else any. */
  lemma FinalizeCounts(s: State, e: Env, m: Address)
    requires s.cfg.maxDefaults >= 1 && Exact(s.standing, s.cfg.maxDefaults) && FinalizeRound(s, e).Some?
    ensures var u := FinalizeRound(s, e).value;
            && Count(u.standing.defaults, m)
               == Count(s.standing.defaults, m) + (if Missed(s, m) then multiset(s.group.members)[m] else 0)
            && (m in u.standing.defaulters <==> m in s.group.members && Missed(s, m))
            && Exact(u.standing, s.cfg.maxDefaults)
  {
    var defaulters := Defaulters(s, s.group.members);
    DefaultersExact(s, s.group.members);
    FinalizeStanding(s, e);
    RecordDefaultsKeep(s.standing.(defaulters := defaulters), defaulters, s.cfg.maxDefaults);
    assert m in defaulters <==> multiset(defaulters)[m] > 0;
    assert m in s.group.members <==> multiset(s.group.members)[m] > 0;
  }

  lemma CompleteRoundStanding(s: State, e: Env)
    requires CompleteRound(s, e).Some?
    ensures CompleteRound(s, e).value.standing == s.standing && CompleteRound(s, e).value.cfg == s.cfg
  {
  }

  lemma FinalizeStanding(s: State, e: Env)
    requires FinalizeRound(s, e).Some?
    ensures var u := FinalizeRound(s, e).value;
            var defaulters := Defaulters(s, s.group.members);
            && u.cfg == s.cfg
            && u.standing == RecordDefaults(s.standing.(defaulters := defaulters), defaulters, s.cfg.maxDefaults)
  {
    var s1 := s.(standing := s.standing.(defaulters := Defaulters(s, s.group.members)));
    CompleteRoundStanding(s1, e);
  }

  predicate SameStanding(s: State, u: State) {
    u.cfg == s.cfg && u.standing.defaults == s.standing.defaults && u.standing.suspended == s.standing.suspended
  }

  lemma ContributeSameStanding(s: State, e: Env, who: Address, token: Address, amount: int)
    requires Contribute(s, e, who, token, amount).Some?
    ensures SameStanding(s, Contribute(s, e, who, token, amount).value)
  {
    var installed := ContributeUnfolds(s, e, who, token, amount);
    if CompleteRound(installed, e).Some? {
      CompleteRoundStanding(installed, e);
    }
  }

  lemma ExecuteKeeps(s: State, e: Env, id: nat)
    requires s.cfg.maxDefaults >= 1 && Exact(s.standing, s.cfg.maxDefaults) && Execute(s, e, id).Some?
    ensures Exact(Execute(s, e, id).value.standing, s.cfg.maxDefaults) && Execute(s, e, id).value.cfg == s.cfg
  {
    var p := s.gov.proposals[id];
    var u := if Passes(s, p) then Enact(s, p) else s;
    assert Execute(s, e, id).value.standing == u.standing;
  }

  predicate TouchesStanding(c: Call) {
    c.ContributeCall? || c.FinalizeRoundCall? || c.PenaliseCall? || c.ExecuteCall?
  }

  lemma OtherSameStanding(s: State, e: Env, c: Call)
    requires !TouchesStanding(c) && Step(s, e, c).Some?
    ensures SameStanding(s, Step(s, e, c).value)
  {
  }

  lemma StepKeepsExact(s: State, e: Env, c: Call)
    requires s.cfg.maxDefaults >= 1 && Exact(s.standing, s.cfg.maxDefaults)
    ensures Exact(Next(s, e, c).standing, s.cfg.maxDefaults) && Next(s, e, c).cfg == s.cfg
  {
    if Step(s, e, c).Some? {
      if c.ContributeCall? {
        ContributeSameStanding(s, e, c.who, c.token, c.amount);
      } else if c.FinalizeRoundCall? {
        var defaulters := Defaulters(s, s.group.members);
        FinalizeStanding(s, e);
        RecordDefaultsKeep(s.standing.(defaulters := defaulters), defaulters, s.cfg.maxDefaults);
      } else if c.PenaliseCall? {
        RecordDefaultKeeps(s.standing, c.who, s.cfg.maxDefaults);
      } else if c.ExecuteCall? {
        ExecuteKeeps(s, e, c.id);
      } else {
        OtherSameStanding(s, e, c);
      }
    }
  }

  lemma {:induction false} RunKeepsExact(s: State, run: Run)
    requires s.cfg.maxDefaults >= 1 && Exact(s.standing, s.cfg.maxDefaults)
    ensures Exact(Exec(s, run).standing, s.cfg.maxDefaults) && Exec(s, run).cfg == s.cfg
    decreases |run|
  {
    if run != [] {
      StepKeepsExact(s, run[0].0, run[0].1);
      RunKeepsExact(Next(s, run[0].0, run[0].1), run[1..]);
    }
  }

  /** In every state a deployed group can reach, through rounds finalised, penalties and
      appeals alike, a member is suspended exactly when it has used up its defaults. */
  lemma SuspensionExact(e: Env, cfg: Config, members: seq<Address>, order: Option<seq<Address>>, feeBps: nat,
                        maxMembers: nat, bal: Balances, run: Run)
    requires Init(e, cfg, members, order, feeBps, maxMembers, bal).Some?
    ensures var s := Exec(Init(e, cfg, members, order, feeBps, maxMembers, bal).value, run);
            && NoDup(s.standing.suspended)
            && forall m :: m in s.standing.suspended <==> Count(s.standing.defaults, m) >= cfg.maxDefaults
  {
    RunKeepsExact(Init(e, cfg, members, order, feeBps, maxMembers, bal).value, run);
  }
}
