/**
 Pauses do not eat into the time members have to contribute: the deadline of a round
 moves back by exactly the time the group has been paused since the round began.
 */
module RoscaSchedule {
  import opened Common
  import opened Ledger
  import opened RoscaModel

  /** When the round in progress began and how long the group has been paused since, not
      counting a pause that is still going on. No part of the contract's state. */
  datatype Clock = Clock(start: nat, paused: nat)

  ghost function Tick(s: State, clock: Clock, e: Env, c: Call): Clock {
    var u := Next(s, e, c);
    if u.round.number != s.round.number then Clock(e.now, 0)
    else if s.pausedAt.Some? && u.pausedAt.None?
         then clock.(paused := clock.paused + SaturatingSub(e.now, s.pausedAt.value))
    else clock
  }

  ghost function ClockAfter(s: State, clock: Clock, run: Run): Clock
    decreases |run|
  {
    if run == [] then clock
    else ClockAfter(Next(s, run[0].0, run[0].1), Tick(s, clock, run[0].0, run[0].1), run[1..])
  }

  /** How long members have, unpaused, under the schedule in force. */
  function Duration(cfg: Config): nat {
    if cfg.byTimestamp then cfg.tsDuration else cfg.duration
  }

  /** Where a deadline stands; one that began as zero counts as absent and stays. */
  function Window(clock: Clock, duration: nat): nat {
    if clock.start + duration > 0 then clock.start + duration + clock.paused else 0
  }

  predicate OnSchedule(s: State, clock: Clock) {
    && s.round.deadline == Window(clock, s.cfg.duration)
    && (s.cfg.byTimestamp ==> s.round.tsDeadline == Window(clock, s.cfg.tsDuration))
  }

  /** The round has moved on to the next, or its number and deadlines are as they were. */
  predicate RoundMoved(s: State, u: State, e: Env) {
    && u.cfg == s.cfg && u.pausedAt == s.pausedAt
    && if u.round.number == s.round.number
       then u.round.deadline == s.round.deadline && u.round.tsDeadline == s.round.tsDeadline
       else OnSchedule(u, Clock(e.now, 0))
  }

  lemma CompleteRoundMoves(s: State, e: Env)
    requires CompleteRound(s, e).Some?
    ensures var u := CompleteRound(s, e).value;
            RoundMoved(s, u, e) && u.round.number == s.round.number + 1
  {
  }

  lemma ContributeMoves(s: State, e: Env, who: Address, token: Address, amount: int)
    requires Contribute(s, e, who, token, amount).Some?
    ensures RoundMoved(s, Contribute(s, e, who, token, amount).value, e)
  {
    var installed := ContributeUnfolds(s, e, who, token, amount);
    if CompleteRound(installed, e).Some? {
      CompleteRoundMoves(installed, e);
    }
  }

  lemma FinalizeMoves(s: State, e: Env)
    requires FinalizeRound(s, e).Some?
    ensures RoundMoved(s, FinalizeRound(s, e).value, e)
  {
    CompleteRoundMoves(s.(standing := s.standing.(defaulters := Defaulters(s, s.group.members))), e);
  }

  lemma OtherMoves(s: State, e: Env, c: Call)
    requires !c.ContributeCall? && !c.FinalizeRoundCall? && !c.PauseCall? && !c.ResumeCall? && Step(s, e, c).Some?
    ensures RoundMoved(s, Step(s, e, c).value, e)
  {
  }

  lemma StepKeepsSchedule(s: State, clock: Clock, e: Env, c: Call)
    requires OnSchedule(s, clock)
    ensures OnSchedule(Next(s, e, c), Tick(s, clock, e, c)) && Next(s, e, c).cfg == s.cfg
  {
    if Step(s, e, c).Some? {
      if c.ContributeCall? {
        ContributeMoves(s, e, c.who, c.token, c.amount);
      } else if c.FinalizeRoundCall? {
        FinalizeMoves(s, e);
      } else if !c.PauseCall? && !c.ResumeCall? {
        OtherMoves(s, e, c);
      }
    }
  }

  lemma {:induction false} RunKeepsSchedule(s: State, clock: Clock, run: Run)
    requires OnSchedule(s, clock)
    ensures OnSchedule(Exec(s, run), ClockAfter(s, clock, run)) && Exec(s, run).cfg == s.cfg
    decreases |run|
  {
    if run != [] {
      StepKeepsSchedule(s, clock, run[0].0, run[0].1);
      RunKeepsSchedule(Next(s, run[0].0, run[0].1), Tick(s, clock, run[0].0, run[0].1), run[1..]);
    }
  }

  /** In every reachable state the deadline in force is the round's start plus the full
      duration plus the time paused since, if and only if the round did not begin with a
      zero deadline, at ledger time zero with no duration, or was not paused. */
  lemma PausePreservesWindow(e: Env, cfg: Config, members: seq<Address>, order: Option<seq<Address>>, feeBps: nat,
                             maxMembers: nat, bal: Balances, run: Run)
    requires Init(e, cfg, members, order, feeBps, maxMembers, bal).Some?
    ensures var s0 := Init(e, cfg, members, order, feeBps, maxMembers, bal).value;
            var s, clock := Exec(s0, run), ClockAfter(s0, Clock(e.now, 0), run);
            && s.cfg == cfg
            && (ActiveDeadline(s) == clock.start + Duration(cfg) + clock.paused
                <==> clock.start + Duration(cfg) > 0 || clock.paused == 0)
  {
    RunKeepsSchedule(Init(e, cfg, members, order, feeBps, maxMembers, bal).value, Clock(e.now, 0), run);
  }

  /** So, with a schedule that gives members any time at all, a payment is late exactly
      when more than the full duration has passed unpaused. */
  lemma FullDurationUnpaused(e: Env, cfg: Config, members: seq<Address>, order: Option<seq<Address>>, feeBps: nat,
                             maxMembers: nat, bal: Balances, run: Run, now: nat)
    requires Init(e, cfg, members, order, feeBps, maxMembers, bal).Some? && Duration(cfg) > 0
    ensures var s0 := Init(e, cfg, members, order, feeBps, maxMembers, bal).value;
            var s, clock := Exec(s0, run), ClockAfter(s0, Clock(e.now, 0), run);
            now > ActiveDeadline(s) <==> now - clock.start - clock.paused > Duration(cfg)
  {
    PausePreservesWindow(e, cfg, members, order, feeBps, maxMembers, bal, run);
  }

  /** A group opened at ledger time zero with no time to contribute is the exception: a
      pause leaves its deadline where it was. */
  lemma ZeroDeadlineStays(s: State, admin: Env, later: Env)
    requires OnSchedule(s, Clock(0, 0)) && s.pausedAt.None? && Duration(s.cfg) == 0
    requires admin.Authorised(s.group.admin) && later.Authorised(s.group.admin) && admin.now < later.now
    ensures var run := [(admin, PauseCall), (later, ResumeCall)];
            && ClockAfter(s, Clock(0, 0), run) == Clock(0, later.now - admin.now)
            && ActiveDeadline(Exec(s, run)) == 0
  {
    var clock := Clock(0, 0);
    var run := [(admin, PauseCall), (later, ResumeCall)];
    var mid := Next(s, admin, PauseCall);
    var last := Next(mid, later, ResumeCall);
    assert run[1..] == [(later, ResumeCall)] && run[1..][1..] == [];
    assert Exec(s, run) == Exec(mid, run[1..]) == Exec(last, []);
    var ticked := Tick(mid, clock, later, ResumeCall);
    assert ticked == Clock(0, later.now - admin.now);
    assert ClockAfter(mid, clock, run[1..]) == ClockAfter(last, ticked, []) == ticked;
    assert Tick(s, clock, admin, PauseCall) == clock;
    assert ClockAfter(s, clock, run) == ClockAfter(mid, clock, run[1..]);
  }
}
