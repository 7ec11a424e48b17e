/**
 The fate of scheduled payments: until it is due the customer can take one back, from then
 until it expires anybody can have it executed, and one that nobody did either with is
 locked in the contract for good.
 */
module PaymentsSchedule {
  import opened Common
  import opened Ledger
  import opened Sums
  import opened PaymentsModel
  import opened PaymentsVolume
  import opened PaymentsSafety

  /** There is a time at which the payment is due and has not expired. */
  predicate Executable(p: Payment) {
    p.expiresAt == 0 || p.executeAfter < p.expiresAt
  }

  /** Due, and expired. */
  predicate Missed(p: Payment, now: nat) {
    p.executeAfter <= now && 0 < p.expiresAt <= now
  }

  /** Payment `id` is on record as the scheduled payment `p`. */
  ghost predicate Scheduled(s: State, id: nat, p: Payment) {
    id in s.payments && id < s.counter && s.payments[id] == p && p.status == ScheduledPending
  }

  /** Every call of the run comes at or after `time`. */
  predicate NotBefore(run: Run, time: nat) {
    forall i :: 0 <= i < |run| ==> time <= run[i].0.now
  }

  /** Time and ledger sequence never go back, from `now` and `sequence` on. */
  ghost predicate Onward(now: nat, sequence: nat, run: Run)
    decreases |run|
  {
    run == []
    || (now <= run[0].0.now && sequence <= run[0].0.sequence && Onward(run[0].0.now, run[0].0.sequence, run[1..]))
  }

  lemma {:induction false} OnwardNotBefore(now: nat, sequence: nat, run: Run, time: nat)
    requires Onward(now, sequence, run) && time <= now
    ensures NotBefore(run, time)
    decreases |run|
  {
    if run != [] {
      OnwardNotBefore(run[0].0.now, run[0].0.sequence, run[1..], time);
      forall i | 0 <= i < |run| ensures time <= run[i].0.now {
        if i > 0 {
          assert run[i] == run[1..][i - 1];
        }
      }
    }
  }

  // --- Nothing moves it ---

  lemma CompleteLeaves(s: State, e: Env, c: Call, id: nat, p: Payment)
    requires Scheduled(s, id, p) && Missed(p, e.now) && Completes(c) && Step(s, e, c).Some?
    ensures Scheduled(Step(s, e, c).value, id, p)
  {
    var q := s.payments[c.id];
    CompleteRecords(s, e, c.id, q, Share(q.amount, FeeRate(s, e, q)));
  }

  lemma ExitLeaves(s: State, e: Env, c: Call, id: nat, p: Payment)
    requires Scheduled(s, id, p) && p.executeAfter <= e.now && ChangesOne(c) && Step(s, e, c).Some?
    ensures Scheduled(Step(s, e, c).value, id, p)
  {
  }

  lemma OtherLeaves(s: State, e: Env, c: Call, id: nat, p: Payment)
    requires Scheduled(s, id, p) && !Creates(c) && !Completes(c) && !ChangesOne(c) && Step(s, e, c).Some?
    ensures Scheduled(Step(s, e, c).value, id, p)
  {
  }

  lemma StepLeaves(s: State, e: Env, c: Call, id: nat, p: Payment)
    requires Scheduled(s, id, p) && Missed(p, e.now)
    ensures Scheduled(Next(s, e, c), id, p)
  {
    if Step(s, e, c).Some? {
      if Creates(c) {
        CreateLater(s, e, c, id);
      } else if Completes(c) {
        CompleteLeaves(s, e, c, id, p);
      } else if ChangesOne(c) {
        ExitLeaves(s, e, c, id, p);
      } else {
        OtherLeaves(s, e, c, id, p);
      }
    }
  }

  /** Once a scheduled payment is due and has expired, no run changes it. */
  lemma {:induction false} LockedForGood(s: State, run: Run, id: nat, p: Payment, now: nat)
    requires Scheduled(s, id, p) && Missed(p, now) && NotBefore(run, now)
    ensures Scheduled(Exec(s, run), id, p)
    decreases |run|
  {
    if run != [] {
      StepLeaves(s, run[0].0, run[0].1, id, p);
      LockedForGood(Next(s, run[0].0, run[0].1), run[1..], id, p, now);
    }
  }

  // --- Otherwise it can be moved ---

  lemma {:induction false} SharesPayable(bal: Balances, token: Address, net: nat, splits: seq<(Address, nat)>, k: nat)
    requires k <= |splits| && Bal(bal, token, This) >= Distributed(net, splits, k)
    ensures PayShares(bal, token, net, splits, k).Some?
  {
    if k > 0 {
      ShareNonNegative(net, splits[k - 1].1);
      SharesPayable(bal, token, net, splits, k - 1);
      SharesReceived(bal, token, net, splits, k - 1);
      ReceiptsNotNegative(net, splits, k - 1, This);
    }
  }

  lemma NetPayable(bal: Balances, p: Payment, net: nat)
    requires ValidSplits(p.splits) && Bal(bal, p.token, This) >= net
    ensures Distribute(bal, p, net).Some?
  {
    if p.splits.Some? {
      var splits := p.splits.value;
      DustBounded(net, splits);
      SharesPayable(bal, p.token, net, splits, |splits|);
      SharesReceived(bal, p.token, net, splits, |splits|);
      ReceiptsNotNegative(net, splits, |splits|, This);
    }
  }

  lemma CompletePayable(s: State, e: Env, id: nat, p: Payment, fee: int)
    requires ValidSplits(p.splits) && 0 <= fee <= p.amount && Bal(s.bal, p.token, This) >= p.amount
    ensures Complete(s, e, id, p, fee).Some?
  {
    var b1 := PayPositive(s.bal, p.token, s.policy.feeRecipient, fee).value;
    NetPayable(b1, p, p.amount - fee);
  }

  /** A scheduled payment is executed exactly from the time it is due until it expires, given
      that the contract is not paused and holds the amount. */
  lemma ExecutedWhenDue(s: State, e: Env, id: nat, p: Payment)
    requires Sound(s) && Scheduled(s, id, p) && !s.policy.paused && Bal(s.bal, p.token, This) >= p.amount
    ensures ExecuteScheduled(s, e, id).Some? <==> p.executeAfter <= e.now && (p.expiresAt == 0 || e.now < p.expiresAt)
    ensures ExecuteScheduled(s, e, id).Some? ==>
              id in ExecuteScheduled(s, e, id).value.payments
              && ExecuteScheduled(s, e, id).value.payments[id].status == Completed
  {
    FeeCharged(s, e, p);
    var fee := Share(p.amount, FeeRate(s, e, p));
    CompletePayable(s, e, id, p, fee);
    CompleteRecords(s, e, id, p, fee);
  }

  /** The admin unpauses, and somebody brings the contract the amount. */
  lemma MadeReady(s: State, e: Env, p: Payment) returns (c0: Call, s1: State, c1: Call, s2: State)
    ensures Step(s, e, c0) == Some(s1) && Step(s1, e, c1) == Some(s2)
    ensures s2 == s.(policy := s2.policy, bal := s2.bal) && !s2.policy.paused && Bal(s2.bal, p.token, This) >= p.amount
  {
    var held := Bal(s.bal, p.token, This);
    var bal := SetBal(s.bal, p.token, This, if held >= p.amount then held else p.amount);
    c0, s1 := AdministerCall(s.policy.(paused := false)), s.(policy := s.policy.(paused := false));
    c1, s2 := OutsideCall(bal), s1.(bal := bal);
  }

  lemma ThreeCalls(s: State, e: Env, c0: Call, s1: State, c1: Call, s2: State, c2: Call, u: State) returns (run: Run)
    requires Step(s, e, c0) == Some(s1) && Step(s1, e, c1) == Some(s2) && u == Next(s2, e, c2)
    ensures Exec(s, run) == u && Onward(e.now, e.sequence, run)
  {
    var last, both := [(e, c2)], [(e, c1), (e, c2)];
    run := [(e, c0), (e, c1), (e, c2)];
    assert run[1..] == both && both[1..] == last && last[1..] == [];
    assert Exec(s2, last) == u;
    assert Exec(s1, both) == Exec(s2, last);
    assert Onward(e.now, e.sequence, last) && Onward(e.now, e.sequence, both);
  }

  /** Before it is due, its customer takes it back. */
  lemma CancelledStep(s: State, e: Env, id: nat, p: Payment, u: State)
    requires Sound(s) && Scheduled(s, id, p) && !s.policy.paused && Bal(s.bal, p.token, This) >= p.amount
    requires e.now < p.executeAfter && p.customer in e.signers && u == Next(s, e, CancelScheduledCall(p.customer, id))
    ensures id in u.payments && u.payments[id].status == Refunded
  {
    assert CancelScheduled(s, e, p.customer, id) == GiveBack(s, id, p, Refunded);
  }

  lemma ExecutedStep(s: State, e: Env, id: nat, p: Payment, u: State)
    requires Sound(s) && Scheduled(s, id, p) && !s.policy.paused && Bal(s.bal, p.token, This) >= p.amount
    requires p.executeAfter <= e.now && !Missed(p, e.now) && u == Next(s, e, ExecuteScheduledCall(id))
    ensures id in u.payments && u.payments[id].status == Completed
  {
    ExecutedWhenDue(s, e, id, p);
  }

  lemma MovedInRun(s: State, id: nat, p: Payment, now: nat, sequence: nat) returns (run: Run)
    requires Sound(s) && Scheduled(s, id, p) && !Missed(p, now)
    ensures Onward(now, sequence, run) && !Scheduled(Exec(s, run), id, p)
  {
    var e := Env(now, sequence, {p.customer});
    var c0, s1, c1, s2 := MadeReady(s, e, p);
    var c2 := if now < p.executeAfter then CancelScheduledCall(p.customer, id) else ExecuteScheduledCall(id);
    var u := Next(s2, e, c2);
    if now < p.executeAfter {
      CancelledStep(s2, e, id, p, u);
    } else {
      ExecutedStep(s2, e, id, p, u);
    }
    run := ThreeCalls(s, e, c0, s1, c1, s2, c2, u);
  }

  ghost predicate Moves(s: State, now: nat, sequence: nat, run: Run, id: nat, p: Payment) {
    Onward(now, sequence, run) && !Scheduled(Exec(s, run), id, p)
  }

  /** In every reachable state and at any time: some run from then on moves a scheduled
      payment if and only if it is not yet due, or has not expired. */
  lemma LockedExactlyWhenMissed(admin: Address, recipient: Address, feeBps: nat, bal: Balances, before: Run, s: State,
                                now: nat, sequence: nat, id: nat, p: Payment)
    requires Init(admin, recipient, feeBps, bal).Some? && s == Exec(Init(admin, recipient, feeBps, bal).value, before)
    requires id in s.payments && s.payments[id] == p && p.status == ScheduledPending
    ensures (exists run :: Moves(s, now, sequence, run, id, p))
            <==> now < p.executeAfter || p.expiresAt == 0 || now < p.expiresAt
  {
    RunSound(Init(admin, recipient, feeBps, bal).value, before);
    if !Missed(p, now) {
      var run := MovedInRun(s, id, p, now, sequence);
      assert Moves(s, now, sequence, run, id, p);
    } else {
      forall run ensures !Moves(s, now, sequence, run, id, p) {
        if Onward(now, sequence, run) {
          OnwardNotBefore(now, sequence, run, now);
          LockedForGood(s, run, id, p, now);
        }
      }
    }
  }

  /** A payment that is never executable can only be taken back: once due, it is locked. */
  lemma NeverExecutable(s: State, run: Run, id: nat, p: Payment)
    requires Scheduled(s, id, p) && !Executable(p) && NotBefore(run, p.executeAfter)
    ensures Scheduled(Exec(s, run), id, p)
  {
    LockedForGood(s, run, id, p, p.executeAfter);
  }

  /** What a caller can check when creating it: the payment is due before it expires if and
      only if it is due within the timeout. */
  lemma LockedFromCreation(s: State, e: Env, who: Address, r: Request, splits: Splits, executeAfter: nat,
                           key: Option<nat>, u: State, id: nat)
    requires Create(s, e, who, r, splits, executeAfter, key) == Some((u, id)) && executeAfter > e.now
    requires key.Some? ==> !KeyLive(s.keys, key.value, e.sequence)
    ensures id in u.payments && u.payments[id].status == ScheduledPending
    ensures Executable(u.payments[id]) <==> executeAfter < e.now + s.policy.timeout || e.now + s.policy.timeout == 0
  {
    var usage := EnforceRateLimit(s.limit, s.usage, e.sequence, who, 1).value;
    assert id == s.counter;
    assert u.payments == s.payments[id := NewPayment(s.(usage := usage), e, who, r, splits, executeAfter)];
  }
}
