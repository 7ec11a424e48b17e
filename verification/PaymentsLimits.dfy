/**
 The fixed-window rate limiter over whole runs: how many payments any span of ledgers of
 the window's length can admit.
 */
module PaymentsLimits {
  import opened Common
  import opened Ledger
  import opened PaymentsModel
  import opened PaymentsVolume

  /** Who creates payments by this call. */
  function Creator(c: Call): Option<Address> {
    match c
    case CreateCall(who, _, _, _, _) => Some(who)
    case CreateBatchCall(who, _) => Some(who)
    case CreateMultiTokenCall(who, _, _, _, _, _) => Some(who)
    case _ => None
  }

  /** How many payments of `who` come into being by the call. */
  ghost function Created(s: State, e: Env, c: Call, who: Address): int {
    if Creator(c) == Some(who) then Next(s, e, c).counter - s.counter else 0
  }

  /** How many payments of `who` a run creates at ledgers from `lo` up to `hi`. */
  ghost function Admitted(s: State, run: Run, who: Address, lo: nat, hi: nat): int
    decreases |run|
  {
    if run == [] then 0
    else
      var e, c := run[0].0, run[0].1;
      (if lo <= e.sequence < hi then Created(s, e, c, who) else 0) + Admitted(Next(s, e, c), run[1..], who, lo, hi)
  }

  /** The ledger sequence never goes back, and the limit is not reconfigured. */
  ghost predicate Steady(from: nat, run: Run)
    decreases |run|
  {
    run == [] || (from <= run[0].0.sequence && !run[0].1.UpdateRateLimitCall? && Steady(run[0].0.sequence, run[1..]))
  }

  /** A recorded window has admitted something. */
  ghost predicate UsageInv(usage: map<Address, Usage>) {
    forall a :: a in usage ==> usage[a].count >= 1
  }

  /** The configured limit and window are never zero. */
  predicate LimitInv(limit: RateLimit) {
    limit.maxPayments >= 1 && limit.window >= 1
  }

  predicate SameUsage(usage: map<Address, Usage>, usage': map<Address, Usage>, who: Address) {
    (who in usage' <==> who in usage) && (who in usage ==> usage'[who] == usage[who])
  }

  /** A call leaves a customer's window alone or counts what it creates against it. */
  lemma StepUsage(s: State, e: Env, c: Call, who: Address)
    requires UsageInv(s.usage)
    ensures var u := Next(s, e, c);
            && Counts(s, e, u, who, Created(s, e, c, who)) && (LimitInv(s.limit) ==> LimitInv(u.limit))
            && (!c.UpdateRateLimitCall? ==> u.limit == s.limit)
  {
    if Step(s, e, c).Some? {
      if Creator(c).Some? {
        CreatorUsage(s, e, c, Step(s, e, c).value, who);
      } else {
        OtherUsage(s, e, c);
      }
    }
  }

  /** `u` has `n` payments more, counted against the window of `who`. */
  ghost predicate Counts(s: State, e: Env, u: State, who: Address, n: int) {
    && UsageInv(u.usage) && n >= 0
    && if n == 0 then SameUsage(s.usage, u.usage, who)
       else var counted := EnforceRateLimit(s.limit, s.usage, e.sequence, who, n);
            counted.Some? && who in counted.value && who in u.usage && u.usage[who] == counted.value[who]
  }

  lemma CountedUsage(s: State, e: Env, u: State, customer: Address, n: int, who: Address)
    requires UsageInv(s.usage) && n >= 0
    requires if n == 0 then u.usage == s.usage
             else EnforceRateLimit(s.limit, s.usage, e.sequence, customer, n) == Some(u.usage)
    ensures Counts(s, e, u, who, if customer == who then n else 0)
  {
  }

  lemma CreatorUsage(s: State, e: Env, c: Call, u: State, who: Address)
    requires UsageInv(s.usage) && Creator(c).Some? && Step(s, e, c) == Some(u)
    ensures Counts(s, e, u, who, if Creator(c) == Some(who) then u.counter - s.counter else 0) && u.limit == s.limit
  {
    if c.CreateCall? {
      CreateUsage(s, e, c);
    } else if c.CreateBatchCall? {
      BatchUsage(s, e, c);
    } else {
      MultiTokenUsage(s, e, c);
    }
    CountedUsage(s, e, u, c.who, u.counter - s.counter, who);
  }

  lemma CreateUsage(s: State, e: Env, c: Call)
    requires c.CreateCall? && Step(s, e, c).Some?
    ensures var u := Step(s, e, c).value;
            && u.limit == s.limit
            && if u.counter == s.counter then u.usage == s.usage
               else u.counter == s.counter + 1
                    && EnforceRateLimit(s.limit, s.usage, e.sequence, c.who, 1) == Some(u.usage)
  {
  }

  lemma BatchUsage(s: State, e: Env, c: Call)
    requires c.CreateBatchCall? && Step(s, e, c).Some?
    ensures var u := Step(s, e, c).value;
            && u.limit == s.limit && c.batch != [] && u.counter == s.counter + |c.batch|
            && EnforceRateLimit(s.limit, s.usage, e.sequence, c.who, |c.batch|) == Some(u.usage)
  {
  }

  lemma MultiTokenUsage(s: State, e: Env, c: Call)
    requires c.CreateMultiTokenCall? && Step(s, e, c).Some?
    ensures var u := Step(s, e, c).value;
            && u.limit == s.limit && u.counter == s.counter + 1
            && EnforceRateLimit(s.limit, s.usage, e.sequence, c.who, 1) == Some(u.usage)
  {
  }

  lemma OtherUsage(s: State, e: Env, c: Call)
    requires Creator(c).None? && Step(s, e, c).Some?
    ensures var u := Step(s, e, c).value;
            && u.usage == s.usage && u.counter == s.counter
            && if c.UpdateRateLimitCall? then LimitInv(u.limit) else u.limit == s.limit
  {
    if Completes(c) {
      CompleteUsage(s, e, c);
    } else if Exits(c) {
      ExitFrame(s, e, c);
    } else {
      ConfigureFrame(s, e, c);
    }
  }

  lemma CompleteUsage(s: State, e: Env, c: Call)
    requires Completes(c) && Step(s, e, c).Some?
    ensures var u := Step(s, e, c).value; u.usage == s.usage && u.counter == s.counter && u.limit == s.limit
  {
  }

  /** What has been admitted to the span that starts at `lo` so far, `a`, against the
      window on record: less than the window's count if the window began before the span,
      and otherwise less than a full window more. */
  predicate WithinWindows(a: int, usage: map<Address, Usage>, who: Address, max: nat, lo: nat) {
    if who !in usage then a == 0
    else if usage[who].start < lo then a < max && a < usage[who].count
    else a < max + usage[who].count && a < 2 * max
  }

  lemma AdmitWithin(a: int, limit: RateLimit, usage: map<Address, Usage>, who: Address, sequence: nat, n: nat, lo: nat)
    requires LimitInv(limit) && limit.maxPayments < U32_MAX && n >= 1 && UsageInv(usage)
    requires WithinWindows(a, usage, who, limit.maxPayments, lo) && sequence < lo + limit.window && a >= 0
    requires sequence < lo ==> a == 0
    requires EnforceRateLimit(limit, usage, sequence, who, n).Some?
    ensures WithinWindows(if lo <= sequence then a + n else a, EnforceRateLimit(limit, usage, sequence, who, n).value,
                          who, limit.maxPayments, lo)
  {
  }

  /** Limit and window are these, and valid. */
  ghost predicate Limits(s: State, limit: RateLimit) {
    s.limit == limit && LimitInv(limit) && limit.maxPayments < U32_MAX && UsageInv(s.usage)
  }

  /** One call, with `a` admitted to the span before it and `b` after it. */
  lemma SpanStep(s: State, e: Env, u: State, who: Address, n: int, lo: nat, a: int, b: int, limit: RateLimit)
    requires Limits(s, limit) && Counts(s, e, u, who, n)
    requires 0 <= a < 2 * limit.maxPayments && (e.sequence < lo ==> a == 0)
    requires e.sequence < lo + limit.window ==> WithinWindows(a, s.usage, who, limit.maxPayments, lo)
    requires b == if lo <= e.sequence < lo + limit.window then a + n else a
    ensures 0 <= b < 2 * limit.maxPayments
    ensures e.sequence < lo + limit.window ==> WithinWindows(b, u.usage, who, limit.maxPayments, lo)
  {
    if n > 0 && e.sequence < lo + limit.window {
      AdmitWithin(a, limit, s.usage, who, e.sequence, n, lo);
    }
  }

  lemma LimitsStay(s: State, e: Env, c: Call, who: Address, limit: RateLimit, u: State, n: int)
    requires Limits(s, limit) && !c.UpdateRateLimitCall? && u == Next(s, e, c) && n == Created(s, e, c, who)
    ensures Limits(u, limit) && Counts(s, e, u, who, n)
  {
    StepUsage(s, e, c, who);
  }

  lemma {:induction false} SpanBound(s: State, run: Run, who: Address, lo: nat, hi: nat, from: nat, a: int,
                                     limit: RateLimit)
    requires Limits(s, limit) && Steady(from, run) && hi == lo + limit.window
    requires 0 <= a < 2 * limit.maxPayments && (from < lo ==> a == 0)
    requires from < hi ==> WithinWindows(a, s.usage, who, limit.maxPayments, lo)
    ensures a + Admitted(s, run, who, lo, hi) < 2 * limit.maxPayments
    decreases |run|
  {
    if run != [] {
      var e, c := run[0].0, run[0].1;
      var n, u := Created(s, e, c, who), Next(s, e, c);
      var b := if lo <= e.sequence < hi then a + n else a;
      LimitsStay(s, e, c, who, limit, u, n);
      SpanStep(s, e, u, who, n, lo, a, b, limit);
      SpanBound(u, run[1..], who, lo, hi, e.sequence, b, limit);
    }
  }

  lemma {:induction false} RunKeepsUsage(s: State, run: Run)
    requires UsageInv(s.usage) && LimitInv(s.limit)
    ensures UsageInv(Exec(s, run).usage) && LimitInv(Exec(s, run).limit)
    decreases |run|
  {
    if run != [] {
      StepUsage(s, run[0].0, run[0].1, This);
      RunKeepsUsage(Next(s, run[0].0, run[0].1), run[1..]);
    }
  }

  lemma SoundAfter(admin: Address, recipient: Address, feeBps: nat, bal: Balances, before: Run, s0: State, s: State)
    requires Init(admin, recipient, feeBps, bal) == Some(s0) && s == Exec(s0, before)
    ensures UsageInv(s.usage) && LimitInv(s.limit)
  {
    RunKeepsUsage(s0, before);
  }

  lemma SpanUnder(s: State, run: Run, who: Address, lo: nat, hi: nat, from: nat, limit: RateLimit)
    requires Limits(s, limit) && Steady(from, run) && hi == lo + limit.window
    ensures Admitted(s, run, who, lo, hi) < 2 * limit.maxPayments
  {
    if from < hi {
      assert WithinWindows(0, s.usage, who, limit.maxPayments, lo);
    }
    SpanBound(s, run, who, lo, hi, from, 0, limit);
  }

  lemma SpanBounded(s: State, run: Run, who: Address, lo: nat, from: nat)
    requires UsageInv(s.usage) && LimitInv(s.limit) && s.limit.maxPayments < U32_MAX && Steady(from, run)
    ensures Admitted(s, run, who, lo, lo + s.limit.window) < 2 * s.limit.maxPayments
  {
    SpanUnder(s, run, who, lo, lo + s.limit.window, from, s.limit);
  }

  /** After any history, and while the configuration stays the same, any span of ledgers as
      long as the window admits fewer than twice the limit, batches counted by size. The
      first window was opened by a payment before the span, so even twice is not reached. */
  lemma AnySpanBounded(admin: Address, recipient: Address, feeBps: nat, bal: Balances, before: Run, s0: State, s: State,
                       run: Run, who: Address, lo: nat, from: nat)
    requires Init(admin, recipient, feeBps, bal) == Some(s0) && s == Exec(s0, before)
    requires s.limit.maxPayments < U32_MAX && Steady(from, run)
    ensures Admitted(s, run, who, lo, lo + s.limit.window) < 2 * s.limit.maxPayments
  {
    SoundAfter(admin, recipient, feeBps, bal, before, s0, s);
    SpanBounded(s, run, who, lo, from);
  }

  /** The limiter ever refuses a payment if and only if the limit is below the largest 32-bit
      number: at that number the count saturates at the limit and everything is admitted. */
  lemma RefusesOnlyBelowMaximum(limit: RateLimit)
    ensures (exists usage, sequence, who, n: nat :: EnforceRateLimit(limit, usage, sequence, who, n).None?)
            <==> limit.maxPayments < U32_MAX
  {
    if limit.maxPayments < U32_MAX {
      assert EnforceRateLimit(limit, map[], 0, This, U32_MAX).None?;
    }
  }

  // --- The bound is met ---

  /** `n` payments of one unit. */
  function Units(merchant: Address, token: Address, n: nat): (batch: seq<Request>)
    ensures |batch| == n && forall i :: 0 <= i < n ==> batch[i] == Request(merchant, 1, token, Labels(None, None))
  {
    seq(n, _ => Request(merchant, 1, token, Labels(None, None)))
  }

  lemma UnitAccepted(s: State, e: Env, who: Address, r: Request)
    requires s.policy.openMode && who != This && r == Request(r.merchant, 1, r.token, Labels(None, None))
    requires Bal(s.bal, r.token, who) >= 1
    ensures var u := Accept(s, e, who, r, None, 0);
            u.Some? && Bal(u.value.bal, r.token, who) == Bal(s.bal, r.token, who) - 1
  {
  }

  lemma {:induction false} UnitsAccepted(s: State, e: Env, who: Address, merchant: Address, token: Address, n: nat)
    requires s.policy.openMode && who != This && Bal(s.bal, token, who) >= n
    ensures var u := AcceptAll(s, e, who, Units(merchant, token, n));
            u.Some? && Bal(u.value.bal, token, who) == Bal(s.bal, token, who) - n
  {
    if n > 0 {
      UnitsAccepted(s, e, who, merchant, token, n - 1);
      assert Units(merchant, token, n)[..n - 1] == Units(merchant, token, n - 1);
      UnitAccepted(AcceptAll(s, e, who, Units(merchant, token, n - 1)).value, e, who, Units(merchant, token, n)[n - 1]);
    }
  }

  /** Nothing stands in the way of batches but the limiter. */
  predicate Ready(s: State, who: Address, token: Address, units: nat) {
    !s.policy.paused && s.policy.openMode && s.policy.maxBatch >= s.limit.maxPayments && who != This
    && Bal(s.bal, token, who) >= units
  }

  /** A batch that the limiter lets through is taken. */
  lemma BatchAdmitted(s: State, who: Address, merchant: Address, token: Address, n: nat, sequence: nat, left: nat)
    returns (e: Env, c: Call, u: State)
    requires Ready(s, who, token, n + left) && n <= s.limit.maxPayments
    requires EnforceRateLimit(s.limit, s.usage, sequence, who, n).Some?
    ensures e.sequence == sequence && !c.UpdateRateLimitCall?
    ensures u == Next(s, e, c) && Created(s, e, c, who) == n
    ensures && Some(u.usage) == EnforceRateLimit(s.limit, s.usage, sequence, who, n)
            && u.limit == s.limit && Ready(u, who, token, left)
  {
    e, c := Env(0, sequence, {who}), CreateBatchCall(who, Units(merchant, token, n));
    u := Next(s, e, c);
    if n > 0 {
      var usage := EnforceRateLimit(s.limit, s.usage, sequence, who, n).value;
      UnitsAccepted(s.(usage := usage), e, who, merchant, token, n);
      assert Step(s, e, c) == AcceptAll(s.(usage := usage), e, who, Units(merchant, token, n));
    }
  }

  /** The limiter lets a burst through: one payment, the rest of the window, a full window. */
  lemma BurstWithinLimit(limit: RateLimit, who: Address, max: nat, window: nat)
    requires limit == RateLimit(max, window) && 1 <= max < U32_MAX && window >= 1
    ensures EnforceRateLimit(limit, map[], 0, who, 1) == Some(map[who := Usage(1, 0)])
    ensures EnforceRateLimit(limit, map[who := Usage(1, 0)], window - 1, who, max - 1)
            == Some(map[who := Usage(max, 0)])
    ensures EnforceRateLimit(limit, map[who := Usage(max, 0)], window, who, max).Some?
  {
    var first := map[who := Usage(1, 0)];
    assert map[][who := Usage(1, 0)] == first && first[who := Usage(max, 0)] == map[who := Usage(max, 0)];
  }

  /** A call before the span and two in it. */
  lemma LastTwoAdmitted(s: State, e0: Env, c0: Call, s1: State, e1: Env, c1: Call, s2: State, e2: Env, c2: Call,
                        who: Address, lo: nat, hi: nat, total: int) returns (run: Run)
    requires s1 == Next(s, e0, c0) && s2 == Next(s1, e1, c1)
    requires e0.sequence < lo <= e1.sequence <= e2.sequence < hi
    requires !c0.UpdateRateLimitCall? && !c1.UpdateRateLimitCall? && !c2.UpdateRateLimitCall?
    requires total == Created(s1, e1, c1, who) + Created(s2, e2, c2, who)
    ensures Steady(0, run) && Admitted(s, run, who, lo, hi) == total
  {
    var last, both := [(e2, c2)], [(e1, c1), (e2, c2)];
    run := [(e0, c0), (e1, c1), (e2, c2)];
    assert run[1..] == both && both[1..] == last && last[1..] == [];
    assert Steady(e2.sequence, []) && Steady(e1.sequence, last) && Steady(e0.sequence, both);
    assert Admitted(Next(s2, e2, c2), [], who, lo, hi) == 0;
    assert Admitted(s2, last, who, lo, hi) == Created(s2, e2, c2, who);
    assert Admitted(s1, both, who, lo, hi) == Created(s1, e1, c1, who) + Created(s2, e2, c2, who);
  }

  /** The burst, call by call. */
  lemma BurstCalls(s: State, max: nat, window: nat, who: Address, merchant: Address, token: Address)
    returns (e0: Env, c0: Call, s1: State, e1: Env, c1: Call, s2: State, e2: Env, c2: Call)
    requires s.limit == RateLimit(max, window) && 1 <= max < U32_MAX && window >= 2 && s.usage == map[]
    requires Ready(s, who, token, 2 * max)
    ensures s1 == Next(s, e0, c0) && s2 == Next(s1, e1, c1)
    ensures e0.sequence == 0 && e1.sequence == window - 1 && e2.sequence == window
    ensures !c0.UpdateRateLimitCall? && !c1.UpdateRateLimitCall? && !c2.UpdateRateLimitCall?
    ensures Created(s1, e1, c1, who) == max - 1 && Created(s2, e2, c2, who) == max
  {
    BurstWithinLimit(s.limit, who, max, window);
    e0, c0, s1 := BatchAdmitted(s, who, merchant, token, 1, 0, 2 * max - 1);
    e1, c1, s2 := BatchAdmitted(s1, who, merchant, token, max - 1, window - 1, max);
    var s3;
    e2, c2, s3 := BatchAdmitted(s2, who, merchant, token, max, window, 0);
  }

  /** One payment opens a window, the rest of it comes at its last ledger and a full window
      at the next. */
  lemma Burst(s: State, max: nat, window: nat, who: Address, merchant: Address, token: Address, lo: nat, hi: nat,
              total: int) returns (run: Run)
    requires s.limit == RateLimit(max, window) && 1 <= max < U32_MAX && window >= 2 && s.usage == map[]
    requires Ready(s, who, token, 2 * max) && lo == window - 1 && hi == lo + window && total == 2 * max - 1
    ensures Steady(0, run) && Admitted(s, run, who, lo, hi) == total
  {
    var e0, c0, s1, e1, c1, s2, e2, c2 := BurstCalls(s, max, window, who, merchant, token);
    run := LastTwoAdmitted(s, e0, c0, s1, e1, c1, s2, e2, c2, who, lo, hi, total);
  }

  /** What the admin configures before: the limit, and a batch size that is no obstacle. */
  function Setup(admin: Address, policy: Policy, limit: RateLimit): Run {
    var e := Env(0, 0, {admin});
    [(e, UpdateRateLimitCall(admin, limit)), (e, AdministerCall(policy.(maxBatch := limit.maxPayments)))]
  }

  lemma SetUp(s: State, admin: Address, limit: RateLimit)
    requires !s.policy.paused && s.policy.admin == admin && admin != This && limit.maxPayments >= 1 && limit.window >= 1
    ensures Exec(s, Setup(admin, s.policy, limit))
            == s.(limit := limit, policy := s.policy.(maxBatch := limit.maxPayments))
  {
    var e, run := Env(0, 0, {admin}), Setup(admin, s.policy, limit);
    var s1 := Next(s, e, UpdateRateLimitCall(admin, limit));
    assert s1 == s.(limit := limit);
    assert run[1..] == [run[1]] && run[1..][1..] == [];
    assert Exec(s1, run[1..]) == Next(s1, e, run[1].1);
  }

  lemma ReadyAfterSetup(s0: State, admin: Address, limit: RateLimit, s: State, who: Address, token: Address)
    requires !s0.policy.paused && s0.policy.openMode && s0.policy.admin == admin && admin != This && who != This
    requires limit.maxPayments >= 1 && limit.window >= 1 && Bal(s0.bal, token, who) >= 2 * limit.maxPayments
    requires s == Exec(s0, Setup(admin, s0.policy, limit))
    ensures Ready(s, who, token, 2 * limit.maxPayments) && s.limit == limit && s.usage == s0.usage
  {
    SetUp(s0, admin, limit);
  }

  /** The bound is exact: under every limit and every window of at least two ledgers, some
      run from deployment has one less than twice the limit created in one span. */
  lemma BoundReached(admin: Address, recipient: Address, bal: Balances, limit: RateLimit, who: Address,
                     merchant: Address, token: Address, s0: State, s: State) returns (run: Run)
    requires 1 <= limit.maxPayments < U32_MAX && limit.window >= 2 && admin != This && who != This
    requires Bal(bal, token, who) >= 2 * limit.maxPayments && Init(admin, recipient, 0, bal) == Some(s0)
    requires s == Exec(s0, Setup(admin, s0.policy, limit))
    ensures s.limit == limit && Steady(0, run)
    ensures Admitted(s, run, who, limit.window - 1, limit.window - 1 + limit.window) == 2 * limit.maxPayments - 1
  {
    ReadyAfterSetup(s0, admin, limit, s, who, token);
    run := BurstUnder(s, limit, who, merchant, token);
  }

  lemma BurstUnder(s: State, limit: RateLimit, who: Address, merchant: Address, token: Address) returns (run: Run)
    requires s.limit == limit && 1 <= limit.maxPayments < U32_MAX && limit.window >= 2 && s.usage == map[]
    requires Ready(s, who, token, 2 * limit.maxPayments)
    ensures Steady(0, run)
    ensures Admitted(s, run, who, limit.window - 1, limit.window - 1 + limit.window) == 2 * limit.maxPayments - 1
  {
    var lo := limit.window - 1;
    run := Burst(s, limit.maxPayments, limit.window, who, merchant, token, lo, lo + limit.window,
                 2 * limit.maxPayments - 1);
  }
}
