/**
 Two properties of runs of the escrow contract that are not about money: renewal
 chains are bounded, and the arbiter pool is served in turn.
 */
module EscrowChains {
  import opened Common
  import opened Sums
  import opened EscrowModel
  import opened EscrowSafety

  // --- Renewal chains ---

  /** The call releases escrow `tip` and renews it. */
  ghost predicate Renews(s: State, e: Env, c: Call, tip: nat) {
    c.ReleaseCall? && c.id == tip && Step(s, e, c).Some? && Step(s, e, c).value.counter > s.counter
  }

  /** How often the chain that now ends in `tip` is renewed during a run. */
  ghost function Renewals(s: State, run: Run, tip: nat): nat
    decreases |run|
  {
    if run == [] then 0
    else
      var e, c := run[0].0, run[0].1;
      if Renews(s, e, c, tip) then 1 + Renewals(Next(s, e, c), run[1..], s.counter)
      else Renewals(Next(s, e, c), run[1..], tip)
  }

  /** One link: the successor is a new escrow with the same parties, the amount just
      released and the same duration; one renewal and one allowance are used up. */
  lemma RenewalLink(s: State, e: Env, c: Call, tip: nat)
    requires Inv(s) && Renews(s, e, c, tip)
    ensures var u, x := Next(s, e, c), s.escrows[tip];
            && s.counter !in s.escrows && s.counter in u.escrows && u.escrows[tip].status == Released
            && var y := u.escrows[s.counter];
               && y.status == Active && y.amount == x.amount && y.token == x.token
               && y.buyer == x.buyer && y.sellers == x.sellers && y.arbiter == x.arbiter
               && y.deadline - y.createdAt == x.deadline - x.createdAt > 0
               && y.autoRenew && y.renewalCount == x.renewalCount
               && (x.renewalCount > 0 ==> y.renewalsRemaining == x.renewalsRemaining - 1)
               && Allowance(u, s.counter) == Allowance(s, tip) - 1
  {
    var t := ReleaseFunds(s, e, c.caller, tip).value;
    ReleaseFundsFrame(s, e, c.caller, tip);
  }

  lemma {:induction false} OthersFrame(s: State, id: nat, x: Escrow, k: nat)
    requires 1 <= k <= |x.sellers| && PayOthers(s, id, x, k).Some?
    ensures var t := PayOthers(s, id, x, k).value; t == s.(bal := t.bal, journal := t.journal)
  {
    if k > 1 {
      OthersFrame(s, id, x, k - 1);
    }
  }

  lemma ReleaseFundsFrame(s: State, e: Env, caller: Address, id: nat)
    requires ReleaseFunds(s, e, caller, id).Some?
    ensures var t := ReleaseFunds(s, e, caller, id).value;
            t == s.(bal := t.bal, journal := t.journal, lastBuyerAction := t.lastBuyerAction,
                    escrows := s.escrows[id := s.escrows[id].(status := Released)])
  {
    var x, s0 := s.escrows[id], TouchBuyer(s, e, caller, id);
    if |x.sellers| > 1 {
      OthersFrame(s0, id, x, |x.sellers|);
    }
  }

  lemma {:induction false} CreateAllFrame(s: State, e: Env, buyer: Address, batch: seq<Terms>)
    requires CreateAll(s, e, buyer, batch).Some?
    ensures var u := CreateAll(s, e, buyer, batch).value;
            u.pool == s.pool && u.nextArbiter == s.nextArbiter && u.renewalAllowance == s.renewalAllowance
            && u.counter == s.counter + |batch|
  {
    if batch != [] {
      CreateAllFrame(s, e, buyer, batch[..|batch| - 1]);
    }
  }

  /** A chain with a renewal count makes no more renewals than it has remaining; from its
      first escrow that is the count itself. */
  lemma {:induction false} RenewalsBounded(s: State, run: Run, tip: nat)
    requires Inv(s) && tip in s.escrows && s.escrows[tip].renewalCount > 0
    ensures Renewals(s, run, tip) <= s.escrows[tip].renewalsRemaining
    decreases |run|
  {
    if run != [] {
      var e, c := run[0].0, run[0].1;
      StepKeeps(s, e, c);
      if Renews(s, e, c, tip) {
        RenewalLink(s, e, c, tip);
        RenewalsBounded(Next(s, e, c), run[1..], s.counter);
      } else {
        StepLater(s, e, c, tip);
        RenewalsBounded(Next(s, e, c), run[1..], tip);
      }
    }
  }

  /** So a chain that any reachable escrow stands in, however it was created, is renewed at
      most as often as its renewal count says, ever after. */
  lemma ChainBounded(s: State, before: Run, u: State, id: nat, run: Run)
    requires Initial(s) && u == Exec(s, before) && id in u.escrows && u.escrows[id].renewalCount > 0
    ensures Renewals(u, run, id) <= u.escrows[id].renewalCount
  {
    InitialInv(s);
    RunKeeps(s, before);
    RenewalsBounded(u, run, id);
  }

  lemma TerminalNotRenewed(s: State, e: Env, c: Call, tip: nat)
    requires tip in s.escrows && IsTerminal(s.escrows[tip].status)
    ensures !Renews(s, e, c, tip)
  {
    if c.ReleaseCall? && c.id == tip {
      assert ReleaseFunds(s, e, c.caller, tip).None?;
    }
  }

  /** An escrow is renewed at most once: after its release it never is. */
  lemma {:induction false} NoRenewalAfterRelease(s: State, run: Run, tip: nat)
    requires Inv(s) && tip in s.escrows && IsTerminal(s.escrows[tip].status)
    ensures Renewals(s, run, tip) == 0
    decreases |run|
  {
    if run != [] {
      var e, c := run[0].0, run[0].1;
      StepKeeps(s, e, c);
      StepLater(s, e, c, tip);
      TerminalNotRenewed(s, e, c, tip);
      NoRenewalAfterRelease(Next(s, e, c), run[1..], tip);
    }
  }

  // --- Allowances ---

  function Allowance(s: State, id: nat): nat {
    if id in s.renewalAllowance then s.renewalAllowance[id] else 0
  }

  ghost predicate SetsAllowance(s: State, e: Env, c: Call, id: nat) {
    c.SetRenewalAllowanceCall? && c.id == id && Step(s, e, c).Some?
  }

  /** Renewals of the chain until its allowance is set again. */
  ghost function RenewalsUntilSet(s: State, run: Run, tip: nat): nat
    decreases |run|
  {
    if run == [] then 0
    else
      var e, c := run[0].0, run[0].1;
      if SetsAllowance(s, e, c, tip) then 0
      else if Renews(s, e, c, tip) then 1 + RenewalsUntilSet(Next(s, e, c), run[1..], s.counter)
      else RenewalsUntilSet(Next(s, e, c), run[1..], tip)
  }

  /** What the calls that create no escrow leave alone. */
  lemma ExitFrame(s: State, e: Env, c: Call)
    requires IsExitCall(c) && Step(s, e, c).Some?
    ensures var u := Step(s, e, c).value;
            && u.pool == s.pool && u.nextArbiter == s.nextArbiter && u.counter == s.counter
            && forall id :: Allowance(u, id) <= Allowance(s, id)
  {
    if !IsRecordCall(c) {
      PayoutFrame(s, e, c);
    }
  }

  lemma PayoutFrame(s: State, e: Env, c: Call)
    requires IsExitCall(c) && !IsRecordCall(c) && Step(s, e, c).Some?
    ensures var u := Step(s, e, c).value;
            && u.pool == s.pool && u.nextArbiter == s.nextArbiter && u.counter == s.counter
            && u.renewalAllowance == s.renewalAllowance
  {
    if c.ResolveCall? {
      SettlementFrame(s, c.id, s.escrows[c.id], Share(s.escrows[c.id].amount, s.feeBps), c.toSeller);
    } else if c.DisputeCall? {
      DisputeFrame(s, e, c.caller, c.id, c.disputed);
    }
  }

  lemma DisputeFrame(s: State, e: Env, caller: Address, id: nat, disputed: int)
    requires Dispute(s, e, caller, id, disputed).Some?
    ensures var u := Dispute(s, e, caller, id, disputed).value;
            && u.pool == s.pool && u.nextArbiter == s.nextArbiter && u.counter == s.counter
            && u.renewalAllowance == s.renewalAllowance
  {
    var s1 := TouchBuyer(s, e, caller, id);
    var s2 := PayPositive(s1, id, s.escrows[id].token, ToSeller, s.escrows[id].seller,
                          s.escrows[id].amount - disputed).value;
    assert s2.pool == s.pool && s2.nextArbiter == s.nextArbiter && s2.counter == s.counter
           && s2.renewalAllowance == s.renewalAllowance;
  }

  lemma SettlementFrame(s: State, id: nat, x: Escrow, fee: int, toSeller: bool)
    requires Settlement(s, id, x, fee, toSeller).Some?
    ensures var u := Settlement(s, id, x, fee, toSeller).value;
            u == s.(bal := u.bal, journal := u.journal, escrows := u.escrows)
  {
  }

  lemma CreateFrame(s: State, e: Env, c: Call)
    requires c.CreateEscrowCall? || c.CreateBatchCall? || c.CreateFromTemplateCall? || c.CreateWithPoolCall?
    requires Step(s, e, c).Some?
    ensures var u := Step(s, e, c).value;
            && u.pool == s.pool && u.renewalAllowance == s.renewalAllowance
            && (c.CreateWithPoolCall? || u.nextArbiter == s.nextArbiter)
  {
    if c.CreateBatchCall? {
      CreateAllFrame(s, e, c.buyer, c.batch);
    }
  }

  lemma AllowanceOnlyShrinks(s: State, e: Env, c: Call, id: nat)
    requires id < s.counter && !SetsAllowance(s, e, c, id)
    ensures Allowance(Next(s, e, c), id) <= Allowance(s, id)
  {
    if Step(s, e, c).Some? {
      if IsExitCall(c) {
        ExitFrame(s, e, c);
      } else if c.CreateEscrowCall? || c.CreateBatchCall? || c.CreateFromTemplateCall? || c.CreateWithPoolCall? {
        CreateFrame(s, e, c);
      } else if c.ReleaseCall? {
        ReleaseFundsFrame(s, e, c.caller, c.id);
      }
    }
  }

  /** After an allowance of `n`, at most `n` renewals succeed before it is set again. */
  lemma {:induction false} AllowanceBounds(s: State, run: Run, tip: nat)
    requires Inv(s) && tip in s.escrows
    ensures RenewalsUntilSet(s, run, tip) <= Allowance(s, tip)
    decreases |run|
  {
    if run != [] {
      var e, c := run[0].0, run[0].1;
      StepKeeps(s, e, c);
      if SetsAllowance(s, e, c, tip) {
      } else if Renews(s, e, c, tip) {
        RenewalLink(s, e, c, tip);
        AllowanceBounds(Next(s, e, c), run[1..], s.counter);
      } else {
        AllowanceOnlyShrinks(s, e, c, tip);
        StepLater(s, e, c, tip);
        AllowanceBounds(Next(s, e, c), run[1..], tip);
      }
    }
  }

  // --- The arbiter pool ---

  ghost predicate AssignsArbiter(s: State, e: Env, c: Call) {
    c.CreateWithPoolCall? && Step(s, e, c).Some?
  }

  /** The arbiters that pool creations receive during a run, in order. */
  ghost function Assigned(s: State, run: Run): seq<Address>
    decreases |run|
  {
    if run == [] then []
    else
      var e, c := run[0].0, run[0].1;
      var rest := Assigned(Next(s, e, c), run[1..]);
      if AssignsArbiter(s, e, c) then [Next(s, e, c).escrows[s.counter].arbiter] + rest else rest
  }

  predicate ChangesPool(c: Call) {
    c.AddArbiterCall? || c.RemoveArbiterCall?
  }

  ghost predicate PoolFixed(run: Run) {
    forall r :: r in run ==> !ChangesPool(r.1)
  }

  predicate SamePool(s: State, u: State) {
    u.pool == s.pool && u.nextArbiter == s.nextArbiter
  }

  lemma ReleaseSamePool(s: State, e: Env, caller: Address, id: nat, u: State)
    requires Release(s, e, caller, id) == Some(u)
    ensures SamePool(s, u)
  {
    ReleaseFundsFrame(s, e, caller, id);
  }

  lemma OtherSamePool(s: State, e: Env, c: Call, u: State)
    requires c.SetRenewalAllowanceCall? || c.ProposeDeadlineCall? || c.UpdateFeeCall? || c.AdministerCall?
             || c.OutsideCall?
    requires Step(s, e, c) == Some(u)
    ensures SamePool(s, u)
  {
  }

  lemma PoolStep(s: State, e: Env, c: Call)
    requires !ChangesPool(c) && !c.CreateWithPoolCall?
    ensures SamePool(s, Next(s, e, c))
  {
    if Step(s, e, c).Some? {
      var u := Step(s, e, c).value;
      if IsExitCall(c) {
        ExitFrame(s, e, c);
      } else if c.CreateEscrowCall? || c.CreateBatchCall? || c.CreateFromTemplateCall? {
        CreateFrame(s, e, c);
      } else if c.ReleaseCall? {
        ReleaseSamePool(s, e, c.caller, c.id, u);
      } else {
        OtherSamePool(s, e, c, u);
      }
    }
  }

  lemma PoolTurn(s: State, e: Env, c: Call)
    requires AssignsArbiter(s, e, c)
    ensures var u := Next(s, e, c);
            && s.pool != [] && u.pool == s.pool && u.nextArbiter == (s.nextArbiter + 1) % |s.pool|
            && u.escrows[s.counter].arbiter == s.pool[s.nextArbiter % |s.pool|]
  {
  }

  ghost predicate InTurn(turns: seq<Address>, pool: seq<Address>, next: nat)
    requires pool != []
  {
    forall j :: 0 <= j < |turns| ==> turns[j] == pool[(next + j) % |pool|]
  }

  /** Putting the next arbiter in front of the turns that follow it. */
  lemma NextTurn(pool: seq<Address>, next: nat, rest: seq<Address>)
    requires pool != [] && InTurn(rest, pool, (next + 1) % |pool|)
    ensures InTurn([pool[next % |pool|]] + rest, pool, next)
  {
    var all := [pool[next % |pool|]] + rest;
    forall j | 0 <= j < |all| ensures all[j] == pool[(next + j) % |pool|] {
      if j > 0 {
        ModAdd(next + 1, j - 1, |pool|);
        assert all[j] == rest[j - 1];
      }
    }
  }

  /** While the pool does not change, the `j`-th assignment goes to the `j`-th arbiter
      after the next one, cyclically. */
  lemma {:induction false} AssignedInTurn(s: State, run: Run)
    requires s.pool != [] && PoolFixed(run)
    ensures InTurn(Assigned(s, run), s.pool, s.nextArbiter)
    decreases |run|
  {
    if run != [] {
      var e, c := run[0].0, run[0].1;
      var u := Next(s, e, c);
      assert !ChangesPool(c);
      if AssignsArbiter(s, e, c) {
        PoolTurn(s, e, c);
        AssignedInTurn(u, run[1..]);
        NextTurn(s.pool, s.nextArbiter, Assigned(u, run[1..]));
      } else {
        if !c.CreateWithPoolCall? {
          PoolStep(s, e, c);
        }
        AssignedInTurn(u, run[1..]);
      }
    }
  }

  lemma WindowOnce(pool: seq<Address>, next: nat, turns: seq<Address>, from: nat)
    requires pool != [] && NoDup(pool) && from + |pool| <= |turns|
    requires InTurn(turns, pool, next)
    ensures NoDup(turns[from..from + |pool|])
  {
    var n := |pool|;
    var window := turns[from..from + n];
    forall j, k | 0 <= j < k < n ensures window[j] != window[k] {
      if window[j] == window[k] {
        assert window[j] == pool[(next + from + j) % n] && window[k] == pool[(next + from + k) % n];
        RotationOnce(next + from, n, j, k);
      }
    }
  }

  /** Over every run from deployment, through all additions and removals, the pool has no
      duplicates and the next index is in range, or zero. */
  lemma PoolStaysSound(s: State, run: Run)
    requires Initial(s)
    ensures var u := Exec(s, run); NoDup(u.pool) && (u.nextArbiter == 0 || u.nextArbiter < |u.pool|)
  {
    InitialInv(s);
    RunKeeps(s, run);
  }

  lemma WindowCovers(pool: seq<Address>, next: nat, turns: seq<Address>, from: nat)
    requires pool != [] && NoDup(pool) && from + |pool| <= |turns| && InTurn(turns, pool, next)
    ensures NoDup(turns[from..from + |pool|]) && forall a :: a in turns[from..from + |pool|] <==> a in pool
  {
    WindowOnce(pool, next, turns, from);
    Pigeonhole(turns[from..from + |pool|], pool);
  }

  /** Fairness: any `n` consecutive assignments from a pool of `n` use every arbiter once.
      The pool of every reachable state has no duplicates (`PoolStaysSound`). */
  lemma PoolFairness(s: State, run: Run, from: nat)
    requires NoDup(s.pool) && s.pool != [] && PoolFixed(run)
    requires from + |s.pool| <= |Assigned(s, run)|
    ensures var window := Assigned(s, run)[from..from + |s.pool|];
            NoDup(window) && forall a :: a in window <==> a in s.pool
  {
    AssignedInTurn(s, run);
    WindowCovers(s.pool, s.nextArbiter, Assigned(s, run), from);
  }
}
