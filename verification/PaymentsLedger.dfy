/**
 The ledger of every payment and of every token over runs, whatever is called: where the
 money of a payment went, and how much less than it owes the contract can ever hold.
 */
module PaymentsLedger {
  import opened Common
  import opened Ledger
  import opened Sums
  import opened PaymentsModel
  import opened PaymentsVolume
  import opened PaymentsSafety
  import opened PaymentsFlows

  // --- What is paid more than once ---

  /** What a settlement pays for `id` beyond the first time it is listed. */
  ghost function PaidAgain(s: State, e: Env, c: Call, id: nat): int {
    if c.SettleCall? && Step(s, e, c).Some? && id in c.ids && id in s.payments
    then Listed(c.ids, id, s.payments[id].amount) - s.payments[id].amount else 0
  }

  ghost function PaidAgainIn(s: State, run: Run, id: nat): int
    decreases |run|
  {
    if run == [] then 0
    else PaidAgain(s, run[0].0, run[0].1, id) + PaidAgainIn(Next(s, run[0].0, run[0].1), run[1..], id)
  }

  // --- What is still to come ---

  predicate ClosedByRefund(p: Payment) {
    p.status == Refunded && p.refunded >= p.amount
  }

  /** What has been refunded in part without closing the payment: it will be paid again. */
  function Excess(p: Payment): int {
    if ClosedByRefund(p) then 0 else p.refunded
  }

  function StillToPay(p: Payment, settled: bool): int {
    Due(p, settled) - Excess(p)
  }

  /** A payment that can still be refunded has not been refunded in full. */
  ghost predicate OpenInv(payments: map<nat, Payment>) {
    forall id: nat :: id in payments && (payments[id].status == Pending || payments[id].status == Disputed
                                         || payments[id].status == ScheduledPending)
                      ==> payments[id].refunded < payments[id].amount
  }

  ghost predicate LedgerInv(s: State) {
    Sound(s) && OpenInv(s.payments)
  }

  // --- One payment, step by step ---

  /** A call that turns the record `p` of payment `id` into `q` pays for it exactly what is
      then no longer to pay, and what it pays again. */
  ghost predicate RecordAccounts(c: Call, id: nat, p: Payment, was: bool, q: Payment, now: bool) {
    var o := CallPays(c, id, p.amount, q.amount);
    o.fee + o.net + o.returned + o.refunded + o.settled
    == StillToPay(p, was) - StillToPay(q, now)
       + (if c.SettleCall? && id in c.ids then Listed(c.ids, id, p.amount) - p.amount else 0)
  }

  ghost predicate Accounts(s: State, c: Call, u: State, id: nat) {
    && id in s.payments && id in u.payments
    && RecordAccounts(c, id, s.payments[id], id in s.settled, u.payments[id], id in u.settled)
  }

  lemma CompleteAccounts(s: State, e: Env, c: Call, u: State, id: nat)
    requires LedgerInv(s) && Completes(c) && Step(s, e, c) == Some(u) && id in s.payments
    ensures Accounts(s, c, u, id) && OpenInv(u.payments)
  {
    var p := s.payments[c.id];
    CompleteRecords(s, e, c.id, p, Share(p.amount, FeeRate(s, e, p)));
    CompletedAccounts(s, c, u, id, Share(p.amount, FeeRate(s, e, p)));
  }

  lemma CompletedAccounts(s: State, c: Call, u: State, id: nat, fee: int)
    requires LedgerInv(s) && Completes(c) && c.id in s.payments && id in s.payments
    requires var p := s.payments[c.id]; p.status == Pending || p.status == ScheduledPending
    requires u.payments == s.payments[c.id := s.payments[c.id].(status := Status.Completed,
                                                                amount := s.payments[c.id].amount - fee)]
    requires u.settled == s.settled + {c.id}
    ensures Accounts(s, c, u, id) && OpenInv(u.payments)
  {
  }

  /** What the calls that change one payment leave behind. */
  lemma ExitRecords(s: State, e: Env, c: Call) returns (st: Status)
    requires ChangesOne(c) && Step(s, e, c).Some?
    ensures c.id in s.payments
    ensures var p, u := s.payments[c.id], Step(s, e, c).value;
            && (p.status == Pending || p.status == ScheduledPending || p.status == Disputed)
            && u.payments == s.payments[c.id := p.(status := st)] && u.counter == s.counter
            && u.settled == (if st == Status.Completed then s.settled - {c.id} else s.settled)
            && (st == Refunded || st == Expired <==> !c.DisputeCall? && !(c.ResolveCall? && c.toMerchant))
            && (st == Status.Completed || st == Disputed || st == Refunded || st == Expired)
  {
    st := Step(s, e, c).value.payments[c.id].status;
  }

  lemma ExitAccounts(s: State, e: Env, c: Call, u: State, id: nat)
    requires LedgerInv(s) && ChangesOne(c) && Step(s, e, c) == Some(u) && id in s.payments
    ensures Accounts(s, c, u, id) && OpenInv(u.payments)
  {
    var st := ExitRecords(s, e, c);
    ExitedAccounts(s, c, u, id, st);
  }

  lemma ExitedAccounts(s: State, c: Call, u: State, id: nat, st: Status)
    requires LedgerInv(s) && ChangesOne(c) && c.id in s.payments && id in s.payments
    requires var p := s.payments[c.id]; p.status == Pending || p.status == ScheduledPending || p.status == Disputed
    requires u.payments == s.payments[c.id := s.payments[c.id].(status := st)]
    requires u.settled == if st == Status.Completed then s.settled - {c.id} else s.settled
    requires st == Refunded || st == Expired <==> !c.DisputeCall? && !(c.ResolveCall? && c.toMerchant)
    requires st == Status.Completed || st == Disputed || st == Refunded || st == Expired
    ensures Accounts(s, c, u, id) && OpenInv(u.payments)
  {
    if id == c.id {
      RecordExits(c, s.payments[id], id in s.settled, st, id in u.settled);
    } else {
      RecordRests(c, id, s.payments[id], id in s.settled);
    }
  }

  lemma RecordExits(c: Call, p: Payment, was: bool, st: Status, now: bool)
    requires ChangesOne(c) && p.refunded < p.amount
    requires p.status == Pending || p.status == ScheduledPending || p.status == Disputed
    requires st == Refunded || st == Expired <==> !c.DisputeCall? && !(c.ResolveCall? && c.toMerchant)
    requires st == Disputed || st == Refunded || st == Expired || (st == Status.Completed && !now)
    ensures RecordAccounts(c, c.id, p, was, p.(status := st), now)
  {
  }

  lemma RecordRests(c: Call, id: nat, p: Payment, settled: bool)
    requires (ChangesOne(c) || c.PartialRefundCall? || Completes(c)) && id != c.id
    ensures RecordAccounts(c, id, p, settled, p, settled)
  {
  }

  lemma RefundAccounts(s: State, e: Env, c: Call, u: State, id: nat)
    requires LedgerInv(s) && c.PartialRefundCall? && Step(s, e, c) == Some(u) && id in s.payments
    ensures Accounts(s, c, u, id) && OpenInv(u.payments)
  {
    assert PartialRefund(s, e, c.id, c.amount) == Some(u);
  }

  lemma SettleAccounts(s: State, e: Env, c: Call, u: State, id: nat)
    requires LedgerInv(s) && c.SettleCall? && Step(s, e, c) == Some(u) && id in s.payments
    ensures Accounts(s, c, u, id) && OpenInv(u.payments)
  {
    SettleUnfolds(s, e, c);
    if id in c.ids {
      var i :| 0 <= i < |c.ids| && c.ids[i] == id;
      assert MaySettle(s, c.merchant, s.payments[c.ids[0]].token, c.ids[i]);
    }
    assert id in u.settled <==> id in s.settled || id in Elements(c.ids);
    RecordSettles(c, id, s.payments[id], id in s.settled, id in u.settled);
  }

  lemma RecordSettles(c: Call, id: nat, p: Payment, was: bool, now: bool)
    requires c.SettleCall? && (if id in c.ids then p.status == Status.Completed && !was && now else now == was)
    ensures RecordAccounts(c, id, p, was, p, now)
  {
    ListedSome(c.ids, id, p.amount);
  }

  lemma ConfigureAccounts(s: State, e: Env, c: Call, u: State, id: nat)
    requires LedgerInv(s) && Configures(c) && Step(s, e, c) == Some(u) && id in s.payments
    ensures Accounts(s, c, u, id) && OpenInv(u.payments)
  {
    ConfigureRecords(s, e, c);
  }

  lemma ConfigureRecords(s: State, e: Env, c: Call)
    requires Configures(c) && Step(s, e, c).Some?
    ensures var u := Step(s, e, c).value; u.payments == s.payments && u.settled == s.settled && u.counter == s.counter
  {
  }

  lemma {:induction false} AcceptAllOpen(s: State, e: Env, customer: Address, batch: seq<Request>)
    requires OpenInv(s.payments) && AcceptAll(s, e, customer, batch).Some?
    ensures OpenInv(AcceptAll(s, e, customer, batch).value.payments)
  {
    if batch != [] {
      AcceptAllOpen(s, e, customer, batch[..|batch| - 1]);
    }
  }

  lemma CreateOpen(s: State, e: Env, c: Call)
    requires LedgerInv(s) && Creates(c) && Step(s, e, c).Some?
    ensures OpenInv(Step(s, e, c).value.payments)
  {
    if c.CreateBatchCall? {
      var usage := EnforceRateLimit(s.limit, s.usage, e.sequence, c.who, |c.batch|).value;
      AcceptAllOpen(s.(usage := usage), e, c.who, c.batch);
    } else if c.CreateMultiTokenCall? {
      MultiTokenRecords(s, e, c);
    }
  }

  lemma CreateAccounts(s: State, e: Env, c: Call, u: State, id: nat)
    requires LedgerInv(s) && Creates(c) && Step(s, e, c) == Some(u) && id in s.payments
    ensures Accounts(s, c, u, id)
  {
    CreateLater(s, e, c, id);
  }

  lemma StepAccounts(s: State, e: Env, c: Call, u: State, id: nat)
    requires LedgerInv(s) && Step(s, e, c) == Some(u) && id in s.payments
    ensures Accounts(s, c, u, id) && OpenInv(u.payments)
  {
    if Completes(c) {
      CompleteAccounts(s, e, c, u, id);
    } else if ChangesOne(c) {
      ExitAccounts(s, e, c, u, id);
    } else if c.PartialRefundCall? {
      RefundAccounts(s, e, c, u, id);
    } else if c.SettleCall? {
      SettleAccounts(s, e, c, u, id);
    } else if Configures(c) {
      ConfigureAccounts(s, e, c, u, id);
    } else {
      CreateAccounts(s, e, c, u, id);
      CreateOpen(s, e, c);
    }
  }

  // --- One payment over runs ---

  lemma StepKeepsLedger(s: State, e: Env, c: Call)
    requires LedgerInv(s)
    ensures LedgerInv(Next(s, e, c))
  {
    StepSound(s, e, c);
    if Step(s, e, c).Some? {
      var u := Step(s, e, c).value;
      if Creates(c) {
        CreateOpen(s, e, c);
      } else if id: nat :| id in s.payments {
        StepAccounts(s, e, c, u, id);
      } else {
        NoPayments(s, e, c);
      }
    }
  }

  /** Only creations add payments. */
  lemma NoPayments(s: State, e: Env, c: Call)
    requires !Creates(c) && Step(s, e, c).Some? && forall id: nat :: id !in s.payments
    ensures OpenInv(Step(s, e, c).value.payments)
  {
    if Configures(c) {
      ConfigureRecords(s, e, c);
    } else if c.SettleCall? {
      SettleUnfolds(s, e, c);
    }
  }

  /** `paid` is what left the contract for `id` while its record went from `p` to `q`, `again`
      what a settlement paid more than once. */
  ghost predicate LedgerHolds(paid: Outlay, again: int, p: Payment, was: bool, q: Payment, now: bool) {
    paid.fee + paid.net + paid.returned + paid.refunded + paid.settled
    == StillToPay(p, was) - StillToPay(q, now) + again
  }

  lemma StepLedger(s: State, e: Env, c: Call, id: nat)
    requires LedgerInv(s) && id in s.payments
    ensures var u := Next(s, e, c);
            && id in u.payments
            && LedgerHolds(Paid(s, e, c, id), PaidAgain(s, e, c, id), s.payments[id], id in s.settled, u.payments[id],
                           id in u.settled)
  {
    if Step(s, e, c).Some? {
      StepAccounts(s, e, c, Step(s, e, c).value, id);
    }
  }

  lemma LedgersAddUp(a: Outlay, b: Outlay, again: int, more: int, p: Payment, x: bool, q: Payment, y: bool, r: Payment,
                     z: bool)
    requires LedgerHolds(a, again, p, x, q, y) && LedgerHolds(b, more, q, y, r, z)
    ensures LedgerHolds(Plus(a, b), again + more, p, x, r, z)
  {
  }

  /** From any reachable state on, over every run, what was paid on account of a payment is
      what was still to pay less what is still to pay, plus what settlements paid again. */
  lemma {:induction false} RunLedger(s: State, run: Run, id: nat)
    requires LedgerInv(s) && id in s.payments
    ensures var u := Exec(s, run);
            && id in u.payments
            && LedgerHolds(PaidOut(s, run, id), PaidAgainIn(s, run, id), s.payments[id], id in s.settled,
                           u.payments[id], id in u.settled)
    decreases |run|
  {
    if run != [] {
      var e, c := run[0].0, run[0].1;
      var t := Next(s, e, c);
      StepLedger(s, e, c, id);
      StepKeepsLedger(s, e, c);
      RunLedger(t, run[1..], id);
      var u := Exec(t, run[1..]);
      LedgersAddUp(Paid(s, e, c, id), PaidOut(t, run[1..], id), PaidAgain(s, e, c, id), PaidAgainIn(t, run[1..], id),
                   s.payments[id], id in s.settled, t.payments[id], id in t.settled, u.payments[id], id in u.settled);
    }
  }

  lemma {:induction false} RunKeepsLedger(s: State, run: Run)
    requires LedgerInv(s)
    ensures LedgerInv(Exec(s, run))
    decreases |run|
  {
    if run != [] {
      StepKeepsLedger(s, run[0].0, run[0].1);
      RunKeepsLedger(Next(s, run[0].0, run[0].1), run[1..]);
    }
  }

  /** The ledger of a payment, from the state in which it is first on record: the amount is
      what went out as fee, to recipients and merchant, back to the customer, in partial
      refunds and by settlement, plus what is still due, less what was refunded without
      closing the payment and what was settled more than once. These outlays are token
      movements: they and those of the other payments, with what customers bring in and
      others move, are all that changes any balance. */
  lemma PaymentLedger(admin: Address, recipient: Address, feeBps: nat, bal: Balances, before: Run, s: State, run: Run,
                      id: nat, u: State)
    requires Init(admin, recipient, feeBps, bal).Some? && s == Exec(Init(admin, recipient, feeBps, bal).value, before)
    requires id in s.payments && s.payments[id].refunded == 0
    requires s.payments[id].status == Pending || s.payments[id].status == ScheduledPending
    requires u == Exec(s, run)
    ensures id in u.payments
    ensures var paid, q := PaidOut(s, run, id), u.payments[id];
            s.payments[id].amount
            == paid.fee + paid.net + paid.returned + paid.refunded + paid.settled
               + Due(q, id in u.settled) - Excess(q) - PaidAgainIn(s, run, id)
    ensures forall token, a :: Accounted(s, run, u, u.counter, token, a)
  {
    RunKeepsLedger(Init(admin, recipient, feeBps, bal).value, before);
    RunLedger(s, run, id);
    forall token, a ensures Accounted(s, run, u, u.counter, token, a) {
      RunFlows(s, run, u, u.counter, token, a);
    }
  }

  // --- One token over runs ---

  ghost function ExcessSum(payments: map<nat, Payment>, n: nat, token: Address): int {
    if n == 0 then 0
    else ExcessSum(payments, n - 1, token)
         + if n - 1 in payments && payments[n - 1].token == token then Excess(payments[n - 1]) else 0
  }

  lemma {:induction false} ExcessSumUpdate(payments: map<nat, Payment>, n: nat, id: nat, q: Payment, token: Address)
    ensures ExcessSum(payments[id := q], n, token)
            == ExcessSum(payments, n, token) + (if id < n && q.token == token then Excess(q) else 0)
               - (if id < n && id in payments && payments[id].token == token then Excess(payments[id]) else 0)
  {
    if n > 0 {
      ExcessSumUpdate(payments, n - 1, id, q, token);
    }
  }

  /** What a call makes the contract owe, or pay, in `token` without having taken it in. */
  ghost function Lost(s: State, e: Env, c: Call, token: Address): int {
    if Step(s, e, c).None? then 0
    else if c.SettleCall? then LostToSettlement(s, c, token)
    else if c.CreateMultiTokenCall? && s.policy.usdc != Some(c.token) && s.policy.usdc == Some(token) then c.amount
    else 0
  }

  ghost function LostToSettlement(s: State, c: Call, token: Address): int
    requires c.SettleCall?
  {
    if c.ids != [] && c.ids[0] in s.payments && s.payments[c.ids[0]].token == token
    then Repeated(s.payments, c.ids) else 0
  }

  ghost function LostIn(s: State, run: Run, token: Address): int
    decreases |run|
  {
    if run == [] then 0 else Lost(s, run[0].0, run[0].1, token) + LostIn(Next(s, run[0].0, run[0].1), run[1..], token)
  }

  /** The contract falls short of what it owes in `token` by no more than `lost` and what
      was refunded in part without closing the payment. */
  ghost predicate Covered(s: State, token: Address, lost: int) {
    Bal(s.bal, token, This) + ExcessSum(s.payments, s.counter, token) + lost >= Owed(s, token)
  }

  lemma DisburseCovered(s: State, u: State, id: nat, q: Payment, out: int, token: Address, lost: int)
    requires LedgerInv(s) && Disburses(s, u, id, q, out) && Covered(s, token, lost)
    requires Excess(q) == Excess(s.payments[id])
    ensures Covered(u, token, lost)
  {
    OwedSumUpdate(s.payments, s.settled, u.settled, s.counter, id, q, token);
    ExcessSumUpdate(s.payments, s.counter, id, q, token);
  }

  lemma OpenCovered(s: State, u: State, p: Payment, token: Address, lost: int)
    requires Sound(s) && Opens(s, u, p) && Covered(s, token, lost)
    ensures Covered(u, token, lost)
  {
    OwedSumUpdate(s.payments, s.settled, u.settled, s.counter, s.counter, p, token);
    ExcessSumUpdate(s.payments, s.counter, s.counter, p, token);
  }

  lemma CompleteCovered(s: State, e: Env, c: Call, u: State, token: Address, lost: int)
    requires LedgerInv(s) && Completes(c) && Step(s, e, c) == Some(u) && Covered(s, token, lost)
    ensures Covered(u, token, lost)
  {
    var p := s.payments[c.id];
    var q := CompleteDisburses(s, e, c.id, c.ExecuteScheduledCall?);
    CompleteRecords(s, e, c.id, p, Share(p.amount, FeeRate(s, e, p)));
    assert u.payments[c.id] == q;
    DisburseCovered(s, u, c.id, q, p.amount, token, lost);
  }

  lemma ExitCovered(s: State, e: Env, c: Call, u: State, token: Address, lost: int)
    requires LedgerInv(s) && ChangesOne(c) && Step(s, e, c) == Some(u) && Covered(s, token, lost)
    ensures Covered(u, token, lost)
  {
    var st := ExitRecords(s, e, c);
    var id, q, out := OneDisburses(s, e, c);
    assert u.payments[id] == q && q.status == st && s.payments[id].refunded < s.payments[id].amount;
    DisburseCovered(s, u, id, q, out, token, lost);
  }

  lemma RefundCovered(s: State, e: Env, c: Call, u: State, token: Address, lost: int)
    requires LedgerInv(s) && c.PartialRefundCall? && Step(s, e, c) == Some(u) && Covered(s, token, lost)
    ensures Covered(u, token, lost)
  {
    var q := u.payments[c.id];
    OwedSumUpdate(s.payments, s.settled, u.settled, s.counter, c.id, q, token);
    ExcessSumUpdate(s.payments, s.counter, c.id, q, token);
  }

  lemma SettleCovered(s: State, e: Env, c: Call, u: State, token: Address, lost: int)
    requires LedgerInv(s) && c.SettleCall? && Step(s, e, c) == Some(u) && Covered(s, token, lost)
    ensures Covered(u, token, lost + LostToSettlement(s, c, token))
  {
    SettleUnfolds(s, e, c);
    SettledOwedSum(s, c.merchant, s.payments[c.ids[0]].token, c.ids, token);
    TotalNotNegative(s.payments, c.ids, s.counter);
  }

  lemma {:induction false} AcceptAllCovered(s: State, e: Env, customer: Address, batch: seq<Request>, token: Address,
                                            lost: int)
    requires Sound(s) && customer != This && AcceptAll(s, e, customer, batch).Some? && Covered(s, token, lost)
    ensures Covered(AcceptAll(s, e, customer, batch).value, token, lost)
  {
    if batch != [] {
      var n := |batch| - 1;
      AcceptAllCovered(s, e, customer, batch[..n], token, lost);
      AcceptAllSound(s, e, customer, batch[..n]);
      var t := AcceptAll(s, e, customer, batch[..n]).value;
      AcceptOpens(t, e, customer, batch[n], None, 0);
      OpenCovered(t, AcceptAll(s, e, customer, batch).value, NewPayment(t, e, customer, batch[n], None, 0), token,
                  lost);
    }
  }

  lemma CrossTokenCovered(s: State, e: Env, c: Call, u: State, token: Address, lost: int)
    requires Sound(s) && c.CreateMultiTokenCall? && s.policy.usdc != Some(c.token) && Step(s, e, c) == Some(u)
    requires Covered(s, token, lost)
    ensures Covered(u, token, lost + if s.policy.usdc == Some(token) then c.amount else 0)
  {
    CrossTokenTakes(s, e, c);
    MultiTokenRecords(s, e, c);
    var q := u.payments[s.counter];
    OwedSumUpdate(s.payments, s.settled, u.settled, s.counter, s.counter, q, token);
    ExcessSumUpdate(s.payments, s.counter, s.counter, q, token);
  }

  lemma CreateCovered(s: State, e: Env, c: Call, u: State, token: Address, lost: int)
    requires Sound(s) && Creates(c) && Step(s, e, c) == Some(u) && Covered(s, token, lost)
    ensures Covered(u, token, lost + Lost(s, e, c, token))
  {
    if c.CreateBatchCall? {
      var usage := EnforceRateLimit(s.limit, s.usage, e.sequence, c.who, |c.batch|).value;
      AcceptAllCovered(s.(usage := usage), e, c.who, c.batch, token, lost);
    } else if c.CreateMultiTokenCall? {
      if s.policy.usdc == Some(c.token) {
        var p := UsdcOpens(s, e, c);
        OpenCovered(s, u, p, token, lost);
      } else {
        CrossTokenCovered(s, e, c, u, token, lost);
      }
    } else if !Repeats(s, e, c) {
      var p := CreateOpens(s, e, c);
      OpenCovered(s, u, p, token, lost);
    }
  }

  lemma ConfigureCovered(s: State, e: Env, c: Call, u: State, token: Address, lost: int)
    requires Configures(c) && Step(s, e, c) == Some(u) && Covered(s, token, lost)
    ensures Covered(u, token, lost)
  {
    ConfigureRecords(s, e, c);
  }

  lemma StepCovered(s: State, e: Env, c: Call, token: Address, lost: int)
    requires LedgerInv(s) && Covered(s, token, lost)
    ensures Covered(Next(s, e, c), token, lost + Lost(s, e, c, token))
  {
    if Step(s, e, c).Some? {
      var u := Step(s, e, c).value;
      if Completes(c) {
        CompleteCovered(s, e, c, u, token, lost);
      } else if ChangesOne(c) {
        ExitCovered(s, e, c, u, token, lost);
      } else if c.PartialRefundCall? {
        RefundCovered(s, e, c, u, token, lost);
      } else if c.SettleCall? {
        SettleCovered(s, e, c, u, token, lost);
      } else if Creates(c) {
        CreateCovered(s, e, c, u, token, lost);
      } else {
        ConfigureCovered(s, e, c, u, token, lost);
      }
    }
  }

  lemma {:induction false} RunCovered(s: State, run: Run, token: Address, lost: int)
    requires LedgerInv(s) && Covered(s, token, lost)
    ensures Covered(Exec(s, run), token, lost + LostIn(s, run, token))
    decreases |run|
  {
    if run != [] {
      var e, c := run[0].0, run[0].1;
      StepCovered(s, e, c, token, lost);
      StepKeepsLedger(s, e, c);
      RunCovered(Next(s, e, c), run[1..], token, lost + Lost(s, e, c, token));
    }
  }

  /** From deployment on, whatever is called: in every token the contract holds what it owes,
      up to the partial refunds of payments they did not close, the amounts recorded in it
      but taken in another token, and what settlements paid more than once. */
  lemma ShortfallBounded(admin: Address, recipient: Address, feeBps: nat, bal: Balances, run: Run, token: Address,
                         u: State)
    requires Init(admin, recipient, feeBps, bal).Some? && Bal(bal, token, This) >= 0
    requires u == Exec(Init(admin, recipient, feeBps, bal).value, run)
    ensures Owed(u, token) - Bal(u.bal, token, This)
            <= ExcessSum(u.payments, u.counter, token) + LostIn(Init(admin, recipient, feeBps, bal).value, run, token)
  {
    RunCovered(Init(admin, recipient, feeBps, bal).value, run, token, 0);
  }
}
