/**
 Money safety of the payments contract: what every exit pays, the backing of everything
 owed over every run, exactly when the three calls outside that statement break it, and
 finality of closed payments.
 */
module PaymentsSafety {
  import opened Common
  import opened Ledger
  import opened Sums
  import opened PaymentsModel
  import opened PaymentsVolume

  // --- What is owed ---

  /** Paid out, returned or expired. */
  predicate Closed(p: Payment, settled: bool) {
    p.status == Refunded || p.status == Expired || (p.status == Completed && settled)
  }

  /** What the contract still owes on a payment: its amount, until it is closed. */
  function Due(p: Payment, settled: bool): int {
    if Closed(p, settled) then 0 else p.amount
  }

  ghost function OwedSum(payments: map<nat, Payment>, settled: set<nat>, n: nat, token: Address): int {
    if n == 0 then 0
    else OwedSum(payments, settled, n - 1, token)
         + if n - 1 in payments && payments[n - 1].token == token then Due(payments[n - 1], n - 1 in settled) else 0
  }

  ghost function Owed(s: State, token: Address): int {
    OwedSum(s.payments, s.settled, s.counter, token)
  }

  ghost predicate Backed(bal: Balances, payments: map<nat, Payment>, settled: set<nat>, n: nat) {
    forall t :: Bal(bal, t, This) >= OwedSum(payments, settled, n, t)
  }

  ghost predicate WellFormed(p: Payment) {
    p.amount >= 0 && p.refunded >= 0 && p.customer != This && ValidSplits(p.splits)
  }

  ghost predicate Records(payments: map<nat, Payment>, n: nat) {
    forall id: nat :: id in payments ==> id < n && WellFormed(payments[id])
  }

  /** What every reachable state satisfies, backed or not. */
  ghost predicate Sound(s: State) {
    Records(s.payments, s.counter) && FeesInv(s.fees)
  }

  ghost predicate Inv(s: State) {
    Sound(s) && Backed(s.bal, s.payments, s.settled, s.counter)
  }

  /** Changing one payment and its settlement mark changes what is owed by that payment only. */
  lemma {:induction false} OwedSumUpdate(payments: map<nat, Payment>, settled: set<nat>, settled': set<nat>, n: nat,
                                         id: nat, q: Payment, token: Address)
    requires forall i: nat :: i != id ==> (i in settled <==> i in settled')
    ensures OwedSum(payments[id := q], settled', n, token)
            == OwedSum(payments, settled, n, token)
               + (if id < n && q.token == token then Due(q, id in settled') else 0)
               - (if id < n && id in payments && payments[id].token == token
                  then Due(payments[id], id in settled) else 0)
  {
    if n > 0 {
      OwedSumUpdate(payments, settled, settled', n - 1, id, q, token);
    }
  }

  // --- Exact splits ---

  lemma {:induction false} DistributedIsShares(net: int, splits: seq<(Address, nat)>, k: nat)
    requires k <= |splits|
    ensures Distributed(net, splits, k) == SumShares(net, BpsOf(splits)[..k])
  {
    if k > 0 {
      DistributedIsShares(net, splits, k - 1);
      assert BpsOf(splits)[..k][..k - 1] == BpsOf(splits)[..k - 1];
    }
  }

  /** What rounding leaves to the merchant is less than one unit per recipient. */
  lemma DustBounded(net: nat, splits: seq<(Address, nat)>)
    requires SumSeq(BpsOf(splits)) == BPS
    ensures 0 <= net - Distributed(net, splits, |splits|) < |splits|
  {
    DistributedIsShares(net, splits, |splits|);
    assert BpsOf(splits)[..|splits|] == BpsOf(splits);
    DustOfWhole(net, BpsOf(splits));
  }

  /** The shares of the first `k` recipients that go to `a`. */
  function Receipts(net: int, splits: seq<(Address, nat)>, k: nat, a: Address): int
    requires k <= |splits|
  {
    if k == 0 then 0
    else Receipts(net, splits, k - 1, a) + if splits[k - 1].0 == a then Share(net, splits[k - 1].1) else 0
  }

  lemma {:induction false} SharesReceived(bal: Balances, token: Address, net: nat, splits: seq<(Address, nat)>, k: nat)
    requires k <= |splits| && PayShares(bal, token, net, splits, k).Some?
    ensures forall t, a ::
              Bal(PayShares(bal, token, net, splits, k).value, t, a)
              == Bal(bal, t, a) + (if t == token then Receipts(net, splits, k, a) else 0)
                 - (if t == token && a == This then Distributed(net, splits, k) else 0)
  {
    if k > 0 {
      SharesReceived(bal, token, net, splits, k - 1);
      ShareNonNegative(net, splits[k - 1].1);
      PositivePaid(PayShares(bal, token, net, splits, k - 1).value, token, splits[k - 1].0,
                   Share(net, splits[k - 1].1));
    }
  }

  lemma ShareNonNegative(net: nat, bps: nat)
    ensures Share(net, bps) >= 0
  {
    assert net * bps >= 0;
  }

  lemma PositivePaid(bal: Balances, token: Address, to: Address, amount: nat)
    requires PayPositive(bal, token, to, amount).Some?
    ensures Moved(bal, PayPositive(bal, token, to, amount).value, token, This, to, amount)
  {
  }

  /** What `a` gets of a completed payment's net amount. */
  function NetFor(p: Payment, net: int, a: Address): int {
    if p.splits.None? || p.splits.value == [] then (if a == p.merchant then net else 0)
    else Receipts(net, p.splits.value, |p.splits.value|, a)
         + (if a == p.merchant then net - Distributed(net, p.splits.value, |p.splits.value|) else 0)
  }

  lemma NetDistributed(bal: Balances, p: Payment, net: nat)
    requires ValidSplits(p.splits) && Distribute(bal, p, net).Some?
    ensures forall t, a ::
              Bal(Distribute(bal, p, net).value, t, a)
              == Bal(bal, t, a) + (if t == p.token then NetFor(p, net, a) - (if a == This then net else 0) else 0)
  {
    if p.splits.Some? {
      var splits := p.splits.value;
      DustBounded(net, splits);
      SharesReceived(bal, p.token, net, splits, |splits|);
      PositivePaid(PayShares(bal, p.token, net, splits, |splits|).value, p.token, p.merchant,
                   net - Distributed(net, splits, |splits|));
    }
  }

  /** A completion moves exactly the payment's amount: the fee to its recipient, each share
      to its recipient, and the rest to the merchant. */
  lemma CompletePays(s: State, e: Env, id: nat, p: Payment, fee: int)
    requires ValidSplits(p.splits) && 0 <= fee <= p.amount && Complete(s, e, id, p, fee).Some?
    ensures var u := Complete(s, e, id, p, fee).value;
            forall t, a ::
              Bal(u.bal, t, a)
              == Bal(s.bal, t, a)
                 + (if t == p.token
                    then NetFor(p, p.amount - fee, a) + (if a == s.policy.feeRecipient then fee else 0)
                         - (if a == This then p.amount else 0)
                    else 0)
  {
    var b1 := PayPositive(s.bal, p.token, s.policy.feeRecipient, fee).value;
    PositivePaid(s.bal, p.token, s.policy.feeRecipient, fee);
    NetDistributed(b1, p, p.amount - fee);
    assert Complete(s, e, id, p, fee).value.bal == Distribute(b1, p, p.amount - fee).value;
  }

  lemma FeeWithin(amount: nat, bps: nat)
    requires bps <= MAX_FEE
    ensures 0 <= Share(amount, bps) && Share(amount, bps) * 20 <= amount
  {
    assert 0 <= amount * bps <= amount * MAX_FEE;
  }

  lemma CompleteInternalSplits(s: State, e: Env, id: nat, scheduled: bool)
    requires Sound(s) && CompleteInternal(s, e, id, scheduled).Some?
    ensures var p, u := s.payments[id], CompleteInternal(s, e, id, scheduled).value;
            var fee := Share(p.amount, FeeRate(s, e, p));
            && 0 <= fee && fee * 20 <= p.amount && u.payments[id].amount == p.amount - fee
            && SplitPaid(s, u, p, fee)
  {
    var p := s.payments[id];
    var fee := Share(p.amount, FeeRate(s, e, p));
    FeeCharged(s, e, p);
    CompleteRecords(s, e, id, p, fee);
    CompleteSplits(s, e, id, p, fee);
  }

  ghost predicate SplitPaid(s: State, u: State, p: Payment, fee: int) {
    var net := p.amount - fee;
    && (p.splits.Some? ==> 0 <= net - SumShares(net, BpsOf(p.splits.value)) < |p.splits.value|)
    && forall a ::
         Bal(u.bal, p.token, a)
         == Bal(s.bal, p.token, a) + NetFor(p, net, a) + (if a == s.policy.feeRecipient then fee else 0)
            - (if a == This then p.amount else 0)
  }

  lemma CompleteSplits(s: State, e: Env, id: nat, p: Payment, fee: int)
    requires ValidSplits(p.splits) && 0 <= fee <= p.amount && Complete(s, e, id, p, fee).Some?
    ensures SplitPaid(s, Complete(s, e, id, p, fee).value, p, fee)
  {
    CompletePays(s, e, id, p, fee);
    if p.splits.Some? {
      DustOfWhole(p.amount - fee, BpsOf(p.splits.value));
    }
  }

  lemma FeeCharged(s: State, e: Env, p: Payment)
    requires FeesInv(s.fees) && p.amount >= 0
    ensures var fee := Share(p.amount, FeeRate(s, e, p)); 0 <= fee && fee * 20 <= p.amount
  {
    TierChosen(s.fees, RollingVolume(s.buckets, p.merchant, e.sequence / BUCKET, 4) + p.amount);
    FeeWithin(p.amount, FeeRate(s, e, p));
  }

  lemma CompleteRecords(s: State, e: Env, id: nat, p: Payment, fee: int)
    requires Complete(s, e, id, p, fee).Some?
    ensures var u := Complete(s, e, id, p, fee).value;
            && u.payments == s.payments[id := p.(status := Completed, amount := p.amount - fee)]
            && u.settled == s.settled + {id} && u.counter == s.counter && u.fees == s.fees
  {
  }

  // --- Soundness over every run ---

  predicate ChangesOne(c: Call) {
    c.CancelScheduledCall? || c.ExpireCall? || c.DisputeCall? || c.ResolveCall?
  }

  lemma CompleteSound(s: State, e: Env, c: Call)
    requires Sound(s) && Completes(c) && Step(s, e, c).Some?
    ensures Sound(Step(s, e, c).value)
  {
    var p := s.payments[c.id];
    FeeCharged(s, e, p);
    CompleteRecords(s, e, c.id, p, Share(p.amount, FeeRate(s, e, p)));
  }

  lemma ExitSound(s: State, e: Env, c: Call)
    requires Sound(s) && ChangesOne(c) && Step(s, e, c).Some?
    ensures Sound(Step(s, e, c).value)
  {
    var id, q, out := OneDisburses(s, e, c);
  }

  lemma RefundSound(s: State, e: Env, c: Call)
    requires Sound(s) && c.PartialRefundCall? && Step(s, e, c).Some?
    ensures Sound(Step(s, e, c).value)
  {
  }

  lemma SettleSound(s: State, e: Env, c: Call)
    requires Sound(s) && c.SettleCall? && Step(s, e, c).Some?
    ensures Sound(Step(s, e, c).value)
  {
  }

  lemma {:induction false} AcceptAllSound(s: State, e: Env, customer: Address, batch: seq<Request>)
    requires Sound(s) && customer != This && AcceptAll(s, e, customer, batch).Some?
    ensures Sound(AcceptAll(s, e, customer, batch).value)
  {
    if batch != [] {
      AcceptAllSound(s, e, customer, batch[..|batch| - 1]);
    }
  }

  lemma CreateSound(s: State, e: Env, c: Call)
    requires Sound(s) && c.CreateCall? && Step(s, e, c).Some?
    ensures Sound(Step(s, e, c).value)
  {
  }

  lemma BatchSound(s: State, e: Env, c: Call)
    requires Sound(s) && c.CreateBatchCall? && Step(s, e, c).Some?
    ensures Sound(Step(s, e, c).value)
  {
    var usage := EnforceRateLimit(s.limit, s.usage, e.sequence, c.who, |c.batch|).value;
    AcceptAllSound(s.(usage := usage), e, c.who, c.batch);
  }

  lemma MultiTokenRecords(s: State, e: Env, c: Call)
    requires c.CreateMultiTokenCall? && Step(s, e, c).Some?
    ensures s.policy.usdc.Some? && c.amount > 0 && c.who != This
    ensures var u, r := Step(s, e, c).value, Request(c.merchant, c.amount, s.policy.usdc.value, Labels(None, None));
            && u.payments == s.payments[s.counter := NewPayment(s, e, c.who, r, None, 0)]
            && u.counter == s.counter + 1 && u.fees == s.fees
  {
  }

  lemma MultiTokenSound(s: State, e: Env, c: Call)
    requires Sound(s) && c.CreateMultiTokenCall? && Step(s, e, c).Some?
    ensures Sound(Step(s, e, c).value)
  {
    MultiTokenRecords(s, e, c);
  }

  lemma OtherSound(s: State, e: Env, c: Call)
    requires Sound(s) && Configures(c) && Step(s, e, c).Some?
    ensures Sound(Step(s, e, c).value)
  {
  }

  lemma StepSound(s: State, e: Env, c: Call)
    requires Sound(s)
    ensures Sound(Next(s, e, c))
  {
    if Step(s, e, c).Some? {
      if Completes(c) {
        CompleteSound(s, e, c);
      } else if c.CreateCall? {
        CreateSound(s, e, c);
      } else if c.CreateBatchCall? {
        BatchSound(s, e, c);
      } else if c.CreateMultiTokenCall? {
        MultiTokenSound(s, e, c);
      } else if Configures(c) {
        OtherSound(s, e, c);
      } else if c.PartialRefundCall? {
        RefundSound(s, e, c);
      } else if c.SettleCall? {
        SettleSound(s, e, c);
      } else {
        ExitSound(s, e, c);
      }
    }
  }

  lemma {:induction false} RunSound(s: State, run: Run)
    requires Sound(s)
    ensures Sound(Exec(s, run))
    decreases |run|
  {
    if run != [] {
      StepSound(s, run[0].0, run[0].1);
      RunSound(Next(s, run[0].0, run[0].1), run[1..]);
    }
  }

  /** In every reachable state, backed or not: the fee is at most 5% of the amount, fee and
      net amount are what leaves the contract and all that does, each recipient gets its
      share rounded down, and the merchant's remainder is less than one unit per recipient. */
  lemma ExactSplit(admin: Address, recipient: Address, feeBps: nat, bal: Balances, run: Run, s: State, e: Env, id: nat,
                   scheduled: bool)
    requires Init(admin, recipient, feeBps, bal).Some? && s == Exec(Init(admin, recipient, feeBps, bal).value, run)
    requires CompleteInternal(s, e, id, scheduled).Some?
    ensures var p, u := s.payments[id], CompleteInternal(s, e, id, scheduled).value;
            var fee := Share(p.amount, FeeRate(s, e, p));
            && 0 <= fee && fee * 20 <= p.amount && u.payments[id].amount == p.amount - fee
            && SplitPaid(s, u, p, fee)
  {
    RunSound(Init(admin, recipient, feeBps, bal).value, run);
    CompleteInternalSplits(s, e, id, scheduled);
  }

  // --- Steps that change one payment ---

  /** Payment `id` becomes `q`; `out` leaves the contract and is no longer owed. */
  ghost predicate Disburses(s: State, u: State, id: nat, q: Payment, out: int) {
    && id in s.payments && u.payments == s.payments[id := q] && u.counter == s.counter && u.fees == s.fees
    && (forall i: nat :: i != id ==> (i in s.settled <==> i in u.settled))
    && q == s.payments[id].(status := q.status, amount := q.amount) && q.amount >= 0
    && Due(q, id in u.settled) + out <= Due(s.payments[id], id in s.settled)
    && forall t :: Bal(u.bal, t, This) >= Bal(s.bal, t, This) - if t == q.token then out else 0
  }

  lemma DisburseKeeps(s: State, u: State, id: nat, q: Payment, out: int)
    requires Inv(s) && Disburses(s, u, id, q, out)
    ensures Inv(u)
  {
    forall t ensures Bal(u.bal, t, This) >= OwedSum(u.payments, u.settled, u.counter, t) {
      OwedSumUpdate(s.payments, s.settled, u.settled, s.counter, id, q, t);
    }
  }

  lemma CompleteDraws(s: State, e: Env, id: nat, p: Payment, fee: int)
    requires ValidSplits(p.splits) && 0 <= fee <= p.amount && Complete(s, e, id, p, fee).Some?
    ensures forall t :: Bal(Complete(s, e, id, p, fee).value.bal, t, This)
                        >= Bal(s.bal, t, This) - if t == p.token then p.amount else 0
  {
    CompletePays(s, e, id, p, fee);
    NetNotNegative(p, p.amount - fee);
  }

  lemma CompleteDisburses(s: State, e: Env, id: nat, scheduled: bool) returns (q: Payment)
    requires Sound(s) && CompleteInternal(s, e, id, scheduled).Some?
    ensures id in s.payments && Disburses(s, CompleteInternal(s, e, id, scheduled).value, id, q, s.payments[id].amount)
  {
    var p := s.payments[id];
    var fee := Share(p.amount, FeeRate(s, e, p));
    q := p.(status := Completed, amount := p.amount - fee);
    FeeCharged(s, e, p);
    CompleteRecords(s, e, id, p, fee);
    CompleteDraws(s, e, id, p, fee);
  }

  lemma NetNotNegative(p: Payment, net: nat)
    requires ValidSplits(p.splits)
    ensures forall a :: NetFor(p, net, a) >= 0
  {
    if p.splits.Some? {
      DustBounded(net, p.splits.value);
      forall a ensures NetFor(p, net, a) >= 0 {
        ReceiptsNotNegative(net, p.splits.value, |p.splits.value|, a);
      }
    }
  }

  lemma {:induction false} ReceiptsNotNegative(net: nat, splits: seq<(Address, nat)>, k: nat, a: Address)
    requires k <= |splits|
    ensures Receipts(net, splits, k, a) >= 0
  {
    if k > 0 {
      ReceiptsNotNegative(net, splits, k - 1, a);
      ShareNonNegative(net, splits[k - 1].1);
    }
  }

  lemma GiveBackDisburses(s: State, id: nat, st: Status) returns (q: Payment)
    requires Records(s.payments, s.counter) && id in s.payments && (st == Refunded || st == Expired)
    requires !Closed(s.payments[id], id in s.settled) && GiveBack(s, id, s.payments[id], st).Some?
    ensures Disburses(s, GiveBack(s, id, s.payments[id], st).value, id, q, q.amount)
  {
    q := s.payments[id].(status := st);
  }

  lemma MarkDisburses(s: State, u: State, id: nat, q: Payment)
    requires Records(s.payments, s.counter) && id in s.payments && !Closed(s.payments[id], id in s.settled)
    requires q == s.payments[id].(status := q.status)
    requires u == s.(payments := s.payments[id := q], settled := u.settled)
             && (u.settled == s.settled || u.settled == s.settled - {id})
    ensures Disburses(s, u, id, q, 0)
  {
  }

  lemma OneDisburses(s: State, e: Env, c: Call) returns (id: nat, q: Payment, out: int)
    requires Records(s.payments, s.counter) && ChangesOne(c) && Step(s, e, c).Some?
    ensures id == c.id && Disburses(s, Step(s, e, c).value, id, q, out)
  {
    id := c.id;
    var p := s.payments[id];
    if c.DisputeCall? {
      q, out := p.(status := Disputed), 0;
      MarkDisburses(s, Step(s, e, c).value, id, q);
    } else if c.ResolveCall? && c.toMerchant {
      q, out := p.(status := Completed), 0;
      MarkDisburses(s, Step(s, e, c).value, id, q);
    } else {
      q := GiveBackDisburses(s, id, if c.ExpireCall? then Expired else Refunded);
      out := q.amount;
    }
  }

  // --- Creation ---

  ghost predicate Opens(s: State, u: State, p: Payment) {
    && u == Place(s.(bal := u.bal, usage := u.usage, keys := u.keys), p) && WellFormed(p)
    && (p.status == Pending || p.status == ScheduledPending) && p.refunded == 0
    && forall t :: Bal(u.bal, t, This) >= Bal(s.bal, t, This) + if t == p.token then p.amount else 0
  }

  lemma OpenKeeps(s: State, u: State, p: Payment)
    requires Inv(s) && Opens(s, u, p)
    ensures Inv(u)
  {
    forall t ensures Bal(u.bal, t, This) >= OwedSum(u.payments, u.settled, u.counter, t) {
      OwedSumUpdate(s.payments, s.settled, u.settled, s.counter, s.counter, p, t);
    }
  }

  lemma AcceptOpens(s: State, e: Env, customer: Address, r: Request, splits: Splits, executeAfter: nat)
    requires ValidSplits(splits) && customer != This && Accept(s, e, customer, r, splits, executeAfter).Some?
    ensures Opens(s, Accept(s, e, customer, r, splits, executeAfter).value,
                  NewPayment(s, e, customer, r, splits, executeAfter))
  {
  }

  lemma {:induction false} AcceptAllKeeps(s: State, e: Env, customer: Address, batch: seq<Request>)
    requires Inv(s) && customer != This && AcceptAll(s, e, customer, batch).Some?
    ensures Inv(AcceptAll(s, e, customer, batch).value)
  {
    if batch != [] {
      var n := |batch| - 1;
      AcceptAllKeeps(s, e, customer, batch[..n]);
      var t := AcceptAll(s, e, customer, batch[..n]).value;
      AcceptOpens(t, e, customer, batch[n], None, 0);
      OpenKeeps(t, AcceptAll(s, e, customer, batch).value, NewPayment(t, e, customer, batch[n], None, 0));
    }
  }

  /** The creation is answered from its key. */
  predicate Repeats(s: State, e: Env, c: Call)
    requires c.CreateCall?
  {
    c.key.Some? && KeyLive(s.keys, c.key.value, e.sequence)
  }

  lemma CreateOpens(s: State, e: Env, c: Call) returns (p: Payment)
    requires c.CreateCall? && Step(s, e, c).Some? && !Repeats(s, e, c)
    ensures Opens(s, Step(s, e, c).value, p)
  {
    var s1 := s.(usage := EnforceRateLimit(s.limit, s.usage, e.sequence, c.who, 1).value);
    p := NewPayment(s1, e, c.who, c.request, c.splits, c.executeAfter);
    AcceptOpens(s1, e, c.who, c.request, c.splits, c.executeAfter);
  }

  lemma CreateKeeps(s: State, e: Env, c: Call)
    requires Inv(s) && c.CreateCall? && Step(s, e, c).Some?
    ensures Inv(Step(s, e, c).value)
  {
    if !Repeats(s, e, c) {
      var p := CreateOpens(s, e, c);
      OpenKeeps(s, Step(s, e, c).value, p);
    }
  }

  lemma BatchKeeps(s: State, e: Env, c: Call)
    requires Inv(s) && c.CreateBatchCall? && Step(s, e, c).Some?
    ensures Inv(Step(s, e, c).value)
  {
    var usage := EnforceRateLimit(s.limit, s.usage, e.sequence, c.who, |c.batch|).value;
    AcceptAllKeeps(s.(usage := usage), e, c.who, c.batch);
  }

  lemma UsdcOpens(s: State, e: Env, c: Call) returns (p: Payment)
    requires c.CreateMultiTokenCall? && s.policy.usdc == Some(c.token) && Step(s, e, c).Some?
    ensures Opens(s, Step(s, e, c).value, p)
  {
    var s1 := s.(usage := EnforceRateLimit(s.limit, s.usage, e.sequence, c.who, 1).value);
    var r := Request(c.merchant, c.amount, c.token, Labels(None, None));
    AcceptOpens(s1, e, c.who, r, None, 0);
    p := NewPayment(s1, e, c.who, r, None, 0);
  }

  lemma UsdcKeeps(s: State, e: Env, c: Call)
    requires Inv(s) && c.CreateMultiTokenCall? && s.policy.usdc == Some(c.token) && Step(s, e, c).Some?
    ensures Inv(Step(s, e, c).value)
  {
    var p := UsdcOpens(s, e, c);
    OpenKeeps(s, Step(s, e, c).value, p);
  }

  // --- Settlement ---

  /** What a list of ids adds to the total by naming a payment again. */
  ghost function Repeated(payments: map<nat, Payment>, ids: seq<nat>): int {
    if ids == [] then 0
    else
      var n := |ids| - 1;
      Repeated(payments, ids[..n]) + if ids[n] in ids[..n] && ids[n] in payments then payments[ids[n]].amount else 0
  }

  lemma {:induction false} NothingRepeated(payments: map<nat, Payment>, ids: seq<nat>)
    requires NoDup(ids)
    ensures Repeated(payments, ids) == 0
  {
    if ids != [] {
      var n := |ids| - 1;
      assert ids[n] !in ids[..n];
      NothingRepeated(payments, ids[..n]);
    }
  }

  /** Settling completed payments discharges their total, each counted once. */
  lemma {:induction false} SettledOwedSum(s: State, merchant: Address, token: Address, ids: seq<nat>, t: Address)
    requires Records(s.payments, s.counter)
    requires forall i :: 0 <= i < |ids| ==> MaySettle(s, merchant, token, ids[i])
    ensures OwedSum(s.payments, s.settled + Elements(ids), s.counter, t)
            == Owed(s, t) - if t == token then TotalOf(s.payments, ids) - Repeated(s.payments, ids) else 0
  {
    if ids == [] {
      assert s.settled + Elements(ids) == s.settled;
    } else {
      var n := |ids| - 1;
      var id := ids[n];
      var before, after := s.settled + Elements(ids[..n]), s.settled + Elements(ids);
      assert ids == ids[..n] + [id];
      SettledOwedSum(s, merchant, token, ids[..n], t);
      assert MaySettle(s, merchant, token, id);
      assert s.payments[id := s.payments[id]] == s.payments;
      assert after == before + {id} && (id in before <==> id in ids[..n]);
      OwedSumUpdate(s.payments, before, after, s.counter, id, s.payments[id], t);
    }
  }

  lemma SettleUnfolds(s: State, e: Env, c: Call)
    requires c.SettleCall? && Step(s, e, c).Some?
    ensures c.ids != [] && c.ids[0] in s.payments
    ensures var u, token := Step(s, e, c).value, s.payments[c.ids[0]].token;
            && u == s.(bal := u.bal, settled := s.settled + Elements(c.ids))
            && (forall i :: 0 <= i < |c.ids| ==> MaySettle(s, c.merchant, token, c.ids[i]))
            && Moved(s.bal, u.bal, token, This, c.merchant, TotalOf(s.payments, c.ids))
  {
  }

  lemma SettleKeeps(s: State, e: Env, c: Call)
    requires Inv(s) && c.SettleCall? && NoDup(c.ids) && Step(s, e, c).Some?
    ensures Inv(Step(s, e, c).value)
  {
    var u := Step(s, e, c).value;
    SettleUnfolds(s, e, c);
    NothingRepeated(s.payments, c.ids);
    TotalNotNegative(s.payments, c.ids, s.counter);
    forall t ensures Bal(u.bal, t, This) >= OwedSum(u.payments, u.settled, u.counter, t) {
      SettledOwedSum(s, c.merchant, s.payments[c.ids[0]].token, c.ids, t);
    }
  }

  lemma {:induction false} TotalNotNegative(payments: map<nat, Payment>, ids: seq<nat>, n: nat)
    requires Records(payments, n)
    ensures TotalOf(payments, ids) >= 0
  {
    if ids != [] {
      TotalNotNegative(payments, ids[..|ids| - 1], n);
    }
  }

  // --- Runs ---

  /** No partial refund, no payment in one token recorded in another, and no settlement
      that lists an id twice. */
  ghost predicate InFragment(s: State, c: Call) {
    && !c.PartialRefundCall?
    && (c.CreateMultiTokenCall? ==> s.policy.usdc == Some(c.token))
    && (c.SettleCall? ==> NoDup(c.ids))
  }

  ghost predicate AllInFragment(s: State, run: Run)
    decreases |run|
  {
    run == [] || (InFragment(s, run[0].1) && AllInFragment(Next(s, run[0].0, run[0].1), run[1..]))
  }

  predicate Configures(c: Call) {
    c.UpdateFeeCall? || c.UpdateTiersCall? || c.UpdateRateLimitCall? || c.AdministerCall? || c.OutsideCall?
  }

  lemma ConfigureKeeps(s: State, e: Env, c: Call)
    requires Inv(s) && Configures(c) && Step(s, e, c).Some?
    ensures Inv(Step(s, e, c).value)
  {
  }

  lemma CompleteKeeps(s: State, e: Env, c: Call)
    requires Inv(s) && Completes(c) && Step(s, e, c).Some?
    ensures Inv(Step(s, e, c).value)
  {
    var q := CompleteDisburses(s, e, c.id, c.ExecuteScheduledCall?);
    DisburseKeeps(s, Step(s, e, c).value, c.id, q, s.payments[c.id].amount);
  }

  lemma StepKeeps(s: State, e: Env, c: Call)
    requires Inv(s) && InFragment(s, c)
    ensures Inv(Next(s, e, c))
  {
    if Step(s, e, c).Some? {
      if Completes(c) {
        CompleteKeeps(s, e, c);
      } else if ChangesOne(c) {
        var id, q, out := OneDisburses(s, e, c);
        DisburseKeeps(s, Step(s, e, c).value, id, q, out);
      } else if c.CreateCall? {
        CreateKeeps(s, e, c);
      } else if c.CreateBatchCall? {
        BatchKeeps(s, e, c);
      } else if c.CreateMultiTokenCall? {
        UsdcKeeps(s, e, c);
      } else if c.SettleCall? {
        SettleKeeps(s, e, c);
      } else {
        ConfigureKeeps(s, e, c);
      }
    }
  }

  lemma {:induction false} RunKeeps(s: State, run: Run)
    requires Inv(s) && AllInFragment(s, run)
    ensures Inv(Exec(s, run))
    decreases |run|
  {
    if run != [] {
      StepKeeps(s, run[0].0, run[0].1);
      RunKeeps(Next(s, run[0].0, run[0].1), run[1..]);
    }
  }

  /** From deployment on, over every run of the fragment and for every token, the contract
      holds at least the amounts of the pending, scheduled, disputed and completed but
      unsettled payments. */
  lemma PaymentsBacked(admin: Address, recipient: Address, feeBps: nat, bal: Balances, run: Run, token: Address)
    requires Init(admin, recipient, feeBps, bal).Some? && forall t :: Bal(bal, t, This) >= 0
    requires AllInFragment(Init(admin, recipient, feeBps, bal).value, run)
    ensures var s := Exec(Init(admin, recipient, feeBps, bal).value, run);
            Bal(s.bal, token, This) >= Owed(s, token)
  {
    RunKeeps(Init(admin, recipient, feeBps, bal).value, run);
  }

  // --- Outside the fragment ---

  /** A partial refund pays out without lowering the recorded amount: what is owed stays
      backed exactly when the refund closes the payment or the contract has that much to spare. */
  lemma PartialRefundBacking(s: State, e: Env, id: nat, amount: int)
    requires Inv(s) && PartialRefund(s, e, id, amount).Some?
    ensures var p, u := s.payments[id], PartialRefund(s, e, id, amount).value;
            Backed(u.bal, u.payments, u.settled, u.counter)
            <==> p.refunded + amount >= p.amount || Bal(s.bal, p.token, This) - Owed(s, p.token) >= amount
  {
    var p, u := s.payments[id], PartialRefund(s, e, id, amount).value;
    var q := u.payments[id];
    forall t
      ensures Owed(u, t) == Owed(s, t) + (if t == p.token then Due(q, id in u.settled) - Due(p, id in s.settled) else 0)
    {
      OwedSumUpdate(s.payments, s.settled, u.settled, s.counter, id, q, t);
    }
    OneTokenDecides(s, u, p.token);
  }

  /** When nothing gets worse in other tokens, one token decides the backing. */
  lemma OneTokenDecides(s: State, u: State, token: Address)
    requires Backed(s.bal, s.payments, s.settled, s.counter)
    requires forall t :: t != token ==> Owed(u, t) == Owed(s, t) && Bal(u.bal, t, This) >= Bal(s.bal, t, This)
    ensures Backed(u.bal, u.payments, u.settled, u.counter) <==> Bal(u.bal, token, This) >= Owed(u, token)
  {
    forall t | t != token ensures Bal(u.bal, t, This) >= OwedSum(u.payments, u.settled, u.counter, t) {
      assert Owed(u, t) == Owed(s, t);
    }
    assert Owed(u, token) == OwedSum(u.payments, u.settled, u.counter, token);
  }

  /** A payment taken in another token is owed in USDC all the same: it stays backed exactly
      when the contract has that much USDC to spare. */
  lemma CrossTokenBacking(s: State, e: Env, c: Call)
    requires Inv(s) && c.CreateMultiTokenCall? && s.policy.usdc != Some(c.token) && Step(s, e, c).Some?
    ensures var u, usdc := Step(s, e, c).value, s.policy.usdc.value;
            Backed(u.bal, u.payments, u.settled, u.counter)
            <==> Bal(s.bal, usdc, This) - Owed(s, usdc) >= c.amount
  {
    CrossTokenTakes(s, e, c);
    CrossTokenOwes(s, Step(s, e, c).value, s.policy.usdc.value, c.amount);
  }

  lemma CrossTokenOwes(s: State, u: State, usdc: Address, amount: int)
    requires Inv(s) && u.settled == s.settled && u.counter == s.counter + 1 && s.counter in u.payments
    requires u.payments == s.payments[s.counter := u.payments[s.counter]]
    requires var q := u.payments[s.counter]; q.status == Pending && q.amount == amount && q.token == usdc
    requires forall t ::
               Bal(u.bal, t, This) >= Bal(s.bal, t, This)
               && (t == usdc ==> Bal(u.bal, t, This) == Bal(s.bal, t, This))
    ensures Backed(u.bal, u.payments, u.settled, u.counter) <==> Bal(s.bal, usdc, This) - Owed(s, usdc) >= amount
  {
    forall t ensures Owed(u, t) == Owed(s, t) + if t == usdc then amount else 0 {
      OwedSumUpdate(s.payments, s.settled, u.settled, s.counter, s.counter, u.payments[s.counter], t);
    }
    OneTokenDecides(s, u, usdc);
  }

  lemma CrossTokenTakes(s: State, e: Env, c: Call)
    requires c.CreateMultiTokenCall? && s.policy.usdc != Some(c.token) && Step(s, e, c).Some?
    ensures var u, usdc := Step(s, e, c).value, s.policy.usdc.value;
            && s.policy.usdc.Some? && u.settled == s.settled && u.counter == s.counter + 1
            && s.counter in u.payments && u.payments == s.payments[s.counter := u.payments[s.counter]]
            && u.payments[s.counter].status == Pending && u.payments[s.counter].amount == c.amount
            && u.payments[s.counter].token == usdc
            && forall t ::
                 Bal(u.bal, t, This) >= Bal(s.bal, t, This)
                 && (t == usdc ==> Bal(u.bal, t, This) == Bal(s.bal, t, This))
  {
  }

  /** A payment listed twice is settled once and paid twice: what is owed stays backed
      exactly when the contract has what is paid again to spare. */
  lemma SettlementBacking(s: State, e: Env, c: Call)
    requires Inv(s) && c.SettleCall? && c.merchant != This && Step(s, e, c).Some?
    ensures c.ids != [] && c.ids[0] in s.payments
    ensures var u, token := Step(s, e, c).value, s.payments[c.ids[0]].token;
            Backed(u.bal, u.payments, u.settled, u.counter)
            <==> Bal(s.bal, token, This) - Owed(s, token) >= Repeated(s.payments, c.ids)
  {
    SettleUnfolds(s, e, c);
    var u, token := Step(s, e, c).value, s.payments[c.ids[0]].token;
    forall t
      ensures Owed(u, t)
              == Owed(s, t) - if t == token then TotalOf(s.payments, c.ids) - Repeated(s.payments, c.ids) else 0
    {
      SettledOwedSum(s, c.merchant, token, c.ids, t);
    }
    OneTokenDecides(s, u, token);
  }

  /** In particular, an id listed twice leaves an exactly backed contract short by its amount. */
  lemma DuplicateSettlementShort(s: State, e: Env, c: Call, id: nat)
    requires Inv(s) && c.SettleCall? && c.ids == [id, id] && c.merchant != This && Step(s, e, c).Some?
    requires s.payments[id].amount > 0 && Bal(s.bal, s.payments[id].token, This) == Owed(s, s.payments[id].token)
    ensures var u := Step(s, e, c).value; !Backed(u.bal, u.payments, u.settled, u.counter)
  {
    SettlementBacking(s, e, c);
    assert [id, id][..1] == [id] && [id][..0] == [];
    assert Repeated(s.payments, [id]) == 0;
  }

  // --- The merchant allowlist ---

  /** With the allowlist in force, a payment for a merchant not on it is refused, unless it
      is paid in another token: then it is taken exactly when it would be in open mode. */
  lemma AllowlistOnlyForUsdc(s: State, e: Env, c: Call)
    requires c.CreateMultiTokenCall? && !MerchantAccepted(s.policy, c.merchant)
    ensures Step(s, e, c).Some?
            <==> s.policy.usdc != Some(c.token) && Step(s.(policy := s.policy.(openMode := true)), e, c).Some?
  {
    if s.policy.usdc.Some? && s.policy.usdc != Some(c.token) && c.amount > 0 {
      SameQuote(s, s.(policy := s.policy.(openMode := true)), e, c);
    }
  }

  lemma SameQuote(s: State, s': State, e: Env, c: Call)
    requires c.CreateMultiTokenCall? && c.amount > 0 && s' == s.(policy := s.policy.(openMode := true))
    ensures Quote(s', e, c.amount, c.slippage, c.quote) == Quote(s, e, c.amount, c.slippage, c.quote)
  {
  }

  lemma AllowlistBindsCreate(s: State, e: Env, c: Call)
    requires c.CreateCall? && !MerchantAccepted(s.policy, c.request.merchant) && !Repeats(s, e, c)
    ensures Step(s, e, c).None?
  {
  }

  lemma {:induction false} AllowlistBindsAll(s: State, e: Env, customer: Address, batch: seq<Request>, i: nat)
    requires i < |batch| && !MerchantAccepted(s.policy, batch[i].merchant)
    ensures AcceptAll(s, e, customer, batch).None?
  {
    var n := |batch| - 1;
    if i < n {
      AllowlistBindsAll(s, e, customer, batch[..n], i);
    }
  }

  // --- Finality ---

  ghost predicate ClosedIn(s: State, id: nat, p: Payment) {
    id in s.payments && id < s.counter && s.payments[id] == p && Closed(p, id in s.settled)
  }

  lemma {:induction false} AcceptAllLater(s: State, e: Env, customer: Address, batch: seq<Request>, id: nat)
    requires id in s.payments && id < s.counter && AcceptAll(s, e, customer, batch).Some?
    ensures var u := AcceptAll(s, e, customer, batch).value;
            id in u.payments && u.payments[id] == s.payments[id] && id < u.counter
  {
    if batch != [] {
      AcceptAllLater(s, e, customer, batch[..|batch| - 1], id);
    }
  }

  /** The record of `id` is as it was. */
  ghost predicate Unchanged(s: State, u: State, id: nat) {
    id in u.payments && id in s.payments && u.payments[id] == s.payments[id] && id < u.counter && u.settled == s.settled
  }

  lemma SingleLater(s: State, e: Env, c: Call, id: nat)
    requires id in s.payments && id < s.counter && c.CreateCall? && Step(s, e, c).Some?
    ensures Unchanged(s, Step(s, e, c).value, id)
  {
  }

  lemma MultiTokenLater(s: State, e: Env, c: Call, id: nat)
    requires id in s.payments && id < s.counter && c.CreateMultiTokenCall? && Step(s, e, c).Some?
    ensures Unchanged(s, Step(s, e, c).value, id)
  {
  }

  lemma CreateLater(s: State, e: Env, c: Call, id: nat)
    requires id in s.payments && id < s.counter && Creates(c) && Step(s, e, c).Some?
    ensures Unchanged(s, Step(s, e, c).value, id)
  {
    if c.CreateBatchCall? {
      var usage := EnforceRateLimit(s.limit, s.usage, e.sequence, c.who, |c.batch|).value;
      AcceptAllLater(s.(usage := usage), e, c.who, c.batch, id);
    } else if c.CreateCall? {
      SingleLater(s, e, c, id);
    } else {
      MultiTokenLater(s, e, c, id);
    }
  }

  lemma CompleteLater(s: State, e: Env, c: Call, id: nat, p: Payment)
    requires ClosedIn(s, id, p) && Completes(c) && Step(s, e, c).Some?
    ensures ClosedIn(Step(s, e, c).value, id, p)
  {
    var q := s.payments[c.id];
    CompleteRecords(s, e, c.id, q, Share(q.amount, FeeRate(s, e, q)));
  }

  lemma OneLater(s: State, e: Env, c: Call, id: nat, p: Payment)
    requires ClosedIn(s, id, p) && ChangesOne(c) && Step(s, e, c).Some?
    ensures ClosedIn(Step(s, e, c).value, id, p)
  {
  }

  lemma OtherLater(s: State, e: Env, c: Call, id: nat, p: Payment)
    requires ClosedIn(s, id, p) && !Creates(c) && !Completes(c) && !ChangesOne(c) && Step(s, e, c).Some?
    ensures ClosedIn(Step(s, e, c).value, id, p)
  {
  }

  lemma StepLater(s: State, e: Env, c: Call, id: nat, p: Payment)
    requires ClosedIn(s, id, p)
    ensures ClosedIn(Next(s, e, c), id, p)
  {
    if Step(s, e, c).Some? {
      if Creates(c) {
        CreateLater(s, e, c, id);
      } else if Completes(c) {
        CompleteLater(s, e, c, id, p);
      } else if ChangesOne(c) {
        OneLater(s, e, c, id, p);
      } else {
        OtherLater(s, e, c, id, p);
      }
    }
  }

  /** Whatever is called afterwards, partial refunds and settlements included, a payment
      that is closed stays as it is: it is never paid, returned or reopened again. */
  lemma {:induction false} ClosedForGood(s: State, run: Run, id: nat, p: Payment)
    requires ClosedIn(s, id, p)
    ensures ClosedIn(Exec(s, run), id, p)
    decreases |run|
  {
    if run != [] {
      StepLater(s, run[0].0, run[0].1, id, p);
      ClosedForGood(Next(s, run[0].0, run[0].1), run[1..], id, p);
    }
  }

  // --- Oracle prices ---

  /** A payment in another token takes the largest whole amount that is worth no more than
      the price asked, and falls short of it by no more than the tolerance. */
  lemma QuoteFair(s: State, e: Env, amount: int, slippage: nat, quote: Option<Price>)
    requires amount > 0 && Quote(s, e, amount, slippage, quote).Some?
    ensures quote.Some? && quote.value.price > 0
    ensures var required, price := Quote(s, e, amount, slippage, quote).value, quote.value.price;
            && required > 0 && required * price <= amount * PRICE_PRECISION < required * price + price
            && (required * price) / PRICE_PRECISION <= amount
            && (amount - (required * price) / PRICE_PRECISION) * BPS < (slippage + 1) * amount
  {
    var required, price := Quote(s, e, amount, slippage, quote).value, quote.value.price;
    Floor(amount * PRICE_PRECISION, price);
    assert required * price == price * required;
    var short := amount - (required * price) / PRICE_PRECISION;
    assert short >= 0;
    Floor(short * BPS, amount);
    AtMost(amount, (short * BPS) / amount, slippage);
  }

  lemma Floor(x: int, d: int)
    requires d > 0
    ensures d * (x / d) <= x < d * (x / d) + d
  {
  }

  lemma AtMost(d: nat, q: int, n: int)
    requires q <= n
    ensures d * q + d <= (n + 1) * d
  {
    assert (n + 1) * d == d * q + d + d * (n - q);
    assert d * (n - q) >= 0;
  }
}
