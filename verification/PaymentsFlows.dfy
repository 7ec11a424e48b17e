/**
 Where tokens go: every call moves exactly what it pays out for each payment, to the
 parties of that payment, and what a customer brings in; nothing else moves.
 */
module PaymentsFlows {
  import opened Common
  import opened Ledger
  import opened Sums
  import opened PaymentsModel
  import opened PaymentsVolume
  import opened PaymentsSafety

  // --- What a call pays on account of a payment ---

  /** What went to the protocol, to recipients and merchant on completion, back to the
      customer in full, back in part, and to the merchant by settlement. */
  datatype Outlay = Outlay(fee: int, net: int, returned: int, refunded: int, settled: int)

  function Plus(a: Outlay, b: Outlay): Outlay {
    Outlay(a.fee + b.fee, a.net + b.net, a.returned + b.returned, a.refunded + b.refunded, a.settled + b.settled)
  }

  const NOTHING := Outlay(0, 0, 0, 0, 0)

  /** `amount` for every time `id` is listed. */
  function Listed(ids: seq<nat>, id: nat, amount: int): int {
    if ids == [] then 0 else Listed(ids[..|ids| - 1], id, amount) + if ids[|ids| - 1] == id then amount else 0
  }

  /** The call gives the whole amount back to the customer. */
  predicate GivesBack(c: Call) {
    c.CancelScheduledCall? || c.ExpireCall? || (c.ResolveCall? && !c.toMerchant)
  }

  /** What a committed call pays out for payment `id` of `amount`, when it leaves `after` on
      its record: a completion leaves the net amount and pays the difference as the fee. */
  function CallPays(c: Call, id: nat, amount: int, after: int): Outlay {
    if c.SettleCall? then Outlay(0, 0, 0, 0, Listed(c.ids, id, amount))
    else if Completes(c) && c.id == id then Outlay(amount - after, after, 0, 0, 0)
    else if GivesBack(c) && c.id == id then Outlay(0, 0, amount, 0, 0)
    else if c.PartialRefundCall? && c.id == id then Outlay(0, 0, 0, c.amount, 0)
    else NOTHING
  }

  ghost function Paid(s: State, e: Env, c: Call, id: nat): Outlay {
    if Step(s, e, c).Some? && id in s.payments && id in Step(s, e, c).value.payments
    then CallPays(c, id, s.payments[id].amount, Step(s, e, c).value.payments[id].amount)
    else NOTHING
  }

  ghost function PaidOut(s: State, run: Run, id: nat): Outlay
    decreases |run|
  {
    if run == [] then NOTHING
    else Plus(Paid(s, run[0].0, run[0].1, id), PaidOut(Next(s, run[0].0, run[0].1), run[1..], id))
  }

  // --- Who receives it ---

  /** What `a` gains by an outlay for payment `p`: the net amount goes to recipients and
      merchant, refunds to the customer, settlements to the merchant, all out of the contract. */
  function Gain(o: Outlay, p: Payment, feeTo: Address, a: Address): int {
    NetFor(p, o.net, a) + (if a == feeTo then o.fee else 0) + (if a == p.customer then o.returned + o.refunded else 0)
    + (if a == p.merchant then o.settled else 0)
    - (if a == This then o.fee + o.net + o.returned + o.refunded + o.settled else 0)
  }

  /** What `a` gains on account of payment `id` by a call that takes the records from
      `before` to `after`. */
  ghost function GainBy(before: map<nat, Payment>, c: Call, after: map<nat, Payment>, feeTo: Address, id: nat,
                        token: Address, a: Address): int
  {
    if id in before && id in after && before[id].token == token
    then Gain(CallPays(c, id, before[id].amount, after[id].amount), before[id], feeTo, a) else 0
  }

  /** The same for all payments with ids below `n`. */
  ghost function GainBySum(before: map<nat, Payment>, c: Call, after: map<nat, Payment>, feeTo: Address, n: nat,
                           token: Address, a: Address): int
  {
    if n == 0 then 0
    else GainBySum(before, c, after, feeTo, n - 1, token, a) + GainBy(before, c, after, feeTo, n - 1, token, a)
  }

  function BatchTotal(batch: seq<Request>, token: Address): int {
    if batch == [] then 0
    else BatchTotal(batch[..|batch| - 1], token)
         + if batch[|batch| - 1].token == token then batch[|batch| - 1].amount else 0
  }

  /** What a payment of `amount` in USDC takes of the token it is paid in. */
  function TakenFor(s: State, e: Env, amount: int, paidIn: Address, slippage: nat, quote: Option<Price>): int {
    if s.policy.usdc == Some(paidIn) || amount <= 0 then amount else Quote(s, e, amount, slippage, quote).GetOr(0)
  }

  /** What a creation takes from its customer if it commits. */
  function Taken(s: State, e: Env, c: Call, token: Address): int {
    match c
    case CreateCall(_, r, _, _, _) => if Repeats(s, e, c) || r.token != token then 0 else r.amount
    case CreateBatchCall(_, batch) => BatchTotal(batch, token)
    case CreateMultiTokenCall(_, _, amount, paidIn, slippage, quote) =>
      if paidIn == token then TakenFor(s, e, amount, paidIn, slippage, quote) else 0
    case _ => 0
  }

  function Brought(s: State, e: Env, c: Call, token: Address, a: Address): int {
    if !Creates(c) then 0
    else (if a == This then Taken(s, e, c, token) else 0) - (if a == c.who then Taken(s, e, c, token) else 0)
  }

  /** What other parties move among themselves or give to the contract. */
  function MovedOutside(s: State, c: Call, token: Address, a: Address): int {
    if c.OutsideCall? then Bal(c.bal, token, a) - Bal(s.bal, token, a) else 0
  }

  /** A call that takes `s` to `u` changes the balance of `a` by what it pays `a` for each
      payment, what it takes from a customer and what others move. */
  ghost predicate Flows(s: State, e: Env, c: Call, u: State, n: nat, token: Address, a: Address) {
    Bal(u.bal, token, a)
    == Bal(s.bal, token, a) + GainBySum(s.payments, c, u.payments, s.policy.feeRecipient, n, token, a)
       + Brought(s, e, c, token, a) + MovedOutside(s, c, token, a)
  }

  // --- One call ---

  lemma {:induction false} NothingReceived(splits: seq<(Address, nat)>, k: nat, a: Address)
    requires k <= |splits|
    ensures Receipts(0, splits, k, a) == 0 && Distributed(0, splits, k) == 0
  {
    if k > 0 {
      NothingReceived(splits, k - 1, a);
      assert 0 * splits[k - 1].1 == 0;
    }
  }

  lemma NoNet(p: Payment, a: Address)
    ensures NetFor(p, 0, a) == 0
  {
    if p.splits.Some? {
      NothingReceived(p.splits.value, |p.splits.value|, a);
    }
  }

  lemma NoGain(p: Payment, feeTo: Address, a: Address)
    ensures Gain(NOTHING, p, feeTo, a) == 0
  {
    NoNet(p, a);
  }

  /** The call pays for no payment but `id`. */
  predicate PaysOnly(c: Call, id: nat) {
    !c.SettleCall? && ((Completes(c) || GivesBack(c) || c.PartialRefundCall?) ==> c.id == id)
  }

  lemma OtherGain(before: map<nat, Payment>, c: Call, after: map<nat, Payment>, feeTo: Address, id: nat, i: nat,
                  token: Address, a: Address)
    requires PaysOnly(c, id) && i != id
    ensures GainBy(before, c, after, feeTo, i, token, a) == 0
  {
    if i in before && i in after {
      NoGain(before[i], feeTo, a);
    }
  }

  lemma {:induction false} GainsOf(before: map<nat, Payment>, c: Call, after: map<nat, Payment>, feeTo: Address,
                                   id: nat, n: nat, token: Address, a: Address)
    requires PaysOnly(c, id)
    ensures GainBySum(before, c, after, feeTo, n, token, a)
            == if id < n then GainBy(before, c, after, feeTo, id, token, a) else 0
  {
    if n > 0 {
      GainsOf(before, c, after, feeTo, id, n - 1, token, a);
      if n - 1 != id {
        OtherGain(before, c, after, feeTo, id, n - 1, token, a);
      }
    }
  }

  predicate PaysNothing(c: Call) {
    !c.SettleCall? && !Completes(c) && !GivesBack(c) && !c.PartialRefundCall?
  }

  lemma {:induction false} GainsNothing(before: map<nat, Payment>, c: Call, after: map<nat, Payment>, feeTo: Address,
                                        n: nat, token: Address, a: Address)
    requires PaysNothing(c)
    ensures GainBySum(before, c, after, feeTo, n, token, a) == 0
  {
    if n > 0 {
      GainsNothing(before, c, after, feeTo, n - 1, token, a);
      if n - 1 in before && n - 1 in after {
        NoGain(before[n - 1], feeTo, a);
      }
    }
  }

  /** What `a` gains when `p` is completed for a fee. */
  function CompletionGain(p: Payment, fee: int, feeTo: Address, token: Address, a: Address): int {
    if p.token != token then 0
    else NetFor(p, p.amount - fee, a) + (if a == feeTo then fee else 0) - (if a == This then p.amount else 0)
  }

  lemma CompleteGain(before: map<nat, Payment>, c: Call, after: map<nat, Payment>, feeTo: Address, fee: int,
                     token: Address, a: Address)
    requires Completes(c) && c.id in before && c.id in after && after[c.id].amount == before[c.id].amount - fee
    ensures GainBy(before, c, after, feeTo, c.id, token, a) == CompletionGain(before[c.id], fee, feeTo, token, a)
  {
  }

  lemma CompleteUnfolds(s: State, e: Env, c: Call, u: State) returns (fee: int)
    requires Sound(s) && Completes(c) && Step(s, e, c) == Some(u)
    ensures c.id in s.payments && ValidSplits(s.payments[c.id].splits) && 0 <= fee <= s.payments[c.id].amount
    ensures Complete(s, e, c.id, s.payments[c.id], fee) == Some(u)
  {
    var p := s.payments[c.id];
    fee := Share(p.amount, FeeRate(s, e, p));
    FeeCharged(s, e, p);
  }

  lemma CompleteMoves(s: State, e: Env, id: nat, p: Payment, fee: int, u: State, token: Address, a: Address)
    requires ValidSplits(p.splits) && 0 <= fee <= p.amount && Complete(s, e, id, p, fee) == Some(u)
    ensures id in u.payments && u.payments[id].amount == p.amount - fee
    ensures Bal(u.bal, token, a) == Bal(s.bal, token, a) + CompletionGain(p, fee, s.policy.feeRecipient, token, a)
  {
    CompleteRecords(s, e, id, p, fee);
    CompletePays(s, e, id, p, fee);
  }

  lemma CompletedFlows(s: State, e: Env, c: Call, fee: int, u: State, n: nat, token: Address, a: Address)
    requires Completes(c) && c.id in s.payments && c.id in u.payments && c.id < n
    requires u.payments[c.id].amount == s.payments[c.id].amount - fee
    requires Bal(u.bal, token, a)
             == Bal(s.bal, token, a) + CompletionGain(s.payments[c.id], fee, s.policy.feeRecipient, token, a)
    ensures Flows(s, e, c, u, n, token, a)
  {
    CompleteGain(s.payments, c, u.payments, s.policy.feeRecipient, fee, token, a);
    GainsOf(s.payments, c, u.payments, s.policy.feeRecipient, c.id, n, token, a);
  }

  lemma CompleteFlows(s: State, e: Env, c: Call, u: State, n: nat, token: Address, a: Address)
    requires Sound(s) && Completes(c) && Step(s, e, c) == Some(u) && s.counter <= n
    ensures Flows(s, e, c, u, n, token, a)
  {
    var fee := CompleteUnfolds(s, e, c, u);
    CompleteMoves(s, e, c.id, s.payments[c.id], fee, u, token, a);
    CompletedFlows(s, e, c, fee, u, n, token, a);
  }

  /** A cancelled, expired or rejected payment goes back to its customer in full, and a
      partial refund goes there too; no other balance changes. */
  lemma CustomerGetsBack(s: State, e: Env, c: Call)
    requires (GivesBack(c) || c.PartialRefundCall?) && Step(s, e, c).Some?
    ensures c.id in s.payments && c.id in Step(s, e, c).value.payments
    ensures var p, u := s.payments[c.id], Step(s, e, c).value;
            Moved(s.bal, u.bal, p.token, This, p.customer, if c.PartialRefundCall? then c.amount else p.amount)
  {
  }

  lemma BackGain(before: map<nat, Payment>, c: Call, after: map<nat, Payment>, feeTo: Address, token: Address,
                 a: Address)
    requires (GivesBack(c) || c.PartialRefundCall?) && c.id in before && c.id in after
    ensures var p := before[c.id];
            var amount := if c.PartialRefundCall? then c.amount else p.amount;
            GainBy(before, c, after, feeTo, c.id, token, a)
            == if p.token == token
               then (if a == p.customer then amount else 0) - (if a == This then amount else 0) else 0
  {
    NoNet(before[c.id], a);
  }

  lemma BackMoves(s: State, e: Env, c: Call, u: State, token: Address, a: Address)
    requires (GivesBack(c) || c.PartialRefundCall?) && Step(s, e, c) == Some(u)
    ensures c.id in s.payments
    ensures Bal(u.bal, token, a)
            == Bal(s.bal, token, a) + GainBy(s.payments, c, u.payments, s.policy.feeRecipient, c.id, token, a)
  {
    CustomerGetsBack(s, e, c);
    BackGain(s.payments, c, u.payments, s.policy.feeRecipient, token, a);
  }

  lemma BackFlows(s: State, e: Env, c: Call, u: State, n: nat, token: Address, a: Address)
    requires Sound(s) && (GivesBack(c) || c.PartialRefundCall?) && Step(s, e, c) == Some(u) && s.counter <= n
    ensures Flows(s, e, c, u, n, token, a)
  {
    BackMoves(s, e, c, u, token, a);
    GainsOf(s.payments, c, u.payments, s.policy.feeRecipient, c.id, n, token, a);
  }

  lemma {:induction false} ListedSome(ids: seq<nat>, id: nat, amount: int)
    ensures id !in ids ==> Listed(ids, id, amount) == 0
  {
    if ids != [] {
      ListedSome(ids[..|ids| - 1], id, amount);
    }
  }

  /** What a list of ids is worth in `token`, payment by payment. */
  ghost function ListedSum(payments: map<nat, Payment>, ids: seq<nat>, n: nat, token: Address): int {
    if n == 0 then 0
    else ListedSum(payments, ids, n - 1, token)
         + if n - 1 in payments && payments[n - 1].token == token then Listed(ids, n - 1, payments[n - 1].amount) else 0
  }

  lemma {:induction false} ListedNext(payments: map<nat, Payment>, ids: seq<nat>, n: nat, token: Address)
    requires ids != []
    ensures var id := ids[|ids| - 1];
            ListedSum(payments, ids, n, token)
            == ListedSum(payments, ids[..|ids| - 1], n, token)
               + if id < n && id in payments && payments[id].token == token then payments[id].amount else 0
  {
    if n > 0 {
      ListedNext(payments, ids, n - 1, token);
    }
  }

  lemma {:induction false} NoneListed(payments: map<nat, Payment>, n: nat, token: Address)
    ensures ListedSum(payments, [], n, token) == 0
  {
    if n > 0 {
      NoneListed(payments, n - 1, token);
    }
  }

  lemma {:induction false} ListedIsTotal(s: State, merchant: Address, token: Address, ids: seq<nat>, n: nat, t: Address)
    requires Records(s.payments, s.counter) && s.counter <= n
    requires forall i :: 0 <= i < |ids| ==> MaySettle(s, merchant, token, ids[i])
    ensures ListedSum(s.payments, ids, n, t) == if t == token then TotalOf(s.payments, ids) else 0
  {
    if ids == [] {
      NoneListed(s.payments, n, t);
    } else {
      ListedIsTotal(s, merchant, token, ids[..|ids| - 1], n, t);
      ListedNext(s.payments, ids, n, t);
      assert MaySettle(s, merchant, token, ids[|ids| - 1]);
    }
  }

  lemma SettleGain(before: map<nat, Payment>, c: Call, feeTo: Address, id: nat, t: Address, a: Address)
    requires c.SettleCall? && id in before && (id in c.ids ==> before[id].merchant == c.merchant)
    ensures var listed := if before[id].token == t then Listed(c.ids, id, before[id].amount) else 0;
            GainBy(before, c, before, feeTo, id, t, a)
            == (if a == c.merchant then listed else 0) - (if a == This then listed else 0)
  {
    NoNet(before[id], a);
    ListedSome(c.ids, id, before[id].amount);
  }

  lemma {:induction false} SettleGains(before: map<nat, Payment>, c: Call, feeTo: Address, n: nat, t: Address,
                                       a: Address)
    requires c.SettleCall? && forall id: nat :: id in c.ids && id in before ==> before[id].merchant == c.merchant
    ensures GainBySum(before, c, before, feeTo, n, t, a)
            == (if a == c.merchant then ListedSum(before, c.ids, n, t) else 0)
               - (if a == This then ListedSum(before, c.ids, n, t) else 0)
  {
    if n > 0 {
      SettleGains(before, c, feeTo, n - 1, t, a);
      if n - 1 in before {
        SettleGain(before, c, feeTo, n - 1, t, a);
      }
    }
  }

  lemma SettleFlows(s: State, e: Env, c: Call, u: State, n: nat, t: Address, a: Address)
    requires Sound(s) && c.SettleCall? && Step(s, e, c) == Some(u) && s.counter <= n
    ensures Flows(s, e, c, u, n, t, a)
  {
    SettleUnfolds(s, e, c);
    var token := s.payments[c.ids[0]].token;
    forall id: nat | id in c.ids ensures s.payments[id].merchant == c.merchant {
      var i :| 0 <= i < |c.ids| && c.ids[i] == id;
      assert MaySettle(s, c.merchant, token, c.ids[i]);
    }
    SettleGains(s.payments, c, s.policy.feeRecipient, n, t, a);
    ListedIsTotal(s, c.merchant, token, c.ids, n, t);
  }

  lemma {:induction false} AcceptAllTakes(s: State, e: Env, customer: Address, batch: seq<Request>)
    requires AcceptAll(s, e, customer, batch).Some?
    ensures forall t, a ::
              Bal(AcceptAll(s, e, customer, batch).value.bal, t, a)
              == Bal(s.bal, t, a) + (if a == This then BatchTotal(batch, t) else 0)
                 - (if a == customer then BatchTotal(batch, t) else 0)
  {
    if batch != [] {
      AcceptAllTakes(s, e, customer, batch[..|batch| - 1]);
    }
  }

  lemma BatchTakes(s: State, e: Env, c: Call, u: State, t: Address, a: Address)
    requires c.CreateBatchCall? && Step(s, e, c) == Some(u)
    ensures Bal(u.bal, t, a) == Bal(s.bal, t, a) + Brought(s, e, c, t, a)
  {
    var usage := EnforceRateLimit(s.limit, s.usage, e.sequence, c.who, |c.batch|).value;
    AcceptAllTakes(s.(usage := usage), e, c.who, c.batch);
  }

  lemma AcceptMoves(s: State, e: Env, customer: Address, r: Request, splits: Splits, executeAfter: nat, u: State)
    requires Accept(s, e, customer, r, splits, executeAfter) == Some(u)
    ensures Moved(s.bal, u.bal, r.token, customer, This, r.amount)
  {
  }

  lemma SingleUnfolds(s: State, e: Env, c: Call, u: State) returns (s1: State, v: State)
    requires c.CreateCall? && Step(s, e, c) == Some(u) && !Repeats(s, e, c)
    ensures s1 == s.(usage := s1.usage) && u.bal == v.bal
    ensures Accept(s1, e, c.who, c.request, c.splits, c.executeAfter) == Some(v)
  {
    s1 := s.(usage := EnforceRateLimit(s.limit, s.usage, e.sequence, c.who, 1).value);
    v := Accept(s1, e, c.who, c.request, c.splits, c.executeAfter).value;
  }

  lemma RepeatChangesNothing(s: State, e: Env, c: Call, u: State)
    requires c.CreateCall? && Step(s, e, c) == Some(u) && Repeats(s, e, c)
    ensures u == s
  {
  }

  lemma SingleMoves(s: State, e: Env, c: Call, u: State)
    requires c.CreateCall? && Step(s, e, c) == Some(u)
    ensures Moved(s.bal, u.bal, c.request.token, c.who, This, if Repeats(s, e, c) then 0 else c.request.amount)
  {
    if Repeats(s, e, c) {
      RepeatChangesNothing(s, e, c, u);
    } else {
      var s1, v := SingleUnfolds(s, e, c, u);
      AcceptMoves(s1, e, c.who, c.request, c.splits, c.executeAfter, v);
    }
  }

  lemma SingleTakes(s: State, e: Env, c: Call, bal: Balances, t: Address, a: Address)
    requires c.CreateCall?
    requires Moved(s.bal, bal, c.request.token, c.who, This, if Repeats(s, e, c) then 0 else c.request.amount)
    ensures Bal(bal, t, a) == Bal(s.bal, t, a) + Brought(s, e, c, t, a)
  {
  }

  lemma MultiTokenUnfolds(s: State, e: Env, c: Call, u: State) returns (s1: State)
    requires c.CreateMultiTokenCall? && Step(s, e, c) == Some(u)
    ensures s1 == s.(usage := s1.usage) && c.amount > 0 && s.policy.usdc.Some?
    ensures var r := Request(c.merchant, c.amount, s.policy.usdc.value, Labels(None, None));
            Some(u) == if s.policy.usdc == Some(c.token) then Accept(s1, e, c.who, r, None, 0)
                       else AcceptConverted(s1, e, c.who, r, c.token, c.slippage, c.quote)
  {
    s1 := s.(usage := EnforceRateLimit(s.limit, s.usage, e.sequence, c.who, 1).value);
  }

  lemma ConvertedMoves(s: State, e: Env, customer: Address, r: Request, token: Address, slippage: nat,
                       quote: Option<Price>, u: State)
    requires r.amount > 0 && AcceptConverted(s, e, customer, r, token, slippage, quote) == Some(u)
    ensures Quote(s, e, r.amount, slippage, quote).Some?
    ensures Moved(s.bal, u.bal, token, customer, This, Quote(s, e, r.amount, slippage, quote).value)
  {
  }

  lemma SameQuoteFor(s: State, s1: State, e: Env, amount: int, slippage: nat, quote: Option<Price>)
    requires amount > 0 && s1 == s.(usage := s1.usage)
    ensures Quote(s1, e, amount, slippage, quote) == Quote(s, e, amount, slippage, quote)
  {
  }

  lemma MultiTokenMoves(s: State, e: Env, c: Call, u: State)
    requires c.CreateMultiTokenCall? && Step(s, e, c) == Some(u)
    ensures Moved(s.bal, u.bal, c.token, c.who, This, TakenFor(s, e, c.amount, c.token, c.slippage, c.quote))
  {
    var s1 := MultiTokenUnfolds(s, e, c, u);
    var r := Request(c.merchant, c.amount, s.policy.usdc.value, Labels(None, None));
    if s.policy.usdc == Some(c.token) {
      AcceptMoves(s1, e, c.who, r, None, 0, u);
    } else {
      ConvertedMoves(s1, e, c.who, r, c.token, c.slippage, c.quote, u);
      SameQuoteFor(s, s1, e, c.amount, c.slippage, c.quote);
    }
  }

  lemma MultiTokenTakes(s: State, e: Env, c: Call, u: State, t: Address, a: Address)
    requires c.CreateMultiTokenCall? && Step(s, e, c) == Some(u)
    ensures Bal(u.bal, t, a) == Bal(s.bal, t, a) + Brought(s, e, c, t, a)
  {
    MultiTokenMoves(s, e, c, u);
  }

  lemma CreateFlows(s: State, e: Env, c: Call, u: State, n: nat, t: Address, a: Address)
    requires Creates(c) && Step(s, e, c) == Some(u)
    ensures Flows(s, e, c, u, n, t, a)
  {
    GainsNothing(s.payments, c, u.payments, s.policy.feeRecipient, n, t, a);
    if c.CreateBatchCall? {
      BatchTakes(s, e, c, u, t, a);
    } else if c.CreateCall? {
      SingleMoves(s, e, c, u);
      SingleTakes(s, e, c, u.bal, t, a);
    } else {
      MultiTokenTakes(s, e, c, u, t, a);
    }
  }

  lemma RestFlows(s: State, e: Env, c: Call, u: State, n: nat, t: Address, a: Address)
    requires (Configures(c) || (ChangesOne(c) && !GivesBack(c))) && Step(s, e, c) == Some(u)
    ensures Flows(s, e, c, u, n, t, a)
  {
    GainsNothing(s.payments, c, u.payments, s.policy.feeRecipient, n, t, a);
  }

  /** Whatever is called, every balance changes by exactly what the call pays for each
      payment to that holder, what it takes from a customer and what others move. */
  lemma StepFlows(s: State, e: Env, c: Call, u: State, n: nat, t: Address, a: Address)
    requires Sound(s) && Step(s, e, c) == Some(u) && s.counter <= n
    ensures Flows(s, e, c, u, n, t, a)
  {
    if Completes(c) {
      CompleteFlows(s, e, c, u, n, t, a);
    } else if GivesBack(c) || c.PartialRefundCall? {
      BackFlows(s, e, c, u, n, t, a);
    } else if c.SettleCall? {
      SettleFlows(s, e, c, u, n, t, a);
    } else if Creates(c) {
      CreateFlows(s, e, c, u, n, t, a);
    } else {
      RestFlows(s, e, c, u, n, t, a);
    }
  }

  // --- Runs ---

  /** What `a` gains over a run on account of payment `id`. */
  ghost function GainIn(s: State, run: Run, id: nat, token: Address, a: Address): int
    decreases |run|
  {
    if run == [] then 0
    else
      var e, c := run[0].0, run[0].1;
      var u := Next(s, e, c);
      (if Step(s, e, c).Some? then GainBy(s.payments, c, u.payments, s.policy.feeRecipient, id, token, a) else 0)
      + GainIn(u, run[1..], id, token, a)
  }

  ghost function GainInSum(s: State, run: Run, n: nat, token: Address, a: Address): int {
    if n == 0 then 0 else GainInSum(s, run, n - 1, token, a) + GainIn(s, run, n - 1, token, a)
  }

  /** What customers bring in and what others move, over a run. */
  ghost function ElseIn(s: State, run: Run, token: Address, a: Address): int
    decreases |run|
  {
    if run == [] then 0
    else
      var e, c := run[0].0, run[0].1;
      (if Step(s, e, c).Some? then Brought(s, e, c, token, a) + MovedOutside(s, c, token, a) else 0)
      + ElseIn(Next(s, e, c), run[1..], token, a)
  }

  /** The balance of `a` after the run is accounted for, payment by payment. */
  ghost predicate Accounted(s: State, run: Run, u: State, n: nat, token: Address, a: Address) {
    Bal(u.bal, token, a) == Bal(s.bal, token, a) + GainInSum(s, run, n, token, a) + ElseIn(s, run, token, a)
  }

  lemma {:induction false} NoGainIn(s: State, n: nat, token: Address, a: Address)
    ensures GainInSum(s, [], n, token, a) == 0
  {
    if n > 0 {
      NoGainIn(s, n - 1, token, a);
    }
  }

  lemma {:induction false} GainsInTurn(s: State, run: Run, e: Env, c: Call, u: State, n: nat, token: Address,
                                       a: Address)
    requires run != [] && run[0] == (e, c) && u == Next(s, e, c)
    ensures GainInSum(s, run, n, token, a)
            == (if Step(s, e, c).Some?
                then GainBySum(s.payments, c, u.payments, s.policy.feeRecipient, n, token, a) else 0)
               + GainInSum(u, run[1..], n, token, a)
  {
    if n > 0 {
      GainsInTurn(s, run, e, c, u, n - 1, token, a);
    }
  }

  lemma CounterStep(s: State, e: Env, c: Call)
    ensures Next(s, e, c).counter >= s.counter
  {
    if Step(s, e, c).Some? {
      if Completes(c) {
        CompleteCounter(s, e, c);
      } else if Exits(c) {
        ExitFrame(s, e, c);
      } else if Creates(c) {
        CreateCounter(s, e, c);
      } else {
        ConfigureFrame(s, e, c);
      }
    }
  }

  lemma CompleteCounter(s: State, e: Env, c: Call)
    requires Completes(c) && Step(s, e, c).Some?
    ensures Step(s, e, c).value.counter == s.counter
  {
    var p := s.payments[c.id];
    CompleteRecords(s, e, c.id, p, Share(p.amount, FeeRate(s, e, p)));
  }

  lemma CreateCounter(s: State, e: Env, c: Call)
    requires Creates(c) && Step(s, e, c).Some?
    ensures Step(s, e, c).value.counter >= s.counter
  {
  }

  lemma {:induction false} CounterGrows(s: State, run: Run)
    ensures Exec(s, run).counter >= s.counter
    decreases |run|
  {
    if run != [] {
      CounterStep(s, run[0].0, run[0].1);
      CounterGrows(Next(s, run[0].0, run[0].1), run[1..]);
    }
  }

  /** Over every run, every balance of every token changes by exactly what was paid to its
      holder for each payment, what customers brought in and what others moved. */
  lemma {:induction false} RunFlows(s: State, run: Run, u: State, n: nat, token: Address, a: Address)
    requires Sound(s) && u == Exec(s, run) && u.counter <= n
    ensures Accounted(s, run, u, n, token, a)
    decreases |run|
  {
    if run == [] {
      NoGainIn(s, n, token, a);
    } else {
      var e, c := run[0].0, run[0].1;
      var t := Next(s, e, c);
      CounterGrows(s, run);
      if Step(s, e, c).Some? {
        StepFlows(s, e, c, t, n, token, a);
      }
      StepSound(s, e, c);
      GainsInTurn(s, run, e, c, t, n, token, a);
      RunFlows(t, run[1..], u, n, token, a);
    }
  }
}
