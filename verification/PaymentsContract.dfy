/**
 The payments contract as the object it is: storage fields that the entry points load,
 change and store in loops, with the host's rollback when a call traps after its first
 write. Every method is proved to do what `PaymentsModel` says.
 */
module PaymentsContract {
  import opened Common
  import opened Ledger
  import opened Sums
  import Model = PaymentsModel
  import opened PaymentsModel

  class Contract {
    var policy: Policy
    var fees: Fees
    var limit: RateLimit
    var usage: map<Address, Usage>
    var counter: nat
    var payments: map<nat, Payment>
    var settled: set<nat>
    var keys: map<nat, Key>
    var buckets: map<(Address, nat), int>
    var currentTier: map<Address, nat>
    var completions: seq<Completion>
    var bal: Balances

    function View(): State
      reads this
    {
      State(policy, fees, limit, usage, counter, payments, settled, keys, buckets, currentTier, completions, bal)
    }

    constructor (s: State)
      ensures View() == s
    {
      policy, fees, limit, usage, counter := s.policy, s.fees, s.limit, s.usage, s.counter;
      payments, settled, keys := s.payments, s.settled, s.keys;
      buckets, currentTier, completions, bal := s.buckets, s.currentTier, s.completions, s.bal;
    }

    /** Deploys the contract, or returns null when the initialisation traps. */
    static method Deploy(admin: Address, feeRecipient: Address, feeBps: nat, bal: Balances) returns (c: Contract?)
      ensures c == null <==> Init(admin, feeRecipient, feeBps, bal).None?
      ensures c != null ==> fresh(c) && Some(c.View()) == Init(admin, feeRecipient, feeBps, bal)
    {
      if feeBps > MAX_FEE {
        return null;
      }
      var policy := Policy(admin, false, feeRecipient, DEFAULT_TIMEOUT, DEFAULT_BATCH, true, {}, None, 0);
      c := new Contract(State(policy, Fees(feeBps, []), RateLimit(U32_MAX, 1), map[], 0, map[], {}, map[], map[], map[],
                              [], bal));
    }

    /** What the host does when a call traps: nothing else has been written by then. */
    method Rollback(s: State)
      requires View() == s.(usage := usage, counter := counter, payments := payments, bal := bal)
      modifies `usage, `counter, `payments, `bal
      ensures View() == s
    {
      usage, counter, payments, bal := s.usage, s.counter, s.payments, s.bal;
    }

    // --- Creation ---

    method EnforceLimit(sequence: nat, customer: Address, n: nat) returns (ok: bool)
      modifies `usage
      ensures ok ==> EnforceRateLimit(limit, old(usage), sequence, customer, n) == Some(usage)
      ensures !ok ==> EnforceRateLimit(limit, old(usage), sequence, customer, n) == None && usage == old(usage)
    {
      if n == 0 {
        return true;
      }
      var state := if customer in usage then usage[customer] else Usage(0, sequence);
      if SaturatingSub(sequence, state.start) >= limit.window {
        state := Usage(0, sequence);
      }
      var count := Min(state.count + n, U32_MAX);
      if count > limit.maxPayments {
        return false;
      }
      usage := usage[customer := state.(count := count)];
      ok := true;
    }

    static method CheckSplits(splits: Splits) returns (ok: bool)
      ensures ok == ValidSplits(splits)
    {
      if splits.None? {
        return true;
      }
      var list := splits.value;
      if list == [] {
        return false;
      }
      var total := 0;
      for i := 0 to |list|
        invariant total == SumSeq(BpsOf(list)[..i])
        invariant forall j :: 0 <= j < i ==> list[j].1 > 0
      {
        assert BpsOf(list)[..i + 1][..i] == BpsOf(list)[..i];
        if list[i].1 == 0 {
          return false;
        }
        total := total + list[i].1;
      }
      assert BpsOf(list)[..|list|] == BpsOf(list);
      ok := total == BPS;
    }

    static method CheckLabels(l: Labels) returns (ok: bool)
      ensures ok == ValidLabels(l)
    {
      if l.reference.Some? && |l.reference.value| > MAX_REFERENCE {
        return false;
      }
      if l.metadata.None? {
        return true;
      }
      var m := l.metadata.value;
      if |m| > MAX_METADATA {
        return false;
      }
      var rest := m.Keys;
      while rest != {}
        invariant rest <= m.Keys
        invariant forall k :: k in m && k !in rest ==> |k| <= MAX_LABEL && |m[k]| <= MAX_LABEL
        decreases |rest|
      {
        var k: string :| k in rest;
        if |k| > MAX_LABEL || |m[k]| > MAX_LABEL {
          return false;
        }
        rest := rest - {k};
      }
      ok := true;
    }

    method TakePayment(e: Env, customer: Address, r: Request, splits: Splits, executeAfter: nat) returns (ok: bool)
      modifies `counter, `payments, `bal
      ensures Outcome(Accept(old(View()), e, customer, r, splits, executeAfter), old(View()), ok, View())
    {
      if r.amount <= 0 {
        return false;
      }
      ok := CheckLabels(r.labels);
      if !ok || !(policy.openMode || r.merchant in policy.approved) {
        return false;
      }
      var moved := Transfer(bal, r.token, customer, This, r.amount);
      if moved.None? {
        return false;
      }
      var status := if executeAfter > e.now then ScheduledPending else Pending;
      var p := Payment(customer, r.merchant, r.amount, r.token, status, e.now, e.now + policy.timeout, 0, splits,
                       executeAfter);
      bal := moved.value;
      payments := payments[counter := p];
      counter := counter + 1;
      ok := true;
    }

    method Create(e: Env, customer: Address, r: Request, splits: Splits, executeAfter: nat, key: Option<nat>)
      returns (id: Option<nat>)
      modifies `usage, `counter, `payments, `keys, `bal
      ensures match Model.Create(old(View()), e, customer, r, splits, executeAfter, key)
              case Some(v) => View() == v.0 && id == Some(v.1)
              case None => View() == old(View()) && id == None
    {
      if policy.paused || !e.Authorised(customer) {
        return None;
      }
      if key.Some? && KeyLive(keys, key.value, e.sequence) {
        return Some(keys[key.value].id);
      }
      var saved := View();
      var ok := EnforceLimit(e.sequence, customer, 1);
      if !ok {
        return None;
      }
      ok := CheckSplits(splits);
      if ok {
        ok := TakePayment(e, customer, r, splits, executeAfter);
      }
      if !ok {
        Rollback(saved);
        return None;
      }
      if key.Some? {
        keys := keys[key.value := Key(saved.counter, e.sequence + KEY_LIFETIME)];
      }
      id := Some(saved.counter);
    }

    /** Creates every payment of the batch or none; the ids are contiguous. */
    method CreateBatch(e: Env, customer: Address, batch: seq<Request>) returns (ok: bool, ids: seq<nat>)
      modifies `usage, `counter, `payments, `bal
      ensures Outcome(Model.CreateBatch(old(View()), e, customer, batch), old(View()), ok, View())
      ensures ok ==> |ids| == |batch| && forall i :: 0 <= i < |ids| ==> ids[i] == old(counter) + i
    {
      ids := [];
      if policy.paused || !e.Authorised(customer) || batch == [] {
        return false, [];
      }
      var saved := View();
      ok := EnforceLimit(e.sequence, customer, |batch|);
      if !ok {
        return false, [];
      }
      if |batch| <= policy.maxBatch {
        ok, ids := TakeAll(e, customer, batch);
        if ok {
          return;
        }
      }
      Rollback(saved);
      ok, ids := false, [];
    }

    /** Takes the payments of a batch one by one. On a trap some may have been taken: the
        caller rolls back. */
    method TakeAll(e: Env, customer: Address, batch: seq<Request>) returns (ok: bool, ids: seq<nat>)
      modifies `counter, `payments, `bal
      ensures ok ==> AcceptAll(old(View()), e, customer, batch) == Some(View())
      ensures !ok ==> AcceptAll(old(View()), e, customer, batch) == None
      ensures ok ==> |ids| == |batch| && forall i :: 0 <= i < |ids| ==> ids[i] == old(counter) + i
    {
      ids := [];
      ghost var s := View();
      for i := 0 to |batch|
        invariant AcceptAll(s, e, customer, batch[..i]) == Some(View())
        invariant |ids| == i && forall j :: 0 <= j < i ==> ids[j] == s.counter + j
      {
        assert batch[..i + 1][..i] == batch[..i];
        ids := ids + [counter];
        ok := TakePayment(e, customer, batch[i], None, 0);
        if !ok {
          AcceptAllTraps(s, e, customer, batch, i + 1);
          return;
        }
      }
      assert batch[..|batch|] == batch;
      ok := true;
    }

    method CreateMultiToken(e: Env, customer: Address, merchant: Address, amount: int, token: Address, slippage: nat,
                            quote: Option<Price>) returns (ok: bool)
      modifies `usage, `counter, `payments, `bal
      ensures Outcome(Model.CreateMultiToken(old(View()), e, customer, merchant, amount, token, slippage, quote),
                      old(View()), ok, View())
    {
      if policy.paused || amount <= 0 || slippage > BPS || policy.usdc.None? || !e.Authorised(customer) {
        return false;
      }
      var saved := View();
      var usdc := policy.usdc.value;
      ok := EnforceLimit(e.sequence, customer, 1);
      if !ok {
        return;
      }
      var r := Request(merchant, amount, usdc, Labels(None, None));
      ghost var limited := View();
      if token == usdc {
        ok := TakePayment(e, customer, r, None, 0);
        assert Model.CreateMultiToken(saved, e, customer, merchant, amount, token, slippage, quote)
               == Accept(limited, e, customer, r, None, 0);
      } else {
        ok := TakeConverted(e, customer, r, token, slippage, quote);
      }
      if !ok {
        Rollback(saved);
      }
    }

    /** Takes what the oracle's price asks for in another token and records the amount. */
    method TakeConverted(e: Env, customer: Address, r: Request, token: Address, slippage: nat, quote: Option<Price>)
      returns (ok: bool)
      requires r.amount > 0
      modifies `counter, `payments, `bal
      ensures Outcome(AcceptConverted(old(View()), e, customer, r, token, slippage, quote), old(View()), ok, View())
    {
      if quote.None? || SaturatingSub(e.now, quote.value.timestamp) > policy.maxOracleAge || quote.value.price <= 0 {
        return false;
      }
      var price := quote.value.price;
      var required := (r.amount * PRICE_PRECISION) / price;
      if required <= 0 {
        return false;
      }
      var effective := (required * price) / PRICE_PRECISION;
      var deviation := if effective >= r.amount then effective - r.amount else r.amount - effective;
      if (deviation * BPS) / r.amount > slippage {
        return false;
      }
      assert Quote(View(), e, r.amount, slippage, quote) == Some(required);
      var moved := Transfer(bal, token, customer, This, required);
      if moved.None? {
        return false;
      }
      var p := NewPayment(View(), e, customer, r, None, 0);
      bal := moved.value;
      payments := payments[counter := p];
      counter := counter + 1;
      ok := true;
    }

    // --- Fees and volume ---

    method FeeForVolume(volume: int) returns (bps: nat)
      ensures bps == FeeBps(fees, volume)
    {
      bps := fees.bps;
      for i := 0 to |fees.tiers|
        invariant bps == Reached(fees.tiers, i, volume, fees.bps)
      {
        if volume >= fees.tiers[i].minVolume {
          bps := fees.tiers[i].bps;
        }
      }
    }

    method RollingMerchantVolume(sequence: nat, merchant: Address) returns (total: int)
      ensures total == RollingVolume(buckets, merchant, sequence / BUCKET, 4)
    {
      var current := sequence / BUCKET;
      total := 0;
      for i := 0 to 4
        invariant total == RollingVolume(buckets, merchant, current, i)
      {
        var key := (merchant, SaturatingSub(current, i));
        total := total + if key in buckets then buckets[key] else 0;
      }
    }

    static method CheckTiers(tiers: seq<Tier>) returns (ok: bool)
      ensures ok == ValidTiers(tiers)
    {
      var last := -1;
      for i := 0 to |tiers|
        invariant last == if i == 0 then -1 else tiers[i - 1].minVolume
        invariant forall j :: 0 <= j < i ==> tiers[j].bps <= MAX_FEE && tiers[j].minVolume >= 0
        invariant forall j :: 0 < j < i ==> tiers[j - 1].minVolume < tiers[j].minVolume
      {
        if tiers[i].bps > MAX_FEE || tiers[i].minVolume < 0 || tiers[i].minVolume <= last {
          return false;
        }
        last := tiers[i].minVolume;
      }
      ok := true;
    }

    // --- Completion ---

    method Pay(token: Address, to: Address, amount: int) returns (ok: bool)
      modifies `bal
      ensures ok ==> PayPositive(old(bal), token, to, amount) == Some(bal)
      ensures !ok ==> PayPositive(old(bal), token, to, amount) == None
    {
      ok := true;
      if amount > 0 {
        var moved := Transfer(bal, token, This, to, amount);
        ok := moved.Some?;
        if ok {
          bal := moved.value;
        }
      }
    }

    /** Pays each recipient its share, and what the rounding leaves to the merchant. On a
        trap some may have been paid: the caller rolls back. */
    method DistributeNet(p: Payment, net: int) returns (ok: bool)
      modifies `bal
      ensures ok ==> Distribute(old(bal), p, net) == Some(bal)
      ensures !ok ==> Distribute(old(bal), p, net) == None
    {
      if p.splits.None? || p.splits.value == [] {
        var moved := Transfer(bal, p.token, This, p.merchant, net);
        ok := moved.Some?;
        if ok {
          bal := moved.value;
        }
        return;
      }
      var splits := p.splits.value;
      var distributed := 0;
      for i := 0 to |splits|
        invariant PayShares(old(bal), p.token, net, splits, i) == Some(bal)
        invariant distributed == Distributed(net, splits, i)
      {
        var share := (net * splits[i].1) / BPS;
        ok := Pay(p.token, splits[i].0, share);
        if !ok {
          SharesTrap(old(bal), p.token, net, splits, i + 1, |splits|);
          return;
        }
        distributed := distributed + share;
      }
      ok := Pay(p.token, p.merchant, net - distributed);
    }

    method BookCompletion(e: Env, p: Payment)
      modifies `buckets, `currentTier, `completions
      ensures View() == Book(old(View()), e, p)
    {
      var bucket := e.sequence / BUCKET;
      var key := (p.merchant, bucket);
      buckets := buckets[key := (if key in buckets then buckets[key] else 0) + p.amount];
      var volume := RollingMerchantVolume(e.sequence, p.merchant);
      var tier := FeeForVolume(volume);
      var current := if p.merchant in currentTier then currentTier[p.merchant] else fees.bps;
      if current != tier {
        currentTier := currentTier[p.merchant := tier];
      }
      completions := completions + [Completion(p.merchant, bucket, p.amount)];
    }

    method CompleteInternal(e: Env, id: nat, scheduled: bool) returns (ok: bool)
      modifies `payments, `settled, `buckets, `currentTier, `completions, `bal
      ensures Outcome(Model.CompleteInternal(old(View()), e, id, scheduled), old(View()), ok, View())
    {
      if id !in payments || !MayComplete(payments[id], e, scheduled) {
        return false;
      }
      var p := payments[id];
      var before := RollingMerchantVolume(e.sequence, p.merchant);
      var rate := FeeForVolume(before + p.amount);
      assert rate == FeeRate(View(), e, p);
      ok := Disburse(e, id, p, Share(p.amount, rate));
    }

    method Disburse(e: Env, id: nat, p: Payment, fee: int) returns (ok: bool)
      modifies `payments, `settled, `buckets, `currentTier, `completions, `bal
      ensures Outcome(Model.Complete(old(View()), e, id, p, fee), old(View()), ok, View())
    {
      var saved := bal;
      var net := p.amount - fee;
      ok := Pay(p.token, policy.feeRecipient, fee);
      if ok {
        ok := DistributeNet(p, net);
      }
      if !ok {
        bal := saved;
        return;
      }
      payments := payments[id := p.(status := Completed, amount := net)];
      settled := settled + {id};
      BookCompletion(e, p);
    }

    method CompletePayment(e: Env, id: nat) returns (ok: bool)
      modifies `payments, `settled, `buckets, `currentTier, `completions, `bal
      ensures Outcome(Model.CompletePayment(old(View()), e, id), old(View()), ok, View())
    {
      if policy.paused || !e.Authorised(policy.admin) {
        return false;
      }
      ok := CompleteInternal(e, id, false);
    }

    method ExecuteScheduled(e: Env, id: nat) returns (ok: bool)
      modifies `payments, `settled, `buckets, `currentTier, `completions, `bal
      ensures Outcome(Model.ExecuteScheduled(old(View()), e, id), old(View()), ok, View())
    {
      if policy.paused {
        return false;
      }
      ok := CompleteInternal(e, id, true);
    }

    // --- Other ways out ---

    method GiveBack(id: nat, p: Payment, st: Status) returns (ok: bool)
      modifies `payments, `bal
      ensures Outcome(Model.GiveBack(old(View()), id, p, st), old(View()), ok, View())
    {
      var moved := Transfer(bal, p.token, This, p.customer, p.amount);
      ok := moved.Some?;
      if ok {
        bal := moved.value;
        payments := payments[id := p.(status := st)];
      }
    }

    method CancelScheduled(e: Env, customer: Address, id: nat) returns (ok: bool)
      modifies `payments, `bal
      ensures Outcome(Model.CancelScheduled(old(View()), e, customer, id), old(View()), ok, View())
    {
      if policy.paused || !e.Authorised(customer) || id !in payments {
        return false;
      }
      var p := payments[id];
      if p.customer != customer || p.status != ScheduledPending || e.now >= p.executeAfter {
        return false;
      }
      ok := GiveBack(id, p, Refunded);
    }

    method Expire(e: Env, id: nat) returns (ok: bool)
      modifies `payments, `bal
      ensures Outcome(Model.Expire(old(View()), e, id), old(View()), ok, View())
    {
      if policy.paused || id !in payments {
        return false;
      }
      var p := payments[id];
      if p.status != Pending || p.expiresAt == 0 || e.now < p.expiresAt {
        return false;
      }
      ok := GiveBack(id, p, Expired);
    }

    method Dispute(e: Env, customer: Address, id: nat) returns (ok: bool)
      modifies `payments
      ensures Outcome(Model.Dispute(old(View()), e, customer, id), old(View()), ok, View())
    {
      if policy.paused || !e.Authorised(customer) || id !in payments {
        return false;
      }
      var p := payments[id];
      if p.customer != customer || p.status != Pending {
        return false;
      }
      payments := payments[id := p.(status := Disputed)];
      ok := true;
    }

    method Resolve(e: Env, id: nat, toMerchant: bool) returns (ok: bool)
      modifies `payments, `settled, `bal
      ensures Outcome(Model.Resolve(old(View()), e, id, toMerchant), old(View()), ok, View())
    {
      if policy.paused || !e.Authorised(policy.admin) || id !in payments {
        return false;
      }
      var p := payments[id];
      if p.status != Disputed {
        return false;
      }
      if toMerchant {
        settled := settled - {id};
        payments := payments[id := p.(status := Completed)];
        ok := true;
      } else {
        ok := GiveBack(id, p, Refunded);
      }
    }

    method PartialRefund(e: Env, id: nat, amount: int) returns (ok: bool)
      modifies `payments, `bal
      ensures Outcome(Model.PartialRefund(old(View()), e, id, amount), old(View()), ok, View())
    {
      if policy.paused || !e.Authorised(policy.admin) || amount <= 0 || id !in payments {
        return false;
      }
      var p := payments[id];
      if (p.status != Disputed && p.status != Pending) || amount > p.amount - p.refunded {
        return false;
      }
      var moved := Transfer(bal, p.token, This, p.customer, amount);
      if moved.None? {
        return false;
      }
      bal := moved.value;
      p := p.(refunded := p.refunded + amount);
      if p.refunded >= p.amount {
        p := p.(status := Refunded);
      }
      payments := payments[id := p];
      ok := true;
    }

    // --- Settlement ---

    /** Checks every id and adds up the amounts. */
    method CheckSettlement(merchant: Address, token: Address, ids: seq<nat>) returns (ok: bool, total: int)
      ensures ok <==> forall i :: 0 <= i < |ids| ==> MaySettle(View(), merchant, token, ids[i])
      ensures ok ==> total == TotalOf(payments, ids)
    {
      total := 0;
      for i := 0 to |ids|
        invariant forall j :: 0 <= j < i ==> MaySettle(View(), merchant, token, ids[j])
        invariant total == TotalOf(payments, ids[..i])
      {
        assert ids[..i + 1][..i] == ids[..i];
        if ids[i] !in payments {
          return false, 0;
        }
        var p := payments[ids[i]];
        if p.status != Completed || p.merchant != merchant || p.token != token || ids[i] in settled {
          return false, 0;
        }
        total := total + p.amount;
      }
      assert ids[..|ids|] == ids;
      ok := true;
    }

    method Settle(e: Env, admin: Address, merchant: Address, ids: seq<nat>) returns (ok: bool)
      modifies `settled, `bal
      ensures Outcome(Model.Settle(old(View()), e, admin, merchant, ids), old(View()), ok, View())
    {
      if policy.paused || !e.Authorised(admin) || admin != policy.admin || ids == [] || |ids| > MAX_SETTLEMENT
         || ids[0] !in payments {
        return false;
      }
      var token := payments[ids[0]].token;
      var total;
      ok, total := CheckSettlement(merchant, token, ids);
      if !ok {
        return;
      }
      var moved := Transfer(bal, token, This, merchant, total);
      if moved.None? {
        return false;
      }
      bal := moved.value;
      MarkSettled(ids);
    }

    method MarkSettled(ids: seq<nat>)
      modifies `settled
      ensures settled == old(settled) + Elements(ids)
    {
      for i := 0 to |ids|
        invariant settled == old(settled) + Elements(ids[..i])
      {
        assert ids[..i + 1] == ids[..i] + [ids[i]];
        settled := settled + {ids[i]};
      }
      assert ids[..|ids|] == ids;
    }

    // --- Administration of fees and limits ---

    method UpdateFee(e: Env, admin: Address, bps: nat) returns (ok: bool)
      modifies `fees
      ensures Outcome(Model.UpdateFee(old(View()), e, admin, bps), old(View()), ok, View())
    {
      if policy.paused || !e.Authorised(admin) || admin != policy.admin || bps > MAX_FEE {
        return false;
      }
      fees := fees.(bps := bps);
      ok := true;
    }

    method UpdateTiers(e: Env, admin: Address, tiers: seq<Tier>) returns (ok: bool)
      modifies `fees
      ensures Outcome(Model.UpdateTiers(old(View()), e, admin, tiers), old(View()), ok, View())
    {
      if policy.paused || !e.Authorised(admin) || admin != policy.admin {
        return false;
      }
      ok := CheckTiers(tiers);
      if ok {
        fees := fees.(tiers := tiers);
      }
    }

    method UpdateRateLimit(e: Env, admin: Address, limit: RateLimit) returns (ok: bool)
      modifies `limit
      ensures Outcome(Model.UpdateRateLimit(old(View()), e, admin, limit), old(View()), ok, View())
    {
      if policy.paused || !e.Authorised(admin) || admin != policy.admin || limit.maxPayments == 0 || limit.window == 0 {
        return false;
      }
      this.limit := limit;
      ok := true;
    }
  }

  /** A batch with a trapping prefix traps. */
  lemma {:induction false} AcceptAllTraps(s: State, e: Env, customer: Address, batch: seq<Request>, k: nat)
    requires k <= |batch| && AcceptAll(s, e, customer, batch[..k]) == None
    ensures AcceptAll(s, e, customer, batch) == None
    decreases |batch| - k
  {
    if k == |batch| {
      assert batch[..k] == batch;
    } else {
      assert batch[..k + 1][..k] == batch[..k];
      AcceptAllTraps(s, e, customer, batch, k + 1);
    }
  }

  lemma {:induction false} SharesTrap(bal: Balances, token: Address, net: int, splits: seq<(Address, nat)>, k: nat,
                                      n: nat)
    requires k <= n <= |splits| && PayShares(bal, token, net, splits, k) == None
    ensures PayShares(bal, token, net, splits, n) == None
    decreases n - k
  {
    if k < n {
      SharesTrap(bal, token, net, splits, k + 1, n);
    }
  }
}
