/**
 When the calls of the payments contract go through and what they do to the records: a
 pending payment can be completed until it expires and is returned from then on.
 */
module PaymentsCalls {
  import opened Common
  import opened Ledger
  import opened Sums
  import opened PaymentsModel
  import opened PaymentsVolume
  import opened PaymentsSafety
  import opened PaymentsFlows
  import opened PaymentsLimits
  import opened PaymentsSchedule

  // --- Completion ---

  /** The payment has not expired; one without an expiry never does. */
  predicate InTime(p: Payment, now: nat) {
    p.expiresAt == 0 || now < p.expiresAt
  }

  /** A pending payment is completed by the admin, a scheduled one by anybody once it is due;
      neither after it has expired. */
  predicate MayComplete(s: State, e: Env, c: Call)
    requires Completes(c)
  {
    !s.policy.paused && c.id in s.payments &&
    var p := s.payments[c.id];
    && InTime(p, e.now)
    && (if c.CompleteCall? then p.status == Pending && Signed(e, s.policy.admin)
        else p.status == ScheduledPending && p.executeAfter <= e.now)
  }

  /** The payment is completed and settled with its net amount on record, and the whole amount
      is booked for its merchant; only that merchant's tier may change. */
  ghost predicate RecordsCompletion(s: State, e: Env, c: Call, u: State)
    requires Completes(c)
  {
    c.id in s.payments && c.id in u.payments &&
    var p := s.payments[c.id];
    var week := (p.merchant, e.sequence / 120_960);
    && u == s.(bal := u.bal, currentTier := u.currentTier,
               payments := s.payments[c.id := p.(status := Completed, amount := u.payments[c.id].amount)],
               settled := s.settled + {c.id},
               buckets := s.buckets[week := (if week in s.buckets then s.buckets[week] else 0) + p.amount],
               completions := s.completions + [Completion(p.merchant, e.sequence / 120_960, p.amount)])
    && forall m :: m != p.merchant ==>
                     (m in u.currentTier <==> m in s.currentTier)
                     && (m in s.currentTier ==> u.currentTier[m] == s.currentTier[m])
  }

  lemma CompletionNeeds(s: State, e: Env, c: Call)
    requires Completes(c) && Step(s, e, c).Some?
    ensures MayComplete(s, e, c)
  {
  }

  lemma CompletionCommits(s: State, e: Env, c: Call)
    requires PaymentsSafety.Sound(s) && Completes(c) && MayComplete(s, e, c)
    requires Bal(s.bal, s.payments[c.id].token, This) >= s.payments[c.id].amount
    ensures Step(s, e, c).Some?
  {
    var p := s.payments[c.id];
    FeeCharged(s, e, p);
    CompletePayable(s, e, c.id, p, Share(p.amount, FeeRate(s, e, p)));
  }

  lemma CompletionRecords(s: State, e: Env, c: Call, u: State)
    requires Completes(c) && Step(s, e, c) == Some(u)
    ensures RecordsCompletion(s, e, c, u)
  {
    var p := s.payments[c.id];
    CompletedFrame(s, e, c.id, p, Share(p.amount, FeeRate(s, e, p)), u);
  }

  lemma CompletedFrame(s: State, e: Env, id: nat, p: Payment, fee: int, u: State)
    requires Complete(s, e, id, p, fee) == Some(u)
    ensures var week := (p.merchant, e.sequence / BUCKET);
            u == s.(bal := u.bal, currentTier := u.currentTier,
                    payments := s.payments[id := p.(status := Completed, amount := p.amount - fee)],
                    settled := s.settled + {id},
                    buckets := s.buckets[week := BucketTotal(s.buckets, p.merchant, e.sequence / BUCKET) + p.amount],
                    completions := s.completions + [Completion(p.merchant, e.sequence / BUCKET, p.amount)])
    ensures forall m :: m != p.merchant ==>
                          (m in u.currentTier <==> m in s.currentTier)
                          && (m in s.currentTier ==> u.currentTier[m] == s.currentTier[m])
  {
  }

  // --- Calls that act on one payment ---

  /** Who may cancel, expire, dispute, decide or refund a payment, and when. */
  predicate MayAct(s: State, e: Env, c: Call)
    requires ChangesOne(c) || c.PartialRefundCall?
  {
    !s.policy.paused && c.id in s.payments &&
    var p := s.payments[c.id];
    match c
    case CancelScheduledCall(who, id) =>
      Signed(e, who) && who == p.customer && p.status == ScheduledPending && e.now < p.executeAfter
    case ExpireCall(id) => p.status == Pending && !InTime(p, e.now)
    case DisputeCall(who, id) => Signed(e, who) && who == p.customer && p.status == Pending
    case ResolveCall(id, toMerchant) => Signed(e, s.policy.admin) && p.status == Disputed
    case PartialRefundCall(id, amount) =>
      Signed(e, s.policy.admin) && (p.status == Pending || p.status == Disputed)
      && 0 < amount <= p.amount - p.refunded
  }

  /** What the call returns to the customer. */
  function Returns(p: Payment, c: Call): int
    requires ChangesOne(c) || c.PartialRefundCall?
  {
    match c
    case CancelScheduledCall(who, id) => p.amount
    case ExpireCall(id) => p.amount
    case ResolveCall(id, toMerchant) => if toMerchant then 0 else p.amount
    case PartialRefundCall(id, amount) => amount
    case _ => 0
  }

  /** The contract holds what the call returns, if it returns anything. */
  predicate CanReturn(s: State, c: Call)
    requires (ChangesOne(c) || c.PartialRefundCall?) && c.id in s.payments
  {
    var p := s.payments[c.id];
    c.DisputeCall? || (c.ResolveCall? && c.toMerchant) || Bal(s.bal, p.token, This) >= Returns(p, c)
  }

  /** What the call makes of the payment. */
  function Acted(p: Payment, c: Call): Payment
    requires ChangesOne(c) || c.PartialRefundCall?
  {
    match c
    case CancelScheduledCall(who, id) => p.(status := Refunded)
    case ExpireCall(id) => p.(status := Expired)
    case DisputeCall(who, id) => p.(status := Disputed)
    case ResolveCall(id, toMerchant) => p.(status := if toMerchant then Completed else Refunded)
    case PartialRefundCall(id, amount) =>
      p.(refunded := p.refunded + amount, status := if p.refunded + amount == p.amount then Refunded else p.status)
  }

  /** The payment is as the call leaves it and what it returns has gone to the customer; one
      decided for the merchant is still to be settled. */
  ghost predicate RecordsAct(s: State, c: Call, u: State)
    requires ChangesOne(c) || c.PartialRefundCall?
  {
    c.id in s.payments &&
    var p := s.payments[c.id];
    && Moved(s.bal, u.bal, p.token, This, p.customer, Returns(p, c))
    && u == s.(bal := u.bal, payments := s.payments[c.id := Acted(p, c)],
               settled := if c.ResolveCall? && c.toMerchant then s.settled - {c.id} else s.settled)
  }

  lemma ActCommits(s: State, e: Env, c: Call)
    requires ChangesOne(c) || c.PartialRefundCall?
    requires c.id in s.payments ==> s.payments[c.id].amount >= 0
    ensures Step(s, e, c).Some? <==> MayAct(s, e, c) && CanReturn(s, c)
  {
  }

  lemma BackRecords(s: State, e: Env, c: Call, u: State)
    requires GivesBack(c) && Step(s, e, c) == Some(u)
    ensures RecordsAct(s, c, u)
  {
  }

  lemma ActRecords(s: State, e: Env, c: Call, u: State)
    requires ChangesOne(c) && Step(s, e, c) == Some(u)
    ensures RecordsAct(s, c, u)
  {
    if GivesBack(c) {
      BackRecords(s, e, c, u);
    }
  }

  lemma RefundRecords(s: State, e: Env, c: Call, u: State)
    requires c.PartialRefundCall? && Step(s, e, c) == Some(u)
    ensures RecordsAct(s, c, u)
  {
  }

  /** In every reachable state a payment is cancelled, expired, disputed, decided or refunded
      exactly when that is due and the contract holds what goes back, which goes to the
      customer alone. */
  lemma ActExact(admin: Address, recipient: Address, feeBps: nat, bal: Balances, before: Run, s: State, e: Env, c: Call)
    requires Init(admin, recipient, feeBps, bal).Some? && s == Exec(Init(admin, recipient, feeBps, bal).value, before)
    requires ChangesOne(c) || c.PartialRefundCall?
    ensures Step(s, e, c).Some? <==> MayAct(s, e, c) && CanReturn(s, c)
    ensures Step(s, e, c).Some? ==> RecordsAct(s, c, Step(s, e, c).value)
  {
    RunSound(Init(admin, recipient, feeBps, bal).value, before);
    ActCommits(s, e, c);
    if Step(s, e, c).Some? {
      if c.PartialRefundCall? {
        RefundRecords(s, e, c, Step(s, e, c).value);
      } else {
        ActRecords(s, e, c, Step(s, e, c).value);
      }
    }
  }

  /** In every reachable state that holds the amount, a payment is completed exactly when that
      is due; whatever is held, never otherwise. */
  lemma CompletionExact(admin: Address, recipient: Address, feeBps: nat, bal: Balances, before: Run, s: State, e: Env,
                        c: Call)
    requires Init(admin, recipient, feeBps, bal).Some? && s == Exec(Init(admin, recipient, feeBps, bal).value, before)
    requires Completes(c)
    ensures Step(s, e, c).Some? ==> MayComplete(s, e, c) && RecordsCompletion(s, e, c, Step(s, e, c).value)
    ensures MayComplete(s, e, c) && Bal(s.bal, s.payments[c.id].token, This) >= s.payments[c.id].amount
            ==> Step(s, e, c).Some?
  {
    RunSound(Init(admin, recipient, feeBps, bal).value, before);
    if Step(s, e, c).Some? {
      CompletionNeeds(s, e, c);
      CompletionRecords(s, e, c, Step(s, e, c).value);
    } else if MayComplete(s, e, c) && Bal(s.bal, s.payments[c.id].token, This) >= s.payments[c.id].amount {
      CompletionCommits(s, e, c);
    }
  }

  // --- Creation ---

  /** What a payment may be asked for: something, for a merchant in good standing, with a
      reference of at most 64 bytes and at most 5 labels of at most 32 each. */
  predicate Acceptable(s: State, r: Request) {
    && r.amount > 0 && (s.policy.openMode || r.merchant in s.policy.approved)
    && (r.labels.reference.Some? ==> |r.labels.reference.value| <= 64)
    && (r.labels.metadata.Some? ==>
          && |r.labels.metadata.value| <= 5
          && forall k :: k in r.labels.metadata.value ==> |k| <= 32 && |r.labels.metadata.value[k]| <= 32)
  }

  /** Recipients, if there are any, each get something and all of it between them. */
  ghost predicate Whole(splits: Splits) {
    splits.Some? ==>
      && splits.value != [] && SumSeq(BpsOf(splits.value)) == 10_000
      && forall i :: 0 <= i < |splits.value| ==> splits.value[i].1 > 0
  }

  /** The payment made: scheduled if it is for later, and with the configured timeout. */
  function Made(s: State, e: Env, who: Address, r: Request, splits: Splits, after: nat): Payment {
    Payment(who, r.merchant, r.amount, r.token, if after > e.now then ScheduledPending else Pending, e.now,
            e.now + s.policy.timeout, 0, splits, after)
  }

  /** The customer's window is still open. */
  predicate InWindow(s: State, e: Env, who: Address) {
    who in s.usage && e.sequence < s.usage[who].start + s.limit.window
  }

  /** What the customer's window counts, with `n` more; the count stops at 32 bits. */
  function CountWith(s: State, e: Env, who: Address, n: nat): nat {
    var count := (if InWindow(s, e, who) then s.usage[who].count else 0) + n;
    if count <= 4_294_967_295 then count else 4_294_967_295
  }

  /** The window of `who` counts `n` more, from now on if it had run out. */
  function Counted(s: State, e: Env, who: Address, n: nat): map<Address, Usage> {
    s.usage[who := Usage(CountWith(s, e, who, n), if InWindow(s, e, who) then s.usage[who].start else e.sequence)]
  }

  lemma LimiterCounts(s: State, e: Env, who: Address, n: nat)
    requires n > 0 && LimitInv(s.limit)
    ensures EnforceRateLimit(s.limit, s.usage, e.sequence, who, n)
            == if CountWith(s, e, who, n) <= s.limit.maxPayments then Some(Counted(s, e, who, n)) else None
  {
  }

  lemma AcceptIs(s: State, e: Env, who: Address, r: Request, splits: Splits, after: nat)
    ensures Accept(s, e, who, r, splits, after).Some? <==> Acceptable(s, r) && Bal(s.bal, r.token, who) >= r.amount
    ensures Accept(s, e, who, r, splits, after).Some? ==>
              var u := Accept(s, e, who, r, splits, after).value;
              && Moved(s.bal, u.bal, r.token, who, This, r.amount)
              && u == s.(bal := u.bal, counter := s.counter + 1,
                         payments := s.payments[s.counter := Made(s, e, who, r, splits, after)])
  {
  }

  /** The key stands for an earlier payment. */
  predicate Live(s: State, e: Env, key: Option<nat>) {
    key.Some? && key.value in s.keys && e.sequence <= s.keys[key.value].until
  }

  ghost predicate MayCreate(s: State, e: Env, who: Address, r: Request, splits: Splits, key: Option<nat>) {
    && !s.policy.paused && Signed(e, who)
    && (Live(s, e, key) || (CountWith(s, e, who, 1) <= s.limit.maxPayments && Whole(splits) && Acceptable(s, r)
                            && Bal(s.bal, r.token, who) >= r.amount))
  }

  /** A live key gives the payment it stands for and changes nothing; otherwise the payment is
      made and paid for, and its key stands for it for 17,280 ledgers. */
  ghost predicate RecordsCreation(s: State, e: Env, who: Address, r: Request, splits: Splits, after: nat,
                                  key: Option<nat>, u: State, id: nat) {
    if Live(s, e, key) then u == s && id == s.keys[key.value].id
    else
      && id == s.counter && Moved(s.bal, u.bal, r.token, who, This, r.amount)
      && u == s.(bal := u.bal, usage := Counted(s, e, who, 1), counter := s.counter + 1,
                 payments := s.payments[s.counter := Made(s, e, who, r, splits, after)],
                 keys := if key.Some? then s.keys[key.value := Key(id, e.sequence + 17_280)] else s.keys)
  }

  lemma WholeIs(splits: Splits)
    ensures Whole(splits) <==> ValidSplits(splits)
  {
  }

  lemma CreateIs(s: State, e: Env, who: Address, r: Request, splits: Splits, after: nat, key: Option<nat>)
    requires LimitInv(s.limit) && !Live(s, e, key)
    ensures Create(s, e, who, r, splits, after, key)
            == if s.policy.paused || !Signed(e, who) || CountWith(s, e, who, 1) > s.limit.maxPayments
                  || !ValidSplits(splits)
               then None
               else
                 var v := Accept(s.(usage := Counted(s, e, who, 1)), e, who, r, splits, after);
                 if v.None? then None
                 else
                   var keys := v.value.keys;
                   Some((v.value.(keys := if key.Some? then keys[key.value := Key(s.counter, e.sequence + 17_280)]
                                          else keys), s.counter))
  {
    LimiterCounts(s, e, who, 1);
  }

  lemma NewCreation(s: State, e: Env, who: Address, r: Request, splits: Splits, after: nat, key: Option<nat>)
    requires LimitInv(s.limit) && !Live(s, e, key)
    ensures Create(s, e, who, r, splits, after, key).Some? <==> MayCreate(s, e, who, r, splits, key)
    ensures Create(s, e, who, r, splits, after, key).Some? ==>
              var (u, id) := Create(s, e, who, r, splits, after, key).value;
              RecordsCreation(s, e, who, r, splits, after, key, u, id)
  {
    CreateIs(s, e, who, r, splits, after, key);
    WholeIs(splits);
    var s1 := s.(usage := Counted(s, e, who, 1));
    AcceptIs(s1, e, who, r, splits, after);
    assert Made(s1, e, who, r, splits, after) == Made(s, e, who, r, splits, after);
  }

  lemma RepeatedCreation(s: State, e: Env, who: Address, r: Request, splits: Splits, after: nat, key: Option<nat>)
    requires Live(s, e, key)
    ensures Create(s, e, who, r, splits, after, key)
            == if s.policy.paused || !Signed(e, who) then None else Some((s, s.keys[key.value].id))
  {
  }

  /** In every reachable state a payment is made exactly when it is acceptable, within the
      customer's limit and paid for, and the record is what was asked for. */
  lemma CreateExact(admin: Address, recipient: Address, feeBps: nat, bal: Balances, before: Run, s0: State, s: State,
                    e: Env, who: Address, r: Request, splits: Splits, after: nat, key: Option<nat>)
    requires Init(admin, recipient, feeBps, bal) == Some(s0) && s == Exec(s0, before)
    ensures Create(s, e, who, r, splits, after, key).Some? <==> MayCreate(s, e, who, r, splits, key)
    ensures Create(s, e, who, r, splits, after, key).Some? ==>
              var (u, id) := Create(s, e, who, r, splits, after, key).value;
              RecordsCreation(s, e, who, r, splits, after, key, u, id)
  {
    SoundAfter(admin, recipient, feeBps, bal, before, s0, s);
    if Live(s, e, key) {
      RepeatedCreation(s, e, who, r, splits, after, key);
    } else {
      NewCreation(s, e, who, r, splits, after, key);
    }
  }

  // --- A batch ---

  function AllMade(s: State, e: Env, who: Address, batch: seq<Request>): seq<Payment> {
    seq(|batch|, i requires 0 <= i < |batch| => Made(s, e, who, batch[i], None, 0))
  }

  /** Every payment is acceptable, and the customer has enough of each of their tokens. */
  predicate Affordable(s: State, who: Address, batch: seq<Request>) {
    forall i :: 0 <= i < |batch| ==>
                  Acceptable(s, batch[i]) && Bal(s.bal, batch[i].token, who) >= BatchTotal(batch, batch[i].token)
  }

  ghost predicate RecordsBatch(s: State, e: Env, who: Address, batch: seq<Request>, u: State) {
    && u == s.(bal := u.bal, counter := s.counter + |batch|, payments := u.payments)
    && OnRecord(s.payments, u.payments, s.counter, AllMade(s, e, who, batch))
  }

  lemma LastOfBatch(s: State, e: Env, who: Address, batch: seq<Request>, u: State) returns (t: State)
    requires batch != [] && AcceptAll(s, e, who, batch) == Some(u)
    ensures AcceptAll(s, e, who, batch[..|batch| - 1]) == Some(t)
    ensures Accept(t, e, who, batch[|batch| - 1], None, 0) == Some(u) && t.policy == s.policy
  {
    t := AcceptAll(s, e, who, batch[..|batch| - 1]).value;
  }

  lemma AllMadeNext(s: State, e: Env, who: Address, batch: seq<Request>, k: nat)
    requires |batch| == k + 1
    ensures AllMade(s, e, who, batch) == AllMade(s, e, who, batch[..k]) + [Made(s, e, who, batch[k], None, 0)]
  {
  }

  lemma OneMoreMade(s: State, e: Env, who: Address, batch: seq<Request>, k: nat, t: State, u: State)
    requires |batch| == k + 1 && RecordsBatch(s, e, who, batch[..k], t)
    requires Accept(t, e, who, batch[k], None, 0) == Some(u)
    ensures RecordsBatch(s, e, who, batch, u)
  {
    var p := Made(s, e, who, batch[k], None, 0);
    AcceptIs(t, e, who, batch[k], None, 0);
    AllMadeNext(s, e, who, batch, k);
    OneMoreOnRecord(s.payments, t.payments, s.counter, AllMade(s, e, who, batch[..k]), p);
  }

  lemma {:induction false} BatchRecords(s: State, e: Env, who: Address, batch: seq<Request>, u: State)
    requires AcceptAll(s, e, who, batch) == Some(u)
    ensures RecordsBatch(s, e, who, batch, u)
  {
    if batch != [] {
      var n := |batch| - 1;
      var t := LastOfBatch(s, e, who, batch, u);
      BatchRecords(s, e, who, batch[..n], t);
      OneMoreMade(s, e, who, batch, n, t, u);
    }
  }

  lemma {:induction false} TotalGrows(batch: seq<Request>, n: nat, token: Address)
    requires n <= |batch| && forall i :: 0 <= i < |batch| ==> batch[i].amount > 0
    ensures BatchTotal(batch[..n], token) <= BatchTotal(batch, token)
    decreases |batch|
  {
    if n < |batch| {
      assert batch[..|batch| - 1][..n] == batch[..n];
      TotalGrows(batch[..|batch| - 1], n, token);
    } else {
      assert batch[..n] == batch;
    }
  }

  /** The last of a batch is taken if it is acceptable and the customer has enough for all in
      its token. */
  lemma LastCommits(s: State, e: Env, who: Address, batch: seq<Request>, t: State)
    requires batch != [] && who != This && AcceptAll(s, e, who, batch[..|batch| - 1]) == Some(t)
    ensures var last := batch[|batch| - 1];
            AcceptAll(s, e, who, batch).Some?
            <==> Acceptable(s, last) && Bal(s.bal, last.token, who) >= BatchTotal(batch, last.token)
  {
    AcceptAllTakes(s, e, who, batch[..|batch| - 1]);
    AcceptIs(t, e, who, batch[|batch| - 1], None, 0);
  }

  lemma OneMoreAffordable(s: State, who: Address, batch: seq<Request>, n: nat)
    requires |batch| == n + 1 && Acceptable(s, batch[n]) && Affordable(s, who, batch[..n])
    requires Bal(s.bal, batch[n].token, who) >= BatchTotal(batch, batch[n].token)
    ensures Affordable(s, who, batch)
  {
    forall i | 0 <= i < n
      ensures Acceptable(s, batch[i]) && Bal(s.bal, batch[i].token, who) >= BatchTotal(batch, batch[i].token)
    {
      assert batch[..n][i] == batch[i];
    }
  }

  lemma {:induction false} BatchAffordable(s: State, e: Env, who: Address, batch: seq<Request>)
    requires who != This && AcceptAll(s, e, who, batch).Some?
    ensures Affordable(s, who, batch)
  {
    if batch != [] {
      var n := |batch| - 1;
      LastCommits(s, e, who, batch, AcceptAll(s, e, who, batch[..n]).value);
      BatchAffordable(s, e, who, batch[..n]);
      OneMoreAffordable(s, who, batch, n);
    }
  }

  lemma {:induction false} AffordableBatch(s: State, e: Env, who: Address, batch: seq<Request>)
    requires who != This && Affordable(s, who, batch)
    ensures AcceptAll(s, e, who, batch).Some?
  {
    if batch != [] {
      var n := |batch| - 1;
      forall i | 0 <= i < n
        ensures Acceptable(s, batch[..n][i])
                && Bal(s.bal, batch[..n][i].token, who) >= BatchTotal(batch[..n], batch[..n][i].token)
      {
        TotalGrows(batch, n, batch[i].token);
      }
      AffordableBatch(s, e, who, batch[..n]);
      LastCommits(s, e, who, batch, AcceptAll(s, e, who, batch[..n]).value);
    }
  }

  lemma BatchIs(s: State, e: Env, who: Address, batch: seq<Request>)
    requires LimitInv(s.limit)
    ensures Step(s, e, CreateBatchCall(who, batch))
            == if s.policy.paused || !Signed(e, who) || batch == [] || |batch| > s.policy.maxBatch
                  || CountWith(s, e, who, |batch|) > s.limit.maxPayments
               then None else AcceptAll(s.(usage := Counted(s, e, who, |batch|)), e, who, batch)
  {
    if batch != [] {
      LimiterCounts(s, e, who, |batch|);
    }
  }

  /** In every reachable state a batch is taken exactly when it is within the size and the
      customer's limit, every payment is acceptable, and the customer has enough for all of
      it, token by token; then all of it is on record under contiguous ids. */
  lemma BatchExact(admin: Address, recipient: Address, feeBps: nat, bal: Balances, before: Run, s0: State, s: State,
                   e: Env, who: Address, batch: seq<Request>)
    requires Init(admin, recipient, feeBps, bal) == Some(s0) && s == Exec(s0, before)
    ensures Step(s, e, CreateBatchCall(who, batch)).Some?
            <==> !s.policy.paused && Signed(e, who) && 1 <= |batch| <= s.policy.maxBatch
                 && CountWith(s, e, who, |batch|) <= s.limit.maxPayments && Affordable(s, who, batch)
    ensures Step(s, e, CreateBatchCall(who, batch)).Some? ==>
              RecordsBatch(s.(usage := Counted(s, e, who, |batch|)), e, who, batch,
                           Step(s, e, CreateBatchCall(who, batch)).value)
  {
    SoundAfter(admin, recipient, feeBps, bal, before, s0, s);
    BatchIs(s, e, who, batch);
    var s1 := s.(usage := Counted(s, e, who, |batch|));
    assert Affordable(s1, who, batch) <==> Affordable(s, who, batch);
    if Signed(e, who) && AcceptAll(s1, e, who, batch).Some? {
      BatchAffordable(s1, e, who, batch);
      BatchRecords(s1, e, who, batch, AcceptAll(s1, e, who, batch).value);
    } else if Signed(e, who) && Affordable(s1, who, batch) {
      AffordableBatch(s1, e, who, batch);
    }
  }

  // --- Payment in another token ---

  /** The oracle's price is there, fresh and positive, and the whole amount of the token that
      it gives is something, and worth the price asked up to the tolerance. */
  predicate Quotable(s: State, e: Env, amount: int, slippage: nat, quote: Option<Price>) {
    && quote.Some? && quote.value.price > 0 && e.now <= quote.value.timestamp + s.policy.maxOracleAge
    && var price := quote.value.price;
       var asked := (amount * 10_000_000) / price;
       asked > 0 && (amount - (asked * price) / 10_000_000) * 10_000 < amount * (slippage + 1)
  }

  function Asked(amount: int, quote: Option<Price>): int {
    if quote.Some? && quote.value.price > 0 then (amount * 10_000_000) / quote.value.price else 0
  }

  lemma WorthAtMost(amount: int, price: int)
    requires amount > 0 && price > 0
    ensures (((amount * 10_000_000) / price) * price) / 10_000_000 <= amount
  {
    Floor(amount * 10_000_000, price);
    assert ((amount * 10_000_000) / price) * price <= amount * 10_000_000;
  }

  lemma WithinTolerance(short: int, amount: int, slippage: nat)
    requires amount > 0
    ensures (short * 10_000) / amount <= slippage <==> short * 10_000 < amount * (slippage + 1)
  {
    var q := (short * 10_000) / amount;
    Floor(short * 10_000, amount);
    if q <= slippage {
      MulUp(amount, q + 1, slippage + 1);
    } else {
      MulUp(amount, slippage + 1, q);
    }
  }

  lemma QuoteExact(s: State, e: Env, amount: int, slippage: nat, quote: Option<Price>)
    requires amount > 0
    ensures Quote(s, e, amount, slippage, quote)
            == if Quotable(s, e, amount, slippage, quote) then Some(Asked(amount, quote)) else None
  {
    if quote.Some? && quote.value.price > 0 {
      var price := quote.value.price;
      WorthAtMost(amount, price);
      WithinTolerance(amount - (((amount * 10_000_000) / price) * price) / 10_000_000, amount, slippage);
    }
  }

  predicate MayPayIn(s: State, e: Env, c: Call)
    requires c.CreateMultiTokenCall?
  {
    && !s.policy.paused && Signed(e, c.who) && c.amount > 0 && c.slippage <= 10_000 && s.policy.usdc.Some?
    && CountWith(s, e, c.who, 1) <= s.limit.maxPayments
    && if s.policy.usdc == Some(c.token)
       then (s.policy.openMode || c.merchant in s.policy.approved) && Bal(s.bal, c.token, c.who) >= c.amount
       else Quotable(s, e, c.amount, c.slippage, c.quote)
            && Bal(s.bal, c.token, c.who) >= Asked(c.amount, c.quote)
  }

  /** A payment in USDC is on record, whatever token it was paid in. */
  ghost predicate RecordsPayIn(s: State, e: Env, c: Call, u: State)
    requires c.CreateMultiTokenCall? && s.policy.usdc.Some?
  {
    var usdc := s.policy.usdc.value;
    && Moved(s.bal, u.bal, c.token, c.who, This, if c.token == usdc then c.amount else Asked(c.amount, c.quote))
    && u == s.(bal := u.bal, usage := Counted(s, e, c.who, 1), counter := s.counter + 1,
               payments := s.payments[s.counter := Payment(c.who, c.merchant, c.amount, usdc, Pending, e.now,
                                                           e.now + s.policy.timeout, 0, None, 0)])
  }

  lemma PayInIs(s: State, e: Env, c: Call)
    requires c.CreateMultiTokenCall? && LimitInv(s.limit)
    ensures Step(s, e, c)
            == if s.policy.paused || !Signed(e, c.who) || c.amount <= 0 || c.slippage > 10_000 || s.policy.usdc.None?
                  || CountWith(s, e, c.who, 1) > s.limit.maxPayments
               then None
               else
                 var s1 := s.(usage := Counted(s, e, c.who, 1));
                 var r := Request(c.merchant, c.amount, s.policy.usdc.value, Labels(None, None));
                 if s.policy.usdc == Some(c.token) then Accept(s1, e, c.who, r, None, 0)
                 else AcceptConverted(s1, e, c.who, r, c.token, c.slippage, c.quote)
  {
    LimiterCounts(s, e, c.who, 1);
  }

  lemma ConvertedIs(s: State, e: Env, who: Address, r: Request, token: Address, slippage: nat, quote: Option<Price>)
    requires r.amount > 0
    ensures AcceptConverted(s, e, who, r, token, slippage, quote).Some?
            <==> Quotable(s, e, r.amount, slippage, quote) && Bal(s.bal, token, who) >= Asked(r.amount, quote)
    ensures AcceptConverted(s, e, who, r, token, slippage, quote).Some? ==>
              var u := AcceptConverted(s, e, who, r, token, slippage, quote).value;
              && Moved(s.bal, u.bal, token, who, This, Asked(r.amount, quote))
              && u == s.(bal := u.bal, counter := s.counter + 1,
                         payments := s.payments[s.counter := Made(s, e, who, r, None, 0)])
  {
    QuoteExact(s, e, r.amount, slippage, quote);
  }

  lemma UsdcIs(s: State, e: Env, c: Call, s1: State, r: Request)
    requires c.CreateMultiTokenCall? && LimitInv(s.limit) && s.policy.usdc == Some(c.token)
    requires s1 == s.(usage := Counted(s, e, c.who, 1))
    requires r == Request(c.merchant, c.amount, c.token, Labels(None, None))
    ensures Step(s, e, c).Some? <==> MayPayIn(s, e, c)
    ensures Step(s, e, c).Some? ==> Accept(s1, e, c.who, r, None, 0) == Step(s, e, c)
  {
    PayInIs(s, e, c);
    AcceptIs(s1, e, c.who, r, None, 0);
  }

  lemma UsdcCommits(s: State, e: Env, c: Call)
    requires c.CreateMultiTokenCall? && LimitInv(s.limit) && s.policy.usdc == Some(c.token)
    ensures Step(s, e, c).Some? <==> MayPayIn(s, e, c)
    ensures Step(s, e, c).Some? ==> RecordsPayIn(s, e, c, Step(s, e, c).value)
  {
    var s1 := s.(usage := Counted(s, e, c.who, 1));
    var r := Request(c.merchant, c.amount, c.token, Labels(None, None));
    UsdcIs(s, e, c, s1, r);
    if Step(s, e, c).Some? {
      UsdcRecords(s, e, c, s1, r, Step(s, e, c).value);
    }
  }

  lemma UsdcRecords(s: State, e: Env, c: Call, s1: State, r: Request, u: State)
    requires c.CreateMultiTokenCall? && s.policy.usdc == Some(c.token)
    requires s1 == s.(usage := Counted(s, e, c.who, 1))
    requires r == Request(c.merchant, c.amount, c.token, Labels(None, None))
    requires Accept(s1, e, c.who, r, None, 0) == Some(u)
    ensures RecordsPayIn(s, e, c, u)
  {
    AcceptIs(s1, e, c.who, r, None, 0);
  }

  lemma ConvertedCommits(s: State, e: Env, c: Call, s1: State, r: Request)
    requires c.CreateMultiTokenCall? && LimitInv(s.limit) && s.policy.usdc.Some? && s.policy.usdc != Some(c.token)
    requires s1 == s.(usage := Counted(s, e, c.who, 1)) && c.amount > 0
    requires r == Request(c.merchant, c.amount, s.policy.usdc.value, Labels(None, None))
    ensures Step(s, e, c).Some? <==> MayPayIn(s, e, c)
    ensures Step(s, e, c).Some? ==> AcceptConverted(s1, e, c.who, r, c.token, c.slippage, c.quote) == Step(s, e, c)
  {
    PayInIs(s, e, c);
    ConvertedIs(s1, e, c.who, r, c.token, c.slippage, c.quote);
    assert Quotable(s1, e, c.amount, c.slippage, c.quote) == Quotable(s, e, c.amount, c.slippage, c.quote);
  }

  lemma ConvertedRecords(s: State, e: Env, c: Call, s1: State, r: Request, u: State)
    requires c.CreateMultiTokenCall? && s.policy.usdc.Some? && s.policy.usdc != Some(c.token)
    requires s1 == s.(usage := Counted(s, e, c.who, 1)) && c.amount > 0
    requires r == Request(c.merchant, c.amount, s.policy.usdc.value, Labels(None, None))
    requires AcceptConverted(s1, e, c.who, r, c.token, c.slippage, c.quote) == Some(u)
    ensures RecordsPayIn(s, e, c, u)
  {
    ConvertedIs(s1, e, c.who, r, c.token, c.slippage, c.quote);
  }

  lemma OtherTokenCommits(s: State, e: Env, c: Call)
    requires c.CreateMultiTokenCall? && LimitInv(s.limit) && s.policy.usdc.Some? && s.policy.usdc != Some(c.token)
    requires c.amount > 0
    ensures Step(s, e, c).Some? <==> MayPayIn(s, e, c)
    ensures Step(s, e, c).Some? ==> RecordsPayIn(s, e, c, Step(s, e, c).value)
  {
    var s1 := s.(usage := Counted(s, e, c.who, 1));
    var r := Request(c.merchant, c.amount, s.policy.usdc.value, Labels(None, None));
    ConvertedCommits(s, e, c, s1, r);
    if Step(s, e, c).Some? {
      ConvertedRecords(s, e, c, s1, r, Step(s, e, c).value);
    }
  }

  lemma PayInCommits(s: State, e: Env, c: Call)
    requires c.CreateMultiTokenCall? && LimitInv(s.limit)
    ensures Step(s, e, c).Some? <==> MayPayIn(s, e, c)
    ensures Step(s, e, c).Some? ==> s.policy.usdc.Some? && RecordsPayIn(s, e, c, Step(s, e, c).value)
  {
    if s.policy.usdc == Some(c.token) {
      UsdcCommits(s, e, c);
    } else if s.policy.usdc.Some? && c.amount > 0 {
      OtherTokenCommits(s, e, c);
    } else {
      PayInIs(s, e, c);
    }
  }

  /** In every reachable state a payment priced in USDC is taken exactly when it is within the
      customer's limit and either paid in USDC to a merchant in good standing or paid in a
      token with a usable price; it is recorded in USDC. */
  lemma PayInExact(admin: Address, recipient: Address, feeBps: nat, bal: Balances, before: Run, s0: State, s: State,
                   e: Env, c: Call)
    requires Init(admin, recipient, feeBps, bal) == Some(s0) && s == Exec(s0, before) && c.CreateMultiTokenCall?
    ensures Step(s, e, c).Some? <==> MayPayIn(s, e, c)
    ensures Step(s, e, c).Some? ==> s.policy.usdc.Some? && RecordsPayIn(s, e, c, Step(s, e, c).value)
  {
    SoundAfter(admin, recipient, feeBps, bal, before, s0, s);
    PayInCommits(s, e, c);
  }

  // --- Settlement and configuration ---

  /** Completed for that merchant in that token, and not settled yet. */
  predicate Unsettled(s: State, merchant: Address, token: Address, id: nat) {
    id in s.payments && id !in s.settled &&
    var p := s.payments[id];
    p.status == Completed && p.merchant == merchant && p.token == token
  }

  ghost predicate MaySettleAll(s: State, e: Env, admin: Address, merchant: Address, ids: seq<nat>) {
    && !s.policy.paused && Signed(e, admin) && admin == s.policy.admin && 1 <= |ids| <= 50
    && ids[0] in s.payments
    && var token := s.payments[ids[0]].token;
       && (forall i :: 0 <= i < |ids| ==> Unsettled(s, merchant, token, ids[i]))
       && Bal(s.bal, token, This) >= ListedSum(s.payments, ids, s.counter, token)
  }

  /** All are settled, and the merchant has each amount as often as it was listed. */
  ghost predicate RecordsSettlement(s: State, merchant: Address, ids: seq<nat>, u: State)
    requires ids != [] && ids[0] in s.payments
  {
    var token := s.payments[ids[0]].token;
    && u == s.(bal := u.bal, settled := u.settled)
    && (forall id :: id in u.settled <==> id in s.settled || id in ids)
    && Moved(s.bal, u.bal, token, This, merchant, ListedSum(s.payments, ids, s.counter, token))
  }

  lemma SettleCommits(s: State, e: Env, admin: Address, merchant: Address, ids: seq<nat>)
    requires PaymentsSafety.Sound(s)
    ensures Step(s, e, SettleCall(admin, merchant, ids)).Some? <==> MaySettleAll(s, e, admin, merchant, ids)
  {
    if ids != [] && ids[0] in s.payments {
      var token := s.payments[ids[0]].token;
      TotalNotNegative(s.payments, ids, s.counter);
      if forall i :: 0 <= i < |ids| ==> Unsettled(s, merchant, token, ids[i]) {
        AllMaySettle(s, merchant, token, ids);
        ListedIsTotal(s, merchant, token, ids, s.counter, token);
      } else {
        var i :| 0 <= i < |ids| && !Unsettled(s, merchant, token, ids[i]);
        assert !MaySettle(s, merchant, token, ids[i]);
      }
    }
  }

  lemma AllMaySettle(s: State, merchant: Address, token: Address, ids: seq<nat>)
    requires forall i :: 0 <= i < |ids| ==> Unsettled(s, merchant, token, ids[i])
    ensures forall i :: 0 <= i < |ids| ==> MaySettle(s, merchant, token, ids[i])
  {
    forall i | 0 <= i < |ids| ensures MaySettle(s, merchant, token, ids[i]) {
      assert Unsettled(s, merchant, token, ids[i]);
    }
  }

  lemma SettleRecords(s: State, e: Env, admin: Address, merchant: Address, ids: seq<nat>, u: State)
    requires PaymentsSafety.Sound(s) && Step(s, e, SettleCall(admin, merchant, ids)) == Some(u)
    ensures ids != [] && ids[0] in s.payments && RecordsSettlement(s, merchant, ids, u)
  {
    SettleUnfolds(s, e, SettleCall(admin, merchant, ids));
    var token := s.payments[ids[0]].token;
    ListedIsTotal(s, merchant, token, ids, s.counter, token);
  }

  /** In every reachable state the admin settles exactly the lists of payments completed for
      one merchant in one token and not settled before, if the contract holds each as often
      as it is listed. */
  lemma SettleExact(admin: Address, recipient: Address, feeBps: nat, bal: Balances, before: Run, s: State, e: Env,
                    caller: Address, merchant: Address, ids: seq<nat>)
    requires Init(admin, recipient, feeBps, bal).Some? && s == Exec(Init(admin, recipient, feeBps, bal).value, before)
    ensures Step(s, e, SettleCall(caller, merchant, ids)).Some? <==> MaySettleAll(s, e, caller, merchant, ids)
    ensures Step(s, e, SettleCall(caller, merchant, ids)).Some? ==>
              ids != [] && ids[0] in s.payments
              && RecordsSettlement(s, merchant, ids, Step(s, e, SettleCall(caller, merchant, ids)).value)
  {
    RunSound(Init(admin, recipient, feeBps, bal).value, before);
    SettleCommits(s, e, caller, merchant, ids);
    if Step(s, e, SettleCall(caller, merchant, ids)).Some? {
      SettleRecords(s, e, caller, merchant, ids, Step(s, e, SettleCall(caller, merchant, ids)).value);
    }
  }

  /** Rates are at most 5% and thresholds ascend strictly from nothing or more. */
  predicate Ordered(tiers: seq<Tier>) {
    && (forall i :: 0 <= i < |tiers| ==> tiers[i].minVolume >= 0 && tiers[i].bps <= 500)
    && forall i, j :: 0 <= i < j < |tiers| ==> tiers[i].minVolume < tiers[j].minVolume
  }

  lemma OrderedIsValid(tiers: seq<Tier>)
    ensures Ordered(tiers) <==> ValidTiers(tiers)
  {
    if ValidTiers(tiers) {
      forall i, j | 0 <= i < j < |tiers| ensures tiers[i].minVolume < tiers[j].minVolume {
        Ascending(tiers, i, j - 1);
        assert tiers[j - 1].minVolume < tiers[j].minVolume;
      }
    }
  }

  /** A contract is deployed exactly with a fee of at most 5%: unpaused and open to every
      merchant, with a week's timeout, batches of 20 and no limit worth the name. */
  lemma DeploymentExact(admin: Address, recipient: Address, feeBps: nat, bal: Balances)
    ensures var u := Init(admin, recipient, feeBps, bal);
            && (u.Some? <==> feeBps <= 500)
            && (u.Some? ==>
                  && u.value.policy == Policy(admin, false, recipient, 604_800, 20, true, {}, None, 0)
                  && u.value.fees == Fees(feeBps, []) && u.value.limit == RateLimit(4_294_967_295, 1)
                  && u.value.usage == map[] && u.value.counter == 0 && u.value.payments == map[]
                  && u.value.settled == {} && u.value.keys == map[] && u.value.buckets == map[]
                  && u.value.currentTier == map[] && u.value.completions == [] && u.value.bal == bal)
  {
  }

  /** Only the admin of an unpaused contract sets fee, tiers and limit, and only to values in
      range. */
  lemma ConfigureExact(s: State, e: Env, caller: Address, bps: nat, tiers: seq<Tier>, limit: RateLimit)
    ensures var u := Step(s, e, UpdateFeeCall(caller, bps));
            && (u.Some? <==> !s.policy.paused && Signed(e, caller) && caller == s.policy.admin && bps <= 500)
            && (u.Some? ==> u.value == s.(fees := Fees(bps, s.fees.tiers)))
    ensures var u := Step(s, e, UpdateTiersCall(caller, tiers));
            && (u.Some? <==> !s.policy.paused && Signed(e, caller) && caller == s.policy.admin && Ordered(tiers))
            && (u.Some? ==> u.value == s.(fees := Fees(s.fees.bps, tiers)))
    ensures var u := Step(s, e, UpdateRateLimitCall(caller, limit));
            && (u.Some? <==> !s.policy.paused && Signed(e, caller) && caller == s.policy.admin
                             && limit.maxPayments > 0 && limit.window > 0)
            && (u.Some? ==> u.value == s.(limit := limit))
  {
    OrderedIsValid(tiers);
  }

  // --- From creation on ---

  /** What a payment was created with never changes. */
  predicate SameTerms(p: Payment, q: Payment) {
    && q.customer == p.customer && q.merchant == p.merchant && q.token == p.token && q.splits == p.splits
    && q.createdAt == p.createdAt && q.expiresAt == p.expiresAt && q.executeAfter == p.executeAfter
  }

  ghost predicate TermsStay(s: State, u: State, id: nat) {
    id in s.payments && id in u.payments && SameTerms(s.payments[id], u.payments[id])
  }

  lemma CompletionTerms(s: State, e: Env, c: Call, u: State, id: nat)
    requires Completes(c) && RecordsCompletion(s, e, c, u) && id in s.payments
    ensures TermsStay(s, u, id)
  {
  }

  lemma ActTerms(s: State, c: Call, u: State, id: nat)
    requires (ChangesOne(c) || c.PartialRefundCall?) && RecordsAct(s, c, u) && id in s.payments
    ensures TermsStay(s, u, id)
  {
  }

  lemma StepTerms(s: State, e: Env, c: Call, id: nat)
    requires id in s.payments && Records(s.payments, s.counter)
    ensures TermsStay(s, Next(s, e, c), id)
  {
    if Step(s, e, c).Some? {
      var u := Step(s, e, c).value;
      if Creates(c) {
        CreateLater(s, e, c, id);
      } else if Completes(c) {
        CompletionRecords(s, e, c, u);
        CompletionTerms(s, e, c, u, id);
      } else if ChangesOne(c) {
        ActRecords(s, e, c, u);
        ActTerms(s, c, u, id);
      } else if c.PartialRefundCall? {
        RefundRecords(s, e, c, u);
        ActTerms(s, c, u, id);
      } else {
        OtherTerms(s, e, c, u);
      }
    }
  }

  lemma OtherTerms(s: State, e: Env, c: Call, u: State)
    requires (Configures(c) || c.SettleCall?) && Step(s, e, c) == Some(u)
    ensures u.payments == s.payments
  {
  }

  lemma {:induction false} TermsForGood(s: State, run: Run, id: nat)
    requires id in s.payments && PaymentsSafety.Sound(s)
    ensures TermsStay(s, Exec(s, run), id) && PaymentsSafety.Sound(Exec(s, run))
    decreases |run|
  {
    if run != [] {
      StepTerms(s, run[0].0, run[0].1, id);
      StepSound(s, run[0].0, run[0].1);
      TermsForGood(Next(s, run[0].0, run[0].1), run[1..], id);
    }
  }

  /** `u` is `s` with new payments, timed from now on. */
  ghost predicate Timed(s: State, e: Env, u: State) {
    forall id: nat :: s.counter <= id < u.counter ==>
                        && id in u.payments && u.payments[id].createdAt == e.now
                        && u.payments[id].expiresAt == e.now + s.policy.timeout
  }

  lemma BatchTimed(s: State, e: Env, c: Call, u: State)
    requires LimitInv(s.limit) && c.CreateBatchCall? && Step(s, e, c) == Some(u)
    ensures Timed(s, e, u)
  {
    BatchIs(s, e, c.who, c.batch);
    BatchRecords(s.(usage := Counted(s, e, c.who, |c.batch|)), e, c.who, c.batch, u);
  }

  lemma SingleTimed(s: State, e: Env, c: Call, u: State)
    requires LimitInv(s.limit) && c.CreateCall? && Step(s, e, c) == Some(u)
    ensures Timed(s, e, u)
  {
    if Live(s, e, c.key) {
      RepeatedCreation(s, e, c.who, c.request, c.splits, c.executeAfter, c.key);
    } else {
      NewCreation(s, e, c.who, c.request, c.splits, c.executeAfter, c.key);
    }
  }

  lemma CreatedTimed(s: State, e: Env, c: Call, u: State)
    requires LimitInv(s.limit) && Creates(c) && Step(s, e, c) == Some(u)
    ensures Timed(s, e, u)
  {
    if c.CreateBatchCall? {
      BatchTimed(s, e, c, u);
    } else if c.CreateCall? {
      SingleTimed(s, e, c, u);
    } else {
      PayInCommits(s, e, c);
    }
  }

  /** A pending payment made with a timeout can be completed before the timeout is over and
      returned from then on, never both, at every time of every run. */
  lemma CompletedOrReturned(admin: Address, recipient: Address, feeBps: nat, bal: Balances, before: Run, s0: State,
                            s: State, e: Env, c: Call, u: State, id: nat, run: Run, v: State, x: Env)
    requires Init(admin, recipient, feeBps, bal) == Some(s0) && s == Exec(s0, before) && Creates(c)
    requires Step(s, e, c) == Some(u) && s.counter <= id < u.counter && s.policy.timeout > 0 && v == Exec(u, run)
    ensures id in v.payments
    ensures var p, over := v.payments[id], e.now + s.policy.timeout;
            p.status == Pending ==>
              && (Step(v, x, CompleteCall(id)).Some? ==> x.now < over)
              && (Step(v, x, ExpireCall(id)).Some? ==> x.now >= over)
              && (!v.policy.paused && Bal(v.bal, p.token, This) >= p.amount ==>
                    && (Step(v, x, ExpireCall(id)).Some? <==> x.now >= over)
                    && (Step(v, x, CompleteCall(id)).Some? <==> x.now < over && Signed(x, v.policy.admin)))
  {
    SoundAfter(admin, recipient, feeBps, bal, before, s0, s);
    RunSound(s0, before);
    CreatedTimed(s, e, c, u);
    StepSound(s, e, c);
    TermsForGood(u, run, id);
    var p := v.payments[id];
    if p.status == Pending {
      ActCommits(v, x, ExpireCall(id));
      if Step(v, x, CompleteCall(id)).Some? {
        CompletionNeeds(v, x, CompleteCall(id));
      } else if MayComplete(v, x, CompleteCall(id)) && Bal(v.bal, p.token, This) >= p.amount {
        CompletionCommits(v, x, CompleteCall(id));
      }
    }
  }
}
