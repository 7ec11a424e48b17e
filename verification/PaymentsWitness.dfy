/**
 Short runs from deployment in which a promise fails. Three leave the contract owing more
 than it holds: a partial refund, a payment taken in another token and a payment settled
 twice. One takes a payment for a merchant not on the allowlist, one charges a rate and books
 another, and two leave a scheduled payment that nobody can ever move again.
 */
module PaymentsWitness {
  import opened Common
  import opened Ledger
  import opened Sums
  import opened PaymentsModel
  import opened PaymentsSafety
  import opened PaymentsSchedule

  const ADMIN := Party(0)
  const CUSTOMER := Party(1)
  const MERCHANT := Party(2)
  const USDC := Party(8)
  const TOKEN := Party(9)

  /** Everyone signs every call. */
  const ENV := Env(0, 0, {ADMIN, CUSTOMER, MERCHANT})

  const LABELS := Labels(None, None)

  /** Deployed without a fee; the customer holds 20 of one token. */
  function Start(): State {
    Init(ADMIN, ADMIN, 0, map[(TOKEN, CUSTOMER) := 20]).value
  }

  function Buy(): Call {
    CreateCall(CUSTOMER, Request(MERCHANT, 10, TOKEN, LABELS), None, 0, None)
  }

  /** The payment a purchase records. */
  function Bought(st: Status): Payment {
    Payment(CUSTOMER, MERCHANT, 10, TOKEN, st, 0, DEFAULT_TIMEOUT, 0, None, 0)
  }

  lemma BuyOnce(s: State)
    requires !s.policy.paused && s.policy.openMode && s.policy.timeout == DEFAULT_TIMEOUT
             && s.limit == RateLimit(U32_MAX, 1)
    requires (CUSTOMER in s.usage ==> s.usage[CUSTOMER].count < 10) && Bal(s.bal, TOKEN, CUSTOMER) >= 10
    ensures var u := Next(s, ENV, Buy());
            && u == s.(bal := u.bal, usage := u.usage, counter := s.counter + 1,
                       payments := s.payments[s.counter := Bought(Pending)])
            && Bal(u.bal, TOKEN, This) == Bal(s.bal, TOKEN, This) + 10
            && Bal(u.bal, TOKEN, CUSTOMER) == Bal(s.bal, TOKEN, CUSTOMER) - 10
            && CUSTOMER in u.usage
            && u.usage[CUSTOMER].count <= 1 + if CUSTOMER in s.usage then s.usage[CUSTOMER].count else 0
  {
  }

  /** A payment of 10 refunded by 4 is still owed in full. */
  lemma PartialRefundCanBreak()
    ensures var s1 := Next(Start(), ENV, Buy());
            var s2 := Next(s1, ENV, PartialRefundCall(0, 4));
            && Bal(s1.bal, TOKEN, This) == Owed(s1, TOKEN) == 10
            && Bal(s2.bal, TOKEN, This) == 6 && Owed(s2, TOKEN) == 10
  {
    var s1 := Next(Start(), ENV, Buy());
    BuyOnce(Start());
    assert OwedSum(s1.payments, s1.settled, 0, TOKEN) == 0;
    var s2 := Next(s1, ENV, PartialRefundCall(0, 4));
    assert s2.payments == s1.payments[0 := Bought(Pending).(refunded := 4)];
    assert OwedSum(s2.payments, s2.settled, 0, TOKEN) == 0;
  }

  /** A payment of 10 in USDC, paid with 10 of another token at par: the USDC is owed and
      there is none. */
  lemma CrossTokenCanBreak()
    ensures var s1 := Next(Start(), ENV, AdministerCall(Start().policy.(usdc := Some(USDC))));
            var s2 := Next(s1, ENV,
                           CreateMultiTokenCall(CUSTOMER, MERCHANT, 10, TOKEN, 0, Some(Price(PRICE_PRECISION, 0))));
            Bal(s2.bal, USDC, This) == 0 && Owed(s2, USDC) == 10
  {
    var s1 := Next(Start(), ENV, AdministerCall(Start().policy.(usdc := Some(USDC))));
    assert Quote(s1, ENV, 10, 0, Some(Price(PRICE_PRECISION, 0))) == Some(10);
    var s2 := Next(s1, ENV, CreateMultiTokenCall(CUSTOMER, MERCHANT, 10, TOKEN, 0, Some(Price(PRICE_PRECISION, 0))));
    assert s2.counter == 1 && s2.payments == map[0 := Bought(Pending).(token := USDC)];
    assert OwedSum(s2.payments, s2.settled, 0, USDC) == 0;
  }

  /** Two payments of 10, the first of them released by a dispute and then settled under an
      id listed twice: the merchant has all 20 and the second payment is still owed. */
  lemma DuplicateSettlementCanBreak()
    ensures var s1 := Next(Next(Start(), ENV, Buy()), ENV, Buy());
            var s2 := Next(Next(s1, ENV, DisputeCall(CUSTOMER, 0)), ENV, ResolveCall(0, true));
            var s3 := Next(s2, ENV, SettleCall(ADMIN, MERCHANT, [0, 0]));
            && Bal(s2.bal, TOKEN, This) == Owed(s2, TOKEN) == 20
            && Bal(s3.bal, TOKEN, This) == 0 && Bal(s3.bal, TOKEN, MERCHANT) == 20 && Owed(s3, TOKEN) == 10
  {
    var s0 := Next(Start(), ENV, Buy());
    BuyOnce(Start());
    var s1 := Next(s0, ENV, Buy());
    BuyOnce(s0);
    DisputeResolved(s1);
    var s2 := Next(Next(s1, ENV, DisputeCall(CUSTOMER, 0)), ENV, ResolveCall(0, true));
    assert s2.payments == map[0 := Bought(Completed), 1 := Bought(Pending)];
    OwedTwo(s2);
    SettledTwice(s2);
    OwedTwo(Next(s2, ENV, SettleCall(ADMIN, MERCHANT, [0, 0])));
  }

  lemma DisputeResolved(s: State)
    requires !s.policy.paused && s.policy.admin == ADMIN && 0 in s.payments && s.payments[0] == Bought(Pending)
    ensures Next(Next(s, ENV, DisputeCall(CUSTOMER, 0)), ENV, ResolveCall(0, true))
            == s.(payments := s.payments[0 := Bought(Completed)], settled := s.settled - {0})
  {
    var t := Next(s, ENV, DisputeCall(CUSTOMER, 0));
    assert t == s.(payments := s.payments[0 := Bought(Disputed)]);
    assert t.payments[0 := Bought(Completed)] == s.payments[0 := Bought(Completed)];
  }

  lemma OwedNext(payments: map<nat, Payment>, settled: set<nat>, n: nat, token: Address, due: int)
    requires n in payments && payments[n].token == token && Due(payments[n], n in settled) == due
    ensures OwedSum(payments, settled, n + 1, token) == OwedSum(payments, settled, n, token) + due
  {
  }

  lemma OwedTwo(s: State)
    requires s.counter == 2 && s.payments == map[0 := Bought(Completed), 1 := Bought(Pending)]
    ensures Owed(s, TOKEN) == if 0 in s.settled then 10 else 20
  {
    assert s.payments[0] == Bought(Completed) && s.payments[1] == Bought(Pending);
    assert OwedSum(s.payments, s.settled, 0, TOKEN) == 0;
    OwedNext(s.payments, s.settled, 0, TOKEN, if 0 in s.settled then 0 else 10);
    OwedNext(s.payments, s.settled, 1, TOKEN, 10);
  }

  lemma TotalNext(payments: map<nat, Payment>, ids: seq<nat>, id: nat)
    requires id in payments
    ensures TotalOf(payments, ids + [id]) == TotalOf(payments, ids) + payments[id].amount
  {
    assert (ids + [id])[..|ids|] == ids;
  }

  lemma TwiceTen(payments: map<nat, Payment>)
    requires payments == map[0 := Bought(Completed), 1 := Bought(Pending)]
    ensures TotalOf(payments, [0, 0]) == 20
  {
    TotalNext(payments, [], 0);
    TotalNext(payments, [0], 0);
    assert [] + [0] == [0] && [0] + [0] == [0, 0];
  }

  lemma SettledTwice(s: State)
    requires !s.policy.paused && s.policy.admin == ADMIN && 0 !in s.settled && Bal(s.bal, TOKEN, This) == 20
    requires s.payments == map[0 := Bought(Completed), 1 := Bought(Pending)]
    ensures var u := Next(s, ENV, SettleCall(ADMIN, MERCHANT, [0, 0]));
            && u == s.(bal := u.bal, settled := u.settled) && 0 in u.settled
            && Bal(u.bal, TOKEN, This) == 0 && Bal(u.bal, TOKEN, MERCHANT) == Bal(s.bal, TOKEN, MERCHANT) + 20
  {
    TwiceTen(s.payments);
    assert MaySettle(s, MERCHANT, TOKEN, 0);
    assert 0 in Elements([0, 0]);
  }

  /** With the allowlist in force and nobody on it, a payment in another token is taken. */
  lemma UnlistedMerchantPaid()
    ensures var closed := Start().policy.(openMode := false, usdc := Some(USDC));
            var s1 := Next(Start(), ENV, AdministerCall(closed));
            var s2 := Next(s1, ENV,
                           CreateMultiTokenCall(CUSTOMER, MERCHANT, 10, TOKEN, 0, Some(Price(PRICE_PRECISION, 0))));
            && !MerchantAccepted(s2.policy, MERCHANT)
            && s2.counter == 1 && 0 in s2.payments && s2.payments[0].merchant == MERCHANT
            && Bal(s2.bal, TOKEN, This) == 10
            && Step(s1, ENV, CreateMultiTokenCall(CUSTOMER, MERCHANT, 10, USDC, 0, None)).None?
  {
    var s1 := Next(Start(), ENV, AdministerCall(Start().policy.(openMode := false, usdc := Some(USDC))));
    assert Quote(s1, ENV, 10, 0, Some(Price(PRICE_PRECISION, 0))) == Some(10);
  }

  /** 5% below a volume of 30, 1% from there on. */
  const TABLE := [Tier(0, 500), Tier(30, 100)]

  lemma RateOf(volume: int)
    requires volume >= 0
    ensures FeeBps(Fees(0, TABLE), volume) == if volume >= 30 then 100 else 500
  {
    assert Reached(TABLE, 2, volume, 0) == if volume >= 30 then 100 else Reached(TABLE, 1, volume, 0);
  }

  lemma FourTimes(buckets: map<(Address, nat), int>, m: Address)
    ensures RollingVolume(buckets, m, 0, 4) == 4 * BucketTotal(buckets, m, 0)
  {
    assert RollingVolume(buckets, m, 0, 1) == BucketTotal(buckets, m, 0);
    assert RollingVolume(buckets, m, 0, 2) == 2 * BucketTotal(buckets, m, 0);
    assert RollingVolume(buckets, m, 0, 3) == 3 * BucketTotal(buckets, m, 0);
  }

  function BuyAll(): Call {
    CreateCall(CUSTOMER, Request(MERCHANT, 20, TOKEN, LABELS), None, 0, None)
  }

  lemma BoughtUnderTable()
    ensures var s := Next(Next(Start(), ENV, UpdateTiersCall(ADMIN, TABLE)), ENV, BuyAll());
            && s == Start().(fees := Fees(0, TABLE), bal := s.bal, usage := s.usage, counter := 1,
                             payments := map[0 := Bought(Pending).(amount := 20)])
            && Bal(s.bal, TOKEN, This) == 20 && Bal(s.bal, TOKEN, ADMIN) == 0 && Bal(s.bal, TOKEN, MERCHANT) == 0
  {
    assert ValidTiers(TABLE);
    var s1 := Next(Start(), ENV, UpdateTiersCall(ADMIN, TABLE));
    assert s1 == Start().(fees := Fees(0, TABLE));
  }

  lemma PaidInFull(bal: Balances)
    requires Bal(bal, TOKEN, This) == 20
    ensures var p := Bought(Pending).(amount := 20);
            var b1 := PayPositive(bal, TOKEN, ADMIN, 1);
            && b1.Some? && Distribute(b1.value, p, 19).Some?
            && Bal(Distribute(b1.value, p, 19).value, TOKEN, ADMIN) == Bal(bal, TOKEN, ADMIN) + 1
            && Bal(Distribute(b1.value, p, 19).value, TOKEN, MERCHANT) == Bal(bal, TOKEN, MERCHANT) + 19
  {
  }

  lemma BookedAtOnePercent(s: State, p: Payment)
    requires s.fees == Fees(0, TABLE) && s.buckets == map[] && s.currentTier == map[] && p.merchant == MERCHANT
             && p.amount == 20
    ensures var u := Book(s, ENV, p);
            && u == s.(buckets := u.buckets, currentTier := u.currentTier, completions := u.completions)
            && MERCHANT in u.currentTier && u.currentTier[MERCHANT] == 100
  {
    FourTimes(s.buckets[(MERCHANT, 0) := 20], MERCHANT);
    RateOf(80);
  }

  lemma ChargedFivePercent(s: State, p: Payment)
    requires s.fees == Fees(0, TABLE) && s.buckets == map[] && p == Bought(Pending).(amount := 20)
    ensures FeeRate(s, ENV, p) == 500
  {
    FourTimes(s.buckets, MERCHANT);
    RateOf(20);
  }

  lemma CompletedUnderTable(s: State, p: Payment)
    requires s.fees == Fees(0, TABLE) && s.buckets == map[] && s.currentTier == map[] && !s.policy.paused
    requires s.policy.admin == ADMIN == s.policy.feeRecipient && 0 in s.payments && s.payments[0] == p
    requires p == Bought(Pending).(amount := 20) && Bal(s.bal, TOKEN, This) == 20
    ensures var u := Next(s, ENV, CompleteCall(0));
            && Bal(u.bal, TOKEN, ADMIN) == Bal(s.bal, TOKEN, ADMIN) + 1
            && Bal(u.bal, TOKEN, MERCHANT) == Bal(s.bal, TOKEN, MERCHANT) + 19
            && MERCHANT in u.currentTier && u.currentTier[MERCHANT] == 100
  {
    ChargedFivePercent(s, p);
    PaidInFull(s.bal);
    var t := s.(bal := Distribute(PayPositive(s.bal, TOKEN, ADMIN, 1).value, p, 19).value,
                payments := s.payments[0 := p.(status := Completed, amount := 19)], settled := s.settled + {0});
    BookedAtOnePercent(t, p);
    assert Complete(s, ENV, 0, p, 1) == Some(Book(t, ENV, p));
  }

  /** A first payment of 20 is charged 5%, and the tier booked for it is that of 80. */
  lemma ChargedOneRateBookedAnother()
    ensures var s1 := Next(Next(Start(), ENV, UpdateTiersCall(ADMIN, TABLE)), ENV, BuyAll());
            var s2 := Next(s1, ENV, CompleteCall(0));
            && Bal(s2.bal, TOKEN, ADMIN) == 1 && Bal(s2.bal, TOKEN, MERCHANT) == 19
            && MERCHANT in s2.currentTier && s2.currentTier[MERCHANT] == 100
  {
    BoughtUnderTable();
    CompletedUnderTable(Next(Next(Start(), ENV, UpdateTiersCall(ADMIN, TABLE)), ENV, BuyAll()),
                        Bought(Pending).(amount := 20));
  }

  const DAY := 24 * 60 * 60

  function ScheduleFor(time: nat): Call {
    CreateCall(CUSTOMER, Request(MERCHANT, 10, TOKEN, LABELS), None, time, None)
  }

  function ScheduledFor(time: nat): Payment {
    Bought(ScheduledPending).(executeAfter := time)
  }

  lemma ScheduledAt(time: nat)
    requires time > 0
    ensures var s := Next(Start(), ENV, ScheduleFor(time));
            Bal(s.bal, TOKEN, This) == 10 && Scheduled(s, 0, ScheduledFor(time))
  {
  }

  /** Scheduled for the day after it expires, a payment is never executable, and no run from
      then on moves it. */
  lemma ScheduledTooLate(run: Run)
    requires NotBefore(run, 8 * DAY)
    ensures var s := Next(Start(), ENV, ScheduleFor(8 * DAY));
            && Bal(s.bal, TOKEN, This) == 10 && !Executable(ScheduledFor(8 * DAY))
            && Scheduled(Exec(s, run), 0, ScheduledFor(8 * DAY))
  {
    ScheduledAt(8 * DAY);
    NeverExecutable(Next(Start(), ENV, ScheduleFor(8 * DAY)), run, 0, ScheduledFor(8 * DAY));
  }

  /** Scheduled for tomorrow and executable for six days, a payment that nobody executes in
      them is not moved by any run from then on. */
  lemma ScheduledAndForgotten(run: Run)
    requires NotBefore(run, DEFAULT_TIMEOUT)
    ensures var s := Next(Start(), ENV, ScheduleFor(DAY));
            && Bal(s.bal, TOKEN, This) == 10 && Executable(ScheduledFor(DAY))
            && Scheduled(Exec(s, run), 0, ScheduledFor(DAY))
  {
    ScheduledAt(DAY);
    LockedForGood(Next(Start(), ENV, ScheduleFor(DAY)), run, 0, ScheduledFor(DAY), DEFAULT_TIMEOUT);
  }
}
