/**
 What every entry point of the payments contract does to the contract's state
 (`contracts/ahjoor-payments/src/lib.rs`). `None` is a call that traps.

 `completions` is the record of completed payments that the contract emits as events;
 no entry point reads it.
 */
module PaymentsModel {
  import opened Common
  import opened Ledger
  import opened Sums

  const MAX_FEE := 500
  const MAX_SETTLEMENT := 50
  const PRICE_PRECISION := 10_000_000
  const BUCKET := 120_960
  const DEFAULT_TIMEOUT := 7 * 24 * 60 * 60
  const DEFAULT_BATCH := 20
  const MAX_REFERENCE := 64
  const MAX_METADATA := 5
  const MAX_LABEL := 32
  const KEY_LIFETIME := 17_280

  // --- Data ---

  datatype Status = Pending | Completed | Refunded | Disputed | Expired | ScheduledPending

  type Splits = Option<seq<(Address, nat)>>

  datatype Payment = Payment(
    customer: Address,
    merchant: Address,
    amount: int,
    token: Address,
    status: Status,
    createdAt: nat,
    expiresAt: nat,
    refunded: int,
    splits: Splits,
    executeAfter: nat)

  /** What a payment may carry for the merchant's books. */
  datatype Labels = Labels(reference: Option<string>, metadata: Option<map<string, string>>)

  datatype Request = Request(merchant: Address, amount: int, token: Address, labels: Labels)

  /** The payment a key stands for, and the last ledger at which it does. */
  datatype Key = Key(id: nat, until: nat)

  datatype Tier = Tier(minVolume: int, bps: nat)

  datatype RateLimit = RateLimit(maxPayments: nat, window: nat)

  datatype Usage = Usage(count: nat, start: nat)

  datatype Price = Price(price: int, timestamp: nat)

  datatype Completion = Completion(merchant: Address, bucket: nat, gross: int)

  /** What the admin configures besides fees and the rate limit. */
  datatype Policy = Policy(
    admin: Address,
    paused: bool,
    feeRecipient: Address,
    timeout: nat,
    maxBatch: nat,
    openMode: bool,
    approved: set<Address>,
    usdc: Option<Address>,
    maxOracleAge: nat)

  datatype Fees = Fees(bps: nat, tiers: seq<Tier>)

  datatype State = State(
    policy: Policy,
    fees: Fees,
    limit: RateLimit,
    usage: map<Address, Usage>,
    counter: nat,
    payments: map<nat, Payment>,
    settled: set<nat>,
    keys: map<nat, Key>,
    buckets: map<(Address, nat), int>,
    currentTier: map<Address, nat>,
    completions: seq<Completion>,
    bal: Balances)

  function Init(admin: Address, feeRecipient: Address, feeBps: nat, bal: Balances): Option<State> {
    if feeBps > MAX_FEE then None
    else
      Some(State(Policy(admin, false, feeRecipient, DEFAULT_TIMEOUT, DEFAULT_BATCH, true, {}, None, 0),
                 Fees(feeBps, []), RateLimit(U32_MAX, 1), map[], 0, map[], {}, map[], map[], map[], [], bal))
  }

  // --- Creation ---

  /** Counts `n` payments against the customer's window; a window that has run out is
      replaced by one that starts now. */
  function EnforceRateLimit(limit: RateLimit, usage: map<Address, Usage>, sequence: nat, customer: Address, n: nat)
    : Option<map<Address, Usage>>
  {
    if n == 0 then Some(usage)
    else
      var current := if customer in usage then usage[customer] else Usage(0, sequence);
      var over := SaturatingSub(sequence, current.start) >= limit.window;
      var count := Min((if over then 0 else current.count) + n, U32_MAX);
      if count > limit.maxPayments then None
      else Some(usage[customer := Usage(count, if over then sequence else current.start)])
  }

  predicate MerchantAccepted(p: Policy, merchant: Address) {
    p.openMode || merchant in p.approved
  }

  predicate ValidLabels(l: Labels) {
    && (l.reference.Some? ==> |l.reference.value| <= MAX_REFERENCE)
    && (l.metadata.Some? ==>
          && |l.metadata.value| <= MAX_METADATA
          && forall k :: k in l.metadata.value ==> |k| <= MAX_LABEL && |l.metadata.value[k]| <= MAX_LABEL)
  }

  predicate KeyLive(keys: map<nat, Key>, key: nat, sequence: nat) {
    key in keys && sequence <= keys[key].until
  }

  ghost predicate ValidSplits(splits: Splits) {
    splits.None? || (splits.value != [] && (forall i :: 0 <= i < |splits.value| ==> splits.value[i].1 > 0)
                     && SumSeq(BpsOf(splits.value)) == BPS)
  }

  function NewPayment(s: State, e: Env, customer: Address, r: Request, splits: Splits, executeAfter: nat): Payment {
    Payment(customer, r.merchant, r.amount, r.token, if executeAfter > e.now then ScheduledPending else Pending,
            e.now, e.now + s.policy.timeout, 0, splits, executeAfter)
  }

  function Place(s: State, p: Payment): State {
    s.(counter := s.counter + 1, payments := s.payments[s.counter := p])
  }

  /** What creating payments leaves alone. */
  predicate OnlyCreates(s: State, u: State) {
    u == s.(usage := u.usage, counter := u.counter, payments := u.payments, keys := u.keys, bal := u.bal)
  }

  /** Takes the customer's tokens and stores the payment. */
  function Accept(s: State, e: Env, customer: Address, r: Request, splits: Splits,
                  executeAfter: nat): (u: Option<State>)
    ensures u.Some? ==> u.value == s.(bal := u.value.bal, counter := s.counter + 1, payments := u.value.payments)
  {
    if r.amount <= 0 || !ValidLabels(r.labels) || !MerchantAccepted(s.policy, r.merchant) then None
    else
      var bal :- Transfer(s.bal, r.token, customer, This, r.amount);
      Some(Place(s.(bal := bal), NewPayment(s, e, customer, r, splits, executeAfter)))
  }

  /** Returns the new state and the payment's id; a key that has not lapsed yields the
      payment it was used for. */
  ghost function Create(s: State, e: Env, customer: Address, r: Request, splits: Splits, executeAfter: nat,
                        key: Option<nat>): (v: Option<(State, nat)>)
    ensures v.Some? ==> OnlyCreates(s, v.value.0)
  {
    if s.policy.paused || !e.Authorised(customer) then None
    else if key.Some? && KeyLive(s.keys, key.value, e.sequence) then Some((s, s.keys[key.value].id))
    else
      var usage :- EnforceRateLimit(s.limit, s.usage, e.sequence, customer, 1);
      if !ValidSplits(splits) then None
      else
        var u :- Accept(s.(usage := usage), e, customer, r, splits, executeAfter);
        var keys := if key.Some? then u.keys[key.value := Key(s.counter, e.sequence + KEY_LIFETIME)] else u.keys;
        Some((u.(keys := keys), s.counter))
  }

  function AcceptAll(s: State, e: Env, customer: Address, batch: seq<Request>): (u: Option<State>)
    ensures u.Some? ==> u.value == s.(bal := u.value.bal, counter := s.counter + |batch|, payments := u.value.payments)
  {
    if batch == [] then Some(s)
    else
      var t :- AcceptAll(s, e, customer, batch[..|batch| - 1]);
      Accept(t, e, customer, batch[|batch| - 1], None, 0)
  }

  function CreateBatch(s: State, e: Env, customer: Address, batch: seq<Request>): (u: Option<State>)
    ensures u.Some? ==> OnlyCreates(s, u.value)
  {
    if s.policy.paused || !e.Authorised(customer) || batch == [] then None
    else
      var usage :- EnforceRateLimit(s.limit, s.usage, e.sequence, customer, |batch|);
      if |batch| > s.policy.maxBatch then None else AcceptAll(s.(usage := usage), e, customer, batch)
  }

  /** The amount of the customer's token that buys `amount` at the oracle's price. */
  function Quote(s: State, e: Env, amount: int, slippage: nat, quote: Option<Price>): Option<int>
    requires amount > 0
  {
    if quote.None? || SaturatingSub(e.now, quote.value.timestamp) > s.policy.maxOracleAge || quote.value.price <= 0
    then None
    else
      var price := quote.value.price;
      var required := (amount * PRICE_PRECISION) / price;
      if required <= 0 then None
      else
        var effective := (required * price) / PRICE_PRECISION;
        var deviation := if effective >= amount then effective - amount else amount - effective;
        if (deviation * BPS) / amount > slippage then None else Some(required)
  }

  /** Takes another token for a payment recorded in the request's own. */
  function AcceptConverted(s: State, e: Env, customer: Address, r: Request, token: Address, slippage: nat,
                           quote: Option<Price>): (u: Option<State>)
    requires r.amount > 0
    ensures u.Some? ==> u.value == s.(bal := u.value.bal, counter := s.counter + 1, payments := u.value.payments)
  {
    var required :- Quote(s, e, r.amount, slippage, quote);
    var bal :- Transfer(s.bal, token, customer, This, required);
    Some(Place(s.(bal := bal), NewPayment(s, e, customer, r, None, 0)))
  }

  /** A payment recorded in USDC; `quote` is the oracle's answer. The merchant is looked up
      only when the customer pays in USDC itself. */
  function CreateMultiToken(s: State, e: Env, customer: Address, merchant: Address, amount: int, token: Address,
                            slippage: nat, quote: Option<Price>): (u: Option<State>)
    ensures u.Some? ==> OnlyCreates(s, u.value)
  {
    if s.policy.paused || amount <= 0 || slippage > BPS || s.policy.usdc.None? || !e.Authorised(customer) then None
    else
      var usage :- EnforceRateLimit(s.limit, s.usage, e.sequence, customer, 1);
      var usdc := s.policy.usdc.value;
      var r := Request(merchant, amount, usdc, Labels(None, None));
      if token == usdc then Accept(s.(usage := usage), e, customer, r, None, 0)
      else AcceptConverted(s.(usage := usage), e, customer, r, token, slippage, quote)
  }

  // --- Fees and volume ---

  /** The rate of the last tier the volume reaches, or the default. */
  function FeeBps(fees: Fees, volume: int): nat {
    Reached(fees.tiers, |fees.tiers|, volume, fees.bps)
  }

  function Reached(tiers: seq<Tier>, k: nat, volume: int, default: nat): nat
    requires k <= |tiers|
  {
    if k == 0 then default
    else if volume >= tiers[k - 1].minVolume then tiers[k - 1].bps
    else Reached(tiers, k - 1, volume, default)
  }

  function BucketTotal(buckets: map<(Address, nat), int>, merchant: Address, bucket: nat): int {
    if (merchant, bucket) in buckets then buckets[(merchant, bucket)] else 0
  }

  /** The sum of the current bucket and the `n - 1` before it, with the index stopping at 0. */
  function RollingVolume(buckets: map<(Address, nat), int>, merchant: Address, bucket: nat, n: nat): int {
    if n == 0 then 0
    else RollingVolume(buckets, merchant, bucket, n - 1) + BucketTotal(buckets, merchant, SaturatingSub(bucket, n - 1))
  }

  predicate ValidTiers(tiers: seq<Tier>) {
    && (forall i :: 0 <= i < |tiers| ==> tiers[i].bps <= MAX_FEE && tiers[i].minVolume >= 0)
    && forall i :: 0 < i < |tiers| ==> tiers[i - 1].minVolume < tiers[i].minVolume
  }

  // --- Completion ---

  /** What the first `k` recipients get, rounded down share by share. */
  function Distributed(net: int, splits: seq<(Address, nat)>, k: nat): int
    requires k <= |splits|
  {
    if k == 0 then 0 else Distributed(net, splits, k - 1) + Share(net, splits[k - 1].1)
  }

  function PayShares(bal: Balances, token: Address, net: int, splits: seq<(Address, nat)>, k: nat): Option<Balances>
    requires k <= |splits|
  {
    if k == 0 then Some(bal)
    else
      var b :- PayShares(bal, token, net, splits, k - 1);
      PayPositive(b, token, splits[k - 1].0, Share(net, splits[k - 1].1))
  }

  function PayPositive(bal: Balances, token: Address, to: Address, amount: int): Option<Balances> {
    if amount > 0 then Transfer(bal, token, This, to, amount) else Some(bal)
  }

  /** Pays each share and what the rounding leaves to the merchant. */
  function Distribute(bal: Balances, p: Payment, net: int): Option<Balances> {
    if p.splits.None? || p.splits.value == [] then Transfer(bal, p.token, This, p.merchant, net)
    else
      var splits := p.splits.value;
      var b :- PayShares(bal, p.token, net, splits, |splits|);
      PayPositive(b, p.token, p.merchant, net - Distributed(net, splits, |splits|))
  }

  predicate MayComplete(p: Payment, e: Env, scheduled: bool) {
    && (if scheduled then p.status == ScheduledPending && e.now >= p.executeAfter else p.status == Pending)
    && (p.expiresAt == 0 || e.now < p.expiresAt)
  }

  function FeeRate(s: State, e: Env, p: Payment): nat {
    FeeBps(s.fees, RollingVolume(s.buckets, p.merchant, e.sequence / BUCKET, 4) + p.amount)
  }

  /** Books a completion: its volume, and the merchant's tier as it is from now on. */
  function Book(s: State, e: Env, p: Payment): State {
    var bucket := e.sequence / BUCKET;
    var buckets := s.buckets[(p.merchant, bucket) := BucketTotal(s.buckets, p.merchant, bucket) + p.amount];
    var tier := FeeBps(s.fees, RollingVolume(buckets, p.merchant, bucket, 4));
    var current := if p.merchant in s.currentTier then s.currentTier[p.merchant] else s.fees.bps;
    s.(buckets := buckets,
       currentTier := if current != tier then s.currentTier[p.merchant := tier] else s.currentTier,
       completions := s.completions + [Completion(p.merchant, bucket, p.amount)])
  }

  function CompleteInternal(s: State, e: Env, id: nat, scheduled: bool): Option<State> {
    if id !in s.payments || !MayComplete(s.payments[id], e, scheduled) then None
    else
      var p := s.payments[id];
      Complete(s, e, id, p, Share(p.amount, FeeRate(s, e, p)))
  }

  function Complete(s: State, e: Env, id: nat, p: Payment, fee: int): Option<State> {
    var net := p.amount - fee;
    var b1 :- PayPositive(s.bal, p.token, s.policy.feeRecipient, fee);
    var b2 :- Distribute(b1, p, net);
    Some(Book(s.(bal := b2, payments := s.payments[id := p.(status := Completed, amount := net)],
                 settled := s.settled + {id}), e, p))
  }

  function CompletePayment(s: State, e: Env, id: nat): Option<State> {
    if s.policy.paused || !e.Authorised(s.policy.admin) then None else CompleteInternal(s, e, id, false)
  }

  function ExecuteScheduled(s: State, e: Env, id: nat): Option<State> {
    if s.policy.paused then None else CompleteInternal(s, e, id, true)
  }

  // --- Other ways out ---

  /** Returns the amount to the customer and closes the payment. */
  function GiveBack(s: State, id: nat, p: Payment, st: Status): Option<State> {
    var bal :- Transfer(s.bal, p.token, This, p.customer, p.amount);
    Some(s.(bal := bal, payments := s.payments[id := p.(status := st)]))
  }

  function CancelScheduled(s: State, e: Env, customer: Address, id: nat): Option<State> {
    if s.policy.paused || !e.Authorised(customer) || id !in s.payments then None
    else
      var p := s.payments[id];
      if p.customer != customer || p.status != ScheduledPending || e.now >= p.executeAfter then None
      else GiveBack(s, id, p, Refunded)
  }

  function Expire(s: State, e: Env, id: nat): Option<State> {
    if s.policy.paused || id !in s.payments then None
    else
      var p := s.payments[id];
      if p.status != Pending || p.expiresAt == 0 || e.now < p.expiresAt then None else GiveBack(s, id, p, Expired)
  }

  function Dispute(s: State, e: Env, customer: Address, id: nat): Option<State> {
    if s.policy.paused || !e.Authorised(customer) || id !in s.payments then None
    else
      var p := s.payments[id];
      if p.customer != customer || p.status != Pending then None
      else Some(s.(payments := s.payments[id := p.(status := Disputed)]))
  }

  function Resolve(s: State, e: Env, id: nat, toMerchant: bool): Option<State> {
    if s.policy.paused || !e.Authorised(s.policy.admin) || id !in s.payments then None
    else
      var p := s.payments[id];
      if p.status != Disputed then None
      else if toMerchant
           then Some(s.(payments := s.payments[id := p.(status := Completed)], settled := s.settled - {id}))
      else GiveBack(s, id, p, Refunded)
  }

  function PartialRefund(s: State, e: Env, id: nat, amount: int): Option<State> {
    if s.policy.paused || !e.Authorised(s.policy.admin) || amount <= 0 || id !in s.payments then None
    else
      var p := s.payments[id];
      if (p.status != Disputed && p.status != Pending) || amount > p.amount - p.refunded then None
      else
        var bal :- Transfer(s.bal, p.token, This, p.customer, amount);
        var refunded := p.refunded + amount;
        Some(s.(bal := bal,
                payments := s.payments[id := p.(refunded := refunded,
                                                status := if refunded >= p.amount then Refunded else p.status)]))
  }

  // --- Settlement ---

  predicate MaySettle(s: State, merchant: Address, token: Address, id: nat) {
    && id in s.payments && s.payments[id].status == Completed && s.payments[id].merchant == merchant
    && s.payments[id].token == token && id !in s.settled
  }

  ghost function TotalOf(payments: map<nat, Payment>, ids: seq<nat>): int {
    if ids == [] then 0
    else
      var id := ids[|ids| - 1];
      TotalOf(payments, ids[..|ids| - 1]) + if id in payments then payments[id].amount else 0
  }

  /** Pays a merchant for a list of ids in one transfer. Every id is checked before any is
      marked, so an id listed twice is paid twice. */
  ghost function Settle(s: State, e: Env, admin: Address, merchant: Address, ids: seq<nat>): Option<State> {
    if s.policy.paused || !e.Authorised(admin) || admin != s.policy.admin || ids == [] || |ids| > MAX_SETTLEMENT
       || ids[0] !in s.payments
    then None
    else
      var token := s.payments[ids[0]].token;
      if exists i :: 0 <= i < |ids| && !MaySettle(s, merchant, token, ids[i]) then None
      else
        var bal :- Transfer(s.bal, token, This, merchant, TotalOf(s.payments, ids));
        Some(s.(bal := bal, settled := s.settled + Elements(ids)))
  }

  // --- Administration of fees and limits ---

  predicate ByAdmin(s: State, e: Env, admin: Address) {
    !s.policy.paused && e.Authorised(admin) && admin == s.policy.admin
  }

  function UpdateFee(s: State, e: Env, admin: Address, bps: nat): Option<State> {
    if !ByAdmin(s, e, admin) || bps > MAX_FEE then None else Some(s.(fees := s.fees.(bps := bps)))
  }

  function UpdateTiers(s: State, e: Env, admin: Address, tiers: seq<Tier>): Option<State> {
    if !ByAdmin(s, e, admin) || !ValidTiers(tiers) then None else Some(s.(fees := s.fees.(tiers := tiers)))
  }

  function UpdateRateLimit(s: State, e: Env, admin: Address, limit: RateLimit): Option<State> {
    if !ByAdmin(s, e, admin) || limit.maxPayments == 0 || limit.window == 0 then None else Some(s.(limit := limit))
  }

  // --- Runs ---

  /** `AdministerCall` stands for every entry point that only changes the policy, whatever
      the new values; `OutsideCall` for token activity of other parties. */
  datatype Call =
    | CreateCall(who: Address, request: Request, splits: Splits, executeAfter: nat, key: Option<nat>)
    | CreateBatchCall(who: Address, batch: seq<Request>)
    | CreateMultiTokenCall(who: Address, merchant: Address, amount: int, token: Address, slippage: nat,
                           quote: Option<Price>)
    | CompleteCall(id: nat)
    | ExecuteScheduledCall(id: nat)
    | CancelScheduledCall(who: Address, id: nat)
    | ExpireCall(id: nat)
    | DisputeCall(who: Address, id: nat)
    | ResolveCall(id: nat, toMerchant: bool)
    | PartialRefundCall(id: nat, amount: int)
    | SettleCall(admin: Address, merchant: Address, ids: seq<nat>)
    | UpdateFeeCall(admin: Address, bps: nat)
    | UpdateTiersCall(admin: Address, tiers: seq<Tier>)
    | UpdateRateLimitCall(admin: Address, limit: RateLimit)
    | AdministerCall(policy: Policy)
    | OutsideCall(bal: Balances)

  ghost function Step(s: State, e: Env, c: Call): Option<State> {
    match c
    case CreateCall(who, request, splits, executeAfter, key) =>
      var r :- Create(s, e, who, request, splits, executeAfter, key);
      Some(r.0)
    case CreateBatchCall(who, batch) => CreateBatch(s, e, who, batch)
    case CreateMultiTokenCall(who, merchant, amount, token, slippage, quote) =>
      CreateMultiToken(s, e, who, merchant, amount, token, slippage, quote)
    case CompleteCall(id) => CompletePayment(s, e, id)
    case ExecuteScheduledCall(id) => ExecuteScheduled(s, e, id)
    case CancelScheduledCall(who, id) => CancelScheduled(s, e, who, id)
    case ExpireCall(id) => Expire(s, e, id)
    case DisputeCall(who, id) => Dispute(s, e, who, id)
    case ResolveCall(id, toMerchant) => Resolve(s, e, id, toMerchant)
    case PartialRefundCall(id, amount) => PartialRefund(s, e, id, amount)
    case SettleCall(admin, merchant, ids) => Settle(s, e, admin, merchant, ids)
    case UpdateFeeCall(admin, bps) => UpdateFee(s, e, admin, bps)
    case UpdateTiersCall(admin, tiers) => UpdateTiers(s, e, admin, tiers)
    case UpdateRateLimitCall(admin, limit) => UpdateRateLimit(s, e, admin, limit)
    case AdministerCall(policy) => Some(s.(policy := policy))
    case OutsideCall(bal) => if OthersMoved(s.bal, bal) then Some(s.(bal := bal)) else None
  }

  /** A call that traps leaves the state as it was. */
  ghost function Next(s: State, e: Env, c: Call): State {
    Step(s, e, c).GetOr(s)
  }

  predicate Outcome(r: Option<State>, before: State, ok: bool, after: State) {
    ok == r.Some? && after == r.GetOr(before)
  }

  type Run = seq<(Env, Call)>

  ghost function Exec(s: State, run: Run): State
    decreases |run|
  {
    if run == [] then s else Exec(Next(s, run[0].0, run[0].1), run[1..])
  }
}
