/**
 The bucketed rolling volume stands in for the full history of completed payments, and
 the fee charged is the one that history earns.
 */
module PaymentsVolume {
  import opened Common
  import opened Ledger
  import opened Sums
  import opened PaymentsModel

  // --- The fee table ---

  /** `bps` is the rate of the greatest threshold not above the volume, or the default
      when the volume reaches none. */
  ghost predicate Earned(fees: Fees, volume: int, bps: nat) {
    if forall i :: 0 <= i < |fees.tiers| ==> volume < fees.tiers[i].minVolume then bps == fees.bps
    else exists i :: 0 <= i < |fees.tiers| && fees.tiers[i].minVolume <= volume && bps == fees.tiers[i].bps
                     && forall j :: 0 <= j < |fees.tiers| && fees.tiers[j].minVolume <= volume
                                    ==> fees.tiers[j].minVolume <= fees.tiers[i].minVolume
  }

  lemma {:induction false} Ascending(tiers: seq<Tier>, i: nat, j: nat)
    requires ValidTiers(tiers) && i <= j < |tiers|
    ensures tiers[i].minVolume <= tiers[j].minVolume
    decreases j
  {
    if i < j {
      Ascending(tiers, i, j - 1);
    }
  }

  lemma {:induction false} ReachedFinds(tiers: seq<Tier>, k: nat, volume: int, default: nat) returns (i: int)
    requires k <= |tiers|
    ensures -1 <= i < k
    ensures forall j :: i < j < k ==> volume < tiers[j].minVolume
    ensures if i >= 0 then tiers[i].minVolume <= volume && Reached(tiers, k, volume, default) == tiers[i].bps
            else Reached(tiers, k, volume, default) == default
  {
    if k == 0 {
      i := -1;
    } else if volume >= tiers[k - 1].minVolume {
      i := k - 1;
    } else {
      i := ReachedFinds(tiers, k - 1, volume, default);
    }
  }

  /** A validated table gives every volume the rate it has earned, never above 5%. */
  lemma TierChosen(fees: Fees, volume: int)
    requires ValidTiers(fees.tiers) && fees.bps <= MAX_FEE
    ensures Earned(fees, volume, FeeBps(fees, volume)) && FeeBps(fees, volume) <= MAX_FEE
  {
    var i := ReachedFinds(fees.tiers, |fees.tiers|, volume, fees.bps);
    if i >= 0 {
      forall j | 0 <= j < |fees.tiers| && fees.tiers[j].minVolume <= volume
        ensures fees.tiers[j].minVolume <= fees.tiers[i].minVolume
      {
        Ascending(fees.tiers, j, i);
      }
    }
  }

  // --- Buckets and history ---

  /** Everything the merchant completed in the buckets from `lo` to `hi`. */
  ghost function VolumeIn(completions: seq<Completion>, merchant: Address, lo: nat, hi: nat): int {
    if completions == [] then 0
    else
      var c := completions[|completions| - 1];
      VolumeIn(completions[..|completions| - 1], merchant, lo, hi)
      + if c.merchant == merchant && lo <= c.bucket <= hi then c.gross else 0
  }

  lemma VolumeNext(completions: seq<Completion>, c: Completion, merchant: Address, lo: nat, hi: nat)
    ensures VolumeIn(completions + [c], merchant, lo, hi)
            == VolumeIn(completions, merchant, lo, hi)
               + if c.merchant == merchant && lo <= c.bucket <= hi then c.gross else 0
  {
    assert (completions + [c])[..|completions|] == completions;
  }

  lemma {:induction false} VolumeSplits(completions: seq<Completion>, merchant: Address, lo: nat, mid: nat, hi: nat)
    requires lo <= mid < hi
    ensures VolumeIn(completions, merchant, lo, hi)
            == VolumeIn(completions, merchant, lo, mid) + VolumeIn(completions, merchant, mid + 1, hi)
  {
    if completions != [] {
      VolumeSplits(completions[..|completions| - 1], merchant, lo, mid, hi);
    }
  }

  ghost predicate BucketsMatch(buckets: map<(Address, nat), int>, completions: seq<Completion>) {
    forall m, b: nat :: BucketTotal(buckets, m, b) == VolumeIn(completions, m, b, b)
  }

  /** The last `n` buckets add up to the history of those buckets; near the beginning of
      the ledger the missing ones are all read as bucket 0. */
  lemma {:induction false} RollingIs(buckets: map<(Address, nat), int>, completions: seq<Completion>, m: Address,
                                     b: nat, n: nat)
    requires BucketsMatch(buckets, completions) && n > 0
    ensures RollingVolume(buckets, m, b, n)
            == VolumeIn(completions, m, SaturatingSub(b, n - 1), b)
               + SaturatingSub(n - 1, b) * VolumeIn(completions, m, 0, 0)
    decreases n
  {
    if n == 1 {
      assert RollingVolume(buckets, m, b, 0) == 0;
    } else {
      RollingIs(buckets, completions, m, b, n - 1);
      if b >= n - 1 {
        VolumeSplits(completions, m, b - (n - 1), b - (n - 1), b);
      } else {
        OnceMore(n - 1 - b, VolumeIn(completions, m, 0, 0));
      }
    }
  }

  lemma OnceMore(k: int, x: int)
    ensures k * x == (k - 1) * x + x
  {
  }

  lemma BookKeepsBuckets(s: State, e: Env, p: Payment)
    requires BucketsMatch(s.buckets, s.completions)
    ensures BucketsMatch(Book(s, e, p).buckets, Book(s, e, p).completions)
  {
    var u := Book(s, e, p);
    var c := Completion(p.merchant, e.sequence / BUCKET, p.amount);
    forall m, b: nat ensures BucketTotal(u.buckets, m, b) == VolumeIn(u.completions, m, b, b) {
      VolumeNext(s.completions, c, m, b, b);
    }
  }

  ghost predicate FeesInv(fees: Fees) {
    ValidTiers(fees.tiers) && fees.bps <= MAX_FEE
  }

  ghost predicate VolumeInv(s: State) {
    BucketsMatch(s.buckets, s.completions) && FeesInv(s.fees)
  }

  predicate Completes(c: Call) {
    c.CompleteCall? || c.ExecuteScheduledCall?
  }

  lemma CompleteKeepsVolume(s: State, e: Env, id: nat, scheduled: bool)
    requires VolumeInv(s) && CompleteInternal(s, e, id, scheduled).Some?
    ensures VolumeInv(CompleteInternal(s, e, id, scheduled).value)
  {
    var p := s.payments[id];
    var fee := Share(p.amount, FeeRate(s, e, p));
    CompleteBooks(s, e, id, p, fee);
    var u := Complete(s, e, id, p, fee).value;
    BookKeepsBuckets(s, e, p);
    assert u.buckets == Book(s, e, p).buckets && u.completions == Book(s, e, p).completions;
  }

  lemma CompleteBooks(s: State, e: Env, id: nat, p: Payment, fee: int)
    requires Complete(s, e, id, p, fee).Some?
    ensures var u, b := Complete(s, e, id, p, fee).value, Book(s, e, p);
            && id in u.payments && u.payments[id].amount == p.amount - fee
            && u.buckets == b.buckets && u.completions == b.completions && u.currentTier == b.currentTier
            && u.fees == s.fees
  {
  }

  predicate SameVolume(s: State, u: State) {
    u.buckets == s.buckets && u.completions == s.completions && u.currentTier == s.currentTier
  }

  predicate Creates(c: Call) {
    c.CreateCall? || c.CreateBatchCall? || c.CreateMultiTokenCall?
  }

  lemma CreateSameVolume(s: State, e: Env, c: Call)
    requires Creates(c) && Step(s, e, c).Some?
    ensures SameVolume(s, Step(s, e, c).value) && Step(s, e, c).value.fees == s.fees
  {
  }

  /** A way out of the contract that is no completion: it changes payments, marks and tokens. */
  predicate Exits(c: Call) {
    c.CancelScheduledCall? || c.ExpireCall? || c.DisputeCall? || c.ResolveCall? || c.PartialRefundCall? || c.SettleCall?
  }

  lemma ExitFrame(s: State, e: Env, c: Call)
    requires Exits(c) && Step(s, e, c).Some?
    ensures var u := Step(s, e, c).value; u == s.(payments := u.payments, settled := u.settled, bal := u.bal)
  {
  }

  /** Configuration, and what others do, change nothing about payments or customers. */
  lemma ConfigureFrame(s: State, e: Env, c: Call)
    requires !Completes(c) && !Creates(c) && !Exits(c) && Step(s, e, c).Some?
    ensures var u := Step(s, e, c).value;
            && u == s.(policy := u.policy, fees := u.fees, limit := u.limit, bal := u.bal)
            && (FeesInv(s.fees) ==> FeesInv(u.fees))
            && if c.UpdateRateLimitCall? then u.limit.maxPayments >= 1 && u.limit.window >= 1 else u.limit == s.limit
  {
  }

  lemma OtherSameVolume(s: State, e: Env, c: Call)
    requires !Completes(c) && !Creates(c) && FeesInv(s.fees) && Step(s, e, c).Some?
    ensures SameVolume(s, Step(s, e, c).value) && FeesInv(Step(s, e, c).value.fees)
  {
    if Exits(c) {
      ExitFrame(s, e, c);
    } else {
      ConfigureFrame(s, e, c);
    }
  }

  lemma StepKeepsVolume(s: State, e: Env, c: Call)
    requires VolumeInv(s)
    ensures VolumeInv(Next(s, e, c))
  {
    if Step(s, e, c).Some? {
      if c.CompleteCall? {
        CompleteKeepsVolume(s, e, c.id, false);
      } else if c.ExecuteScheduledCall? {
        CompleteKeepsVolume(s, e, c.id, true);
      } else if Creates(c) {
        CreateSameVolume(s, e, c);
      } else {
        OtherSameVolume(s, e, c);
      }
    }
  }

  lemma {:induction false} RunKeepsVolume(s: State, run: Run)
    requires VolumeInv(s)
    ensures VolumeInv(Exec(s, run))
    decreases |run|
  {
    if run != [] {
      StepKeepsVolume(s, run[0].0, run[0].1);
      RunKeepsVolume(Next(s, run[0].0, run[0].1), run[1..]);
    }
  }

  // --- The main results ---

  /** In every reachable state the four-bucket sum is the history of the last four buckets
      if and only if four buckets exist or the first one is empty: before that it counts
      bucket 0 once more for every bucket missing. */
  lemma RollingRefinesHistory(admin: Address, recipient: Address, feeBps: nat, bal: Balances, run: Run, m: Address,
                              b: nat)
    requires Init(admin, recipient, feeBps, bal).Some?
    ensures var s := Exec(Init(admin, recipient, feeBps, bal).value, run);
            var recent := VolumeIn(s.completions, m, SaturatingSub(b, 3), b);
            var first := VolumeIn(s.completions, m, 0, 0);
            && RollingVolume(s.buckets, m, b, 4) == recent + SaturatingSub(3, b) * first
            && (RollingVolume(s.buckets, m, b, 4) == recent <==> b >= 3 || first == 0)
  {
    var s0 := Init(admin, recipient, feeBps, bal).value;
    assert BucketsMatch(s0.buckets, s0.completions);
    RunKeepsVolume(s0, run);
    var s := Exec(s0, run);
    RollingIs(s.buckets, s.completions, m, b, 4);
    NoMultiple(SaturatingSub(3, b), VolumeIn(s.completions, m, 0, 0));
  }

  lemma NoMultiple(k: nat, x: int)
    ensures k * x == 0 <==> k == 0 || x == 0
  {
  }

  /** What a completion does to the volume: the bucket it falls in is counted once, or four
      times while that bucket is bucket 0. */
  lemma {:induction false} RollingAfter(buckets: map<(Address, nat), int>, m: Address, b: nat, amount: int, n: nat)
    ensures RollingVolume(buckets[(m, b) := BucketTotal(buckets, m, b) + amount], m, b, n)
            == RollingVolume(buckets, m, b, n) + (if n == 0 then 0 else if b == 0 then n else 1) * amount
    decreases n
  {
    if n > 0 {
      RollingAfter(buckets, m, b, amount, n - 1);
      OnceMore(n, amount);
    }
  }

  /** `rate` is what the history of the last four buckets has earned with the payment
      included, before and after it is booked (in `u`), as soon as there are four buckets;
      and from the second bucket on it is the tier the merchant stands at once booked. */
  ghost predicate RateStands(s: State, u: State, e: Env, p: Payment, rate: nat) {
    var b := e.sequence / BUCKET;
    && rate <= MAX_FEE
    && (b >= 3 ==> Earned(s.fees, VolumeIn(s.completions, p.merchant, b - 3, b) + p.amount, rate)
                   && Earned(s.fees, VolumeIn(u.completions, p.merchant, b - 3, b), rate))
    && (b >= 1 ==> FeeBps(s.fees, RollingVolume(u.buckets, p.merchant, b, 4)) == rate
                   && rate == if p.merchant in u.currentTier then u.currentTier[p.merchant] else s.fees.bps)
  }

  /** The rate charged for a payment, in every reachable state, is the one earned. */
  lemma FeeIsEarned(admin: Address, recipient: Address, feeBps: nat, bal: Balances, run: Run, e: Env, id: nat,
                    scheduled: bool)
    requires Init(admin, recipient, feeBps, bal).Some?
    requires CompleteInternal(Exec(Init(admin, recipient, feeBps, bal).value, run), e, id, scheduled).Some?
    ensures var s := Exec(Init(admin, recipient, feeBps, bal).value, run);
            var p, u := s.payments[id], CompleteInternal(s, e, id, scheduled).value;
            && RateStands(s, u, e, p, FeeRate(s, e, p)) && u.fees == s.fees
            && id in u.payments && u.payments[id].amount == p.amount - Share(p.amount, FeeRate(s, e, p))
  {
    RunKeepsVolume(Init(admin, recipient, feeBps, bal).value, run);
    CompleteInternalEarns(Exec(Init(admin, recipient, feeBps, bal).value, run), e, id, scheduled);
  }

  lemma CompleteInternalEarns(s: State, e: Env, id: nat, scheduled: bool)
    requires VolumeInv(s) && CompleteInternal(s, e, id, scheduled).Some?
    ensures var p, u := s.payments[id], CompleteInternal(s, e, id, scheduled).value;
            && RateStands(s, u, e, p, FeeRate(s, e, p)) && u.fees == s.fees
            && id in u.payments && u.payments[id].amount == p.amount - Share(p.amount, FeeRate(s, e, p))
  {
    var p := s.payments[id];
    CompleteBooks(s, e, id, p, Share(p.amount, FeeRate(s, e, p)));
    BookEarns(s, CompleteInternal(s, e, id, scheduled).value, e, p);
  }

  lemma BookEarns(s: State, u: State, e: Env, p: Payment)
    requires VolumeInv(s)
    requires var b := Book(s, e, p);
             u.buckets == b.buckets && u.completions == b.completions && u.currentTier == b.currentTier
    ensures RateStands(s, u, e, p, FeeRate(s, e, p))
  {
    BookedVolume(s, e, p);
    RateEarned(s, e, p);
  }

  lemma BookedVolume(s: State, e: Env, p: Payment)
    requires BucketsMatch(s.buckets, s.completions)
    ensures var b, u := e.sequence / BUCKET, Book(s, e, p);
            && (b >= 1
                ==> RollingVolume(u.buckets, p.merchant, b, 4) == RollingVolume(s.buckets, p.merchant, b, 4) + p.amount)
            && (b >= 3 ==> VolumeIn(u.completions, p.merchant, b - 3, b)
                           == VolumeIn(s.completions, p.merchant, b - 3, b) + p.amount)
  {
    var b := e.sequence / BUCKET;
    RollingAfter(s.buckets, p.merchant, b, p.amount, 4);
    if b >= 3 {
      VolumeNext(s.completions, Completion(p.merchant, b, p.amount), p.merchant, b - 3, b);
    }
  }

  lemma RollingRecent(s: State, m: Address, b: nat)
    requires BucketsMatch(s.buckets, s.completions) && b >= 3
    ensures RollingVolume(s.buckets, m, b, 4) == VolumeIn(s.completions, m, b - 3, b)
  {
    RollingIs(s.buckets, s.completions, m, b, 4);
  }

  lemma RateEarned(s: State, e: Env, p: Payment)
    requires VolumeInv(s)
    ensures FeeRate(s, e, p) <= MAX_FEE
    ensures var b := e.sequence / BUCKET;
            b >= 3 ==> Earned(s.fees, VolumeIn(s.completions, p.merchant, b - 3, b) + p.amount, FeeRate(s, e, p))
  {
    var b := e.sequence / BUCKET;
    var volume := RollingVolume(s.buckets, p.merchant, b, 4) + p.amount;
    assert FeeRate(s, e, p) == FeeBps(s.fees, volume);
    TierChosen(s.fees, volume);
    if b >= 3 {
      RollingRecent(s, p.merchant, b);
    }
  }

  /** In bucket 0 the two can differ: for every volume and amount there is a valid table
      under which the merchant is charged one rate and booked at another. */
  lemma FirstBucketMayDiffer(buckets: map<(Address, nat), int>, m: Address, amount: int)
    requires amount > 0 && RollingVolume(buckets, m, 0, 4) >= 0
    ensures var volume := RollingVolume(buckets, m, 0, 4);
            var after := RollingVolume(buckets[(m, 0) := BucketTotal(buckets, m, 0) + amount], m, 0, 4);
            var fees := Fees(MAX_FEE, [Tier(volume + 2 * amount, 0)]);
            && after == volume + 4 * amount && ValidTiers(fees.tiers)
            && FeeBps(fees, volume + amount) == MAX_FEE && FeeBps(fees, after) == 0
  {
    RollingAfter(buckets, m, 0, amount, 4);
    var volume := RollingVolume(buckets, m, 0, 4);
    var tiers := [Tier(volume + 2 * amount, 0)];
    assert |tiers| == 1 && tiers[0].minVolume == volume + 2 * amount;
    assert Reached(tiers, 1, volume + amount, MAX_FEE) == Reached(tiers, 0, volume + amount, MAX_FEE);
    assert Reached(tiers, 1, volume + 4 * amount, MAX_FEE) == 0;
  }
}
