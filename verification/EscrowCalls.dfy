/**
 When the calls that end or change an escrow go through, and what they do: in every
 reachable state, a party entitled to an exit gets it, never short of tokens.
 */
module EscrowCalls {
  import opened Common
  import opened Ledger
  import opened Sums
  import opened EscrowModel
  import opened EscrowSafety
  import opened EscrowSplits

  predicate Open(x: Escrow) {
    x.status == Active || x.status == PartiallyReleased
  }

  predicate InDispute(x: Escrow) {
    x.status == Disputed || x.status == PartiallyDisputed
  }

  predicate Amendable(x: Escrow) {
    Open(x) || x.status == PartiallyDisputed
  }

  /** Since when the buyer has done nothing. */
  function QuietSince(s: State, id: nat, x: Escrow): nat {
    if id in s.lastBuyerAction then s.lastBuyerAction[id] else x.createdAt
  }

  /** The protocol's part of a resolution. */
  function FeeOf(s: State, x: Escrow): int {
    (x.amount * s.feeBps) / 10_000
  }

  // --- Single payments out of an escrow ---

  /** The calls that pay out of an escrow, other than a release. */
  predicate IsPayment(c: Call) {
    c.PartialReleaseCall? || c.DisputeCall? || c.ResolveCall? || c.AutoReleaseExpiredCall? || c.ClaimInactivityCall?
  }

  /** Who may make the call, and when. */
  predicate Entitles(s: State, e: Env, c: Call)
    requires IsPayment(c)
  {
    !s.paused && c.id in s.escrows &&
    var x := s.escrows[c.id];
    match c
    case PartialReleaseCall(caller, id, amount) =>
      Signed(e, caller) && Open(x) && (caller == x.buyer || caller == x.arbiter) && 0 < amount <= x.amount
    case DisputeCall(caller, id, disputed) =>
      Signed(e, caller) && Open(x) && (caller == x.buyer || caller == x.seller) && 0 < disputed <= x.amount
    case ResolveCall(arbiter, id, toSeller) => Signed(e, arbiter) && InDispute(x) && arbiter == x.arbiter
    case AutoReleaseExpiredCall(id) => Signed(e, x.buyer) && Open(x) && e.now > x.deadline
    case ClaimInactivityCall(seller, id) =>
      Signed(e, seller) && Open(x) && seller == x.seller && x.inactivity > 0
      && e.now >= QuietSince(s, id, x) + x.inactivity
  }

  /** What the call makes of the escrow. */
  function Settled(x: Escrow, c: Call): Escrow
    requires IsPayment(c)
  {
    match c
    case PartialReleaseCall(caller, id, amount) =>
      x.(amount := x.amount - amount, status := if amount == x.amount then Released else PartiallyReleased)
    case DisputeCall(caller, id, disputed) =>
      x.(amount := disputed, status := if disputed == x.amount then Disputed else PartiallyDisputed)
    case ResolveCall(arbiter, id, toSeller) => x.(status := if toSeller then Released else Refunded)
    case AutoReleaseExpiredCall(id) => x.(status := Refunded)
    case ClaimInactivityCall(seller, id) => x.(status := Released)
  }

  /** What the call pays to `a` out of the escrow. */
  function Receives(s: State, x: Escrow, c: Call, a: Address): int
    requires IsPayment(c)
  {
    match c
    case PartialReleaseCall(caller, id, amount) => if a == x.seller then amount else 0
    case DisputeCall(caller, id, disputed) => if a == x.seller then x.amount - disputed else 0
    case ResolveCall(arbiter, id, toSeller) =>
      (if Some(a) == s.feeRecipient then FeeOf(s, x) else 0)
      + if a == (if toSeller then x.seller else x.buyer) then x.amount - FeeOf(s, x) else 0
    case AutoReleaseExpiredCall(id) => if a == x.buyer then x.amount else 0
    case ClaimInactivityCall(seller, id) => if a == x.seller then x.amount else 0
  }

  /** What leaves the escrow in all. */
  function Leaves(x: Escrow, c: Call): int
    requires IsPayment(c)
  {
    match c
    case PartialReleaseCall(caller, id, amount) => amount
    case DisputeCall(caller, id, disputed) => x.amount - disputed
    case _ => x.amount
  }

  /** A buyer who disputes shows itself. */
  function Noticed(s: State, e: Env, c: Call): map<nat, nat>
    requires IsPayment(c) && c.id in s.escrows
  {
    if c.DisputeCall? && c.caller == s.escrows[c.id].buyer && s.escrows[c.id].inactivity > 0
    then s.lastBuyerAction[c.id := e.now] else s.lastBuyerAction
  }

  lemma {:induction false} HeldBelow(escrows: map<nat, Escrow>, n: nat, id: nat)
    requires id < n && id in escrows && forall k :: k in escrows ==> Held(escrows[k]) >= 0
    ensures HeldSum(escrows, n, escrows[id].token) >= Held(escrows[id])
  {
    HeldNotNegative(escrows, n - 1, escrows[id].token);
    if id < n - 1 {
      HeldBelow(escrows, n - 1, id);
    }
  }

  lemma {:induction false} HeldNotNegative(escrows: map<nat, Escrow>, n: nat, token: Address)
    requires forall k :: k in escrows ==> Held(escrows[k]) >= 0
    ensures HeldSum(escrows, n, token) >= 0
  {
    if n > 0 {
      HeldNotNegative(escrows, n - 1, token);
    }
  }

  /** The contract holds what a live escrow holds. */
  lemma Covered(s: State, id: nat)
    requires Inv(s) && id in s.escrows
    ensures 0 <= Held(s.escrows[id]) <= Bal(s.bal, s.escrows[id].token, This) && WellFormed(s.escrows[id])
  {
    HeldBelow(s.escrows, s.counter, id);
  }

  lemma PaymentCommits(s: State, e: Env, c: Call)
    requires Inv(s) && IsPayment(c)
    ensures Step(s, e, c).Some? <==> Entitles(s, e, c)
  {
    if c.id in s.escrows {
      Covered(s, c.id);
      match c
      case ResolveCall(arbiter, id, toSeller) => ResolveCommits(s, e, arbiter, id, toSeller);
      case DisputeCall(caller, id, disputed) => DisputeCommits(s, e, caller, id, disputed);
      case _ => WholeCommits(s, e, c);
    }
  }

  lemma WholeCommits(s: State, e: Env, c: Call)
    requires c.PartialReleaseCall? || c.AutoReleaseExpiredCall? || c.ClaimInactivityCall?
    requires c.id in s.escrows && Held(s.escrows[c.id]) <= Bal(s.bal, s.escrows[c.id].token, This)
    requires WellFormed(s.escrows[c.id])
    ensures Step(s, e, c).Some? <==> Entitles(s, e, c)
  {
  }

  lemma DisputeCommits(s: State, e: Env, caller: Address, id: nat, disputed: int)
    requires id in s.escrows && Held(s.escrows[id]) <= Bal(s.bal, s.escrows[id].token, This)
    ensures Dispute(s, e, caller, id, disputed).Some? <==> Entitles(s, e, DisputeCall(caller, id, disputed))
  {
  }

  lemma ResolveCommits(s: State, e: Env, arbiter: Address, id: nat, toSeller: bool)
    requires Inv(s) && id in s.escrows
    ensures Resolve(s, e, arbiter, id, toSeller).Some? <==> Entitles(s, e, ResolveCall(arbiter, id, toSeller))
  {
    var x := s.escrows[id];
    Covered(s, id);
    if InDispute(x) {
      FeeWithin(x.amount, s.feeBps);
      NoFeeNoRecipient(x.amount, s.feeBps, s.feeRecipient);
      SettlementCommits(s, id, x, Share(x.amount, s.feeBps), toSeller);
    }
  }

  lemma NoFeeNoRecipient(amount: int, feeBps: nat, recipient: Option<Address>)
    requires FeeInv(feeBps, recipient)
    ensures Share(amount, feeBps) > 0 ==> recipient.Some?
  {
    if feeBps == 0 {
      assert amount * feeBps == 0;
    }
  }

  lemma SettlementCommits(s: State, id: nat, x: Escrow, fee: int, toSeller: bool)
    requires 0 <= fee <= x.amount <= Bal(s.bal, x.token, This) && (fee > 0 ==> s.feeRecipient.Some?)
    ensures Settlement(s, id, x, fee, toSeller).Some?
  {
  }

  // --- What a payment does ---

  /** The escrow is as the call leaves it, and no other record has changed. */
  ghost predicate RecordsPayment(s: State, e: Env, c: Call, u: State)
    requires IsPayment(c)
  {
    c.id in s.escrows
    && u == s.(bal := u.bal, journal := u.journal, escrows := s.escrows[c.id := Settled(s.escrows[c.id], c)],
               lastBuyerAction := Noticed(s, e, c))
  }

  /** `a` has got what the call pays it in `token`, and the contract has given that up. */
  ghost predicate PaysOut(s: State, c: Call, u: State, token: Address, a: Address)
    requires IsPayment(c)
  {
    c.id in s.escrows &&
    var x := s.escrows[c.id];
    Bal(u.bal, token, a)
    == Bal(s.bal, token, a)
       + if token == x.token then Receives(s, x, c, a) - (if a == This then Leaves(x, c) else 0) else 0
  }

  /** `t` is `s` after `amount` of `token` went from the contract to `to`. */
  ghost predicate Sends(s: State, t: State, token: Address, to: Address, amount: int) {
    t == s.(bal := t.bal, journal := t.journal) && Moved(s.bal, t.bal, token, This, to, amount)
  }

  lemma PaySends(s: State, id: nat, token: Address, kind: Kind, to: Address, amount: int, t: State)
    requires Pay(s, id, token, kind, to, amount) == Some(t) || (amount == 0 && t == s)
    ensures Sends(s, t, token, to, amount)
  {
  }

  lemma OnceSent(s: State, t: State, token: Address, to: Address, amount: int, k: Address, a: Address)
    requires Sends(s, t, token, to, amount)
    ensures Bal(t.bal, k, a)
            == Bal(s.bal, k, a)
               + if k == token then (if a == to then amount else 0) - (if a == This then amount else 0) else 0
  {
  }

  /** One payment, to the seller or back to the buyer. */
  lemma WholeStages(s: State, e: Env, c: Call, u: State) returns (t: State, to: Address)
    requires c.PartialReleaseCall? || c.AutoReleaseExpiredCall? || c.ClaimInactivityCall?
    requires Step(s, e, c) == Some(u)
    ensures c.id in s.escrows && !s.paused
    ensures var x := s.escrows[c.id];
            && to == (if c.AutoReleaseExpiredCall? then x.buyer else x.seller)
            && Sends(s, t, x.token, to, Leaves(x, c))
            && u == t.(escrows := t.escrows[c.id := Settled(x, c)])
  {
    var x := s.escrows[c.id];
    to := if c.AutoReleaseExpiredCall? then x.buyer else x.seller;
    var kind := if c.AutoReleaseExpiredCall? then ToBuyer else ToSeller;
    t := Pay(s, c.id, x.token, kind, to, Leaves(x, c)).value;
    PaySends(s, c.id, x.token, kind, to, Leaves(x, c), t);
  }

  lemma WholeDoes(s: State, e: Env, c: Call, u: State, token: Address, a: Address)
    requires c.PartialReleaseCall? || c.AutoReleaseExpiredCall? || c.ClaimInactivityCall?
    requires Step(s, e, c) == Some(u)
    ensures RecordsPayment(s, e, c, u) && PaysOut(s, c, u, token, a)
  {
    var t, to := WholeStages(s, e, c, u);
    OnceSent(s, t, s.escrows[c.id].token, to, Leaves(s.escrows[c.id], c), token, a);
  }

  lemma DisputeStages(s: State, e: Env, c: Call, u: State) returns (s0: State, t: State)
    requires c.DisputeCall? && Step(s, e, c) == Some(u)
    ensures c.id in s.escrows && s0 == s.(lastBuyerAction := Noticed(s, e, c))
    ensures var x := s.escrows[c.id];
            Sends(s0, t, x.token, x.seller, Leaves(x, c)) && u == t.(escrows := t.escrows[c.id := Settled(x, c)])
  {
    var x := s.escrows[c.id];
    s0 := TouchBuyer(s, e, c.caller, c.id);
    t := PayPositive(s0, c.id, x.token, ToSeller, x.seller, x.amount - c.disputed).value;
    PaySends(s0, c.id, x.token, ToSeller, x.seller, x.amount - c.disputed, t);
  }

  lemma DisputeDoes(s: State, e: Env, c: Call, u: State, token: Address, a: Address)
    requires c.DisputeCall? && Step(s, e, c) == Some(u)
    ensures RecordsPayment(s, e, c, u) && PaysOut(s, c, u, token, a)
  {
    var s0, t := DisputeStages(s, e, c, u);
    OnceSent(s0, t, s.escrows[c.id].token, s.escrows[c.id].seller, Leaves(s.escrows[c.id], c), token, a);
  }

  lemma ResolveIs(s: State, e: Env, c: Call, u: State)
    requires c.ResolveCall? && Step(s, e, c) == Some(u)
    ensures c.id in s.escrows
    ensures Settlement(s, c.id, s.escrows[c.id], FeeOf(s, s.escrows[c.id]), c.toSeller) == Some(u)
  {
  }

  /** The fee, and then the award. */
  lemma ResolveStages(s: State, e: Env, c: Call, u: State, fee: nat) returns (t: State, w: State)
    requires c.ResolveCall? && c.id in s.escrows && Settlement(s, c.id, s.escrows[c.id], fee, c.toSeller) == Some(u)
    ensures var x := s.escrows[c.id];
            && Sends(s, t, x.token, s.feeRecipient.GetOr(This), fee) && (fee > 0 ==> s.feeRecipient.Some?)
            && Sends(t, w, x.token, if c.toSeller then x.seller else x.buyer, x.amount - fee)
            && u == w.(escrows := w.escrows[c.id := x.(status := if c.toSeller then Released else Refunded)])
  {
    t, w := SettlementStages(s, c.id, s.escrows[c.id], fee, c.toSeller, u);
  }

  lemma SettlementStages(s: State, id: nat, x: Escrow, fee: nat, toSeller: bool, u: State) returns (t: State, w: State)
    requires Settlement(s, id, x, fee, toSeller) == Some(u)
    ensures Sends(s, t, x.token, s.feeRecipient.GetOr(This), fee) && (fee > 0 ==> s.feeRecipient.Some?)
    ensures Sends(t, w, x.token, if toSeller then x.seller else x.buyer, x.amount - fee)
    ensures u == w.(escrows := w.escrows[id := x.(status := if toSeller then Released else Refunded)])
  {
    t := PayFee(s, id, x.token, fee).value;
    w := Award(t, id, x, x.amount - fee, toSeller).value;
    PaySends(s, id, x.token, ToProtocol, s.feeRecipient.GetOr(This), fee, t);
    PaySends(t, id, x.token, if toSeller then ToSeller else ToBuyer, if toSeller then x.seller else x.buyer,
             x.amount - fee, w);
  }

  lemma ResolveDoes(s: State, e: Env, c: Call, u: State, fee: nat, token: Address, a: Address)
    requires c.ResolveCall? && Step(s, e, c) == Some(u) && fee == FeeOf(s, s.escrows[c.id])
    ensures RecordsPayment(s, e, c, u) && PaysOut(s, c, u, token, a)
  {
    ResolveIs(s, e, c, u);
    var t, w := ResolveStages(s, e, c, u, fee);
    var x := s.escrows[c.id];
    var winner := if c.toSeller then x.seller else x.buyer;
    OnceSent(s, t, x.token, s.feeRecipient.GetOr(This), fee, token, a);
    OnceSent(t, w, x.token, winner, x.amount - fee, token, a);
    BothSent(s, c, u, t.bal, w.bal, winner, fee, token, a);
  }

  lemma BothSent(s: State, c: Call, u: State, mid: Balances, after: Balances, winner: Address, fee: nat, token: Address,
                 a: Address)
    requires c.ResolveCall? && c.id in s.escrows && fee == FeeOf(s, s.escrows[c.id]) && u.bal == after
    requires fee > 0 ==> s.feeRecipient.Some?
    requires var x := s.escrows[c.id];
             && winner == (if c.toSeller then x.seller else x.buyer)
             && Bal(mid, token, a)
             == Bal(s.bal, token, a)
                + (if token == x.token
                   then (if a == s.feeRecipient.GetOr(This) then fee else 0) - (if a == This then fee else 0) else 0)
             && Bal(after, token, a)
             == Bal(mid, token, a)
                + if token == x.token
                  then (if a == winner then x.amount - fee else 0) - (if a == This then x.amount - fee else 0) else 0
    ensures PaysOut(s, c, u, token, a)
  {
  }

  /** In every reachable state the payments out of an escrow commit exactly when the parties
      and the times allow it, and move exactly what they should. */
  lemma PaymentExact(s0: State, before: Run, s: State, e: Env, c: Call, token: Address, a: Address)
    requires Initial(s0) && s == Exec(s0, before) && IsPayment(c)
    ensures Step(s, e, c).Some? <==> Entitles(s, e, c)
    ensures Step(s, e, c).Some? ==>
              RecordsPayment(s, e, c, Step(s, e, c).value) && PaysOut(s, c, Step(s, e, c).value, token, a)
  {
    InitialInv(s0);
    RunKeeps(s0, before);
    PaymentCommits(s, e, c);
    if Step(s, e, c).Some? {
      PaymentDoes(s, e, c, Step(s, e, c).value, token, a);
    }
  }

  /** So a seller is paid for the buyer's silence exactly when the window has passed since the
      buyer last did something, or since the escrow was opened. */
  lemma InactivityExact(s0: State, before: Run, s: State, e: Env, seller: Address, id: nat)
    requires Initial(s0) && s == Exec(s0, before) && id in s.escrows
    ensures var x, u := s.escrows[id], Step(s, e, ClaimInactivityCall(seller, id));
            var last := if id in s.lastBuyerAction then s.lastBuyerAction[id] else x.createdAt;
            && (u.Some? <==> !s.paused && Signed(e, seller) && seller == x.seller && Open(x)
                             && x.inactivity > 0 && e.now >= last + x.inactivity)
            && (u.Some? ==>
                  && u.value.escrows == s.escrows[id := x.(status := Released)]
                  && (x.seller != This ==>
                        Bal(u.value.bal, x.token, x.seller) == Bal(s.bal, x.token, x.seller) + x.amount))
  {
    PaymentExact(s0, before, s, e, ClaimInactivityCall(seller, id), s.escrows[id].token, s.escrows[id].seller);
  }

  /** And a buyer has its money back exactly after the deadline of an escrow still open. */
  lemma ExpiryExact(s0: State, before: Run, s: State, e: Env, id: nat)
    requires Initial(s0) && s == Exec(s0, before) && id in s.escrows
    ensures var x, u := s.escrows[id], Step(s, e, AutoReleaseExpiredCall(id));
            && (u.Some? <==> !s.paused && Signed(e, x.buyer) && Open(x) && e.now > x.deadline)
            && (u.Some? ==>
                  && u.value.escrows == s.escrows[id := x.(status := Refunded)]
                  && Bal(u.value.bal, x.token, x.buyer) == Bal(s.bal, x.token, x.buyer) + x.amount)
  {
    PaymentExact(s0, before, s, e, AutoReleaseExpiredCall(id), s.escrows[id].token, s.escrows[id].buyer);
  }

  lemma PaymentDoes(s: State, e: Env, c: Call, u: State, token: Address, a: Address)
    requires Inv(s) && IsPayment(c) && Step(s, e, c) == Some(u)
    ensures RecordsPayment(s, e, c, u) && PaysOut(s, c, u, token, a)
  {
    match c
    case ResolveCall(arbiter, id, toSeller) =>
      Covered(s, id);
      FeeWithin(s.escrows[id].amount, s.feeBps);
      ResolveDoes(s, e, c, u, FeeOf(s, s.escrows[id]), token, a);
    case DisputeCall(caller, id, disputed) => DisputeDoes(s, e, c, u, token, a);
    case _ => WholeDoes(s, e, c, u, token, a);
  }

  // --- Release and renewal ---

  /** The escrow is to be renewed when it is released. */
  predicate Recurs(x: Escrow) {
    x.autoRenew && (x.renewalCount == 0 || x.renewalsRemaining > 0)
  }

  /** The buyer has granted another renewal and, paid its own part of the release if it is
      one of the sellers, has the next deposit; and the escrow has a duration to repeat. */
  ghost predicate CanRenew(s: State, id: nat, x: Escrow)
    requires x.sellers != []
  {
    && id in s.renewalAllowance && s.renewalAllowance[id] > 0 && x.deadline > x.createdAt
    && Bal(s.approvals, x.token, x.buyer) >= x.amount
    && Bal(s.bal, x.token, x.buyer) + Part(x.amount, x.sellers, x.buyer) >= x.amount
  }

  ghost predicate MayRelease(s: State, e: Env, caller: Address, id: nat) {
    !s.paused && Signed(e, caller) && id in s.escrows &&
    var x := s.escrows[id];
    Open(x) && (caller == x.buyer || caller == x.arbiter) && x.sellers != [] && (Recurs(x) ==> CanRenew(s, id, x))
  }

  /** `u` is `t` with the next escrow of the chain opened. */
  ghost predicate RecordsRenewal(t: State, e: Env, id: nat, x: Escrow, u: State) {
    && Recurs(x) && id in t.renewalAllowance && t.renewalAllowance[id] > 0 && x.deadline > x.createdAt
    && var next := x.(status := Active, createdAt := e.now, deadline := e.now + (x.deadline - x.createdAt),
                      renewalsRemaining := if x.renewalCount == 0 then 0 else x.renewalsRemaining - 1);
       u == t.(bal := u.bal, journal := u.journal, approvals := u.approvals, counter := t.counter + 1,
               escrows := t.escrows[t.counter := next],
               lastBuyerAction := if x.inactivity > 0 then t.lastBuyerAction[t.counter := e.now]
                                  else t.lastBuyerAction,
               renewalAllowance := t.renewalAllowance[t.counter := t.renewalAllowance[id] - 1])
  }

  /** A release that is due to renew the escrow has opened the next one and taken its
      deposit from what the buyer approved; any other has only closed the escrow. */
  ghost predicate RecordsRelease(s: State, e: Env, caller: Address, id: nat, u: State)
    requires id in s.escrows
  {
    var x := s.escrows[id];
    var seen := if caller == x.buyer && x.inactivity > 0 then s.lastBuyerAction[id := e.now] else s.lastBuyerAction;
    var t := s.(escrows := s.escrows[id := x.(status := Released)], lastBuyerAction := seen);
    if Recurs(x) then RecordsRenewal(t, e, id, x, u) else u == t.(bal := u.bal, journal := u.journal)
  }

  /** Every seller has its part, and the next deposit, if there is one, has come in. */
  ghost predicate PaysRelease(s: State, x: Escrow, u: State, token: Address, a: Address)
    requires x.sellers != []
  {
    var deposit := if Recurs(x) then x.amount else 0;
    && Bal(u.bal, token, a)
    == Bal(s.bal, token, a)
       + (if token == x.token
          then Part(x.amount, x.sellers, a) - (if a == This then x.amount - deposit else 0)
               - (if a == x.buyer then deposit else 0) else 0)
    && Bal(u.approvals, token, a)
    == Bal(s.approvals, token, a) - if token == x.token && a == x.buyer then deposit else 0
  }

  lemma {:induction false} OthersMove(s: State, id: nat, x: Escrow, k: nat, t: State, token: Address, a: Address)
    requires 1 <= k <= |x.sellers| && x.amount >= 0 && PayOthers(s, id, x, k) == Some(t)
    ensures t == s.(bal := t.bal, journal := t.journal)
    ensures Bal(t.bal, token, a)
            == Bal(s.bal, token, a)
               + if token == x.token
                 then CutsOf(x.amount, x.sellers, k, {a})
                      - (if a == This then Distributed(x.amount, x.sellers, k) else 0) else 0
  {
    if k > 1 {
      var t1, share := PayOthers(s, id, x, k - 1).value, Share(x.amount, x.sellers[k - 1].1);
      assert x.amount * x.sellers[k - 1].1 >= 0;
      OthersMove(s, id, x, k - 1, t1, token, a);
      PaySends(t1, id, x.token, ToSeller, x.sellers[k - 1].0, share, t);
      OnceSent(t1, t, x.token, x.sellers[k - 1].0, share, token, a);
    }
  }

  lemma ManySellersMove(s: State, id: nat, x: Escrow, t: State, token: Address, a: Address)
    requires WellFormed(x) && |x.sellers| > 1 && PaySellers(s, id, x) == Some(t)
    requires Distributed(x.amount, x.sellers, |x.sellers|) <= x.amount
    ensures Sold(s, x, t, token, a)
  {
    var n := |x.sellers|;
    var w, rest := PayOthers(s, id, x, n).value, x.amount - Distributed(x.amount, x.sellers, n);
    OthersMove(s, id, x, n, w, token, a);
    PaySends(w, id, x.token, ToSeller, x.sellers[0].0, rest, t);
    OnceSent(w, t, x.token, x.sellers[0].0, rest, token, a);
  }

  /** `t` is `s` after all of `x` went to its sellers, each its part. */
  ghost predicate Sold(s: State, x: Escrow, t: State, token: Address, a: Address)
    requires x.sellers != []
  {
    && t == s.(bal := t.bal, journal := t.journal)
    && Bal(t.bal, token, a)
    == Bal(s.bal, token, a)
       + if token == x.token then Part(x.amount, x.sellers, a) - (if a == This then x.amount else 0) else 0
  }

  lemma SellersMove(s: State, id: nat, x: Escrow, t: State, token: Address, a: Address)
    requires WellFormed(x) && Splits(x) && PaySellers(s, id, x) == Some(t)
    ensures Sold(s, x, t, token, a)
  {
    if |x.sellers| == 1 {
      PaySends(s, id, x.token, ToSeller, x.seller, x.amount, t);
      OnceSent(s, t, x.token, x.seller, x.amount, token, a);
    } else {
      FirstSellerCut(x.amount, x.sellers);
      assert x.amount * x.sellers[0].1 >= 0;
      ManySellersMove(s, id, x, t, token, a);
    }
  }

  lemma {:induction false} OthersPayable(s: State, id: nat, x: Escrow, k: nat)
    requires 1 <= k <= |x.sellers| && x.amount >= 0
    requires Bal(s.bal, x.token, This) >= Distributed(x.amount, x.sellers, k)
    ensures PayOthers(s, id, x, k).Some?
    ensures Bal(PayOthers(s, id, x, k).value.bal, x.token, This)
            >= Bal(s.bal, x.token, This) - Distributed(x.amount, x.sellers, k)
  {
    if k > 1 {
      assert x.amount * x.sellers[k - 1].1 >= 0;
      OthersPayable(s, id, x, k - 1);
    }
  }

  lemma SellersPayable(s: State, id: nat, x: Escrow)
    requires WellFormed(x) && Splits(x) && Bal(s.bal, x.token, This) >= x.amount
    ensures PaySellers(s, id, x).Some?
  {
    var n := |x.sellers|;
    if n > 1 {
      FirstSellerCut(x.amount, x.sellers);
      assert x.amount * x.sellers[0].1 >= 0;
      OthersPayable(s, id, x, n);
    }
  }

  /** The release before any renewal. */
  lemma FundsCommit(s: State, e: Env, caller: Address, id: nat)
    requires Inv(s)
    ensures ReleaseFunds(s, e, caller, id).Some?
            <==> !s.paused && Signed(e, caller) && id in s.escrows && Open(s.escrows[id])
                 && (caller == s.escrows[id].buyer || caller == s.escrows[id].arbiter)
  {
    if id in s.escrows && Open(s.escrows[id]) {
      Covered(s, id);
      SellersPayable(TouchBuyer(s, e, caller, id), id, s.escrows[id]);
    }
  }

  lemma FundsStages(s: State, e: Env, caller: Address, id: nat, t: State) returns (s1: State, w: State)
    requires ReleaseFunds(s, e, caller, id) == Some(t)
    ensures id in s.escrows
    ensures var x := s.escrows[id];
            && s1 == s.(lastBuyerAction := if caller == x.buyer && x.inactivity > 0
                                           then s.lastBuyerAction[id := e.now] else s.lastBuyerAction)
            && PaySellers(s1, id, x) == Some(w) && t == w.(escrows := w.escrows[id := x.(status := Released)])
  {
    s1 := TouchBuyer(s, e, caller, id);
    w := PaySellers(s1, id, s.escrows[id]).value;
  }

  lemma FundsRecord(s: State, e: Env, caller: Address, id: nat, t: State)
    requires ReleaseFunds(s, e, caller, id) == Some(t) && WellFormed(s.escrows[id]) && Splits(s.escrows[id])
    ensures var x := s.escrows[id];
            t == s.(bal := t.bal, journal := t.journal, escrows := s.escrows[id := x.(status := Released)],
                    lastBuyerAction := if caller == x.buyer && x.inactivity > 0
                                       then s.lastBuyerAction[id := e.now] else s.lastBuyerAction)
  {
    var s1, w := FundsStages(s, e, caller, id, t);
    SellersMove(s1, id, s.escrows[id], w, This, This);
  }

  lemma FundsMove(s: State, e: Env, caller: Address, id: nat, t: State, token: Address, a: Address)
    requires ReleaseFunds(s, e, caller, id) == Some(t) && WellFormed(s.escrows[id]) && Splits(s.escrows[id])
    ensures t.approvals == s.approvals && t.renewalAllowance == s.renewalAllowance
    ensures var x := s.escrows[id];
            Bal(t.bal, token, a)
            == Bal(s.bal, token, a)
               + if token == x.token
                 then Part(x.amount, x.sellers, a) - (if a == This then x.amount else 0) else 0
  {
    var s1, w := FundsStages(s, e, caller, id, t);
    SellersMove(s1, id, s.escrows[id], w, token, a);
  }

  lemma RenewCommits(t: State, e: Env, id: nat, x: Escrow)
    requires x.amount >= 0
    ensures TryRenew(t, e, id, x).Some?
            <==> (Recurs(x) ==> && id in t.renewalAllowance && t.renewalAllowance[id] > 0 && x.deadline > x.createdAt
                                && Bal(t.approvals, x.token, x.buyer) >= x.amount
                                && Bal(t.bal, x.token, x.buyer) >= x.amount)
  {
  }

  lemma ReleaseCommits(s: State, e: Env, caller: Address, id: nat)
    requires Inv(s)
    ensures Release(s, e, caller, id).Some? <==> MayRelease(s, e, caller, id)
  {
    FundsCommit(s, e, caller, id);
    if ReleaseFunds(s, e, caller, id).Some? {
      var x, t := s.escrows[id], ReleaseFunds(s, e, caller, id).value;
      Covered(s, id);
      FundsMove(s, e, caller, id, t, x.token, x.buyer);
      RenewCommits(t, e, id, x);
      assert Bal(s.approvals, x.token, This) == 0;
    }
  }

  lemma RenewRecords(t: State, e: Env, id: nat, x: Escrow, u: State)
    requires Recurs(x) && TryRenew(t, e, id, x) == Some(u)
    ensures RecordsRenewal(t, e, id, x, u)
  {
  }

  lemma RenewMoves(t: State, e: Env, id: nat, x: Escrow, u: State, token: Address, a: Address)
    requires Recurs(x) && TryRenew(t, e, id, x) == Some(u)
    ensures Bal(u.bal, token, a)
            == Bal(t.bal, token, a)
               + if token == x.token
                 then (if a == This then x.amount else 0) - (if a == x.buyer then x.amount else 0) else 0
    ensures Bal(u.approvals, token, a)
            == Bal(t.approvals, token, a) - if token == x.token && a == x.buyer then x.amount else 0
  {
  }

  lemma ReleaseRecords(s: State, e: Env, caller: Address, id: nat, u: State)
    requires Release(s, e, caller, id) == Some(u) && WellFormed(s.escrows[id]) && Splits(s.escrows[id])
    ensures RecordsRelease(s, e, caller, id, u)
  {
    var x, t := ReleaseStages(s, e, caller, id, u);
    FundsRecord(s, e, caller, id, t);
    if Recurs(x) {
      RenewRecords(t, e, id, x, u);
    }
  }

  lemma ReleasePays(s: State, e: Env, caller: Address, id: nat, u: State, token: Address, a: Address)
    requires Release(s, e, caller, id) == Some(u) && WellFormed(s.escrows[id]) && Splits(s.escrows[id])
    ensures PaysRelease(s, s.escrows[id], u, token, a)
  {
    var x, t := ReleaseStages(s, e, caller, id, u);
    FundsMove(s, e, caller, id, t, token, a);
    if Recurs(x) {
      RenewMoves(t, e, id, x, u, token, a);
    }
  }

  lemma ReleaseStages(s: State, e: Env, caller: Address, id: nat, u: State) returns (x: Escrow, t: State)
    requires Release(s, e, caller, id) == Some(u)
    ensures id in s.escrows && x == s.escrows[id] && ReleaseFunds(s, e, caller, id) == Some(t)
    ensures if Recurs(x) then TryRenew(t, e, id, x) == Some(u) else u == t
  {
    x, t := s.escrows[id], ReleaseFunds(s, e, caller, id).value;
  }

  /** In every reachable state: a release commits exactly when the parties allow it and, if
      the escrow is to be renewed, the buyer's grant and funds do; it renews exactly then. */
  lemma ReleaseExact(s0: State, before: Run, s: State, e: Env, caller: Address, id: nat, token: Address, a: Address)
    requires Initial(s0) && s == Exec(s0, before)
    ensures Step(s, e, ReleaseCall(caller, id)).Some? <==> MayRelease(s, e, caller, id)
    ensures Step(s, e, ReleaseCall(caller, id)).Some? ==>
              var u := Step(s, e, ReleaseCall(caller, id)).value;
              && RecordsRelease(s, e, caller, id, u) && PaysRelease(s, s.escrows[id], u, token, a)
              && (u.counter == s.counter + 1 <==> Recurs(s.escrows[id]))
  {
    InitialInv(s0);
    RunKeeps(s0, before);
    ReleaseCommits(s, e, caller, id);
    if Step(s, e, ReleaseCall(caller, id)).Some? {
      ReleaseRecords(s, e, caller, id, Step(s, e, ReleaseCall(caller, id)).value);
      ReleasePays(s, e, caller, id, Step(s, e, ReleaseCall(caller, id)).value, token, a);
    }
  }
}
