/**
 Money safety of the escrow contract over every run: solvency, the per-escrow
 ledger, agreement of the token balances with the journal, and finality.
 */
module EscrowSafety {
  import opened Common
  import opened Ledger
  import opened Sums
  import opened EscrowModel

  // --- What the journal and the escrows say ---

  predicate IsLive(st: Status) {
    IsOpen(st) || IsDisputed(st)
  }

  function Held(x: Escrow): int {
    if IsLive(x.status) then x.amount else 0
  }

  /** What the contract owes to live escrows in `token`, over ids below `n`. */
  ghost function HeldSum(escrows: map<nat, Escrow>, n: nat, token: Address): int {
    if n == 0 then 0
    else HeldSum(escrows, n - 1, token)
         + if n - 1 in escrows && escrows[n - 1].token == token then Held(escrows[n - 1]) else 0
  }

  /** Total of one kind of movement for one escrow. */
  ghost function Tally(journal: seq<Move>, id: nat, kind: Kind): int {
    if journal == [] then 0
    else
      var m := journal[|journal| - 1];
      Tally(journal[..|journal| - 1], id, kind) + if m.id == id && m.kind == kind then m.amount else 0
  }

  ghost function Outflow(journal: seq<Move>, id: nat): int {
    Tally(journal, id, ToSeller) + Tally(journal, id, ToBuyer) + Tally(journal, id, ToProtocol)
  }

  /** The change of `holder`'s balance of `token` that the journal accounts for. */
  ghost function Flow(journal: seq<Move>, token: Address, holder: Address): int {
    if journal == [] then 0
    else
      var m := journal[|journal| - 1];
      var sign := if m.kind == Deposit then -1 else 1;
      Flow(journal[..|journal| - 1], token, holder)
      + (if m.token == token && m.party == holder then sign * m.amount else 0)
      - (if m.token == token && This == holder then sign * m.amount else 0)
  }

  /** Every movement is under the escrow's own token, and what went to sellers or buyer went
      to its sellers or its buyer. */
  predicate Entitled(escrows: map<nat, Escrow>, m: Move) {
    m.id in escrows && m.token == escrows[m.id].token && m.amount >= 0 &&
    match m.kind
    case Deposit => true
    case ToSeller => exists i :: 0 <= i < |escrows[m.id].sellers| && escrows[m.id].sellers[i].0 == m.party
    case ToBuyer => escrows[m.id].status == Refunded && m.party == escrows[m.id].buyer
    case ToProtocol => IsTerminal(escrows[m.id].status)
  }

  predicate WellFormed(x: Escrow) {
    && x.amount >= 0 && (IsLive(x.status) ==> x.amount > 0)
    && x.sellers != [] && x.sellers[0].0 == x.seller && x.renewalsRemaining <= x.renewalCount
  }

  ghost predicate Splits(x: Escrow) {
    SumSeq(BpsOf(x.sellers)) == BPS
  }

  // --- The invariant ---

  ghost predicate Solvent(bal: Balances, escrows: map<nat, Escrow>, n: nat) {
    forall t :: Bal(bal, t, This) >= HeldSum(escrows, n, t)
  }

  /** Deposit = paid to sellers + returned to the buyer + protocol fee + still held. */
  ghost predicate Accounted(journal: seq<Move>, escrows: map<nat, Escrow>) {
    forall id :: id in escrows ==> Tally(journal, id, Deposit) == Outflow(journal, id) + Held(escrows[id])
  }

  ghost predicate AllEntitled(journal: seq<Move>, escrows: map<nat, Escrow>) {
    forall m :: m in journal ==> Entitled(escrows, m)
  }

  ghost predicate Records(escrows: map<nat, Escrow>, n: nat) {
    && (forall id: nat :: id in escrows <==> id < n)
    && (forall id :: id in escrows ==> WellFormed(escrows[id]) && Splits(escrows[id]))
  }

  ghost predicate FeeInv(feeBps: nat, recipient: Option<Address>) {
    feeBps <= MAX_FEE && (feeBps > 0 ==> recipient.Some?)
  }

  ghost predicate PoolInv(pool: seq<Address>, next: nat) {
    NoDup(pool) && (next == 0 || next < |pool|)
  }

  /** Nobody may pull tokens from the contract. */
  ghost predicate NoPulls(approvals: Balances) {
    forall t :: Bal(approvals, t, This) == 0
  }

  ghost predicate Inv(s: State) {
    && Records(s.escrows, s.counter) && Solvent(s.bal, s.escrows, s.counter)
    && Accounted(s.journal, s.escrows) && AllEntitled(s.journal, s.escrows)
    && FeeInv(s.feeBps, s.feeRecipient) && PoolInv(s.pool, s.nextArbiter) && NoPulls(s.approvals)
  }

  // --- Bookkeeping of single movements ---

  lemma {:induction false} HeldSumUpdate(escrows: map<nat, Escrow>, n: nat, id: nat, x: Escrow, token: Address)
    ensures HeldSum(escrows[id := x], n, token)
            == HeldSum(escrows, n, token)
               + (if id < n && x.token == token then Held(x) else 0)
               - (if id < n && id in escrows && escrows[id].token == token then Held(escrows[id]) else 0)
  {
    if n > 0 {
      HeldSumUpdate(escrows, n - 1, id, x, token);
    }
  }

  lemma TallyNext(journal: seq<Move>, m: Move)
    ensures forall id, kind :: Tally(journal + [m], id, kind)
                               == Tally(journal, id, kind) + if m.id == id && m.kind == kind then m.amount else 0
    ensures forall t, a ::
              Flow(journal + [m], t, a)
              == Flow(journal, t, a)
                 + (if m.token == t && m.party == a then (if m.kind == Deposit then -m.amount else m.amount) else 0)
                 - (if m.token == t && This == a then (if m.kind == Deposit then -m.amount else m.amount) else 0)
  {
    assert (journal + [m])[..|journal|] == journal;
  }

  lemma {:induction false} NoTally(journal: seq<Move>, id: nat, kind: Kind)
    requires forall m :: m in journal ==> m.id != id
    ensures Tally(journal, id, kind) == 0
  {
    if journal != [] {
      NoTally(journal[..|journal| - 1], id, kind);
    }
  }

  /** `t` follows from `s` by payments of `out` in all for escrow `id`, each of them a
      movement that `Entitled` will accept once the escrow is `y`. */
  ghost predicate Paid(s: State, t: State, id: nat, y: Escrow, out: int) {
    && t == s.(bal := t.bal, journal := t.journal)
    && Drawn(s.bal, t.bal, y.token, out)
    && Booked(s.journal, t.journal, id, out)
    && MovesOf(s.journal, t.journal, id, y)
    && SameDrift(s.bal, s.journal, t.bal, t.journal)
  }

  ghost predicate Drawn(before: Balances, after: Balances, token: Address, out: int) {
    forall t :: Bal(after, t, This) >= Bal(before, t, This) - if t == token then out else 0
  }

  ghost predicate Booked(before: seq<Move>, after: seq<Move>, id: nat, out: int) {
    && (forall i :: Outflow(after, i) == Outflow(before, i) + if i == id then out else 0)
    && (forall i :: Tally(after, i, Deposit) == Tally(before, i, Deposit))
  }

  ghost predicate MovesOf(before: seq<Move>, after: seq<Move>, id: nat, y: Escrow) {
    forall m :: m in after ==> m in before || (m.id == id && Entitled(map[id := y], m))
  }

  /** No token moved except as the journal says. */
  ghost predicate SameDrift(b: Balances, j: seq<Move>, b': Balances, j': seq<Move>) {
    forall t, a :: Bal(b', t, a) - Flow(j', t, a) == Bal(b, t, a) - Flow(j, t, a)
  }

  ghost predicate Drifts(s: State, u: State) {
    SameDrift(s.bal, s.journal, u.bal, u.journal)
  }

  lemma PayIsPaid(s: State, id: nat, y: Escrow, kind: Kind, to: Address, amount: int)
    requires kind != Deposit && Entitled(map[id := y], Move(id, y.token, kind, to, amount))
    requires Pay(s, id, y.token, kind, to, amount).Some?
    ensures Paid(s, Pay(s, id, y.token, kind, to, amount).value, id, y, amount)
  {
    TallyNext(s.journal, Move(id, y.token, kind, to, amount));
  }

  lemma PaidTwice(s: State, t: State, u: State, id: nat, y: Escrow, first: int, second: int)
    requires Paid(s, t, id, y, first) && Paid(t, u, id, y, second)
    ensures Paid(s, u, id, y, first + second)
  {
  }

  lemma PaidThenPay(s: State, t: State, id: nat, y: Escrow, out: int, kind: Kind, to: Address, amount: int)
    requires Paid(s, t, id, y, out) && Pay(t, id, y.token, kind, to, amount).Some?
    requires kind != Deposit && Entitled(map[id := y], Move(id, y.token, kind, to, amount))
    ensures Paid(s, Pay(t, id, y.token, kind, to, amount).value, id, y, out + amount)
  {
    PayIsPaid(t, id, y, kind, to, amount);
    PaidTwice(s, t, Pay(t, id, y.token, kind, to, amount).value, id, y, out, amount);
  }

  lemma PaidThenPositive(s: State, t: State, id: nat, y: Escrow, out: int, kind: Kind, to: Address, amount: int)
    requires Paid(s, t, id, y, out) && amount >= 0 && PayPositive(t, id, y.token, kind, to, amount).Some?
    requires kind != Deposit && Entitled(map[id := y], Move(id, y.token, kind, to, amount))
    ensures Paid(s, PayPositive(t, id, y.token, kind, to, amount).value, id, y, out + amount)
  {
    if amount > 0 {
      PaidThenPay(s, t, id, y, out, kind, to, amount);
    }
  }

  lemma PaidNothing(s: State, id: nat, y: Escrow)
    ensures Paid(s, s, id, y, 0)
  {
  }

  /** `y` is `x` after `out` has left it. */
  predicate Continues(x: Escrow, y: Escrow, out: int) {
    && y.token == x.token && y.sellers == x.sellers && WellFormed(y) && Held(y) == Held(x) - out
    && y.amount <= x.amount
    && y.renewalCount == x.renewalCount && y.renewalsRemaining <= x.renewalsRemaining
    && (IsLive(x.status) || (y.status == x.status && y.buyer == x.buyer && y.amount == x.amount))
  }

  /** Payments and then the new record make a disbursement. */
  lemma PaidDisburses(s: State, s0: State, t: State, u: State, id: nat, y: Escrow, out: int)
    requires id in s.escrows && Continues(s.escrows[id], y, out) && Paid(s0, t, id, y, out)
    requires s0 == s.(lastBuyerAction := s0.lastBuyerAction) && u == t.(escrows := t.escrows[id := y])
    ensures Disburses(s, u, id, y, out)
  {
  }

  /** `u` is `s` after escrow `id` became `y` and `out` was paid on its account. */
  ghost predicate Disburses(s: State, u: State, id: nat, y: Escrow, out: int) {
    && id in s.escrows && Continues(s.escrows[id], y, out)
    && u.escrows == s.escrows[id := y] && u.counter == s.counter && SameConfig(s, u)
    && Drawn(s.bal, u.bal, y.token, out) && Booked(s.journal, u.journal, id, out)
    && MovesOf(s.journal, u.journal, id, y) && Drifts(s, u)
  }

  predicate SameConfig(s: State, u: State) {
    && u.feeBps == s.feeBps && u.feeRecipient == s.feeRecipient
    && u.pool == s.pool && u.nextArbiter == s.nextArbiter && u.approvals == s.approvals
  }

  lemma DisburseKeeps(s: State, u: State, id: nat, y: Escrow, out: int)
    requires Inv(s) && Disburses(s, u, id, y, out)
    ensures Inv(u)
  {
    SettleSolvent(s.bal, u.bal, s.escrows, s.counter, id, y, out);
    SettleEntitled(s.journal, u.journal, s.escrows, id, y, out);
    SettleAccounted(s.journal, u.journal, s.escrows, id, y, out);
    SettleRecords(s.escrows, s.counter, id, y, out);
  }

  lemma SettleSolvent(bal: Balances, bal': Balances, escrows: map<nat, Escrow>, n: nat, id: nat, y: Escrow, out: int)
    requires Solvent(bal, escrows, n) && id in escrows && id < n
    requires Drawn(bal, bal', y.token, out) && Continues(escrows[id], y, out)
    ensures Solvent(bal', escrows[id := y], n)
  {
    forall k ensures Bal(bal', k, This) >= HeldSum(escrows[id := y], n, k) {
      HeldSumUpdate(escrows, n, id, y, k);
    }
  }

  lemma SettleAccounted(j: seq<Move>, j': seq<Move>, escrows: map<nat, Escrow>, id: nat, y: Escrow, out: int)
    requires Accounted(j, escrows) && id in escrows && Booked(j, j', id, out) && Continues(escrows[id], y, out)
    ensures Accounted(j', escrows[id := y])
  {
  }

  lemma SettleRecords(escrows: map<nat, Escrow>, n: nat, id: nat, y: Escrow, out: int)
    requires Records(escrows, n) && id in escrows && Continues(escrows[id], y, out)
    ensures Records(escrows[id := y], n)
  {
  }

  lemma SettleEntitled(j: seq<Move>, j': seq<Move>, escrows: map<nat, Escrow>, id: nat, y: Escrow, out: int)
    requires AllEntitled(j, escrows) && id in escrows && MovesOf(j, j', id, y) && Continues(escrows[id], y, out)
    ensures AllEntitled(j', escrows[id := y])
  {
    forall m | m in j' ensures Entitled(escrows[id := y], m) {
      if m in j {
        EntitledLater(escrows, m, id, y);
      } else {
        assert Entitled(map[id := y], m);
      }
    }
  }

  lemma EntitledLater(escrows: map<nat, Escrow>, m: Move, id: nat, y: Escrow)
    requires Entitled(escrows, m)
    requires id in escrows ==> y.token == escrows[id].token && y.sellers == escrows[id].sellers
    requires id in escrows
             ==> IsLive(escrows[id].status) || (y.status == escrows[id].status && y.buyer == escrows[id].buyer)
    ensures Entitled(escrows[id := y], m)
  {
  }

  /** `u` is `s` after `from` deposited for the new escrow `x`. */
  ghost predicate Opens(s: State, u: State, from: Address, x: Escrow) {
    && from != This && x.buyer == from && x.status == Active && x.amount > 0 && WellFormed(x) && Splits(x)
    && u.escrows == s.escrows[s.counter := x] && u.counter == s.counter + 1
    && u.journal == s.journal + [Move(s.counter, x.token, Deposit, from, x.amount)]
    && Moved(s.bal, u.bal, x.token, from, This, x.amount)
    && u.feeBps == s.feeBps && u.feeRecipient == s.feeRecipient
    && (PoolInv(s.pool, s.nextArbiter) ==> PoolInv(u.pool, u.nextArbiter))
    && (NoPulls(s.approvals) ==> NoPulls(u.approvals))
  }

  lemma OpenKeeps(s: State, u: State, from: Address, x: Escrow)
    requires Inv(s) && Opens(s, u, from, x)
    ensures Inv(u) && Drifts(s, u)
  {
    var m := Move(s.counter, x.token, Deposit, from, x.amount);
    OpenedDrift(s.bal, u.bal, s.journal, m);
    OpenedBooks(s, u, from, x, m);
  }

  lemma OpenedBooks(s: State, u: State, from: Address, x: Escrow, m: Move)
    requires Inv(s) && Opens(s, u, from, x) && m == Move(s.counter, x.token, Deposit, from, x.amount)
    ensures Inv(u)
  {
    OpenedSolvent(s.bal, u.bal, s.escrows, s.counter, from, x);
    OpenedAccounted(s.journal, s.escrows, s.counter, m, x);
    OpenedEntitled(s.journal, s.escrows, s.counter, m, x);
    OpenedRecords(s.escrows, s.counter, x);
  }

  lemma OpenedDrift(bal: Balances, bal': Balances, j: seq<Move>, m: Move)
    requires m.kind == Deposit && Moved(bal, bal', m.token, m.party, This, m.amount)
    ensures SameDrift(bal, j, bal', j + [m])
  {
    TallyNext(j, m);
  }

  lemma OpenedRecords(escrows: map<nat, Escrow>, n: nat, x: Escrow)
    requires Records(escrows, n) && WellFormed(x) && Splits(x)
    ensures Records(escrows[n := x], n + 1)
  {
  }

  lemma OpenedEntitled(j: seq<Move>, escrows: map<nat, Escrow>, n: nat, m: Move, x: Escrow)
    requires Records(escrows, n) && AllEntitled(j, escrows)
    requires m.id == n && m.token == x.token && m.kind == Deposit && m.amount >= 0
    ensures AllEntitled(j + [m], escrows[n := x])
  {
    forall k | k in j + [m] ensures Entitled(escrows[n := x], k) {
      if k in j {
        EntitledLater(escrows, k, n, x);
      }
    }
  }

  lemma OpenedSolvent(bal: Balances, bal': Balances, escrows: map<nat, Escrow>, n: nat, from: Address, x: Escrow)
    requires Records(escrows, n) && Solvent(bal, escrows, n) && x.status == Active
    requires from != This && Moved(bal, bal', x.token, from, This, x.amount)
    ensures Solvent(bal', escrows[n := x], n + 1)
  {
    forall k ensures Bal(bal', k, This) >= HeldSum(escrows[n := x], n + 1, k) {
      HeldSumUpdate(escrows, n, n, x, k);
      assert HeldSum(escrows[n := x], n + 1, k)
             == HeldSum(escrows[n := x], n, k) + if x.token == k then x.amount else 0;
    }
  }

  lemma OpenedAccounted(j: seq<Move>, escrows: map<nat, Escrow>, n: nat, m: Move, x: Escrow)
    requires Records(escrows, n) && Accounted(j, escrows) && AllEntitled(j, escrows)
    requires m.id == n && m.kind == Deposit && m.amount == x.amount && x.status == Active
    ensures Accounted(j + [m], escrows[n := x])
  {
    TallyNext(j, m);
    forall kind ensures Tally(j, n, kind) == 0 {
      forall k | k in j ensures k.id != n {
        assert Entitled(escrows, k);
      }
      NoTally(j, n, kind);
    }
  }

  // --- Ways in ---

  lemma ResolvedSellers(seller: Address, sellers: seq<(Address, nat)>)
    ensures var r := ResolveSellers(seller, sellers);
            r.Some? ==> r.value != [] && SumSeq(BpsOf(r.value)) == BPS
  {
    SingleSeller(seller);
  }

  lemma SingleSeller(seller: Address)
    ensures SumSeq(BpsOf([(seller, BPS)])) == BPS
  {
    assert BpsOf([(seller, BPS)]) == [BPS];
    assert SumSeq([BPS]) == SumSeq([]) + BPS by {
      assert [BPS][..0] == [];
    }
  }

  /** What each way in makes of a deposit. */
  lemma DepositOpens(s: State, t: State, u: State, from: Address, x: Escrow, now: nat)
    requires TakeDeposit(s, x.token, from, x.amount) == Some(t) && u == Place(t, x, now)
    requires from != This && x.buyer == from && x.status == Active && x.amount > 0 && WellFormed(x) && Splits(x)
    ensures Opens(s, u, from, x)
  {
  }

  lemma CreateCoreOpens(s: State, e: Env, buyer: Address, t: Terms) returns (x: Escrow)
    requires buyer != This && CreateCore(s, e, buyer, t).Some?
    ensures Opens(s, CreateCore(s, e, buyer, t).value, buyer, x)
  {
    ResolvedSellers(t.seller, t.sellers);
    x := FreshEscrow(e, buyer, t, ResolveSellers(t.seller, t.sellers).value);
    DepositOpens(s, TakeDeposit(s, t.token, buyer, t.amount).value, CreateCore(s, e, buyer, t).value, buyer, x, e.now);
  }

  lemma CreateCoreKeeps(s: State, e: Env, buyer: Address, t: Terms)
    requires Inv(s) && buyer != This && CreateCore(s, e, buyer, t).Some?
    ensures Inv(CreateCore(s, e, buyer, t).value) && Drifts(s, CreateCore(s, e, buyer, t).value)
  {
    var x := CreateCoreOpens(s, e, buyer, t);
    OpenKeeps(s, CreateCore(s, e, buyer, t).value, buyer, x);
  }

  lemma {:induction false} CreateAllKeeps(s: State, e: Env, buyer: Address, batch: seq<Terms>)
    requires Inv(s) && buyer != This && CreateAll(s, e, buyer, batch).Some?
    ensures Inv(CreateAll(s, e, buyer, batch).value) && Drifts(s, CreateAll(s, e, buyer, batch).value)
  {
    if batch != [] {
      var n := |batch| - 1;
      CreateAllKeeps(s, e, buyer, batch[..n]);
      CreateCoreKeeps(CreateAll(s, e, buyer, batch[..n]).value, e, buyer, batch[n].(inactivity := 0));
    }
  }

  lemma TemplateOpens(s: State, e: Env, buyer: Address, seller: Address, template: nat, amount: int) returns (x: Escrow)
    requires CreateFromTemplate(s, e, buyer, seller, template, amount).Some?
    ensures Opens(s, CreateFromTemplate(s, e, buyer, seller, template, amount).value, buyer, x)
  {
    var t := s.templates[template];
    SingleSeller(seller);
    x := FreshEscrow(e, buyer, PlainTerms(seller, t.arbiter, amount, t.token, e.now + t.duration), [(seller, BPS)]);
    DepositOpens(s, TakeDeposit(s, t.token, buyer, amount).value,
                 CreateFromTemplate(s, e, buyer, seller, template, amount).value, buyer, x, e.now);
  }

  lemma PoolOpens(s: State, e: Env, buyer: Address, seller: Address, amount: int, token: Address, deadline: nat)
    returns (x: Escrow)
    requires CreateWithPool(s, e, buyer, seller, amount, token, deadline).Some?
    ensures Opens(s, CreateWithPool(s, e, buyer, seller, amount, token, deadline).value, buyer, x)
  {
    var s1 := s.(nextArbiter := (s.nextArbiter + 1) % |s.pool|);
    SingleSeller(seller);
    x := FreshEscrow(e, buyer, PlainTerms(seller, s.pool[s.nextArbiter % |s.pool|], amount, token, deadline),
                     [(seller, BPS)]);
    DepositOpens(s1, TakeDeposit(s1, token, buyer, amount).value,
                 CreateWithPool(s, e, buyer, seller, amount, token, deadline).value, buyer, x, e.now);
  }

  lemma RenewOpens(s: State, e: Env, source: nat, x: Escrow)
    requires WantsRenewal(x) && WellFormed(x) && Splits(x) && x.amount > 0 && x.buyer != This
    requires TryRenew(s, e, source, x).Some?
    ensures Opens(s, TryRenew(s, e, source, x).value, x.buyer, Successor(x, e.now))
  {
  }

  // --- Ways out ---

  lemma {:induction false} DistributedIsShares(total: int, sellers: seq<(Address, nat)>, k: nat)
    requires 1 <= k <= |sellers|
    ensures Share(total, sellers[0].1) + Distributed(total, sellers, k) == SumShares(total, BpsOf(sellers)[..k])
  {
    var bps := BpsOf(sellers);
    assert bps[..k][..k - 1] == bps[..k - 1];
    if k > 1 {
      DistributedIsShares(total, sellers, k - 1);
    } else {
      assert SumShares(total, bps[..0]) == 0;
    }
  }

  /** The first seller's remainder is its own rounded-down share plus less than one
      unit per seller; in particular it is never negative. */
  lemma FirstSellerCut(total: nat, sellers: seq<(Address, nat)>)
    requires sellers != [] && SumSeq(BpsOf(sellers)) == BPS
    ensures var own := Share(total, sellers[0].1);
            0 <= own <= total - Distributed(total, sellers, |sellers|) <= own + |sellers| - 1
  {
    DistributedIsShares(total, sellers, |sellers|);
    assert BpsOf(sellers)[..|sellers|] == BpsOf(sellers);
    DustOfWhole(total, BpsOf(sellers));
    assert total * sellers[0].1 >= 0;
  }

  lemma {:induction false} OthersPaid(s: State, id: nat, x: Escrow, k: nat)
    requires 1 <= k <= |x.sellers| && x.amount >= 0 && PayOthers(s, id, x, k).Some?
    ensures Paid(s, PayOthers(s, id, x, k).value, id, x.(status := Released), Distributed(x.amount, x.sellers, k))
  {
    var y := x.(status := Released);
    if k == 1 {
      PaidNothing(s, id, y);
    } else {
      OthersPaid(s, id, x, k - 1);
      assert x.amount * x.sellers[k - 1].1 >= 0;
      PaidThenPositive(s, PayOthers(s, id, x, k - 1).value, id, y, Distributed(x.amount, x.sellers, k - 1), ToSeller,
                       x.sellers[k - 1].0, Share(x.amount, x.sellers[k - 1].1));
    }
  }

  lemma ManySellersPaid(s: State, id: nat, x: Escrow)
    requires WellFormed(x) && |x.sellers| > 1 && PaySellers(s, id, x).Some?
    requires Distributed(x.amount, x.sellers, |x.sellers|) <= x.amount
    ensures Paid(s, PaySellers(s, id, x).value, id, x.(status := Released), x.amount)
  {
    var n := |x.sellers|;
    OthersPaid(s, id, x, n);
    FirstPaid(s, PayOthers(s, id, x, n).value, id, x, x.(status := Released), Distributed(x.amount, x.sellers, n),
              PaySellers(s, id, x).value);
  }

  lemma FirstPaid(s: State, t: State, id: nat, x: Escrow, y: Escrow, paid: int, u: State)
    requires WellFormed(x) && paid <= x.amount && y == x.(status := Released) && Paid(s, t, id, y, paid)
    requires PayPositive(t, id, x.token, ToSeller, x.sellers[0].0, x.amount - paid) == Some(u)
    ensures Paid(s, u, id, y, x.amount)
  {
    var rest := x.amount - paid;
    FirstEntitled(id, y, rest);
    PaidThenPositive(s, t, id, y, paid, ToSeller, y.sellers[0].0, rest);
    assert paid + rest == x.amount;
  }

  lemma FirstEntitled(id: nat, y: Escrow, amount: nat)
    requires y.sellers != []
    ensures Entitled(map[id := y], Move(id, y.token, ToSeller, y.sellers[0].0, amount))
  {
  }

  lemma SellersPaid(s: State, id: nat, x: Escrow)
    requires WellFormed(x) && Splits(x) && PaySellers(s, id, x).Some?
    ensures Paid(s, PaySellers(s, id, x).value, id, x.(status := Released), x.amount)
  {
    if |x.sellers| > 1 {
      assert Distributed(x.amount, x.sellers, |x.sellers|) <= x.amount by {
        FirstSellerCut(x.amount, x.sellers);
      }
      ManySellersPaid(s, id, x);
    } else {
      PayIsPaid(s, id, x.(status := Released), ToSeller, x.seller, x.amount);
    }
  }

  lemma RenewKeeps(s: State, e: Env, source: nat, x: Escrow)
    requires Inv(s) && WellFormed(x) && Splits(x) && x.amount > 0 && TryRenew(s, e, source, x).Some?
    ensures Inv(TryRenew(s, e, source, x).value) && Drifts(s, TryRenew(s, e, source, x).value)
  {
    if WantsRenewal(x) {
      assert x.buyer != This by {
        assert Bal(s.approvals, x.token, This) == 0;
      }
      RenewOpens(s, e, source, x);
      OpenKeeps(s, TryRenew(s, e, source, x).value, x.buyer, Successor(x, e.now));
    }
  }

  lemma ReleaseFundsDisburses(s: State, e: Env, caller: Address, id: nat) returns (y: Escrow)
    requires ReleaseFunds(s, e, caller, id).Some? && WellFormed(s.escrows[id]) && Splits(s.escrows[id])
    ensures Disburses(s, ReleaseFunds(s, e, caller, id).value, id, y, s.escrows[id].amount)
  {
    var x, s0 := s.escrows[id], TouchBuyer(s, e, caller, id);
    SellersPaid(s0, id, x);
    y := x.(status := Released);
    PaidDisburses(s, s0, PaySellers(s0, id, x).value, ReleaseFunds(s, e, caller, id).value, id, y, x.amount);
  }

  lemma ReleaseKeeps(s: State, e: Env, caller: Address, id: nat)
    requires Inv(s) && Release(s, e, caller, id).Some?
    ensures Inv(Release(s, e, caller, id).value) && Drifts(s, Release(s, e, caller, id).value)
  {
    var x := s.escrows[id];
    var y := ReleaseFundsDisburses(s, e, caller, id);
    var s1 := ReleaseFunds(s, e, caller, id).value;
    DisburseKeeps(s, s1, id, y, x.amount);
    RenewKeeps(s1, e, id, x);
  }

  lemma PartialReleaseDisburses(s: State, e: Env, caller: Address, id: nat, amount: int) returns (y: Escrow)
    requires PartialRelease(s, e, caller, id, amount).Some? && WellFormed(s.escrows[id])
    ensures Disburses(s, PartialRelease(s, e, caller, id, amount).value, id, y, amount)
  {
    var x := s.escrows[id];
    var left := x.amount - amount;
    y := x.(amount := left, status := if left == 0 then Released else PartiallyReleased);
    PayIsPaid(s, id, y, ToSeller, x.seller, amount);
    PaidDisburses(s, s, Pay(s, id, x.token, ToSeller, x.seller, amount).value,
                  PartialRelease(s, e, caller, id, amount).value, id, y, amount);
  }

  lemma DisputeDisburses(s: State, e: Env, caller: Address, id: nat, disputed: int) returns (y: Escrow, out: int)
    requires Dispute(s, e, caller, id, disputed).Some? && WellFormed(s.escrows[id])
    ensures Disburses(s, Dispute(s, e, caller, id, disputed).value, id, y, out)
  {
    var x, s0 := s.escrows[id], TouchBuyer(s, e, caller, id);
    out := x.amount - disputed;
    y := x.(amount := disputed, status := if out > 0 then PartiallyDisputed else Disputed);
    PaidNothing(s0, id, y);
    PaidThenPositive(s0, s0, id, y, 0, ToSeller, x.seller, out);
    PaidDisburses(s, s0, PayPositive(s0, id, x.token, ToSeller, x.seller, out).value,
                  Dispute(s, e, caller, id, disputed).value, id, y, out);
  }

  lemma FeePaid(s: State, id: nat, y: Escrow, fee: int) returns (t: State)
    requires IsTerminal(y.status) && fee >= 0 && PayFee(s, id, y.token, fee).Some?
    ensures t == PayFee(s, id, y.token, fee).value && Paid(s, t, id, y, fee)
  {
    t := PayFee(s, id, y.token, fee).value;
    if fee > 0 {
      PayIsPaid(s, id, y, ToProtocol, s.feeRecipient.value, fee);
    } else {
      PaidNothing(s, id, y);
    }
  }

  /** Closing `x` as `y` with the fee and then one payment of all the rest. */
  ghost predicate Closes(s: State, u: State, id: nat, x: Escrow, y: Escrow, fee: int, kind: Kind, to: Address) {
    PayFee(s, id, x.token, fee).Some? &&
    var t := PayFee(s, id, x.token, fee).value;
    var w := Pay(t, id, x.token, kind, to, x.amount - fee);
    w.Some? && u == w.value.(escrows := w.value.escrows[id := y])
  }

  lemma CloseUnfolds(s: State, u: State, id: nat, x: Escrow, y: Escrow, fee: int, kind: Kind, to: Address)
    returns (t: State, w: State)
    requires Closes(s, u, id, x, y, fee, kind, to) && y.token == x.token
    ensures PayFee(s, id, y.token, fee) == Some(t) && Pay(t, id, y.token, kind, to, x.amount - fee) == Some(w)
    ensures u == w.(escrows := w.escrows[id := y])
  {
    t := PayFee(s, id, x.token, fee).value;
    w := Pay(t, id, x.token, kind, to, x.amount - fee).value;
  }

  lemma FeeThenPaid(s: State, t: State, w: State, id: nat, y: Escrow, fee: int, kind: Kind, to: Address, rest: int)
    requires Paid(s, t, id, y, fee) && Pay(t, id, y.token, kind, to, rest) == Some(w)
    requires kind != Deposit && Entitled(map[id := y], Move(id, y.token, kind, to, rest))
    ensures Paid(s, w, id, y, fee + rest)
  {
    PaidThenPay(s, t, id, y, fee, kind, to, rest);
  }

  lemma ClosePaid(s: State, u: State, id: nat, x: Escrow, y: Escrow, fee: int, kind: Kind, to: Address)
    returns (w: State)
    requires Closes(s, u, id, x, y, fee, kind, to) && fee >= 0 && kind != Deposit && y == x.(status := y.status)
    requires IsTerminal(y.status) && Entitled(map[id := y], Move(id, x.token, kind, to, x.amount - fee))
    ensures Paid(s, w, id, y, x.amount) && u == w.(escrows := w.escrows[id := y])
  {
    var t;
    t, w := CloseUnfolds(s, u, id, x, y, fee, kind, to);
    var t' := FeePaid(s, id, y, fee);
    FeeThenPaid(s, t, w, id, y, fee, kind, to, x.amount - fee);
  }

  lemma CloseDisburses(s: State, u: State, id: nat, x: Escrow, y: Escrow, fee: int, kind: Kind, to: Address)
    requires id in s.escrows && s.escrows[id] == x && IsLive(x.status) && WellFormed(x)
    requires Closes(s, u, id, x, y, fee, kind, to) && fee >= 0 && kind != Deposit && y == x.(status := y.status)
    requires IsTerminal(y.status) && Entitled(map[id := y], Move(id, x.token, kind, to, x.amount - fee))
    ensures Disburses(s, u, id, y, x.amount)
  {
    var w := ClosePaid(s, u, id, x, y, fee, kind, to);
    assert Continues(x, y, x.amount);
    PaidDisburses(s, s, w, u, id, y, x.amount);
  }

  lemma SettlementCloses(s: State, id: nat, x: Escrow, fee: int, toSeller: bool, u: State)
    requires WellFormed(x) && 0 <= fee <= x.amount && Settlement(s, id, x, fee, toSeller) == Some(u)
    ensures var y := x.(status := if toSeller then Released else Refunded);
            var kind, to := if toSeller then ToSeller else ToBuyer, if toSeller then x.seller else x.buyer;
            Closes(s, u, id, x, y, fee, kind, to) && Entitled(map[id := y], Move(id, x.token, kind, to, x.amount - fee))
  {
  }

  lemma SettlementDisburses(s: State, id: nat, x: Escrow, fee: int, toSeller: bool, u: State) returns (y: Escrow)
    requires id in s.escrows && s.escrows[id] == x && IsDisputed(x.status) && WellFormed(x)
    requires 0 <= fee <= x.amount && Settlement(s, id, x, fee, toSeller) == Some(u)
    ensures Disburses(s, u, id, y, x.amount)
  {
    y := x.(status := if toSeller then Released else Refunded);
    SettlementCloses(s, id, x, fee, toSeller, u);
    CloseDisburses(s, u, id, x, y, fee, if toSeller then ToSeller else ToBuyer, if toSeller then x.seller else x.buyer);
  }

  lemma ResolveDisburses(s: State, e: Env, arbiter: Address, id: nat, toSeller: bool) returns (y: Escrow)
    requires Resolve(s, e, arbiter, id, toSeller).Some? && WellFormed(s.escrows[id]) && s.feeBps <= MAX_FEE
    ensures Disburses(s, Resolve(s, e, arbiter, id, toSeller).value, id, y, s.escrows[id].amount)
  {
    FeeWithin(s.escrows[id].amount, s.feeBps);
    y := SettlementDisburses(s, id, s.escrows[id], Share(s.escrows[id].amount, s.feeBps), toSeller,
                             Resolve(s, e, arbiter, id, toSeller).value);
  }

  /** The protocol fee is at most 2%. */
  lemma FeeWithin(amount: nat, feeBps: nat)
    requires feeBps <= MAX_FEE
    ensures 0 <= Share(amount, feeBps) && Share(amount, feeBps) * 50 <= amount
  {
    assert 0 <= amount * feeBps <= amount * MAX_FEE;
  }

  /** Paying all of an escrow out in one movement and closing it. */
  lemma WholeDisburses(s: State, u: State, id: nat, x: Escrow, y: Escrow, kind: Kind, to: Address)
    requires id in s.escrows && s.escrows[id] == x && IsLive(x.status) && WellFormed(x)
    requires kind != Deposit && y == x.(status := y.status) && IsTerminal(y.status)
    requires Entitled(map[id := y], Move(id, y.token, kind, to, x.amount))
    requires var t := Pay(s, id, x.token, kind, to, x.amount);
             t.Some? && u == t.value.(escrows := t.value.escrows[id := y])
    ensures Disburses(s, u, id, y, x.amount)
  {
    var t := Pay(s, id, x.token, kind, to, x.amount).value;
    PayIsPaid(s, id, y, kind, to, x.amount);
    PaidDisburses(s, s, t, u, id, y, x.amount);
  }

  lemma ExpiredDisburses(s: State, e: Env, id: nat) returns (y: Escrow)
    requires AutoReleaseExpired(s, e, id).Some? && WellFormed(s.escrows[id])
    ensures Disburses(s, AutoReleaseExpired(s, e, id).value, id, y, s.escrows[id].amount)
  {
    var x := s.escrows[id];
    y := x.(status := Refunded);
    WholeDisburses(s, AutoReleaseExpired(s, e, id).value, id, x, y, ToBuyer, x.buyer);
  }

  lemma InactivityDisburses(s: State, e: Env, seller: Address, id: nat) returns (y: Escrow)
    requires ClaimInactivity(s, e, seller, id).Some? && WellFormed(s.escrows[id])
    ensures Disburses(s, ClaimInactivity(s, e, seller, id).value, id, y, s.escrows[id].amount)
  {
    var x := s.escrows[id];
    y := x.(status := Released);
    WholeDisburses(s, ClaimInactivity(s, e, seller, id).value, id, x, y, ToSeller, x.seller);
  }

  predicate IsRecordCall(c: Call) {
    c.CancelAutoRenewCall? || c.AcceptDeadlineCall? || c.TransferBuyerCall? || c.SubmitEvidenceCall?
  }

  /** Record changes that move no token. */
  lemma RecordDisburses(s: State, e: Env, c: Call) returns (y: Escrow)
    requires IsRecordCall(c) && Step(s, e, c).Some? && c.id in s.escrows && WellFormed(s.escrows[c.id])
    ensures Disburses(s, Step(s, e, c).value, c.id, y, 0)
  {
    var x, u := s.escrows[c.id], Step(s, e, c).value;
    y := u.escrows[c.id];
    RecordFrame(s, e, c);
    assert Continues(x, y, 0);
  }

  lemma RecordFrame(s: State, e: Env, c: Call)
    requires IsRecordCall(c) && Step(s, e, c).Some?
    ensures var u := Step(s, e, c).value;
            && c.id in s.escrows && c.id in u.escrows && u.escrows == s.escrows[c.id := u.escrows[c.id]]
            && u.bal == s.bal && u.journal == s.journal && u.counter == s.counter && SameConfig(s, u)
            && var x, y := s.escrows[c.id], u.escrows[c.id];
               y == x.(buyer := y.buyer, deadline := y.deadline, autoRenew := y.autoRenew,
                       renewalsRemaining := y.renewalsRemaining)
               && y.renewalsRemaining <= x.renewalsRemaining && (IsTerminal(x.status) ==> y.buyer == x.buyer)
  {
  }

  predicate IsExitCall(c: Call) {
    || c.PartialReleaseCall? || c.DisputeCall? || c.ResolveCall? || c.AutoReleaseExpiredCall? || c.ClaimInactivityCall?
    || IsRecordCall(c)
  }

  lemma ExitKeeps(s: State, e: Env, c: Call)
    requires Inv(s) && IsExitCall(c) && Step(s, e, c).Some?
    ensures Inv(Step(s, e, c).value) && Drifts(s, Step(s, e, c).value)
  {
    var y, out := ExitDisburses(s, e, c);
    DisburseKeeps(s, Step(s, e, c).value, c.id, y, out);
  }

  /** Every way out, and every change of a record, is a disbursement. */
  lemma ExitDisburses(s: State, e: Env, c: Call) returns (y: Escrow, out: int)
    requires IsExitCall(c) && Step(s, e, c).Some? && s.feeBps <= MAX_FEE
    requires c.id in s.escrows ==> WellFormed(s.escrows[c.id])
    ensures Disburses(s, Step(s, e, c).value, c.id, y, out)
  {
    if IsRecordCall(c) {
      y := RecordDisburses(s, e, c);
      out := 0;
    } else {
      match c {
        case PartialReleaseCall(caller, id, amount) =>
          y := PartialReleaseDisburses(s, e, caller, id, amount); out := amount;
        case DisputeCall(caller, id, disputed) => y, out := DisputeDisburses(s, e, caller, id, disputed);
        case ResolveCall(arbiter, id, toSeller) =>
          y := ResolveDisburses(s, e, arbiter, id, toSeller); out := s.escrows[id].amount;
        case AutoReleaseExpiredCall(id) => y := ExpiredDisburses(s, e, id); out := s.escrows[id].amount;
        case ClaimInactivityCall(seller, id) => y := InactivityDisburses(s, e, seller, id); out := s.escrows[id].amount;
      }
    }
  }

  lemma RemoveArbiterKeeps(s: State, e: Env, admin: Address, arbiter: Address)
    requires Inv(s) && RemoveArbiter(s, e, admin, arbiter).Some?
    ensures Inv(RemoveArbiter(s, e, admin, arbiter).value)
  {
  }

  lemma AllowanceKeeps(s: State, e: Env, buyer: Address, id: nat, renewals: nat)
    requires Inv(s) && SetRenewalAllowance(s, e, buyer, id, renewals).Some?
    ensures Inv(SetRenewalAllowance(s, e, buyer, id, renewals).value)
  {
  }

  lemma OutsideKeeps(s: State, bal: Balances, approvals: Balances)
    requires Inv(s) && Outside(s, bal, approvals).Some?
    ensures Inv(Outside(s, bal, approvals).value)
  {
  }

  // --- Every call, every run ---

  /** Every committed call keeps the invariant. */
  lemma StepKeeps(s: State, e: Env, c: Call)
    requires Inv(s)
    ensures Inv(Next(s, e, c))
    ensures c.OutsideCall? || Drifts(s, Next(s, e, c))
  {
    if Step(s, e, c).Some? {
      if IsExitCall(c) {
        ExitKeeps(s, e, c);
      } else if c.AddArbiterCall? || c.UpdateFeeCall? || c.ProposeDeadlineCall? || c.AdministerCall? {
        OtherKeeps(s, e, c);
      } else {
        match c
        case CreateEscrowCall(buyer, terms) => CreateCoreKeeps(s, e, buyer, terms);
        case CreateBatchCall(buyer, batch) => CreateAllKeeps(s, e, buyer, batch);
        case CreateFromTemplateCall(buyer, seller, template, amount) =>
          var x := TemplateOpens(s, e, buyer, seller, template, amount);
          OpenKeeps(s, Step(s, e, c).value, buyer, x);
        case CreateWithPoolCall(buyer, seller, amount, token, deadline) =>
          var x := PoolOpens(s, e, buyer, seller, amount, token, deadline);
          OpenKeeps(s, Step(s, e, c).value, buyer, x);
        case ReleaseCall(caller, id) => ReleaseKeeps(s, e, caller, id);
        case SetRenewalAllowanceCall(buyer, id, renewals) => AllowanceKeeps(s, e, buyer, id, renewals);
        case RemoveArbiterCall(admin, arbiter) => RemoveArbiterKeeps(s, e, admin, arbiter);
        case OutsideCall(bal, approvals) => OutsideKeeps(s, bal, approvals);
      }
    }
  }

  lemma OtherKeeps(s: State, e: Env, c: Call)
    requires Inv(s) && Step(s, e, c).Some?
    requires c.AddArbiterCall? || c.UpdateFeeCall? || c.ProposeDeadlineCall? || c.AdministerCall?
    ensures Inv(Step(s, e, c).value) && Drifts(s, Step(s, e, c).value)
  {
  }

  lemma {:induction false} RunKeeps(s: State, run: Run)
    requires Inv(s)
    ensures Inv(Exec(s, run))
    decreases |run|
  {
    if run != [] {
      StepKeeps(s, run[0].0, run[0].1);
      RunKeeps(Next(s, run[0].0, run[0].1), run[1..]);
    }
  }

  lemma InitialInv(s: State)
    requires Initial(s)
    ensures Inv(s)
  {
    assert forall id :: id !in s.escrows;
  }

  /** Solvency: whatever is called, in whatever order, the contract holds at least what
      its live escrows hold, token by token. */
  lemma Solvency(s: State, run: Run, token: Address)
    requires Initial(s)
    ensures var u := Exec(s, run); Bal(u.bal, token, This) >= HeldSum(u.escrows, u.counter, token)
  {
    InitialInv(s);
    RunKeeps(s, run);
  }

  /** Per-escrow ledger: in every run, what an escrow took in equals what it paid to its
      sellers, returned to its buyer and paid as protocol fee, plus what it still holds. */
  lemma EscrowLedger(s: State, run: Run, id: nat)
    requires Initial(s) && id < Exec(s, run).counter
    ensures var u := Exec(s, run);
            && id in u.escrows
            && Tally(u.journal, id, Deposit)
               == Tally(u.journal, id, ToSeller) + Tally(u.journal, id, ToBuyer) + Tally(u.journal, id, ToProtocol)
                  + Held(u.escrows[id])
            && forall m :: m in u.journal ==> Entitled(u.escrows, m)
  {
    InitialInv(s);
    RunKeeps(s, run);
  }

  // --- Finality ---

  /** `x` may become `y`: never more money, and nothing after a terminal status. */
  predicate Later(x: Escrow, y: Escrow) {
    && y.token == x.token && y.sellers == x.sellers && y.amount <= x.amount
    && y.renewalCount == x.renewalCount && y.renewalsRemaining <= x.renewalsRemaining
    && (IsTerminal(x.status) ==> y.status == x.status && y.amount == x.amount)
  }

  ghost predicate SameMoney(j: seq<Move>, j': seq<Move>, id: nat) {
    Outflow(j', id) == Outflow(j, id) && Tally(j', id, Deposit) == Tally(j, id, Deposit)
  }

  ghost predicate LaterIn(s: State, u: State, id: nat)
    requires id in s.escrows
  {
    && id in u.escrows && Later(s.escrows[id], u.escrows[id])
    && Tally(u.journal, id, Deposit) == Tally(s.journal, id, Deposit)
    && (IsTerminal(s.escrows[id].status) ==> SameMoney(s.journal, u.journal, id))
  }

  lemma DisburseLater(s: State, u: State, changed: nat, y: Escrow, out: int, id: nat)
    requires id in s.escrows && Disburses(s, u, changed, y, out)
    ensures LaterIn(s, u, id)
  {
  }

  lemma OpenLater(s: State, u: State, from: Address, x: Escrow, id: nat)
    requires Records(s.escrows, s.counter) && id in s.escrows && Opens(s, u, from, x)
    ensures LaterIn(s, u, id) && u.escrows[id] == s.escrows[id] && SameMoney(s.journal, u.journal, id)
  {
    TallyNext(s.journal, Move(s.counter, x.token, Deposit, from, x.amount));
  }

  lemma {:induction false} CreateAllLater(s: State, e: Env, buyer: Address, batch: seq<Terms>, id: nat)
    requires Inv(s) && id in s.escrows && buyer != This && CreateAll(s, e, buyer, batch).Some?
    ensures var u := CreateAll(s, e, buyer, batch).value;
            LaterIn(s, u, id) && u.escrows[id] == s.escrows[id] && SameMoney(s.journal, u.journal, id)
  {
    if batch != [] {
      var n := |batch| - 1;
      var t := CreateAll(s, e, buyer, batch[..n]).value;
      CreateAllLater(s, e, buyer, batch[..n], id);
      CreateAllKeeps(s, e, buyer, batch[..n]);
      var x := CreateCoreOpens(t, e, buyer, batch[n].(inactivity := 0));
      OpenLater(t, CreateAll(s, e, buyer, batch).value, buyer, x, id);
    }
  }

  lemma RenewLater(s: State, e: Env, source: nat, x: Escrow, id: nat)
    requires Inv(s) && id in s.escrows && WellFormed(x) && Splits(x) && x.amount > 0 && TryRenew(s, e, source, x).Some?
    ensures LaterIn(s, TryRenew(s, e, source, x).value, id)
    ensures TryRenew(s, e, source, x).value.escrows[id] == s.escrows[id]
    ensures SameMoney(s.journal, TryRenew(s, e, source, x).value.journal, id)
  {
    if WantsRenewal(x) {
      assert x.buyer != This by {
        assert Bal(s.approvals, x.token, This) == 0;
      }
      RenewOpens(s, e, source, x);
      OpenLater(s, TryRenew(s, e, source, x).value, x.buyer, Successor(x, e.now), id);
    }
  }

  lemma ReleaseLater(s: State, e: Env, caller: Address, released: nat, id: nat)
    requires Inv(s) && id in s.escrows && Release(s, e, caller, released).Some?
    ensures LaterIn(s, Release(s, e, caller, released).value, id)
  {
    var x := s.escrows[released];
    var y := ReleaseFundsDisburses(s, e, caller, released);
    var t := ReleaseFunds(s, e, caller, released).value;
    DisburseKeeps(s, t, released, y, x.amount);
    DisburseLater(s, t, released, y, x.amount, id);
    RenewLater(t, e, released, x, id);
  }

  lemma CreateLater(s: State, e: Env, c: Call, id: nat)
    requires Inv(s) && id in s.escrows && Step(s, e, c).Some?
    requires c.CreateEscrowCall? || c.CreateBatchCall? || c.CreateFromTemplateCall? || c.CreateWithPoolCall?
    ensures LaterIn(s, Step(s, e, c).value, id)
  {
    if c.CreateBatchCall? {
      CreateAllLater(s, e, c.buyer, c.batch, id);
    } else {
      var x;
      if c.CreateEscrowCall? {
        x := CreateCoreOpens(s, e, c.buyer, c.terms);
      } else if c.CreateFromTemplateCall? {
        x := TemplateOpens(s, e, c.buyer, c.seller, c.template, c.amount);
      } else {
        x := PoolOpens(s, e, c.buyer, c.seller, c.amount, c.token, c.deadline);
      }
      OpenLater(s, Step(s, e, c).value, c.buyer, x, id);
    }
  }

  lemma OtherFrame(s: State, e: Env, c: Call)
    requires Step(s, e, c).Some? && !IsExitCall(c) && !c.ReleaseCall?
    requires !(c.CreateEscrowCall? || c.CreateBatchCall? || c.CreateFromTemplateCall? || c.CreateWithPoolCall?)
    ensures Step(s, e, c).value.escrows == s.escrows && Step(s, e, c).value.journal == s.journal
  {
  }

  lemma ExitLater(s: State, e: Env, c: Call, id: nat)
    requires Inv(s) && id in s.escrows && IsExitCall(c) && Step(s, e, c).Some?
    ensures LaterIn(s, Step(s, e, c).value, id)
  {
    var y, out := ExitDisburses(s, e, c);
    DisburseLater(s, Step(s, e, c).value, c.id, y, out, id);
  }

  lemma StepLater(s: State, e: Env, c: Call, id: nat)
    requires Inv(s) && id in s.escrows
    ensures LaterIn(s, Next(s, e, c), id)
  {
    if Step(s, e, c).Some? {
      if IsExitCall(c) {
        ExitLater(s, e, c, id);
      } else if c.ReleaseCall? {
        ReleaseLater(s, e, c.caller, c.id, id);
      } else if c.CreateEscrowCall? || c.CreateBatchCall? || c.CreateFromTemplateCall? || c.CreateWithPoolCall? {
        CreateLater(s, e, c, id);
      } else {
        OtherFrame(s, e, c);
      }
    }
  }

  /** Finality over runs: an escrow's amount never grows, and once it is released or
      refunded no later call changes its status or moves its money. */
  lemma {:induction false} Finality(s: State, run: Run, id: nat)
    requires Inv(s) && id in s.escrows
    ensures LaterIn(s, Exec(s, run), id)
    decreases |run|
  {
    if run != [] {
      StepLater(s, run[0].0, run[0].1, id);
      StepKeeps(s, run[0].0, run[0].1);
      Finality(Next(s, run[0].0, run[0].1), run[1..], id);
    }
  }

  // --- Who gets how much ---

  /** The part of a release that goes to the seller at position `i`. */
  ghost function Cut(x: Escrow, i: nat): int
    requires i < |x.sellers|
  {
    if i == 0 then x.amount - Distributed(x.amount, x.sellers, |x.sellers|) else Share(x.amount, x.sellers[i].1)
  }

  /** The shares of `amount` that the positions `1..k` owe to the addresses `who`. */
  ghost function CutsOf(amount: int, sellers: seq<(Address, nat)>, k: nat, who: set<Address>): int
    requires 1 <= k <= |sellers|
  {
    if k == 1 then 0
    else CutsOf(amount, sellers, k - 1, who) + if sellers[k - 1].0 in who then Share(amount, sellers[k - 1].1) else 0
  }

  lemma {:induction false} OthersReceive(s: State, id: nat, x: Escrow, k: nat, a: Address)
    requires 1 <= k <= |x.sellers| && x.amount >= 0 && a != This && PayOthers(s, id, x, k).Some?
    ensures Bal(PayOthers(s, id, x, k).value.bal, x.token, a)
            == Bal(s.bal, x.token, a) + CutsOf(x.amount, x.sellers, k, {a})
  {
    if k > 1 {
      OthersReceive(s, id, x, k - 1, a);
      assert x.amount * x.sellers[k - 1].1 >= 0;
    }
  }

  /** A release pays every seller address exactly its cuts: nothing is lost to rounding
      and nothing goes elsewhere. */
  lemma SellersReceive(s: State, id: nat, x: Escrow, a: Address)
    requires WellFormed(x) && Splits(x) && a != This && PaySellers(s, id, x).Some?
    ensures Bal(PaySellers(s, id, x).value.bal, x.token, a)
            == Bal(s.bal, x.token, a) + CutsOf(x.amount, x.sellers, |x.sellers|, {a})
               + if x.sellers[0].0 == a then Cut(x, 0) else 0
  {
    var n := |x.sellers|;
    assert Cut(x, 0) >= 0 by {
      FirstSellerCut(x.amount, x.sellers);
    }
    if n > 1 {
      OthersReceive(s, id, x, n, a);
      assert PaySellers(s, id, x)
          == PayPositive(PayOthers(s, id, x, n).value, id, x.token, ToSeller, x.sellers[0].0, Cut(x, 0));
    }
  }

  ghost function SumCuts(x: Escrow, k: nat): int
    requires k <= |x.sellers|
  {
    if k == 0 then 0 else SumCuts(x, k - 1) + Cut(x, k - 1)
  }

  /** Exact splits: the cuts add up to the amount, every later seller gets its share
      rounded down, and the first at most one unit per other seller more than that. */
  lemma ExactSplit(x: Escrow)
    requires WellFormed(x) && Splits(x)
    ensures SumCuts(x, |x.sellers|) == x.amount
    ensures Share(x.amount, x.sellers[0].1) <= Cut(x, 0) <= Share(x.amount, x.sellers[0].1) + |x.sellers| - 1
    ensures forall i :: 1 <= i < |x.sellers| ==> Cut(x, i) == Share(x.amount, x.sellers[i].1)
  {
    FirstSellerCut(x.amount, x.sellers);
    CutsAddUp(x, |x.sellers|);
  }

  lemma {:induction false} CutsAddUp(x: Escrow, k: nat)
    requires 1 <= k <= |x.sellers|
    ensures SumCuts(x, k) == Cut(x, 0) + Distributed(x.amount, x.sellers, k)
  {
    if k > 1 {
      CutsAddUp(x, k - 1);
    } else {
      assert SumCuts(x, 0) == 0;
    }
  }

  /** A resolved dispute pays the protocol its fee, at most 2%, and all the rest to the
      party the arbiter chose. */
  lemma ResolveOutcome(s: State, e: Env, arbiter: Address, id: nat, toSeller: bool)
    requires Inv(s) && Resolve(s, e, arbiter, id, toSeller).Some?
    ensures var u, x := Resolve(s, e, arbiter, id, toSeller).value, s.escrows[id];
            var fee := Share(x.amount, s.feeBps);
            && 0 <= fee && fee * 50 <= x.amount
            && Tally(u.journal, id, ToProtocol) == Tally(s.journal, id, ToProtocol) + fee
            && Tally(u.journal, id, ToSeller)
            == Tally(s.journal, id, ToSeller) + (if toSeller then x.amount - fee else 0)
            && Tally(u.journal, id, ToBuyer) == Tally(s.journal, id, ToBuyer) + (if toSeller then 0 else x.amount - fee)
            && u.escrows[id].status == if toSeller then Released else Refunded
  {
    var x := s.escrows[id];
    FeeWithin(x.amount, s.feeBps);
    var fee := Share(x.amount, s.feeBps);
    SettlementTally(s, id, x, fee, toSeller, ToProtocol);
    SettlementTally(s, id, x, fee, toSeller, ToSeller);
    SettlementTally(s, id, x, fee, toSeller, ToBuyer);
  }

  lemma TallyOne(journal: seq<Move>, m: Move, id: nat, kind: Kind)
    ensures Tally(journal + [m], id, kind)
            == Tally(journal, id, kind) + if m.id == id && m.kind == kind then m.amount else 0
  {
    assert (journal + [m])[..|journal|] == journal;
  }

  lemma PayTally(s: State, id: nat, token: Address, kind: Kind, to: Address, amount: int, k: Kind)
    requires Pay(s, id, token, kind, to, amount).Some?
    ensures Tally(Pay(s, id, token, kind, to, amount).value.journal, id, k)
            == Tally(s.journal, id, k) + if k == kind then amount else 0
  {
    TallyOne(s.journal, Move(id, token, kind, to, amount), id, k);
  }

  lemma FeeTally(s: State, id: nat, token: Address, fee: int, k: Kind)
    requires fee >= 0 && PayFee(s, id, token, fee).Some?
    ensures Tally(PayFee(s, id, token, fee).value.journal, id, k)
            == Tally(s.journal, id, k) + if k == ToProtocol then fee else 0
  {
    if fee > 0 {
      PayTally(s, id, token, ToProtocol, s.feeRecipient.value, fee, k);
    }
  }

  lemma SettlementTally(s: State, id: nat, x: Escrow, fee: int, toSeller: bool, k: Kind)
    requires 0 <= fee <= x.amount && Settlement(s, id, x, fee, toSeller).Some?
    ensures Tally(Settlement(s, id, x, fee, toSeller).value.journal, id, k)
            == Tally(s.journal, id, k) + (if k == ToProtocol then fee else 0)
               + (if k == (if toSeller then ToSeller else ToBuyer) then x.amount - fee else 0)
  {
    var t := PayFee(s, id, x.token, fee).value;
    FeeTally(s, id, x.token, fee, k);
    if toSeller {
      PayTally(t, id, x.token, ToSeller, x.seller, x.amount - fee, k);
    } else {
      PayTally(t, id, x.token, ToBuyer, x.buyer, x.amount - fee, k);
    }
  }
}
