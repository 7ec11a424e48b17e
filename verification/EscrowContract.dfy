/**
 The escrow contract as the object it is: storage fields that the entry points load,
 change and store, with the host's rollback when a call traps after its first write.
 Every method is proved to do what `EscrowModel` says.
 */
module EscrowContract {
  import opened Common
  import opened Ledger
  import opened Sums
  import Model = EscrowModel
  import opened EscrowModel

  class Contract {
    var admin: Option<Address>
    var paused: bool
    var allowed: set<Address>
    var templates: map<nat, Template>
    var feeBps: nat
    var feeRecipient: Option<Address>
    var counter: nat
    var escrows: map<nat, Escrow>
    var renewalAllowance: map<nat, nat>
    var lastBuyerAction: map<nat, nat>
    var proposals: map<nat, Proposal>
    var pool: seq<Address>
    var nextArbiter: nat
    var bal: Balances
    var approvals: Balances
    var journal: seq<Move>

    function View(): State
      reads this
    {
      State(admin, paused, allowed, templates, feeBps, feeRecipient, counter, escrows, renewalAllowance,
            lastBuyerAction, proposals, pool, nextArbiter, bal, approvals, journal)
    }

    /** Deploys the contract into a world with the given token holdings. */
    constructor (admin: Address, bal: Balances)
      ensures View()
              == State(Some(admin), false, {}, map[], 0, None, 0, map[], map[], map[], map[], [], 0, bal, map[], [])
      ensures (forall t :: Bal(bal, t, This) >= 0) ==> Initial(View())
    {
      this.admin, paused, allowed, templates := Some(admin), false, {}, map[];
      feeBps, feeRecipient, counter, escrows := 0, None, 0, map[];
      renewalAllowance, lastBuyerAction, proposals := map[], map[], map[];
      pool, nextArbiter, approvals, journal := [], 0, map[], [];
      this.bal := bal;
    }

    /** What the host does when a call traps. */
    method Rollback(s: State)
      modifies this
      ensures View() == s
    {
      RestoreConfig(s);
      RestoreRecords(s);
      bal, approvals, journal := s.bal, s.approvals, s.journal;
    }

    method RestoreConfig(s: State)
      modifies `admin, `paused, `allowed, `templates, `feeBps, `feeRecipient, `pool, `nextArbiter
      ensures admin == s.admin && paused == s.paused && allowed == s.allowed && templates == s.templates
      ensures feeBps == s.feeBps && feeRecipient == s.feeRecipient && pool == s.pool && nextArbiter == s.nextArbiter
    {
      admin, paused, allowed, templates := s.admin, s.paused, s.allowed, s.templates;
      feeBps, feeRecipient, pool, nextArbiter := s.feeBps, s.feeRecipient, s.pool, s.nextArbiter;
    }

    method RestoreRecords(s: State)
      modifies `counter, `escrows, `renewalAllowance, `lastBuyerAction, `proposals
      ensures counter == s.counter && escrows == s.escrows && renewalAllowance == s.renewalAllowance
      ensures lastBuyerAction == s.lastBuyerAction && proposals == s.proposals
    {
      counter, escrows, renewalAllowance := s.counter, s.escrows, s.renewalAllowance;
      lastBuyerAction, proposals := s.lastBuyerAction, s.proposals;
    }

    // --- Token movements ---

    method Pay(id: nat, token: Address, kind: Kind, to: Address, amount: int) returns (ok: bool)
      modifies `bal, `journal
      ensures Outcome(Model.Pay(old(View()), id, token, kind, to, amount), old(View()), ok, View())
    {
      var r := Transfer(bal, token, This, to, amount);
      ok := r.Some?;
      if ok {
        bal := r.value;
        journal := journal + [Move(id, token, kind, to, amount)];
      }
    }

    method TakeDeposit(token: Address, from: Address, amount: int) returns (ok: bool)
      modifies `bal, `journal
      ensures Outcome(Model.TakeDeposit(old(View()), token, from, amount), old(View()), ok, View())
    {
      var r := Transfer(bal, token, from, This, amount);
      ok := r.Some?;
      if ok {
        bal := r.value;
        journal := journal + [Move(counter, token, Deposit, from, amount)];
      }
    }

    // --- Creation ---

    method Store(x: Escrow, now: nat)
      modifies `counter, `escrows, `lastBuyerAction
      ensures View() == Place(old(View()), x, now)
    {
      var id := counter;
      counter := counter + 1;
      escrows := escrows[id := x];
      if x.inactivity > 0 {
        lastBuyerAction := lastBuyerAction[id := now];
      }
    }

    /** Adds up the allocations of a seller list. */
    static method TotalBps(sellers: seq<(Address, nat)>) returns (total: nat)
      ensures total == SumSeq(BpsOf(sellers))
    {
      total := 0;
      for i := 0 to |sellers|
        invariant total == SumSeq(BpsOf(sellers)[..i])
      {
        assert BpsOf(sellers)[..i + 1][..i] == BpsOf(sellers)[..i];
        total := total + sellers[i].1;
      }
      assert BpsOf(sellers)[..|sellers|] == BpsOf(sellers);
    }

    method CreateCore(e: Env, buyer: Address, t: Terms) returns (ok: bool)
      modifies `bal, `journal, `counter, `escrows, `lastBuyerAction
      ensures Outcome(Model.CreateCore(old(View()), e, buyer, t), old(View()), ok, View())
    {
      if t.amount <= 0 || t.deadline <= e.now || t.token !in allowed {
        return false;
      }
      var sellers := [(t.seller, BPS)];
      if t.sellers != [] {
        if |t.sellers| > MAX_SELLERS {
          return false;
        }
        var total := TotalBps(t.sellers);
        if total != BPS {
          return false;
        }
        sellers := t.sellers;
      }
      ok := TakeDeposit(t.token, buyer, t.amount);
      if ok {
        Store(FreshEscrow(e, buyer, t, sellers), e.now);
      }
    }

    method CreateEscrow(e: Env, buyer: Address, t: Terms) returns (ok: bool)
      modifies `bal, `journal, `counter, `escrows, `lastBuyerAction
      ensures Outcome(Model.CreateEscrow(old(View()), e, buyer, t), old(View()), ok, View())
    {
      if paused || !e.Authorised(buyer) {
        return false;
      }
      ok := CreateCore(e, buyer, t);
    }

    /** Creates every escrow of the batch or none; the ids are contiguous. */
    method CreateBatch(e: Env, buyer: Address, batch: seq<Terms>) returns (ok: bool, ids: seq<nat>)
      modifies this
      ensures Outcome(Model.CreateBatch(old(View()), e, buyer, batch), old(View()), ok, View())
      ensures ok ==> |ids| == |batch| && forall i :: 0 <= i < |ids| ==> ids[i] == old(counter) + i
    {
      ids := [];
      if paused || !e.Authorised(buyer) || batch == [] || |batch| > MAX_BATCH {
        return false, [];
      }
      var saved := View();
      for i := 0 to |batch|
        invariant CreateAll(saved, e, buyer, batch[..i]) == Some(View())
        invariant counter == old(counter) + i
        invariant |ids| == i && forall j :: 0 <= j < i ==> ids[j] == old(counter) + j
      {
        BatchStep(saved, e, buyer, batch, i);
        ids := ids + [counter];
        ok := CreateCore(e, buyer, batch[i].(inactivity := 0));
        if !ok {
          BatchTraps(saved, e, buyer, batch, i + 1);
          Rollback(saved);
          return false, [];
        }
      }
      assert batch[..|batch|] == batch;
      ok := true;
    }

    method CreateFromTemplate(e: Env, buyer: Address, seller: Address, template: nat, amount: int) returns (ok: bool)
      modifies `bal, `journal, `counter, `escrows, `lastBuyerAction
      ensures Outcome(Model.CreateFromTemplate(old(View()), e, buyer, seller, template, amount), old(View()), ok,
                      View())
    {
      if paused || !e.Authorised(buyer) || template !in templates {
        return false;
      }
      var t := templates[template];
      if !t.active || amount <= 0 {
        return false;
      }
      ok := TakeDeposit(t.token, buyer, amount);
      if ok {
        var terms := PlainTerms(seller, t.arbiter, amount, t.token, e.now + t.duration);
        Store(FreshEscrow(e, buyer, terms, [(seller, BPS)]), e.now);
      }
    }

    method CreateWithPool(e: Env, buyer: Address, seller: Address, amount: int, token: Address, deadline: nat)
      returns (ok: bool)
      modifies `nextArbiter, `bal, `journal, `counter, `escrows, `lastBuyerAction
      ensures Outcome(Model.CreateWithPool(old(View()), e, buyer, seller, amount, token, deadline), old(View()), ok,
                      View())
    {
      if paused || !e.Authorised(buyer) || amount <= 0 || deadline <= e.now || token !in allowed || pool == [] {
        return false;
      }
      var saved := View();
      var arbiter := pool[nextArbiter % |pool|];
      nextArbiter := (nextArbiter + 1) % |pool|;
      ok := TakeDeposit(token, buyer, amount);
      if !ok {
        nextArbiter := saved.nextArbiter;
        return;
      }
      var terms := PlainTerms(seller, arbiter, amount, token, deadline);
      Store(FreshEscrow(e, buyer, terms, [(seller, BPS)]), e.now);
    }

    // --- Release and renewal ---

    method TouchBuyer(e: Env, caller: Address, id: nat)
      requires id in escrows
      modifies `lastBuyerAction
      ensures View() == Model.TouchBuyer(old(View()), e, caller, id)
    {
      if caller == escrows[id].buyer && escrows[id].inactivity > 0 {
        lastBuyerAction := lastBuyerAction[id := e.now];
      }
    }

    /** Pays the sellers one by one, then the remainder to the first. On a trap part of
        the payments may have been made: the caller rolls back. */
    method PaySellers(id: nat, x: Escrow) returns (ok: bool)
      modifies `bal, `journal
      ensures ok ==> Model.PaySellers(old(View()), id, x) == Some(View())
      ensures !ok ==> Model.PaySellers(old(View()), id, x) == None
    {
      if |x.sellers| <= 1 {
        ok := Pay(id, x.token, ToSeller, x.seller, x.amount);
        return;
      }
      var distributed := 0;
      for i := 1 to |x.sellers|
        invariant PayOthers(old(View()), id, x, i) == Some(View())
        invariant distributed == Distributed(x.amount, x.sellers, i)
      {
        var share := (x.amount * x.sellers[i].1) / BPS;
        if share > 0 {
          ok := Pay(id, x.token, ToSeller, x.sellers[i].0, share);
          if !ok {
            OthersTrap(old(View()), id, x, i + 1, |x.sellers|);
            return;
          }
        }
        distributed := distributed + share;
      }
      var first := x.amount - distributed;
      ok := true;
      if first > 0 {
        ok := Pay(id, x.token, ToSeller, x.sellers[0].0, first);
      }
    }

    method TryRenew(e: Env, source: nat, x: Escrow) returns (ok: bool)
      modifies `bal, `journal, `approvals, `counter, `escrows, `lastBuyerAction, `renewalAllowance
      ensures ok ==> Model.TryRenew(old(View()), e, source, x) == Some(View())
      ensures !ok ==> Model.TryRenew(old(View()), e, source, x) == None
    {
      if !x.autoRenew {
        return true;
      }
      if x.renewalCount != 0 && x.renewalsRemaining == 0 {
        return true;
      }
      var allowance := if source in renewalAllowance then renewalAllowance[source] else 0;
      if allowance == 0 || SaturatingSub(x.deadline, x.createdAt) == 0 {
        return false;
      }
      ok := PullDeposit(x.token, x.buyer, x.amount);
      if ok {
        var id := counter;
        Store(Successor(x, e.now), e.now);
        renewalAllowance := renewalAllowance[id := allowance - 1];
      }
    }

    /** Takes a deposit the owner has approved beforehand. */
    method PullDeposit(token: Address, from: Address, amount: int) returns (ok: bool)
      modifies `bal, `journal, `approvals
      ensures Outcome(Model.PullDeposit(old(View()), token, from, amount), old(View()), ok, View())
    {
      if Bal(approvals, token, from) < amount {
        return false;
      }
      ok := TakeDeposit(token, from, amount);
      if ok {
        approvals := Add(approvals, token, from, -amount);
      }
    }

    method Release(e: Env, caller: Address, id: nat) returns (ok: bool)
      modifies this
      ensures Outcome(Model.Release(old(View()), e, caller, id), old(View()), ok, View())
    {
      if paused || !e.Authorised(caller) || id !in escrows {
        return false;
      }
      var saved := View();
      var x := escrows[id];
      if !IsOpen(x.status) || (caller != x.buyer && caller != x.arbiter) {
        return false;
      }
      TouchBuyer(e, caller, id);
      ok := PaySellers(id, x);
      if !ok {
        Rollback(saved);
        return;
      }
      escrows := escrows[id := x.(status := Released)];
      assert ReleaseFunds(saved, e, caller, id) == Some(View());
      ok := TryRenew(e, id, x);
      if !ok {
        Rollback(saved);
      }
    }

    method SetRenewalAllowance(e: Env, buyer: Address, id: nat, renewals: nat) returns (ok: bool)
      modifies `approvals, `renewalAllowance
      ensures Outcome(Model.SetRenewalAllowance(old(View()), e, buyer, id, renewals), old(View()), ok, View())
    {
      if paused || !e.Authorised(buyer) || id !in escrows {
        return false;
      }
      var x := escrows[id];
      var total := x.amount * renewals;
      if buyer != x.buyer || !x.autoRenew || total < 0 {
        return false;
      }
      approvals := SetBal(approvals, x.token, buyer, total);
      renewalAllowance := renewalAllowance[id := renewals];
      ok := true;
    }

    method CancelAutoRenew(e: Env, buyer: Address, id: nat) returns (ok: bool)
      modifies `escrows, `renewalAllowance
      ensures Outcome(Model.CancelAutoRenew(old(View()), e, buyer, id), old(View()), ok, View())
    {
      if paused || !e.Authorised(buyer) || id !in escrows || buyer != escrows[id].buyer {
        return false;
      }
      escrows := escrows[id := escrows[id].(autoRenew := false, renewalsRemaining := 0)];
      renewalAllowance := renewalAllowance - {id};
      ok := true;
    }

    method PartialRelease(e: Env, caller: Address, id: nat, amount: int) returns (ok: bool)
      modifies `bal, `journal, `escrows
      ensures Outcome(Model.PartialRelease(old(View()), e, caller, id, amount), old(View()), ok, View())
    {
      if paused || !e.Authorised(caller) || id !in escrows {
        return false;
      }
      var x := escrows[id];
      if !IsOpen(x.status) || (caller != x.buyer && caller != x.arbiter) || amount <= 0 || amount > x.amount {
        return false;
      }
      ok := Pay(id, x.token, ToSeller, x.seller, amount);
      if ok {
        var left := x.amount - amount;
        escrows := escrows[id := x.(amount := left, status := if left == 0 then Released else PartiallyReleased)];
      }
    }

    // --- Disputes ---

    method Dispute(e: Env, caller: Address, id: nat, disputed: int) returns (ok: bool)
      modifies `bal, `journal, `escrows, `lastBuyerAction
      ensures Outcome(Model.Dispute(old(View()), e, caller, id, disputed), old(View()), ok, View())
    {
      if paused || !e.Authorised(caller) || id !in escrows {
        return false;
      }
      var x := escrows[id];
      if !IsOpen(x.status) || (caller != x.buyer && caller != x.seller) || disputed <= 0 || disputed > x.amount {
        return false;
      }
      var savedAction := lastBuyerAction;
      TouchBuyer(e, caller, id);
      ok := Freeze(id, x, disputed);
      if !ok {
        lastBuyerAction := savedAction;
      }
    }

    /** Releases what is not disputed and freezes the rest. */
    method Freeze(id: nat, x: Escrow, disputed: int) returns (ok: bool)
      modifies `bal, `journal, `escrows
      ensures Outcome(Model.Freeze(old(View()), id, x, disputed), old(View()), ok, View())
    {
      var released := x.amount - disputed;
      if released > 0 {
        ok := Pay(id, x.token, ToSeller, x.seller, released);
        if !ok {
          return;
        }
      }
      escrows := escrows[id := x.(amount := disputed, status := if released > 0 then PartiallyDisputed else Disputed)];
      ok := true;
    }

    method Resolve(e: Env, arbiter: Address, id: nat, toSeller: bool) returns (ok: bool)
      modifies `bal, `journal, `escrows
      ensures Outcome(Model.Resolve(old(View()), e, arbiter, id, toSeller), old(View()), ok, View())
    {
      if paused || !e.Authorised(arbiter) || id !in escrows {
        return false;
      }
      var x := escrows[id];
      if !IsDisputed(x.status) || arbiter != x.arbiter {
        return false;
      }
      var fee := (x.amount * feeBps) / BPS;
      assert fee == Share(x.amount, feeBps);
      ok := Settle(id, x, fee, toSeller);
    }

    /** Pays the fee and then the chosen party, and closes the escrow. */
    method Settle(id: nat, x: Escrow, fee: int, toSeller: bool) returns (ok: bool)
      modifies `bal, `journal, `escrows
      ensures Outcome(Settlement(old(View()), id, x, fee, toSeller), old(View()), ok, View())
    {
      var savedBal, savedJournal := bal, journal;
      ok := PayProtocol(id, x.token, fee);
      if ok {
        ok := PayAward(id, x, x.amount - fee, toSeller);
        if !ok {
          bal, journal := savedBal, savedJournal;
          return;
        }
        escrows := escrows[id := x.(status := if toSeller then Released else Refunded)];
      }
    }

    method PayProtocol(id: nat, token: Address, fee: int) returns (ok: bool)
      modifies `bal, `journal
      ensures Outcome(PayFee(old(View()), id, token, fee), old(View()), ok, View())
    {
      if fee <= 0 {
        return true;
      }
      if feeRecipient.None? {
        return false;
      }
      ok := Pay(id, token, ToProtocol, feeRecipient.value, fee);
    }

    method PayAward(id: nat, x: Escrow, amount: int, toSeller: bool) returns (ok: bool)
      modifies `bal, `journal
      ensures Outcome(Award(old(View()), id, x, amount, toSeller), old(View()), ok, View())
    {
      if toSeller {
        ok := Pay(id, x.token, ToSeller, x.seller, amount);
      } else {
        ok := Pay(id, x.token, ToBuyer, x.buyer, amount);
      }
    }

    // --- Time-based exits ---

    method AutoReleaseExpired(e: Env, id: nat) returns (ok: bool)
      modifies `bal, `journal, `escrows
      ensures Outcome(Model.AutoReleaseExpired(old(View()), e, id), old(View()), ok, View())
    {
      if paused || id !in escrows {
        return false;
      }
      var x := escrows[id];
      if !IsOpen(x.status) || e.now <= x.deadline || !e.Authorised(x.buyer) {
        return false;
      }
      ok := Pay(id, x.token, ToBuyer, x.buyer, x.amount);
      if ok {
        escrows := escrows[id := x.(status := Refunded)];
      }
    }

    method ClaimInactivity(e: Env, seller: Address, id: nat) returns (ok: bool)
      modifies `bal, `journal, `escrows
      ensures Outcome(Model.ClaimInactivity(old(View()), e, seller, id), old(View()), ok, View())
    {
      if paused || !e.Authorised(seller) || id !in escrows {
        return false;
      }
      var x := escrows[id];
      if x.inactivity == 0 || !IsOpen(x.status) || seller != x.seller {
        return false;
      }
      var last := if id in lastBuyerAction then lastBuyerAction[id] else x.createdAt;
      if SaturatingSub(e.now, last) < x.inactivity {
        return false;
      }
      ok := Pay(id, x.token, ToSeller, x.seller, x.amount);
      if ok {
        escrows := escrows[id := x.(status := Released)];
      }
    }

    // --- Roles and deadlines ---

    method ProposeDeadline(e: Env, caller: Address, id: nat, deadline: nat) returns (ok: bool)
      modifies `proposals
      ensures Outcome(Model.ProposeDeadline(old(View()), e, caller, id, deadline), old(View()), ok, View())
    {
      if !e.Authorised(caller) || id !in escrows {
        return false;
      }
      var x := escrows[id];
      if (caller != x.buyer && caller != x.seller) || x.status == Disputed || IsTerminal(x.status)
         || deadline <= x.deadline {
        return false;
      }
      proposals := proposals[id := Proposal(caller, deadline, e.now)];
      ok := true;
    }

    method AcceptDeadline(e: Env, caller: Address, id: nat) returns (ok: bool)
      modifies `proposals, `escrows
      ensures Outcome(Model.AcceptDeadline(old(View()), e, caller, id), old(View()), ok, View())
    {
      if !e.Authorised(caller) || id !in escrows || id !in proposals {
        return false;
      }
      var x, p := escrows[id], proposals[id];
      if (caller != x.buyer && caller != x.seller) || x.status == Disputed || IsTerminal(x.status)
         || caller == p.proposer || e.now > p.proposedAt + PROPOSAL_WINDOW || p.newDeadline <= x.deadline {
        return false;
      }
      escrows := escrows[id := x.(deadline := p.newDeadline)];
      proposals := proposals - {id};
      ok := true;
    }

    method TransferBuyer(e: Env, buyer: Address, id: nat, newBuyer: Address) returns (ok: bool)
      modifies `escrows
      ensures Outcome(Model.TransferBuyer(old(View()), e, buyer, id, newBuyer), old(View()), ok, View())
    {
      if paused || !e.Authorised(buyer) || buyer == newBuyer || id !in escrows {
        return false;
      }
      var x := escrows[id];
      if x.status != Active || x.buyer != buyer {
        return false;
      }
      escrows := escrows[id := x.(buyer := newBuyer)];
      ok := true;
    }

    method SubmitEvidence(e: Env, party: Address, id: nat) returns (ok: bool)
      modifies `lastBuyerAction
      ensures Outcome(Model.SubmitEvidence(old(View()), e, party, id), old(View()), ok, View())
    {
      if paused || !e.Authorised(party) || id !in escrows {
        return false;
      }
      var x := escrows[id];
      if party != x.buyer && party != x.seller {
        return false;
      }
      TouchBuyer(e, party, id);
      ok := true;
    }

    // --- Arbiter pool and fee ---

    method AddArbiter(e: Env, caller: Address, arbiter: Address) returns (ok: bool)
      modifies `pool
      ensures Outcome(Model.AddArbiter(old(View()), e, caller, arbiter), old(View()), ok, View())
    {
      if !e.Authorised(caller) || admin != Some(caller) {
        return false;
      }
      for i := 0 to |pool|
        invariant View() == old(View())
        invariant arbiter !in pool[..i]
      {
        if pool[i] == arbiter {
          return false;
        }
      }
      pool := pool + [arbiter];
      ok := true;
    }

    method RemoveArbiter(e: Env, caller: Address, arbiter: Address) returns (ok: bool)
      modifies `pool, `nextArbiter
      ensures Outcome(Model.RemoveArbiter(old(View()), e, caller, arbiter), old(View()), ok, View())
    {
      if !e.Authorised(caller) || admin != Some(caller) {
        return false;
      }
      var found, kept := false, [];
      for i := 0 to |pool|
        invariant View() == old(View())
        invariant found <==> arbiter in pool[..i]
        invariant kept == Without(pool[..i], arbiter)
      {
        assert pool[..i + 1][..i] == pool[..i];
        if pool[i] == arbiter {
          found := true;
        } else {
          kept := kept + [pool[i]];
        }
      }
      assert pool[..|pool|] == pool;
      if !found {
        return false;
      }
      if kept == [] || nextArbiter >= |kept| {
        nextArbiter := 0;
      }
      pool := kept;
      ok := true;
    }

    method UpdateFee(e: Env, caller: Address, bps: nat, recipient: Address) returns (ok: bool)
      modifies `feeBps, `feeRecipient
      ensures Outcome(Model.UpdateFee(old(View()), e, caller, bps, recipient), old(View()), ok, View())
    {
      if !e.Authorised(caller) || admin != Some(caller) || bps > MAX_FEE {
        return false;
      }
      feeBps := bps;
      feeRecipient := Some(recipient);
      ok := true;
    }
  }

  lemma BatchStep(s: State, e: Env, buyer: Address, batch: seq<Terms>, i: nat)
    requires i < |batch| && CreateAll(s, e, buyer, batch[..i]).Some?
    ensures var t := CreateAll(s, e, buyer, batch[..i]).value;
            var r := Model.CreateCore(t, e, buyer, batch[i].(inactivity := 0));
            && CreateAll(s, e, buyer, batch[..i + 1]) == r
            && (r.Some? ==> r.value.counter == t.counter + 1)
  {
    assert batch[..i + 1][..i] == batch[..i];
  }

  /** A batch with a trapping prefix traps. */
  lemma {:induction false} BatchTraps(s: State, e: Env, buyer: Address, batch: seq<Terms>, k: nat)
    requires k <= |batch| && CreateAll(s, e, buyer, batch[..k]) == None
    ensures CreateAll(s, e, buyer, batch) == None
    decreases |batch| - k
  {
    if k == |batch| {
      assert batch[..k] == batch;
    } else {
      assert batch[..k + 1][..k] == batch[..k];
      BatchTraps(s, e, buyer, batch, k + 1);
    }
  }

  lemma {:induction false} OthersTrap(s: State, id: nat, x: Escrow, k: nat, n: nat)
    requires 1 <= k <= n <= |x.sellers| && PayOthers(s, id, x, k) == None
    ensures PayOthers(s, id, x, n) == None
    decreases n - k
  {
    if k < n {
      OthersTrap(s, id, x, k + 1, n);
    }
  }
}
