/**
 Who is paid by which call: every movement that a call adds to the journal goes to the
 party that call owes it to, and what an escrow was opened with is accounted for ever after.
 */
module EscrowJournal {
  import opened Common
  import opened Sums
  import opened EscrowModel
  import opened EscrowSafety
  import opened EscrowChains

  // --- The movements of one call ---

  /** A movement of a call that takes the contract from `s` to `u`. A deposit opens a new
      escrow with its amount; a release pays any of the sellers, every other call the
      primary one; the fee goes to the fee recipient of the moment. */
  ghost predicate Proper(s: State, u: State, releasing: bool, m: Move) {
    && m.id in u.escrows && m.token == u.escrows[m.id].token && m.amount >= 0 &&
    match m.kind
    case Deposit => m.id !in s.escrows && m.amount == u.escrows[m.id].amount && m.party == u.escrows[m.id].buyer
    case ToSeller =>
      && m.id in s.escrows
      && if releasing then IsSeller(s.escrows[m.id], m.party) else m.party == s.escrows[m.id].seller
    case ToBuyer => m.id in s.escrows && m.party == s.escrows[m.id].buyer
    case ToProtocol => m.id in s.escrows && s.feeRecipient == Some(m.party)
  }

  ghost predicate IsSeller(x: Escrow, a: Address) {
    exists i :: 0 <= i < |x.sellers| && x.sellers[i].0 == a
  }

  ghost predicate AllProper(s: State, u: State, releasing: bool, added: seq<Move>) {
    forall i :: 0 <= i < |added| ==> Proper(s, u, releasing, added[i])
  }

  /** What an exit other than a release may add for its escrow. */
  predicate ExitMove(s: State, id: nat, x: Escrow, m: Move) {
    && m.id == id && m.token == x.token && m.amount >= 0 &&
    match m.kind
    case Deposit => false
    case ToSeller => m.party == x.seller
    case ToBuyer => m.party == x.buyer
    case ToProtocol => s.feeRecipient == Some(m.party)
  }

  ghost predicate ExitMoves(s: State, id: nat, x: Escrow, added: seq<Move>) {
    forall i :: 0 <= i < |added| ==> ExitMove(s, id, x, added[i])
  }

  lemma FreezeAdds(s: State, id: nat, x: Escrow, disputed: int, u: State) returns (added: seq<Move>)
    requires Freeze(s, id, x, disputed) == Some(u)
    ensures u.journal == s.journal + added && ExitMoves(s, id, x, added)
  {
    added := if x.amount - disputed > 0 then [Move(id, x.token, ToSeller, x.seller, x.amount - disputed)] else [];
  }

  lemma SettlementAdds(s: State, id: nat, x: Escrow, fee: int, toSeller: bool, u: State) returns (added: seq<Move>)
    requires Settlement(s, id, x, fee, toSeller) == Some(u)
    ensures u.journal == s.journal + added && ExitMoves(s, id, x, added)
  {
    var award := if toSeller then Move(id, x.token, ToSeller, x.seller, x.amount - fee)
                 else Move(id, x.token, ToBuyer, x.buyer, x.amount - fee);
    added := (if fee > 0 then [Move(id, x.token, ToProtocol, s.feeRecipient.GetOr(This), fee)] else []) + [award];
  }

  lemma PaymentAdds(s: State, e: Env, c: Call, u: State) returns (added: seq<Move>)
    requires c.PartialReleaseCall? || c.AutoReleaseExpiredCall? || c.ClaimInactivityCall?
    requires Step(s, e, c) == Some(u)
    ensures c.id in s.escrows && u.journal == s.journal + added && ExitMoves(s, c.id, s.escrows[c.id], added)
  {
    var x := s.escrows[c.id];
    var kind := if c.AutoReleaseExpiredCall? then ToBuyer else ToSeller;
    var to := if c.AutoReleaseExpiredCall? then x.buyer else x.seller;
    added := [Move(c.id, x.token, kind, to, if c.PartialReleaseCall? then c.amount else x.amount)];
  }

  lemma RecordAdds(s: State, e: Env, c: Call, u: State)
    requires IsRecordCall(c) && Step(s, e, c) == Some(u)
    ensures c.id in s.escrows && u.journal == s.journal
  {
  }

  lemma ExitAdds(s: State, e: Env, c: Call, u: State) returns (added: seq<Move>)
    requires IsExitCall(c) && Step(s, e, c) == Some(u)
    ensures c.id in s.escrows && u.journal == s.journal + added && ExitMoves(s, c.id, s.escrows[c.id], added)
  {
    if c.DisputeCall? {
      added := FreezeAdds(TouchBuyer(s, e, c.caller, c.id), c.id, s.escrows[c.id], c.disputed, u);
    } else if c.ResolveCall? {
      var x := s.escrows[c.id];
      added := SettlementAdds(s, c.id, x, Share(x.amount, s.feeBps), c.toSeller, u);
    } else if IsRecordCall(c) {
      RecordAdds(s, e, c, u);
      added := [];
    } else {
      added := PaymentAdds(s, e, c, u);
    }
  }

  /** The payments of a release to the sellers at positions `1..k`. */
  lemma {:induction false} OthersAdd(s: State, id: nat, x: Escrow, k: nat) returns (added: seq<Move>)
    requires 1 <= k <= |x.sellers| && PayOthers(s, id, x, k).Some?
    ensures PayOthers(s, id, x, k).value.journal == s.journal + added
    ensures forall i :: 0 <= i < |added| ==> SellerMove(id, x, added[i])
  {
    added := [];
    if k > 1 {
      added := OthersAdd(s, id, x, k - 1);
      var share := Share(x.amount, x.sellers[k - 1].1);
      if share > 0 {
        added := added + [Move(id, x.token, ToSeller, x.sellers[k - 1].0, share)];
      }
    }
  }

  ghost predicate SellerMove(id: nat, x: Escrow, m: Move) {
    m.id == id && m.token == x.token && m.amount >= 0 && m.kind == ToSeller && IsSeller(x, m.party)
  }

  lemma SellersAdd(s: State, id: nat, x: Escrow) returns (added: seq<Move>)
    requires WellFormed(x) && PaySellers(s, id, x).Some?
    ensures PaySellers(s, id, x).value.journal == s.journal + added
    ensures forall i :: 0 <= i < |added| ==> SellerMove(id, x, added[i])
  {
    assert IsSeller(x, x.sellers[0].0);
    if |x.sellers| <= 1 {
      added := [Move(id, x.token, ToSeller, x.seller, x.amount)];
    } else {
      added := OthersAdd(s, id, x, |x.sellers|);
      var first := x.amount - Distributed(x.amount, x.sellers, |x.sellers|);
      if first > 0 {
        added := added + [Move(id, x.token, ToSeller, x.sellers[0].0, first)];
      }
    }
  }

  /** A release pays the sellers and may then take the deposit of the renewal. */
  lemma ReleaseAdds(s: State, e: Env, caller: Address, id: nat, u: State) returns (paid: seq<Move>, deposit: seq<Move>)
    requires Release(s, e, caller, id) == Some(u) && WellFormed(s.escrows[id])
    ensures id in s.escrows && u.journal == s.journal + paid + deposit
    ensures forall i :: 0 <= i < |paid| ==> SellerMove(id, s.escrows[id], paid[i])
    ensures var x := s.escrows[id];
            deposit == if WantsRenewal(x) then [Move(s.counter, x.token, Deposit, x.buyer, x.amount)] else []
  {
    var x := s.escrows[id];
    paid := SellersAdd(TouchBuyer(s, e, caller, id), id, x);
    ReleaseFundsFrame(s, e, caller, id);
    RenewAdds(ReleaseFunds(s, e, caller, id).value, e, id, x, u);
    deposit := if WantsRenewal(x) then [Move(s.counter, x.token, Deposit, x.buyer, x.amount)] else [];
  }

  lemma RenewAdds(s: State, e: Env, source: nat, x: Escrow, u: State)
    requires TryRenew(s, e, source, x) == Some(u)
    ensures u.journal
            == s.journal + if WantsRenewal(x) then [Move(s.counter, x.token, Deposit, x.buyer, x.amount)] else []
    ensures WantsRenewal(x) ==> u.escrows == s.escrows[s.counter := Successor(x, e.now)]
    ensures !WantsRenewal(x) ==> u == s
  {
  }

  lemma {:induction false} CreateAllAdds(s: State, e: Env, buyer: Address, batch: seq<Terms>, u: State)
    returns (added: seq<Move>)
    requires Inv(s) && buyer != This && CreateAll(s, e, buyer, batch) == Some(u)
    ensures u.journal == s.journal + added && AllProper(s, u, false, added)
    ensures forall i :: 0 <= i < |added| ==> added[i].kind == Deposit
  {
    added := [];
    if batch != [] {
      var n := |batch| - 1;
      var t := CreateAll(s, e, buyer, batch[..n]).value;
      added := CreateAllAdds(s, e, buyer, batch[..n], t);
      CreateAllKeeps(s, e, buyer, batch[..n]);
      var x := CreateCoreOpens(t, e, buyer, batch[n].(inactivity := 0));
      CreateAllFrame(s, e, buyer, batch[..n]);
      var m := Move(t.counter, x.token, Deposit, buyer, x.amount);
      forall i | 0 <= i < |added| ensures Proper(s, u, false, added[i]) {
        assert Proper(s, t, false, added[i]);
      }
      added := added + [m];
    }
  }

  lemma OpeningAdds(s: State, u: State, from: Address, x: Escrow) returns (added: seq<Move>)
    requires Inv(s) && Opens(s, u, from, x)
    ensures u.journal == s.journal + added && AllProper(s, u, false, added)
    ensures forall i :: 0 <= i < |added| ==> added[i].kind == Deposit
  {
    added := [Move(s.counter, x.token, Deposit, from, x.amount)];
  }

  predicate CreatesEscrow(c: Call) {
    c.CreateEscrowCall? || c.CreateBatchCall? || c.CreateFromTemplateCall? || c.CreateWithPoolCall?
  }

  lemma CreateAdds(s: State, e: Env, c: Call, u: State) returns (added: seq<Move>)
    requires Inv(s) && CreatesEscrow(c) && Step(s, e, c) == Some(u)
    ensures u.journal == s.journal + added && AllProper(s, u, false, added)
    ensures forall i :: 0 <= i < |added| ==> added[i].kind == Deposit
  {
    if c.CreateBatchCall? {
      added := CreateAllAdds(s, e, c.buyer, c.batch, u);
    } else {
      var x;
      if c.CreateEscrowCall? {
        x := CreateCoreOpens(s, e, c.buyer, c.terms);
      } else if c.CreateFromTemplateCall? {
        x := TemplateOpens(s, e, c.buyer, c.seller, c.template, c.amount);
      } else {
        x := PoolOpens(s, e, c.buyer, c.seller, c.amount, c.token, c.deadline);
      }
      added := OpeningAdds(s, u, c.buyer, x);
    }
  }

  lemma ExitMovesProper(s: State, u: State, id: nat, y: Escrow, added: seq<Move>)
    requires id in s.escrows && u.escrows == s.escrows[id := y] && y.token == s.escrows[id].token
    requires ExitMoves(s, id, s.escrows[id], added)
    ensures AllProper(s, u, false, added)
  {
    forall i | 0 <= i < |added| ensures Proper(s, u, false, added[i]) {
      assert ExitMove(s, id, s.escrows[id], added[i]);
    }
  }

  lemma ExitProper(s: State, e: Env, c: Call, u: State) returns (added: seq<Move>)
    requires Inv(s) && IsExitCall(c) && Step(s, e, c) == Some(u)
    ensures c.id in s.escrows && u.journal == s.journal + added && ExitMoves(s, c.id, s.escrows[c.id], added)
    ensures AllProper(s, u, false, added)
  {
    added := ExitAdds(s, e, c, u);
    var y, out := ExitDisburses(s, e, c);
    ExitMovesProper(s, u, c.id, y, added);
  }

  lemma ReleaseProper(s: State, e: Env, c: Call, u: State) returns (added: seq<Move>)
    requires Records(s.escrows, s.counter) && c.ReleaseCall? && Step(s, e, c) == Some(u)
    ensures u.journal == s.journal + added && AllProper(s, u, true, added)
  {
    var x := s.escrows[c.id];
    var paid, deposit := ReleaseAdds(s, e, c.caller, c.id, u);
    ReleaseFundsFrame(s, e, c.caller, c.id);
    RenewAdds(ReleaseFunds(s, e, c.caller, c.id).value, e, c.id, x, u);
    added := paid + deposit;
    forall i | 0 <= i < |added| ensures Proper(s, u, true, added[i]) {
      if i < |paid| {
        assert SellerMove(c.id, x, paid[i]);
      }
    }
  }

  /** Every movement a call makes is owed by that call to that party. */
  lemma StepMoves(s: State, e: Env, c: Call, u: State) returns (added: seq<Move>)
    requires Inv(s) && Step(s, e, c) == Some(u)
    ensures u.journal == s.journal + added && AllProper(s, u, c.ReleaseCall?, added)
  {
    if IsExitCall(c) {
      added := ExitProper(s, e, c, u);
    } else if c.ReleaseCall? {
      added := ReleaseProper(s, e, c, u);
    } else if CreatesEscrow(c) {
      added := CreateAdds(s, e, c, u);
    } else {
      OtherFrame(s, e, c);
      added := [];
    }
  }

  // --- The deposit stays what it was ---

  /** Over every run, what was deposited for an escrow stays what it was first on record
      with, however little of it is left. */
  lemma {:induction false} DepositForGood(s: State, run: Run, id: nat)
    requires Inv(s) && id in s.escrows
    ensures Tally(Exec(s, run).journal, id, Deposit) == Tally(s.journal, id, Deposit)
    decreases |run|
  {
    if run != [] {
      StepLater(s, run[0].0, run[0].1, id);
      StepKeeps(s, run[0].0, run[0].1);
      DepositForGood(Next(s, run[0].0, run[0].1), run[1..], id);
    }
  }

  lemma {:induction false} TallyAdded(journal: seq<Move>, added: seq<Move>, id: nat, kind: Kind)
    requires forall i :: 0 <= i < |added| ==> added[i].amount >= 0
    ensures Tally(journal + added, id, kind) >= Tally(journal, id, kind)
    ensures (forall i :: 0 <= i < |added| ==> added[i].id != id || added[i].kind != kind)
            ==> Tally(journal + added, id, kind) == Tally(journal, id, kind)
  {
    if added == [] {
      assert journal + added == journal;
    } else {
      var n := |added| - 1;
      TallyAdded(journal, added[..n], id, kind);
      TallyOne(journal + added[..n], added[n], id, kind);
      assert journal + added[..n] + [added[n]] == journal + added;
    }
  }

  // --- The ledger from the creation on ---

  lemma {:induction false} CreateAllActive(s: State, e: Env, buyer: Address, batch: seq<Terms>, id: nat)
    requires CreateAll(s, e, buyer, batch).Some? && id !in s.escrows
             && id in CreateAll(s, e, buyer, batch).value.escrows
    ensures CreateAll(s, e, buyer, batch).value.escrows[id].status == Active
  {
    if batch != [] {
      var t := CreateAll(s, e, buyer, batch[..|batch| - 1]).value;
      if id in t.escrows {
        CreateAllActive(s, e, buyer, batch[..|batch| - 1], id);
      }
    }
  }

  lemma NewIsActive(s: State, e: Env, c: Call, u: State, id: nat)
    requires Inv(s) && Step(s, e, c) == Some(u) && id !in s.escrows && id in u.escrows
    ensures u.escrows[id].status == Active
  {
    if IsExitCall(c) {
      var y, out := ExitDisburses(s, e, c);
    } else if c.ReleaseCall? {
      ReleaseFundsFrame(s, e, c.caller, c.id);
      RenewAdds(ReleaseFunds(s, e, c.caller, c.id).value, e, c.id, s.escrows[c.id], u);
    } else if c.CreateBatchCall? {
      CreateAllActive(s, e, c.buyer, c.batch, id);
    } else if !CreatesEscrow(c) {
      OtherFrame(s, e, c);
    }
  }

  lemma NothingPaidYet(s: State, e: Env, c: Call, u: State, id: nat, kind: Kind)
    requires Inv(s) && Step(s, e, c) == Some(u) && id !in s.escrows && kind != Deposit
    ensures Tally(u.journal, id, kind) == 0
  {
    var added := StepMoves(s, e, c, u);
    forall i | 0 <= i < |added| ensures added[i].amount >= 0 && (added[i].id != id || added[i].kind != kind) {
      assert Proper(s, u, c.ReleaseCall?, added[i]);
    }
    TallyAdded(s.journal, added, id, kind);
    forall m | m in s.journal ensures m.id != id {
      assert Entitled(s.escrows, m);
    }
    NoTally(s.journal, id, kind);
  }

  /** From the call that opens an escrow, whichever it is, and over every run after it: the
      amount it was opened with is what its sellers, its buyer and the protocol received on
      its account, plus what it still holds. */
  lemma LedgerFromCreation(s: State, before: Run, t: State, e: Env, c: Call, u: State, run: Run, id: nat)
    requires Initial(s) && t == Exec(s, before) && Step(t, e, c) == Some(u) && id !in t.escrows && id in u.escrows
    ensures var v := Exec(u, run);
            && id in v.escrows
            && u.escrows[id].amount
               == Tally(v.journal, id, ToSeller) + Tally(v.journal, id, ToBuyer) + Tally(v.journal, id, ToProtocol)
                  + Held(v.escrows[id])
  {
    InitialInv(s);
    RunKeeps(s, before);
    StepKeeps(t, e, c);
    NewIsActive(t, e, c, u, id);
    NothingPaidYet(t, e, c, u, id, ToSeller);
    NothingPaidYet(t, e, c, u, id, ToBuyer);
    NothingPaidYet(t, e, c, u, id, ToProtocol);
    DepositForGood(u, run, id);
    Finality(u, run, id);
    RunKeeps(u, run);
  }
}
