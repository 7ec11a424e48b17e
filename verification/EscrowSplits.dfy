/**
 When a split is honoured: only `release` pays the later sellers, every other exit pays
 the primary seller alone, so how an escrow ends decides who gets a share.
 */
module EscrowSplits {
  import opened Common
  import opened Sums
  import opened EscrowModel
  import opened EscrowSafety
  import opened EscrowChains
  import opened EscrowJournal

  /** What the addresses `who` received as sellers of escrow `id`. */
  ghost function Received(journal: seq<Move>, id: nat, who: set<Address>): int {
    if journal == [] then 0
    else
      var m := journal[|journal| - 1];
      Received(journal[..|journal| - 1], id, who)
      + if m.id == id && m.kind == ToSeller && m.party in who then m.amount else 0
  }

  ghost predicate Releases(s: State, e: Env, c: Call, id: nat) {
    c.ReleaseCall? && c.id == id && Step(s, e, c).Some?
  }

  /** The amount that escrow `id` held when `release` paid it out; zero if it never did. */
  ghost function ReleasedAmount(s: State, run: Run, id: nat): int
    decreases |run|
  {
    if run == [] then 0
    else if Releases(s, run[0].0, run[0].1, id) then s.escrows[id].amount
    else ReleasedAmount(Next(s, run[0].0, run[0].1), run[1..], id)
  }

  // --- What one call pays the sellers ---

  lemma ReceivedNext(journal: seq<Move>, m: Move, id: nat, who: set<Address>)
    ensures Received(journal + [m], id, who)
            == Received(journal, id, who) + if m.id == id && m.kind == ToSeller && m.party in who then m.amount else 0
  {
    assert (journal + [m])[..|journal|] == journal;
  }

  lemma {:induction false} NothingReceived(journal: seq<Move>, added: seq<Move>, id: nat, who: set<Address>)
    requires forall i :: 0 <= i < |added| ==> added[i].id != id || added[i].kind != ToSeller || added[i].party !in who
    ensures Received(journal + added, id, who) == Received(journal, id, who)
  {
    if added == [] {
      assert journal + added == journal;
    } else {
      var n := |added| - 1;
      NothingReceived(journal, added[..n], id, who);
      ReceivedNext(journal + added[..n], added[n], id, who);
      assert journal + added[..n] + [added[n]] == journal + added;
    }
  }

  lemma {:induction false} OthersGet(s: State, id: nat, x: Escrow, k: nat, who: set<Address>)
    requires 1 <= k <= |x.sellers| && x.amount >= 0 && PayOthers(s, id, x, k).Some?
    ensures Received(PayOthers(s, id, x, k).value.journal, id, who)
            == Received(s.journal, id, who) + CutsOf(x.amount, x.sellers, k, who)
  {
    if k > 1 {
      OthersGet(s, id, x, k - 1, who);
      var share := Share(x.amount, x.sellers[k - 1].1);
      assert x.amount * x.sellers[k - 1].1 >= 0;
      ReceivedNext(PayOthers(s, id, x, k - 1).value.journal, Move(id, x.token, ToSeller, x.sellers[k - 1].0, share),
                   id, who);
    }
  }

  lemma SellersGet(s: State, id: nat, x: Escrow, who: set<Address>)
    requires WellFormed(x) && x.seller !in who && PaySellers(s, id, x).Some?
    ensures Received(PaySellers(s, id, x).value.journal, id, who)
            == Received(s.journal, id, who) + CutsOf(x.amount, x.sellers, |x.sellers|, who)
  {
    var n := |x.sellers|;
    if n <= 1 {
      ReceivedNext(s.journal, Move(id, x.token, ToSeller, x.seller, x.amount), id, who);
    } else {
      OthersGet(s, id, x, n, who);
      var t, first := PayOthers(s, id, x, n).value, x.amount - Distributed(x.amount, x.sellers, n);
      ReceivedNext(t.journal, Move(id, x.token, ToSeller, x.sellers[0].0, first), id, who);
    }
  }

  lemma ReleaseGets(s: State, e: Env, caller: Address, id: nat, u: State, who: set<Address>)
    requires Release(s, e, caller, id) == Some(u)
    requires WellFormed(s.escrows[id]) && s.escrows[id].seller !in who
    ensures Received(u.journal, id, who)
            == Received(s.journal, id, who)
               + CutsOf(s.escrows[id].amount, s.escrows[id].sellers, |s.escrows[id].sellers|, who)
  {
    var x := s.escrows[id];
    var t := ReleaseFunds(s, e, caller, id).value;
    SellersGet(TouchBuyer(s, e, caller, id), id, x, who);
    RenewAdds(t, e, id, x, u);
    if WantsRenewal(x) {
      ReceivedNext(t.journal, Move(t.counter, x.token, Deposit, x.buyer, x.amount), id, who);
    }
  }

  lemma OtherReleaseAdds(s: State, e: Env, caller: Address, released: nat, u: State, id: nat) returns (added: seq<Move>)
    requires Release(s, e, caller, released) == Some(u) && WellFormed(s.escrows[released]) && released != id
    ensures u.journal == s.journal + added
    ensures forall i :: 0 <= i < |added| ==> added[i].id != id || added[i].kind == Deposit
  {
    var paid, deposit := ReleaseAdds(s, e, caller, released, u);
    added := paid + deposit;
    forall i | 0 <= i < |paid| ensures paid[i].id != id {
      assert SellerMove(released, s.escrows[released], paid[i]);
    }
  }

  /** Only a release of `id` itself pays anybody but its primary seller on its account. */
  lemma StepGets(s: State, e: Env, c: Call, u: State, id: nat, who: set<Address>)
    requires Inv(s) && Step(s, e, c) == Some(u) && !Releases(s, e, c, id)
    requires id in s.escrows ==> s.escrows[id].seller !in who
    ensures Received(u.journal, id, who) == Received(s.journal, id, who)
  {
    var added;
    if IsExitCall(c) {
      added := ExitProper(s, e, c, u);
      forall i | 0 <= i < |added| ensures added[i].id != id || added[i].kind != ToSeller || added[i].party !in who {
        assert ExitMove(s, c.id, s.escrows[c.id], added[i]);
      }
    } else if c.ReleaseCall? {
      added := OtherReleaseAdds(s, e, c.caller, c.id, u, id);
    } else if CreatesEscrow(c) {
      added := CreateAdds(s, e, c, u);
    } else {
      OtherFrame(s, e, c);
      added := [];
      assert s.journal + added == s.journal;
    }
    NothingReceived(s.journal, added, id, who);
  }

  // --- What a run pays the sellers ---

  lemma TerminalNotReleased(s: State, e: Env, c: Call, id: nat)
    requires id in s.escrows && IsTerminal(s.escrows[id].status)
    ensures !Releases(s, e, c, id)
  {
  }

  lemma {:induction false} NeverReleasedAgain(s: State, run: Run, id: nat)
    requires Inv(s) && id in s.escrows && IsTerminal(s.escrows[id].status)
    ensures ReleasedAmount(s, run, id) == 0
    decreases |run|
  {
    if run != [] {
      TerminalNotReleased(s, run[0].0, run[0].1, id);
      StepLater(s, run[0].0, run[0].1, id);
      StepKeeps(s, run[0].0, run[0].1);
      NeverReleasedAgain(Next(s, run[0].0, run[0].1), run[1..], id);
    }
  }

  lemma {:induction false} NoCuts(sellers: seq<(Address, nat)>, k: nat, who: set<Address>)
    requires 1 <= k <= |sellers|
    ensures CutsOf(0, sellers, k, who) == 0
  {
    if k > 1 {
      NoCuts(sellers, k - 1, who);
      assert 0 * sellers[k - 1].1 == 0;
    }
  }

  lemma SameSellers(s: State, run: Run, id: nat)
    requires Inv(s) && id in s.escrows
    ensures Inv(Exec(s, run)) && id in Exec(s, run).escrows
    ensures Exec(s, run).escrows[id].sellers == s.escrows[id].sellers
            && Exec(s, run).escrows[id].seller == s.escrows[id].seller
  {
    RunKeeps(s, run);
    Finality(s, run, id);
  }

  lemma ReleaseEnds(s: State, e: Env, caller: Address, id: nat, u: State)
    requires Records(s.escrows, s.counter) && Release(s, e, caller, id) == Some(u)
    ensures id in u.escrows && u.escrows[id].status == Released
  {
    var x := s.escrows[id];
    ReleaseFundsFrame(s, e, caller, id);
    RenewAdds(ReleaseFunds(s, e, caller, id).value, e, id, x, u);
  }

  /** Over every run, addresses other than the primary seller receive their shares of the
      amount that was left when `release` paid the escrow out, and nothing else. */
  lemma {:induction false} LaterSellersReceive(s: State, run: Run, u: State, id: nat, who: set<Address>)
    requires Inv(s) && u == Exec(s, run) && id in u.escrows && u.escrows[id].seller !in who
             && u.escrows[id].sellers != []
    ensures Received(u.journal, id, who)
            == Received(s.journal, id, who)
               + CutsOf(ReleasedAmount(s, run, id), u.escrows[id].sellers, |u.escrows[id].sellers|, who)
    decreases |run|
  {
    if run == [] {
      NoCuts(u.escrows[id].sellers, |u.escrows[id].sellers|, who);
    } else {
      var e, c := run[0].0, run[0].1;
      var t := Next(s, e, c);
      StepKeeps(s, e, c);
      if id in s.escrows {
        SameSellers(s, run, id);
      }
      LaterSellersReceive(t, run[1..], u, id, who);
      if Releases(s, e, c, id) {
        ReleaseGets(s, e, c.caller, id, t, who);
        ReleaseEnds(s, e, c.caller, id, t);
        NeverReleasedAgain(t, run[1..], id);
        NoCuts(u.escrows[id].sellers, |u.escrows[id].sellers|, who);
      } else if Step(s, e, c).Some? {
        StepGets(s, e, c, t, id, who);
      }
    }
  }

  // --- When the split of the deposit is honoured ---

  /** What a release of `total` pays address `a`. */
  ghost function Part(total: int, sellers: seq<(Address, nat)>, a: Address): int
    requires sellers != []
  {
    CutsOf(total, sellers, |sellers|, {a})
    + if sellers[0].0 == a then total - Distributed(total, sellers, |sellers|) else 0
  }

  ghost predicate GotItsPart(u: State, id: nat, a: Address)
    requires id in u.escrows && u.escrows[id].sellers != []
  {
    Received(u.journal, id, {a}) == Part(Tally(u.journal, id, Deposit), u.escrows[id].sellers, a)
  }

  /** Every address received what the split of the whole deposit gives it. */
  ghost predicate Honoured(u: State, id: nat)
    requires id in u.escrows && u.escrows[id].sellers != []
  {
    forall a :: GotItsPart(u, id, a)
  }

  /** Every later seller is owed as much of `part` as of `whole`. */
  predicate SameShares(x: Escrow, part: int, whole: int) {
    forall i :: 1 <= i < |x.sellers| && x.sellers[i].0 != x.seller
                ==> Share(part, x.sellers[i].1) == Share(whole, x.sellers[i].1)
  }

  ghost predicate AllWentToSellers(u: State, id: nat)
    requires id in u.escrows
  {
    Held(u.escrows[id]) == 0 && Tally(u.journal, id, ToBuyer) == 0 && Tally(u.journal, id, ToProtocol) == 0
  }

  lemma ShareGrows(part: int, whole: int, bps: nat)
    requires 0 <= part <= whole
    ensures 0 <= Share(part, bps) <= Share(whole, bps)
  {
    assert (whole - part) * bps >= 0;
    assert part * bps >= 0;
  }

  lemma {:induction false} CutsEqual(part: int, whole: int, sellers: seq<(Address, nat)>, k: nat, who: set<Address>)
    requires 0 <= part <= whole && 1 <= k <= |sellers|
    ensures CutsOf(part, sellers, k, who) <= CutsOf(whole, sellers, k, who)
    ensures CutsOf(part, sellers, k, who) == CutsOf(whole, sellers, k, who)
            <==> forall i :: 1 <= i < k && sellers[i].0 in who
                             ==> Share(part, sellers[i].1) == Share(whole, sellers[i].1)
  {
    if k > 1 {
      CutsEqual(part, whole, sellers, k - 1, who);
      ShareGrows(part, whole, sellers[k - 1].1);
    }
  }

  lemma {:induction false} CutsAndRest(total: int, sellers: seq<(Address, nat)>, k: nat, a: Address, rest: set<Address>)
    requires 1 <= k <= |sellers| && a !in rest
    requires forall i :: 0 <= i < |sellers| ==> sellers[i].0 == a || sellers[i].0 in rest
    ensures CutsOf(total, sellers, k, {a}) + CutsOf(total, sellers, k, rest) == Distributed(total, sellers, k)
  {
    if k > 1 {
      CutsAndRest(total, sellers, k - 1, a, rest);
    }
  }

  lemma {:induction false} ReceivedAndRest(journal: seq<Move>, id: nat, a: Address, rest: set<Address>)
    requires a !in rest
    requires forall m :: m in journal && m.id == id && m.kind == ToSeller ==> m.party == a || m.party in rest
    ensures Received(journal, id, {a}) + Received(journal, id, rest) == Tally(journal, id, ToSeller)
  {
    if journal != [] {
      ReceivedAndRest(journal[..|journal| - 1], id, a, rest);
    }
  }

  ghost function OtherSellers(x: Escrow): set<Address> {
    set i | 0 <= i < |x.sellers| && x.sellers[i].0 != x.seller :: x.sellers[i].0
  }

  lemma {:induction false} TallyNonNegative(journal: seq<Move>, id: nat, kind: Kind)
    requires forall m :: m in journal ==> m.amount >= 0
    ensures Tally(journal, id, kind) >= 0
  {
    if journal != [] {
      TallyNonNegative(journal[..|journal| - 1], id, kind);
    }
  }

  lemma TalliesNonNegative(s: State, id: nat)
    requires AllEntitled(s.journal, s.escrows)
    ensures forall kind :: Tally(s.journal, id, kind) >= 0
  {
    forall m | m in s.journal ensures m.amount >= 0 {
      assert Entitled(s.escrows, m);
    }
    forall kind ensures Tally(s.journal, id, kind) >= 0 {
      TallyNonNegative(s.journal, id, kind);
    }
  }

  lemma {:induction false} ReleasedWithin(s: State, run: Run, id: nat)
    requires Inv(s) && id in Exec(s, run).escrows
    ensures 0 <= ReleasedAmount(s, run, id) <= Tally(Exec(s, run).journal, id, Deposit)
    decreases |run|
  {
    if run == [] {
      TalliesNonNegative(s, id);
    } else if Releases(s, run[0].0, run[0].1, id) {
      TalliesNonNegative(s, id);
      DepositForGood(s, run, id);
    } else {
      StepKeeps(s, run[0].0, run[0].1);
      ReleasedWithin(Next(s, run[0].0, run[0].1), run[1..], id);
    }
  }

  /** The primary seller received what the others did not. */
  lemma PrimaryReceives(u: State, id: nat, part: int)
    requires Inv(u) && id in u.escrows
    requires var x := u.escrows[id];
             Received(u.journal, id, OtherSellers(x)) == CutsOf(part, x.sellers, |x.sellers|, OtherSellers(x))
    requires SameShares(u.escrows[id], part, Tally(u.journal, id, Deposit))
             && 0 <= part <= Tally(u.journal, id, Deposit)
    ensures Part(Tally(u.journal, id, Deposit), u.escrows[id].sellers, u.escrows[id].seller)
            - Received(u.journal, id, {u.escrows[id].seller})
            == Tally(u.journal, id, Deposit) - Tally(u.journal, id, ToSeller)
  {
    var x, whole := u.escrows[id], Tally(u.journal, id, Deposit);
    var rest := OtherSellers(x);
    forall m | m in u.journal && m.id == id && m.kind == ToSeller ensures m.party == x.seller || m.party in rest {
      assert Entitled(u.escrows, m);
    }
    ReceivedAndRest(u.journal, id, x.seller, rest);
    CutsAndRest(whole, x.sellers, |x.sellers|, x.seller, rest);
    CutsEqual(part, whole, x.sellers, |x.sellers|, rest);
  }

  /** The split of the deposit is honoured exactly when nothing of it was returned, kept
      or charged, and what `release` still found was enough for the same rounded shares. */
  lemma SplitHonoured(s: State, run: Run, id: nat)
    requires Initial(s) && id < Exec(s, run).counter
    ensures var u := Exec(s, run);
            && id in u.escrows && u.escrows[id].sellers != []
            && (Honoured(u, id)
                <==> AllWentToSellers(u, id)
                     && SameShares(u.escrows[id], ReleasedAmount(s, run, id), Tally(u.journal, id, Deposit)))
  {
    InitialInv(s);
    RunKeeps(s, run);
    var u, part := Exec(s, run), ReleasedAmount(s, run, id);
    var x, whole := u.escrows[id], Tally(u.journal, id, Deposit);
    ReleasedWithin(s, run, id);
    TalliesNonNegative(u, id);
    LaterSellersReceive(s, run, u, id, OtherSellers(x));
    forall a | a != x.seller
      ensures GotItsPart(u, id, a)
              <==> forall i :: 1 <= i < |x.sellers| && x.sellers[i].0 in {a}
                               ==> Share(part, x.sellers[i].1) == Share(whole, x.sellers[i].1)
    {
      LaterSellersReceive(s, run, u, id, {a});
      CutsEqual(part, whole, x.sellers, |x.sellers|, {a});
    }
    if Honoured(u, id) {
      forall i | 1 <= i < |x.sellers| && x.sellers[i].0 != x.seller
        ensures Share(part, x.sellers[i].1) == Share(whole, x.sellers[i].1)
      {
        assert GotItsPart(u, id, x.sellers[i].0);
      }
    }
    if SameShares(x, part, whole) {
      PrimaryReceives(u, id, part);
      assert GotItsPart(u, id, x.seller) <==> AllWentToSellers(u, id);
    }
  }

  lemma {:induction false} TallyGrows(s: State, run: Run, id: nat, kind: Kind)
    requires Inv(s)
    ensures Tally(Exec(s, run).journal, id, kind) >= Tally(s.journal, id, kind)
    decreases |run|
  {
    if run != [] {
      var e, c := run[0].0, run[0].1;
      var t := Next(s, e, c);
      StepKeeps(s, e, c);
      TallyGrows(t, run[1..], id, kind);
      if Step(s, e, c).Some? {
        var added := StepMoves(s, e, c, t);
        forall i | 0 <= i < |added| ensures added[i].amount >= 0 {
          assert Proper(s, t, c.ReleaseCall?, added[i]);
        }
        TallyAdded(s.journal, added, id, kind);
      }
    }
  }

  /** A release charges no fee and returns nothing. */
  lemma ReleaseTallies(s: State, e: Env, caller: Address, id: nat, u: State, kind: Kind)
    requires Release(s, e, caller, id) == Some(u) && WellFormed(s.escrows[id])
             && (kind == ToBuyer || kind == ToProtocol)
    ensures Tally(u.journal, id, kind) == Tally(s.journal, id, kind)
  {
    var paid, deposit := ReleaseAdds(s, e, caller, id, u);
    forall i | 0 <= i < |paid| ensures paid[i].amount >= 0 && paid[i].kind == ToSeller {
      assert SellerMove(id, s.escrows[id], paid[i]);
    }
    TallyAdded(s.journal, paid, id, kind);
    TallyAdded(s.journal + paid, deposit, id, kind);
  }

  lemma StaysWithSellers(s: State, run: Run, id: nat)
    requires Inv(s) && id in s.escrows && IsTerminal(s.escrows[id].status) && AllWentToSellers(s, id)
    ensures id in Exec(s, run).escrows && AllWentToSellers(Exec(s, run), id)
  {
    var u := Exec(s, run);
    Finality(s, run, id);
    RunKeeps(s, run);
    TallyGrows(s, run, id, ToSeller);
    TalliesNonNegative(u, id);
  }

  lemma NothingPaidOut(s: State, id: nat)
    requires Accounted(s.journal, s.escrows) && AllEntitled(s.journal, s.escrows)
    requires id in s.escrows && Held(s.escrows[id]) == Tally(s.journal, id, Deposit)
    ensures Tally(s.journal, id, ToBuyer) == 0 && Tally(s.journal, id, ToProtocol) == 0
  {
    TalliesNonNegative(s, id);
  }

  lemma WholeReleased(s: State, e: Env, caller: Address, id: nat, t: State)
    requires Records(s.escrows, s.counter) && Release(s, e, caller, id) == Some(t)
    requires Tally(s.journal, id, ToBuyer) == 0 && Tally(s.journal, id, ToProtocol) == 0
    ensures id in t.escrows && IsTerminal(t.escrows[id].status) && AllWentToSellers(t, id)
  {
    ReleaseTallies(s, e, caller, id, t, ToBuyer);
    ReleaseTallies(s, e, caller, id, t, ToProtocol);
    ReleaseEnds(s, e, caller, id, t);
  }

  lemma ReleasedWasOpen(s: State, e: Env, caller: Address, id: nat)
    requires Release(s, e, caller, id).Some?
    ensures id in s.escrows && Held(s.escrows[id]) == s.escrows[id].amount
  {
  }

  lemma {:induction false} WholeWent(s: State, run: Run, id: nat)
    requires Inv(s) && id in Exec(s, run).escrows
    requires ReleasedAmount(s, run, id) == Tally(Exec(s, run).journal, id, Deposit)
    ensures AllWentToSellers(Exec(s, run), id)
    decreases |run|
  {
    if run == [] {
      TalliesNonNegative(s, id);
    } else {
      var e, c := run[0].0, run[0].1;
      var t := Next(s, e, c);
      StepKeeps(s, e, c);
      if Releases(s, e, c, id) {
        DepositForGood(s, run, id);
        ReleasedWasOpen(s, e, c.caller, id);
        NothingPaidOut(s, id);
        WholeReleased(s, e, c.caller, id, t);
        StaysWithSellers(t, run[1..], id);
      } else {
        WholeWent(t, run[1..], id);
      }
    }
  }

  /** An escrow released in one piece, before anything else was paid out of it, honours
      its split: the later sellers their shares rounded down, the first all the rest. */
  lemma ReleasedWholeHonours(s: State, run: Run, id: nat)
    requires Initial(s) && id < Exec(s, run).counter
    requires ReleasedAmount(s, run, id) == Tally(Exec(s, run).journal, id, Deposit)
    ensures var u := Exec(s, run); id in u.escrows && u.escrows[id].sellers != [] && Honoured(u, id)
  {
    SplitHonoured(s, run, id);
    InitialInv(s);
    WholeWent(s, run, id);
  }
}
