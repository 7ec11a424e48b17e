/**
 A short run from deployment in which a split is not honoured: half of the amount is
 released early, and that half goes to the first seller alone.
 */
module EscrowWitness {
  import opened Common
  import opened Ledger
  import opened Sums
  import opened EscrowModel
  import opened EscrowSafety
  import opened EscrowJournal
  import opened EscrowSplits

  const ADMIN := Party(0)
  const BUYER := Party(1)
  const FIRST := Party(2)
  const SECOND := Party(3)
  const TOKEN := Party(9)

  const ENV := Env(0, 0, {ADMIN, BUYER})

  const SELLERS := [(FIRST, 5000), (SECOND, 5000)]

  const TERMS := Terms(FIRST, ADMIN, 100, TOKEN, 10, SELLERS, false, 0, 0)

  /** Just deployed; the buyer holds 100. */
  function Start(): State {
    State(Some(ADMIN), false, {TOKEN}, map[], 0, None, 0, map[], map[], map[], map[], [], 0,
          map[(TOKEN, BUYER) := 100], map[], [])
  }

  lemma StartIsDeployment()
    ensures Initial(Start())
  {
  }

  /** The escrow, with `amount` left in it. */
  function Half(amount: int, st: Status): Escrow {
    Escrow(BUYER, FIRST, ADMIN, amount, TOKEN, st, 0, 10, SELLERS, false, 0, 0, 0)
  }

  lemma SellersAccepted()
    ensures ResolveSellers(FIRST, SELLERS) == Some(SELLERS)
  {
    assert BpsOf(SELLERS) == [5000, 5000] && [5000, 5000][..1] == [5000] && [5000][..0] == [];
    assert SumSeq([5000]) == 5000;
  }

  lemma Created()
    ensures var u := Next(Start(), ENV, CreateEscrowCall(BUYER, TERMS));
            && u == Start().(bal := u.bal, counter := 1, escrows := map[0 := Half(100, Active)],
                             journal := [Move(0, TOKEN, Deposit, BUYER, 100)])
            && Bal(u.bal, TOKEN, This) == 100 && Bal(u.bal, TOKEN, FIRST) == 0 && Bal(u.bal, TOKEN, SECOND) == 0
  {
    SellersAccepted();
  }

  lemma HalfReleased(s: State)
    requires !s.paused && s.escrows == map[0 := Half(100, Active)] && Bal(s.bal, TOKEN, This) == 100
    ensures var u := Next(s, ENV, PartialReleaseCall(BUYER, 0, 50));
            && u == s.(bal := u.bal, escrows := map[0 := Half(50, PartiallyReleased)], journal := u.journal)
            && Moved(s.bal, u.bal, TOKEN, This, FIRST, 50)
  {
  }

  lemma HalvesPaid(s: State, x: Escrow)
    requires x == Half(50, PartiallyReleased) && Bal(s.bal, TOKEN, This) == 50
    ensures var u := PaySellers(s, 0, x);
            && u.Some? && u.value == s.(bal := u.value.bal, journal := u.value.journal)
            && Bal(u.value.bal, TOKEN, SECOND) == Bal(s.bal, TOKEN, SECOND) + 25
            && Bal(u.value.bal, TOKEN, FIRST) == Bal(s.bal, TOKEN, FIRST) + 25
  {
    assert Share(50, 5000) == 25;
    assert Distributed(50, SELLERS, 1) == 0 && Distributed(50, SELLERS, 2) == 25;
    assert PayOthers(s, 0, x, 1) == Some(s);
    assert PayOthers(s, 0, x, 2) == PayPositive(s, 0, TOKEN, ToSeller, SECOND, 25);
  }

  lemma RestReleased(s: State)
    requires !s.paused && s.escrows == map[0 := Half(50, PartiallyReleased)] && Bal(s.bal, TOKEN, This) == 50
    ensures Step(s, ENV, ReleaseCall(BUYER, 0)).Some?
    ensures var u := Next(s, ENV, ReleaseCall(BUYER, 0));
            && u.escrows == map[0 := Half(50, Released)]
            && Bal(u.bal, TOKEN, SECOND) == Bal(s.bal, TOKEN, SECOND) + 25
            && Bal(u.bal, TOKEN, FIRST) == Bal(s.bal, TOKEN, FIRST) + 25
  {
    var x := s.escrows[0];
    HalvesPaid(s, x);
    var t := PaySellers(s, 0, x).value;
    ReleasedWithoutRenewal(s, x, t);
    assert t.escrows[0 := Half(50, Released)] == map[0 := Half(50, Released)];
  }

  lemma ReleasedWithoutRenewal(s: State, x: Escrow, t: State)
    requires !s.paused && 0 in s.escrows && s.escrows[0] == x == Half(50, PartiallyReleased)
    requires PaySellers(s, 0, x) == Some(t)
    ensures Step(s, ENV, ReleaseCall(BUYER, 0)) == Some(t.(escrows := t.escrows[0 := x.(status := Released)]))
  {
    assert TouchBuyer(s, ENV, BUYER, 0) == s;
  }

  lemma DepositOf100(s: State)
    requires s.journal == [Move(0, TOKEN, Deposit, BUYER, 100)]
    ensures Tally(s.journal, 0, Deposit) == 100
  {
    assert s.journal[..0] == [];
    assert Tally([], 0, Deposit) == 0;
  }

  function Runs(): Run {
    [(ENV, CreateEscrowCall(BUYER, TERMS)), (ENV, PartialReleaseCall(BUYER, 0, 50)), (ENV, ReleaseCall(BUYER, 0))]
  }

  lemma ExecThree(s: State, run: Run)
    requires |run| == 3
    ensures var s1 := Next(s, run[0].0, run[0].1);
            var s2 := Next(s1, run[1].0, run[1].1);
            Exec(s, run) == Next(s2, run[2].0, run[2].1) == Exec(s1, run[1..])
  {
    var s1 := Next(s, run[0].0, run[0].1);
    var s2 := Next(s1, run[1].0, run[1].1);
    assert run[1..][0] == run[1] && run[1..][1..] == run[2..] && run[2..][0] == run[2];
    assert Exec(s2, run[2..]) == Next(s2, run[2].0, run[2].1);
  }

  lemma ReleasedThird(s: State, run: Run, id: nat)
    requires |run| == 3 && !run[0].1.ReleaseCall? && !run[1].1.ReleaseCall?
    requires var s2 := Next(Next(s, run[0].0, run[0].1), run[1].0, run[1].1);
             Releases(s2, run[2].0, run[2].1, id) && id in s2.escrows
    ensures var s2 := Next(Next(s, run[0].0, run[0].1), run[1].0, run[1].1);
            ReleasedAmount(s, run, id) == s2.escrows[id].amount
  {
    var s1 := Next(s, run[0].0, run[0].1);
    var s2 := Next(s1, run[1].0, run[1].1);
    assert run[1..][0] == run[1] && run[1..][1..] == run[2..] && run[2..][0] == run[2];
    assert ReleasedAmount(s2, run[2..], id) == s2.escrows[id].amount;
    assert ReleasedAmount(s1, run[1..], id) == ReleasedAmount(s2, run[2..], id);
  }

  /** A deposit of 100 to be split in halves: 50 released early, then the rest. The second
      seller has 25 of its 50. */
  lemma SplitNotHonoured()
    ensures var s1 := Next(Start(), ENV, CreateEscrowCall(BUYER, TERMS));
            var s2 := Next(s1, ENV, PartialReleaseCall(BUYER, 0, 50));
            var s3 := Next(s2, ENV, ReleaseCall(BUYER, 0));
            && Bal(s3.bal, TOKEN, FIRST) == 75 && Bal(s3.bal, TOKEN, SECOND) == 25
            && s3.escrows == map[0 := Half(50, Released)] && !Honoured(s3, 0)
  {
    Created();
    var s1 := Next(Start(), ENV, CreateEscrowCall(BUYER, TERMS));
    HalfReleased(s1);
    var s2 := Next(s1, ENV, PartialReleaseCall(BUYER, 0, 50));
    RestReleased(s2);
    ReleasedThird(Start(), Runs(), 0);
    ExecThree(Start(), Runs());
    var s3 := Next(s2, ENV, ReleaseCall(BUYER, 0));
    DepositStays(Start(), ENV, CreateEscrowCall(BUYER, TERMS), s1, Runs()[1..], s3);
    HalfIsShort(Start(), Runs(), s3);
  }

  lemma DepositStays(s: State, e: Env, c: Call, s1: State, rest: Run, u: State)
    requires Initial(s) && s1 == Next(s, e, c) && u == Exec(s1, rest)
    requires 0 in s1.escrows && s1.journal == [Move(0, TOKEN, Deposit, BUYER, 100)]
    ensures Tally(u.journal, 0, Deposit) == 100 && u.counter > 0
  {
    InitialInv(s);
    StepKeeps(s, e, c);
    DepositOf100(s1);
    DepositForGood(s1, rest, 0);
    RunKeeps(s1, rest);
    Finality(s1, rest, 0);
  }

  lemma HalfIsShort(s: State, run: Run, u: State)
    requires Initial(s) && u == Exec(s, run) && ReleasedAmount(s, run, 0) == 50 && u.counter > 0
    requires u.escrows == map[0 := Half(50, Released)] && Tally(u.journal, 0, Deposit) == 100
    ensures !Honoured(u, 0)
  {
    SplitHonoured(s, run, 0);
    assert Share(50, 5000) == 25 && Share(100, 5000) == 50;
    assert u.escrows[0].sellers[1].0 == SECOND;
  }
}
