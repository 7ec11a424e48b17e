/**
 Who is paid how often while some members may not receive: each round starts looking at
 its own position, so whoever follows members that are passed over is paid for each of
 them and then again in its own turn.
 */
module RoscaTurns {
  import opened Common
  import opened Sums
  import opened RoscaModel
  import opened RoscaMoney
  import opened RoscaPots

  /** The position `back` places before `i`, cyclically. */
  function Before(g: Group, i: nat, back: nat): Address
    requires i < |g.order| && back < |g.order|
  {
    g.order[(i + |g.order| - back) % |g.order|]
  }

  /** Round `round` passes over exactly `gap` members in a row before position `i`. */
  ghost predicate PassedOver(g: Group, st: Standing, round: nat, i: nat, gap: nat)
    requires i < |g.order|
  {
    && gap < |g.order|
    && (forall back: nat :: 1 <= back <= gap ==> !Eligible(g, st, round, Before(g, i, back)))
    && (gap + 1 < |g.order| ==> Eligible(g, st, round, Before(g, i, gap + 1)))
  }

  ghost predicate NoSkips(st: Standing, start: nat, n: nat) {
    forall m, r: nat :: start <= r < start + n ==> (m, r) !in st.skips
  }

  /** How far position `i` lies ahead of the position of round `r`. */
  function Distance(r: nat, i: nat, n: nat): nat
    requires i < n
  {
    (i + n - r % n) % n
  }

  lemma DistanceReaches(r: nat, i: nat, n: nat)
    requires i < n
    ensures Distance(r, i, n) < n && (r + Distance(r, i, n)) % n == i
  {
    var d := RotationHits(r, n, i);
    ModStep(r, d, n);
    if i >= r % n {
      ModUnique(i + n - r % n, n, 1, i - r % n);
    } else {
      ModUnique(i + n - r % n, n, 0, i + n - r % n);
    }
  }

  lemma DistanceIs(r: nat, i: nat, n: nat, d: nat)
    requires d < n && i < n && (r + d) % n == i
    ensures Distance(r, i, n) == d
  {
    DistanceReaches(r, i, n);
    RotationOnce(r, n, d, Distance(r, i, n));
  }

  lemma StepsBack(r: nat, i: nat, n: nat, d: nat, back: nat)
    requires back <= d < n && i < n && (r + d) % n == i
    ensures (r + (d - back)) % n == (i + n - back) % n
  {
    var x := r + (d - back);
    ModAdd(r + d, n - back, n);
    assert (r + d) + (n - back) == x + n;
    ModAdd(x, n, n);
    ModUnique(x % n + n, n, 1, x % n);
  }

  /** Whoever is suspended, gone or skipping: a round pays an eligible member exactly when
      it lies no further ahead of the round's position than members are passed over before it. */
  lemma PaidWithinGap(g: Group, st: Standing, r: nat, i: nat, gap: nat)
    requires i < |g.order| && NoDup(g.order) && Eligible(g, st, r, g.order[i]) && PassedOver(g, st, r, i, gap)
    ensures Recipient(g, st, r) == Some(g.order[i]) <==> Distance(r, i, |g.order|) <= gap
  {
    var n, d := |g.order|, Distance(r, i, |g.order|);
    DistanceReaches(r, i, n);
    var k := ScanFinds(g, st, r, r % n, 0);
    assert Candidate(g, r, d) == g.order[i] && Eligible(g, st, r, Candidate(g, r, d));
    assert k <= d;
    assert Recipient(g, st, r) == Some(Candidate(g, r, k));
    if k < d {
      RotationApart(r, n, k, d);
      StepsBack(r, i, n, d, d - k);
      assert Candidate(g, r, k) == Before(g, i, d - k);
    }
    if d > gap {
      StepsBack(r, i, n, d, gap + 1);
      assert Candidate(g, r, d - (gap + 1)) == Before(g, i, gap + 1);
      assert Eligible(g, st, r, Candidate(g, r, d - (gap + 1)));
    }
  }

  lemma RotationApart(r: nat, n: nat, k: nat, d: nat)
    requires k < d < n
    ensures (r + k) % n != (r + d) % n
  {
    if (r + k) % n == (r + d) % n {
      RotationOnce(r, n, k, d);
    }
  }

  /** The `j`-th round from `start` lies at most `gap` behind position `i`. */
  predicate Within(start: nat, j: nat, i: nat, n: nat, gap: nat)
    requires i < n
  {
    Distance(start + j, i, n) <= gap
  }

  ghost function RoundsWithin(start: nat, i: nat, n: nat, gap: nat): set<nat>
    requires i < n
  {
    set j: nat | j < n && Within(start, j, i, n, gap)
  }

  lemma ReachesAfter(start: nat, j: nat, i: nat, n: nat, gap: nat)
    requires i < n && Distance(start + j, i, n) == gap
    ensures (start + gap + j) % n == i
  {
    DistanceReaches(start + j, i, n);
    assert start + j + gap == start + gap + j;
  }

  lemma OneAt(start: nat, i: nat, n: nat, gap: nat) returns (j: nat)
    requires i < n && gap < n
    ensures j < n && Distance(start + j, i, n) == gap
  {
    j := RotationHits(start + gap, n, i);
    assert (start + gap) + j == (start + j) + gap;
    DistanceIs(start + j, i, n, gap);
  }

  /** Of any `n` consecutive rounds, `gap + 1` lie at most `gap` behind a position. */
  lemma {:induction false} CountWithin(start: nat, i: nat, n: nat, gap: nat)
    requires i < n && gap < n
    ensures |RoundsWithin(start, i, n, gap)| == gap + 1
    decreases gap
  {
    var j := OneAt(start, i, n, gap);
    forall k: nat | k < n && Within(start, k, i, n, gap) ensures k == j || Distance(start + k, i, n) < gap {
      if Distance(start + k, i, n) == gap {
        ReachesAfter(start, j, i, n, gap);
        ReachesAfter(start, k, i, n, gap);
        RotationOnce(start + gap, n, j, k);
      }
    }
    if gap == 0 {
      assert RoundsWithin(start, i, n, 0) == {j};
    } else {
      var fewer := RoundsWithin(start, i, n, gap - 1);
      CountWithin(start, i, n, gap - 1);
      assert j !in fewer;
      assert RoundsWithin(start, i, n, gap) == fewer + {j} by {
        forall k: nat | k < n ensures Within(start, k, i, n, gap) <==> Within(start, k, i, n, gap - 1) || k == j {
        }
      }
    }
  }

  /** The `j`-th round from `start` goes to `m`. */
  predicate Pays(g: Group, st: Standing, start: nat, j: nat, m: Address) {
    Recipient(g, st, start + j) == Some(m)
  }

  ghost function RoundsPaid(g: Group, st: Standing, start: nat, m: Address): set<nat> {
    set j: nat | j < |g.order| && Pays(g, st, start, j, m)
  }

  lemma SameEveryRound(g: Group, st: Standing, start: nat, round: nat, i: nat, gap: nat)
    requires i < |g.order| && NoSkips(st, start, |g.order|) && start <= round < start + |g.order|
    ensures forall m :: Eligible(g, st, round, m) <==> Eligible(g, st, start, m)
    ensures PassedOver(g, st, round, i, gap) <==> PassedOver(g, st, start, i, gap)
  {
  }

  /** In any `n` consecutive rounds of an order of `n` in which nobody skips, and while the
      same members are suspended or gone, the scan picks a member who may receive once for
      itself and once for each member passed over just before it, and no one else. */
  lemma TurnsCounted(g: Group, st: Standing, start: nat, i: nat, gap: nat)
    requires i < |g.order| && NoDup(g.order) && NoSkips(st, start, |g.order|)
    ensures !Eligible(g, st, start, g.order[i]) ==> RoundsPaid(g, st, start, g.order[i]) == {}
    ensures Eligible(g, st, start, g.order[i]) && PassedOver(g, st, start, i, gap)
            ==> |RoundsPaid(g, st, start, g.order[i])| == gap + 1
  {
    var n, m := |g.order|, g.order[i];
    if !Eligible(g, st, start, m) {
      forall j: nat | j < n ensures !Pays(g, st, start, j, m) {
        SameEveryRound(g, st, start, start + j, i, gap);
        RecipientSelection(g, st, start + j);
      }
    } else if PassedOver(g, st, start, i, gap) {
      forall j: nat | j < n ensures Pays(g, st, start, j, m) <==> Within(start, j, i, n, gap) {
        SameEveryRound(g, st, start, start + j, i, gap);
        PaidWithinGap(g, st, start + j, i, gap);
      }
      assert RoundsPaid(g, st, start, m) == RoundsWithin(start, i, n, gap);
      CountWithin(start, i, n, gap);
    }
  }

  // --- What goes on record ---

  /** Who may receive, and in which order, is the same in both states. */
  predicate SameTurns(s: State, u: State) {
    && u.group.order == s.group.order && u.group.exited == s.group.exited
    && u.standing.suspended == s.standing.suspended && u.standing.skips == s.standing.skips
  }

  /** No call changes the order, exits, suspensions or skips, and every round is paid out. */
  ghost predicate Frozen(s: State, run: Run)
    decreases |run|
  {
    run == []
    || (var u := Next(s, run[0].0, run[0].1);
        SameTurns(s, u) && !run[0].1.CloseRoundCall? && Frozen(u, run[1..]))
  }

  lemma SameRecipient(s: State, u: State, round: nat)
    requires SameTurns(s, u)
    ensures Recipient(u.group, u.standing, round) == Recipient(s.group, s.standing, round)
  {
    if s.group.order != [] {
      SameScan(s.group, s.standing, u.group, u.standing, round, round % |s.group.order|, 0);
    }
  }

  /** `u` is a round later and has paid the recipient in turn. */
  ghost predicate PaysTurn(s: State, u: State) {
    && u.round.number == s.round.number + 1 && |u.history| == |s.history| + 1 && u.history[..|s.history|] == s.history
    && Recipient(s.group, s.standing, s.round.number) == Some(u.history[|s.history|].recipient)
  }

  ghost predicate SameRound(s: State, u: State) {
    u.round.number == s.round.number && u.history == s.history
  }

  lemma CompletePaysTurn(s: State, e: Env, u: State)
    requires CompleteRound(s, e) == Some(u)
    ensures PaysTurn(s, u)
  {
    var to, p := CompleteRoundUnfolds(s, e);
  }

  lemma ContributeTurn(s: State, e: Env, c: Call, u: State)
    requires c.ContributeCall? && Step(s, e, c) == Some(u)
    ensures PaysTurn(s, u) || SameRound(s, u)
  {
    var installed := ContributeUnfolds(s, e, c.who, c.token, c.amount);
    if CompleteRound(installed, e) == Some(u) {
      CompletePaysTurn(installed, e, u);
    }
  }

  lemma FinalizeTurn(s: State, e: Env, u: State)
    requires FinalizeRound(s, e) == Some(u)
    ensures PaysTurn(s, u)
  {
    var s1, v := FinalizeUnfolds(s, e, u);
    CompletePaysTurn(s1, e, v);
    SameStanding(s, s1);
  }

  lemma OtherTurn(s: State, e: Env, c: Call, u: State)
    requires !c.ContributeCall? && !c.FinalizeRoundCall? && !c.CloseRoundCall? && Step(s, e, c) == Some(u)
    ensures SameRound(s, u)
  {
  }

  lemma StepTurn(s: State, e: Env, c: Call)
    requires !c.CloseRoundCall?
    ensures PaysTurn(s, Next(s, e, c)) || SameRound(s, Next(s, e, c))
  {
    if Step(s, e, c).Some? {
      var u := Step(s, e, c).value;
      if c.ContributeCall? {
        ContributeTurn(s, e, c, u);
      } else if c.FinalizeRoundCall? {
        FinalizeTurn(s, e, u);
      } else {
        OtherTurn(s, e, c, u);
      }
    }
  }

  /** The `j`-th record that `u` has beyond those of `s` pays the recipient in turn. */
  ghost predicate TurnAt(s: State, u: State, j: nat) {
    && |s.history| + j < |u.history|
    && Pays(s.group, s.standing, s.round.number, j, u.history[|s.history| + j].recipient)
  }

  ghost predicate InTurn(s: State, u: State, k: nat) {
    && u.round.number == s.round.number + k && |u.history| == |s.history| + k && u.history[..|s.history|] == s.history
    && forall j: nat :: j < k ==> TurnAt(s, u, j)
  }

  lemma TurnLater(s: State, t: State, u: State, k: nat, j: nat)
    requires SameTurns(s, t) && PaysTurn(s, t) && InTurn(t, u, k) && j <= k
    ensures TurnAt(s, u, j)
  {
    if j == 0 {
      assert u.history[|s.history|] == u.history[..|t.history|][|s.history|];
    } else {
      assert TurnAt(t, u, j - 1);
      SameRecipient(s, t, s.round.number + j);
    }
  }

  lemma TurnsAddUp(s: State, t: State, u: State, k: nat)
    requires SameTurns(s, t) && PaysTurn(s, t) && InTurn(t, u, k)
    ensures InTurn(s, u, k + 1)
  {
    assert u.history[..|s.history|] == u.history[..|t.history|][..|s.history|];
    forall j: nat | j < k + 1 ensures TurnAt(s, u, j) {
      TurnLater(s, t, u, k, j);
    }
  }

  lemma SameRoundAddsNothing(s: State, t: State, u: State, k: nat)
    requires SameTurns(s, t) && SameRound(s, t) && InTurn(t, u, k)
    ensures InTurn(s, u, k)
  {
    forall j: nat | j < k ensures TurnAt(s, u, j) {
      assert TurnAt(t, u, j);
      SameRecipient(s, t, s.round.number + j);
    }
  }

  /** Over every run that freezes who may receive, whatever else is called, the records
      added pay the recipients of the rounds in turn. */
  lemma {:induction false} RunInTurn(s: State, run: Run)
    requires Frozen(s, run)
    ensures var u := Exec(s, run);
            u.round.number >= s.round.number && InTurn(s, u, u.round.number - s.round.number)
    decreases |run|
  {
    if run != [] {
      var t, u := Next(s, run[0].0, run[0].1), Exec(s, run);
      StepTurn(s, run[0].0, run[0].1);
      RunInTurn(t, run[1..]);
      if PaysTurn(s, t) {
        TurnsAddUp(s, t, u, u.round.number - t.round.number);
      } else {
        SameRoundAddsNothing(s, t, u, u.round.number - t.round.number);
      }
    }
  }

  /** The positions among `records` that pay `m`. */
  ghost function Paying(records: seq<PayoutRecord>, m: Address): set<nat> {
    set j: nat | j < |records| && records[j].recipient == m
  }

  lemma PaidOnRecord(s: State, u: State, m: Address)
    requires InTurn(s, u, |s.group.order|)
    ensures Paying(u.history[|s.history|..], m) == RoundsPaid(s.group, s.standing, s.round.number, m)
  {
    var records := u.history[|s.history|..];
    forall j: nat | j < |s.group.order|
      ensures records[j].recipient == m <==> Pays(s.group, s.standing, s.round.number, j, m)
    {
      assert TurnAt(s, u, j) && records[j] == u.history[|s.history| + j];
    }
  }

  /** Once a run has paid out as many rounds as there are places in the order, nobody having
      skipped one of them, and with the same members suspended or gone throughout: a member
      who may receive has been paid once for itself and once for each member passed over
      just before it; one who may not has not been paid. */
  lemma StandInsPaidAgain(s: State, run: Run, u: State, i: nat, gap: nat, m: Address)
    requires Frozen(s, run) && u == Exec(s, run) && u.round.number == s.round.number + |s.group.order|
    requires i < |s.group.order| && NoDup(s.group.order) && NoSkips(s.standing, s.round.number, |s.group.order|)
    requires m == s.group.order[i]
    ensures |s.history| <= |u.history| && u.history[..|s.history|] == s.history
    ensures !Eligible(s.group, s.standing, s.round.number, m) ==> Paying(u.history[|s.history|..], m) == {}
    ensures Eligible(s.group, s.standing, s.round.number, m) && PassedOver(s.group, s.standing, s.round.number, i, gap)
            ==> |Paying(u.history[|s.history|..], m)| == gap + 1
  {
    RunInTurn(s, run);
    PaidOnRecord(s, u, m);
    TurnsCounted(s.group, s.standing, s.round.number, i, gap);
  }
}
