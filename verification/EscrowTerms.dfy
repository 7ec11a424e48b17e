/**
 How an escrow comes about and how its terms change: what each creation records and takes,
 who may change what, and that a deadline moves only when both parties have signed.
 */
module EscrowTerms {
  import opened Common
  import opened Ledger
  import opened Sums
  import opened EscrowModel
  import opened EscrowSafety
  import opened EscrowCalls

  // --- One escrow ---

  /** Terms that the contract takes: one seller, or up to five whose parts make a whole. */
  ghost predicate Sound(s: State, e: Env, t: Terms) {
    && t.amount > 0 && t.deadline > e.now && t.token in s.allowed
    && (t.sellers == [] || (|t.sellers| <= 5 && SumSeq(BpsOf(t.sellers)) == 10_000))
  }

  /** The escrow those terms make. */
  function Opened(e: Env, buyer: Address, t: Terms): Escrow {
    var sellers := if t.sellers == [] then [(t.seller, 10_000)] else t.sellers;
    Escrow(buyer, sellers[0].0, t.arbiter, t.amount, t.token, Active, e.now, t.deadline, sellers, t.autoRenew,
           t.renewalCount, t.renewalCount, t.inactivity)
  }

  /** `u` is `s` with `x` opened under the next id and its deposit taken from its buyer. */
  ghost predicate Deposited(s: State, e: Env, x: Escrow, u: State) {
    && Moved(s.bal, u.bal, x.token, x.buyer, This, x.amount)
    && u == s.(bal := u.bal, journal := u.journal, counter := s.counter + 1, escrows := s.escrows[s.counter := x],
               lastBuyerAction := if x.inactivity > 0 then s.lastBuyerAction[s.counter := e.now]
                                  else s.lastBuyerAction)
  }

  lemma CoreCommits(s: State, e: Env, buyer: Address, t: Terms)
    ensures CreateCore(s, e, buyer, t).Some? <==> Sound(s, e, t) && Bal(s.bal, t.token, buyer) >= t.amount
  {
  }

  lemma CoreStages(s: State, e: Env, buyer: Address, t: Terms, u: State) returns (s1: State)
    requires CreateCore(s, e, buyer, t) == Some(u)
    ensures TakeDeposit(s, t.token, buyer, t.amount) == Some(s1) && u == Place(s1, Opened(e, buyer, t), e.now)
  {
    s1 := TakeDeposit(s, t.token, buyer, t.amount).value;
  }

  lemma CoreDoes(s: State, e: Env, buyer: Address, t: Terms, u: State)
    requires CreateCore(s, e, buyer, t) == Some(u)
    ensures Deposited(s, e, Opened(e, buyer, t), u)
  {
    var s1 := CoreStages(s, e, buyer, t, u);
    DepositPlaced(s, s1, e, Opened(e, buyer, t), u);
  }

  lemma DepositPlaced(s: State, s1: State, e: Env, x: Escrow, u: State)
    requires TakeDeposit(s, x.token, x.buyer, x.amount) == Some(s1) && u == Place(s1, x, e.now)
    ensures Deposited(s, e, x, u)
  {
  }

  lemma CreateExact(s: State, e: Env, buyer: Address, t: Terms)
    ensures Step(s, e, CreateEscrowCall(buyer, t)).Some?
            <==> !s.paused && Signed(e, buyer) && Sound(s, e, t) && Bal(s.bal, t.token, buyer) >= t.amount
    ensures Step(s, e, CreateEscrowCall(buyer, t)).Some? ==>
              Deposited(s, e, Opened(e, buyer, t), Step(s, e, CreateEscrowCall(buyer, t)).value)
  {
    CoreCommits(s, e, buyer, t);
    if CreateCore(s, e, buyer, t).Some? {
      CoreDoes(s, e, buyer, t, CreateCore(s, e, buyer, t).value);
    }
  }

  /** From a template: its arbiter and token, and a deadline its duration from now; the token
      need not be allowed any more. */
  lemma FromTemplateExact(s: State, e: Env, buyer: Address, seller: Address, template: nat, amount: int)
    ensures var c := CreateFromTemplateCall(buyer, seller, template, amount);
            && (Step(s, e, c).Some?
                <==> !s.paused && Signed(e, buyer) && template in s.templates && s.templates[template].active
                     && 0 < amount <= Bal(s.bal, s.templates[template].token, buyer))
            && (Step(s, e, c).Some? ==>
                  var t := s.templates[template];
                  Deposited(s, e, Escrow(buyer, seller, t.arbiter, amount, t.token, Active, e.now, e.now + t.duration,
                                         [(seller, 10_000)], false, 0, 0, 0), Step(s, e, c).value))
  {
  }

  /** From the pool: the arbiter whose turn it is, and the turn passes on. */
  lemma WithPoolExact(s: State, e: Env, buyer: Address, seller: Address, amount: int, token: Address, deadline: nat)
    ensures var c := CreateWithPoolCall(buyer, seller, amount, token, deadline);
            && (Step(s, e, c).Some?
                <==> !s.paused && Signed(e, buyer) && deadline > e.now && token in s.allowed && s.pool != []
                     && 0 < amount <= Bal(s.bal, token, buyer))
            && (Step(s, e, c).Some? ==>
                  var n := |s.pool|;
                  Deposited(s.(nextArbiter := (s.nextArbiter + 1) % n), e,
                            Escrow(buyer, seller, s.pool[s.nextArbiter % n], amount, token, Active, e.now, deadline,
                                   [(seller, 10_000)], false, 0, 0, 0), Step(s, e, c).value))
  {
  }

  // --- A batch ---

  /** What a batch takes of `token`. */
  ghost function Asked(batch: seq<Terms>, token: Address): int {
    if batch == [] then 0
    else
      var last := batch[|batch| - 1];
      Asked(batch[..|batch| - 1], token) + if last.token == token then last.amount else 0
  }

  /** The terms are sound, and the buyer has enough of each of their tokens. */
  ghost predicate Affordable(s: State, e: Env, buyer: Address, batch: seq<Terms>) {
    forall i :: 0 <= i < |batch| ==>
                  Sound(s, e, batch[i]) && Bal(s.bal, batch[i].token, buyer) >= Asked(batch, batch[i].token)
  }

  /** The escrows a batch makes; an entry has no inactivity window. */
  function Made(e: Env, buyer: Address, batch: seq<Terms>): seq<Escrow> {
    seq(|batch|, i requires 0 <= i < |batch| => Opened(e, buyer, batch[i].(inactivity := 0)))
  }

  /** `u` is `s` with the batch opened. */
  ghost predicate AllOpened(s: State, e: Env, buyer: Address, batch: seq<Terms>, u: State) {
    && u == s.(bal := u.bal, journal := u.journal, counter := s.counter + |batch|, escrows := u.escrows)
    && OnRecord(s.escrows, u.escrows, s.counter, Made(e, buyer, batch))
  }

  lemma LastOfBatch(s: State, e: Env, buyer: Address, batch: seq<Terms>, u: State) returns (t: State, x: Escrow)
    requires batch != [] && CreateAll(s, e, buyer, batch) == Some(u)
    ensures CreateAll(s, e, buyer, batch[..|batch| - 1]) == Some(t)
    ensures x == Opened(e, buyer, batch[|batch| - 1].(inactivity := 0)) && Deposited(t, e, x, u)
  {
    var last := batch[|batch| - 1].(inactivity := 0);
    t, x := CreateAll(s, e, buyer, batch[..|batch| - 1]).value, Opened(e, buyer, last);
    CoreDoes(t, e, buyer, last, u);
  }

  lemma OneMoreOpened(s: State, e: Env, buyer: Address, batch: seq<Terms>, k: nat, t: State, x: Escrow, u: State)
    requires |batch| == k + 1 && AllOpened(s, e, buyer, batch[..k], t) && Deposited(t, e, x, u)
    requires x == Opened(e, buyer, batch[k].(inactivity := 0))
    ensures AllOpened(s, e, buyer, batch, u)
  {
    OneMoreOnRecord(s.escrows, t.escrows, s.counter, Made(e, buyer, batch[..k]), x);
    assert Made(e, buyer, batch) == Made(e, buyer, batch[..k]) + [x];
  }

  lemma {:induction false} BatchOpens(s: State, e: Env, buyer: Address, batch: seq<Terms>, u: State)
    requires CreateAll(s, e, buyer, batch) == Some(u)
    ensures AllOpened(s, e, buyer, batch, u)
  {
    if batch != [] {
      var n := |batch| - 1;
      var t, x := LastOfBatch(s, e, buyer, batch, u);
      BatchOpens(s, e, buyer, batch[..n], t);
      OneMoreOpened(s, e, buyer, batch, n, t, x, u);
    }
  }

  lemma DepositTakes(t: State, e: Env, x: Escrow, u: State, token: Address, a: Address)
    requires Deposited(t, e, x, u)
    ensures u.allowed == t.allowed
    ensures Bal(u.bal, token, a)
            == Bal(t.bal, token, a)
               + if token == x.token
                 then (if a == This then x.amount else 0) - (if a == x.buyer then x.amount else 0) else 0
  {
  }

  lemma {:induction false} BatchTakes(s: State, e: Env, buyer: Address, batch: seq<Terms>, u: State, token: Address,
                                      a: Address)
    requires CreateAll(s, e, buyer, batch) == Some(u)
    ensures u.allowed == s.allowed
    ensures Bal(u.bal, token, a)
            == Bal(s.bal, token, a) + (if a == This then Asked(batch, token) else 0)
               - (if a == buyer then Asked(batch, token) else 0)
  {
    if batch != [] {
      var t, x := LastOfBatch(s, e, buyer, batch, u);
      BatchTakes(s, e, buyer, batch[..|batch| - 1], t, token, a);
      DepositTakes(t, e, x, u, token, a);
    }
  }

  lemma {:induction false} AskedGrows(batch: seq<Terms>, n: nat, token: Address)
    requires n <= |batch| && forall i :: 0 <= i < |batch| ==> batch[i].amount > 0
    ensures Asked(batch[..n], token) <= Asked(batch, token)
    decreases |batch|
  {
    var m := |batch| - 1;
    if n <= m {
      assert batch[..m][..n] == batch[..n];
      AskedGrows(batch[..m], n, token);
    } else {
      assert batch[..n] == batch;
    }
  }

  lemma SoundAlike(s: State, t: State, e: Env, x: Terms)
    requires t.allowed == s.allowed
    ensures Sound(t, e, x.(inactivity := 0)) <==> Sound(s, e, x)
  {
  }

  /** The last of a batch commits if it is sound and the buyer has enough for all in its token. */
  lemma LastCommits(s: State, e: Env, buyer: Address, batch: seq<Terms>, t: State)
    requires batch != [] && buyer != This && CreateAll(s, e, buyer, batch[..|batch| - 1]) == Some(t)
    ensures var last := batch[|batch| - 1];
            CreateAll(s, e, buyer, batch).Some?
            <==> Sound(s, e, last) && Bal(s.bal, last.token, buyer) >= Asked(batch, last.token)
  {
    var last := batch[|batch| - 1];
    BatchTakes(s, e, buyer, batch[..|batch| - 1], t, last.token, buyer);
    SoundAlike(s, t, e, last);
    CoreCommits(t, e, buyer, last.(inactivity := 0));
  }

  lemma OneMoreAffordable(s: State, e: Env, buyer: Address, batch: seq<Terms>, n: nat)
    requires |batch| == n + 1 && Sound(s, e, batch[n])
    requires Bal(s.bal, batch[n].token, buyer) >= Asked(batch, batch[n].token)
    requires Affordable(s, e, buyer, batch[..n])
    ensures Affordable(s, e, buyer, batch)
  {
    forall i | 0 <= i < n
      ensures Sound(s, e, batch[i]) && Bal(s.bal, batch[i].token, buyer) >= Asked(batch, batch[i].token)
    {
      assert batch[..n][i] == batch[i];
    }
  }

  lemma {:induction false} BatchAffordable(s: State, e: Env, buyer: Address, batch: seq<Terms>)
    requires buyer != This && CreateAll(s, e, buyer, batch).Some?
    ensures Affordable(s, e, buyer, batch)
  {
    if batch != [] {
      var n := |batch| - 1;
      LastCommits(s, e, buyer, batch, CreateAll(s, e, buyer, batch[..n]).value);
      BatchAffordable(s, e, buyer, batch[..n]);
      OneMoreAffordable(s, e, buyer, batch, n);
    }
  }

  lemma {:induction false} AffordableBatch(s: State, e: Env, buyer: Address, batch: seq<Terms>)
    requires buyer != This && Affordable(s, e, buyer, batch)
    ensures CreateAll(s, e, buyer, batch).Some?
  {
    if batch != [] {
      var n := |batch| - 1;
      forall i | 0 <= i < n
        ensures Sound(s, e, batch[..n][i])
                && Bal(s.bal, batch[..n][i].token, buyer) >= Asked(batch[..n], batch[..n][i].token)
      {
        AskedGrows(batch, n, batch[i].token);
      }
      AffordableBatch(s, e, buyer, batch[..n]);
      LastCommits(s, e, buyer, batch, CreateAll(s, e, buyer, batch[..n]).value);
    }
  }

  /** A batch of one to ten commits exactly when all its terms are sound and the buyer has
      enough, token by token, for all of it; then every escrow is as its terms say. */
  lemma BatchExact(s: State, e: Env, buyer: Address, batch: seq<Terms>, token: Address, a: Address)
    ensures Step(s, e, CreateBatchCall(buyer, batch)).Some?
            <==> !s.paused && Signed(e, buyer) && 1 <= |batch| <= 10 && Affordable(s, e, buyer, batch)
    ensures Step(s, e, CreateBatchCall(buyer, batch)).Some? ==>
              var u := Step(s, e, CreateBatchCall(buyer, batch)).value;
              && AllOpened(s, e, buyer, batch, u)
              && Bal(u.bal, token, a)
              == Bal(s.bal, token, a) + (if a == This then Asked(batch, token) else 0)
                 - (if a == buyer then Asked(batch, token) else 0)
  {
    if Signed(e, buyer) && CreateAll(s, e, buyer, batch).Some? {
      BatchAffordable(s, e, buyer, batch);
      BatchOpens(s, e, buyer, batch, CreateAll(s, e, buyer, batch).value);
      BatchTakes(s, e, buyer, batch, CreateAll(s, e, buyer, batch).value, token, a);
    } else if Signed(e, buyer) && Affordable(s, e, buyer, batch) {
      AffordableBatch(s, e, buyer, batch);
    }
  }

  // --- Changes of the terms ---

  predicate IsAmendment(c: Call) {
    c.SetRenewalAllowanceCall? || c.CancelAutoRenewCall? || c.ProposeDeadlineCall? || c.AcceptDeadlineCall?
    || c.TransferBuyerCall? || c.SubmitEvidenceCall?
  }

  predicate IsParty(x: Escrow, a: Address) {
    a == x.buyer || a == x.seller
  }

  /** Who may change the terms, and when. Deadlines can be changed while the contract is paused. */
  predicate MayAmend(s: State, e: Env, c: Call)
    requires IsAmendment(c)
  {
    c.id in s.escrows &&
    var x := s.escrows[c.id];
    match c
    case SetRenewalAllowanceCall(buyer, id, renewals) =>
      !s.paused && Signed(e, buyer) && buyer == x.buyer && x.autoRenew
    case CancelAutoRenewCall(buyer, id) => !s.paused && Signed(e, buyer) && buyer == x.buyer
    case ProposeDeadlineCall(caller, id, later) =>
      Signed(e, caller) && IsParty(x, caller) && (Open(x) || x.status == PartiallyDisputed) && later > x.deadline
    case AcceptDeadlineCall(caller, id) =>
      Signed(e, caller) && IsParty(x, caller) && (Open(x) || x.status == PartiallyDisputed)
      && id in s.proposals && caller != s.proposals[id].proposer && s.proposals[id].newDeadline > x.deadline
      && e.now <= s.proposals[id].proposedAt + 86_400
    case TransferBuyerCall(buyer, id, heir) =>
      !s.paused && Signed(e, buyer) && buyer == x.buyer && buyer != heir && x.status == Active
    case SubmitEvidenceCall(party, id) => !s.paused && Signed(e, party) && IsParty(x, party)
  }

  /** The change made, and nothing else. */
  ghost predicate Amended(s: State, e: Env, c: Call, u: State)
    requires IsAmendment(c) && c.id in s.escrows
  {
    var x := s.escrows[c.id];
    match c
    case SetRenewalAllowanceCall(buyer, id, renewals) =>
      && u == s.(approvals := u.approvals, renewalAllowance := s.renewalAllowance[id := renewals])
      && forall t, a :: Bal(u.approvals, t, a)
                        == if t == x.token && a == buyer then x.amount * renewals else Bal(s.approvals, t, a)
    case CancelAutoRenewCall(buyer, id) =>
      u == s.(escrows := s.escrows[id := x.(autoRenew := false, renewalsRemaining := 0)],
              renewalAllowance := s.renewalAllowance - {id})
    case ProposeDeadlineCall(caller, id, later) =>
      u == s.(proposals := s.proposals[id := Proposal(caller, later, e.now)])
    case AcceptDeadlineCall(caller, id) =>
      id in s.proposals && u == s.(escrows := s.escrows[id := x.(deadline := s.proposals[id].newDeadline)],
                                   proposals := s.proposals - {id})
    case TransferBuyerCall(buyer, id, heir) => u == s.(escrows := s.escrows[id := x.(buyer := heir)])
    case SubmitEvidenceCall(party, id) =>
      u == s.(lastBuyerAction := if party == x.buyer && x.inactivity > 0 then s.lastBuyerAction[id := e.now]
                                 else s.lastBuyerAction)
  }

  lemma AmendmentsExact(s: State, e: Env, c: Call)
    requires IsAmendment(c) && !c.AcceptDeadlineCall? && !c.SetRenewalAllowanceCall?
    ensures Step(s, e, c).Some? <==> MayAmend(s, e, c)
    ensures Step(s, e, c).Some? ==> Amended(s, e, c, Step(s, e, c).value)
  {
  }

  lemma AcceptExact(s: State, e: Env, caller: Address, id: nat)
    ensures AcceptDeadline(s, e, caller, id).Some? <==> MayAmend(s, e, AcceptDeadlineCall(caller, id))
    ensures AcceptDeadline(s, e, caller, id).Some? ==>
              Amended(s, e, AcceptDeadlineCall(caller, id), AcceptDeadline(s, e, caller, id).value)
  {
  }

  lemma AllowanceExact(s: State, e: Env, buyer: Address, id: nat, renewals: nat)
    requires id in s.escrows ==> s.escrows[id].amount >= 0
    ensures SetRenewalAllowance(s, e, buyer, id, renewals).Some?
            <==> MayAmend(s, e, SetRenewalAllowanceCall(buyer, id, renewals))
    ensures SetRenewalAllowance(s, e, buyer, id, renewals).Some? ==>
              Amended(s, e, SetRenewalAllowanceCall(buyer, id, renewals),
                      SetRenewalAllowance(s, e, buyer, id, renewals).value)
  {
    if id in s.escrows {
      assert s.escrows[id].amount * renewals >= 0;
    }
  }

  /** In every reachable state the terms of an escrow change exactly when those who may change
      them have signed, and only in what they asked for. */
  lemma AmendExact(s0: State, before: Run, s: State, e: Env, c: Call)
    requires Initial(s0) && s == Exec(s0, before) && IsAmendment(c)
    ensures Step(s, e, c).Some? <==> MayAmend(s, e, c)
    ensures Step(s, e, c).Some? ==> Amended(s, e, c, Step(s, e, c).value)
  {
    InitialInv(s0);
    RunKeeps(s0, before);
    match c
    case SetRenewalAllowanceCall(buyer, id, renewals) =>
      if id in s.escrows {
        Covered(s, id);
      }
      AllowanceExact(s, e, buyer, id, renewals);
    case AcceptDeadlineCall(caller, id) => AcceptExact(s, e, caller, id);
    case _ => AmendmentsExact(s, e, c);
  }

  // --- Deadlines move by consent ---

  /** The proposal was made by a call of the run that its proposer signed. */
  ghost predicate ProposedIn(run: Run, id: nat, p: Proposal) {
    exists j :: 0 <= j < |run| && ProposedAt(run[j], id, p)
  }

  predicate ProposedAt(step: (Env, Call), id: nat, p: Proposal) {
    && step.1 == ProposeDeadlineCall(p.proposer, id, p.newDeadline)
    && step.0.now == p.proposedAt && Signed(step.0, p.proposer)
  }

  /** The proposals and the deadline of escrow `id` are as they were. */
  ghost predicate SameDeadline(s: State, u: State, id: nat) {
    && u.proposals == s.proposals
    && (id in s.escrows ==> id in u.escrows && u.escrows[id].deadline == s.escrows[id].deadline)
  }

  lemma PaymentSameDeadline(s: State, e: Env, c: Call, u: State, id: nat)
    requires IsPayment(c) && RecordsPayment(s, e, c, u)
    ensures SameDeadline(s, u, id)
  {
  }

  lemma ReleaseSameDeadline(s: State, e: Env, caller: Address, released: nat, u: State, id: nat)
    requires Release(s, e, caller, released) == Some(u) && s.counter !in s.escrows
    requires WellFormed(s.escrows[released]) && Splits(s.escrows[released])
    ensures SameDeadline(s, u, id)
  {
    ReleaseRecords(s, e, caller, released, u);
  }

  lemma CreationSameDeadline(s: State, e: Env, c: Call, u: State, id: nat)
    requires Step(s, e, c) == Some(u) && forall k: nat :: k in s.escrows ==> k < s.counter
    requires c.CreateEscrowCall? || c.CreateBatchCall? || c.CreateFromTemplateCall? || c.CreateWithPoolCall?
    ensures SameDeadline(s, u, id)
  {
    if c.CreateBatchCall? {
      BatchOpens(s, e, c.buyer, c.batch, u);
    }
  }

  lemma OtherSameDeadline(s: State, e: Env, c: Call, u: State, id: nat)
    requires Step(s, e, c) == Some(u)
    requires c.AddArbiterCall? || c.RemoveArbiterCall? || c.UpdateFeeCall? || c.AdministerCall? || c.OutsideCall?
    ensures SameDeadline(s, u, id)
  {
  }

  lemma AmendmentSameDeadline(s: State, e: Env, c: Call, u: State, id: nat)
    requires IsAmendment(c) && !c.ProposeDeadlineCall? && !c.AcceptDeadlineCall? && Step(s, e, c) == Some(u)
    ensures SameDeadline(s, u, id)
  {
  }

  lemma StepSameDeadline(s: State, e: Env, c: Call, id: nat)
    requires Inv(s) && !c.ProposeDeadlineCall? && !c.AcceptDeadlineCall?
    ensures SameDeadline(s, Next(s, e, c), id)
  {
    if Step(s, e, c).Some? {
      var u := Step(s, e, c).value;
      if IsPayment(c) {
        PaymentDoes(s, e, c, u, This, This);
        PaymentSameDeadline(s, e, c, u, id);
      } else if c.ReleaseCall? {
        ReleaseSameDeadline(s, e, c.caller, c.id, u, id);
      } else if IsAmendment(c) {
        AmendmentSameDeadline(s, e, c, u, id);
      } else if c.CreateEscrowCall? || c.CreateBatchCall? || c.CreateFromTemplateCall? || c.CreateWithPoolCall? {
        CreationSameDeadline(s, e, c, u, id);
      } else {
        OtherSameDeadline(s, e, c, u, id);
      }
    }
  }

  /** Every proposal on record was made in the run. */
  ghost predicate AllProposed(s: State, run: Run) {
    forall id :: id in s.proposals ==> ProposedIn(run, id, s.proposals[id])
  }

  lemma StepProposed(s: State, e: Env, c: Call, before: Run)
    requires Inv(s) && AllProposed(s, before)
    ensures AllProposed(Next(s, e, c), before + [(e, c)])
  {
    var u := Next(s, e, c);
    forall id | id in u.proposals ensures ProposedIn(before + [(e, c)], id, u.proposals[id]) {
      if id in s.proposals && s.proposals[id] == u.proposals[id] {
        var j :| 0 <= j < |before| && ProposedAt(before[j], id, s.proposals[id]);
        assert (before + [(e, c)])[j] == before[j];
      } else {
        NewlyProposed(s, e, c, id);
        assert ProposedAt((before + [(e, c)])[|before|], id, u.proposals[id]);
      }
    }
  }

  lemma NewlyProposed(s: State, e: Env, c: Call, id: nat)
    requires Inv(s) && id in Next(s, e, c).proposals
    requires !(id in s.proposals && s.proposals[id] == Next(s, e, c).proposals[id])
    ensures ProposedAt((e, c), id, Next(s, e, c).proposals[id])
  {
    if c.ProposeDeadlineCall? {
      AmendmentsExact(s, e, c);
    } else if c.AcceptDeadlineCall? {
      AcceptExact(s, e, c.caller, c.id);
    } else {
      StepSameDeadline(s, e, c, id);
    }
  }

  lemma {:induction false} ProposalsMade(s: State, before: Run, run: Run)
    requires Inv(s) && AllProposed(s, before)
    ensures Inv(Exec(s, run)) && AllProposed(Exec(s, run), before + run)
    decreases |run|
  {
    if run == [] {
      assert before + run == before;
    } else {
      StepKeeps(s, run[0].0, run[0].1);
      StepProposed(s, run[0].0, run[0].1, before);
      ProposalsMade(Next(s, run[0].0, run[0].1), before + [run[0]], run[1..]);
      assert before + run == before + [run[0]] + run[1..];
    }
  }

  /** `step` accepts what `asked`, an earlier call of the other party, proposed. */
  predicate Agreed(x: Escrow, id: nat, asked: (Env, Call), step: (Env, Call), deadline: nat) {
    && asked.1.ProposeDeadlineCall? && asked.1.id == id && asked.1.newDeadline == deadline
    && Signed(asked.0, asked.1.caller)
    && step.1.AcceptDeadlineCall? && step.1.id == id && IsParty(x, step.1.caller) && Signed(step.0, step.1.caller)
    && step.1.caller != asked.1.caller && step.0.now <= asked.0.now + 86_400 && deadline > x.deadline
  }

  lemma AcceptAgreed(s: State, run: Run, e: Env, c: Call, u: State, id: nat)
    requires c.AcceptDeadlineCall? && AllProposed(s, run) && u == Next(s, e, c) && id in s.escrows
    ensures id in u.escrows
    ensures u.escrows[id].deadline != s.escrows[id].deadline ==>
              exists j :: 0 <= j < |run| && Agreed(s.escrows[id], id, run[j], (e, c), u.escrows[id].deadline)
  {
    AcceptExact(s, e, c.caller, c.id);
    if Step(s, e, c).Some? && c.id == id {
      var p := s.proposals[id];
      var j :| 0 <= j < |run| && ProposedAt(run[j], id, p);
      assert Agreed(s.escrows[id], id, run[j], (e, c), u.escrows[id].deadline);
    }
  }

  /** In every run a deadline changes only by agreement: one party proposed the later deadline
      at most a day before, and the other accepts it. */
  lemma DeadlineByConsent(s0: State, run: Run, s: State, e: Env, c: Call, u: State, id: nat)
    requires Initial(s0) && s == Exec(s0, run) && u == Next(s, e, c) && id in s.escrows
    ensures id in u.escrows
    ensures u.escrows[id].deadline != s.escrows[id].deadline ==>
              exists j :: 0 <= j < |run| && Agreed(s.escrows[id], id, run[j], (e, c), u.escrows[id].deadline)
  {
    InitialInv(s0);
    ProposalsMade(s0, [], run);
    assert [] + run == run;
    if c.AcceptDeadlineCall? {
      AcceptAgreed(s, run, e, c, u, id);
    } else {
      NotAccepted(s, e, c, u, id);
    }
  }

  lemma NotAccepted(s: State, e: Env, c: Call, u: State, id: nat)
    requires Inv(s) && !c.AcceptDeadlineCall? && u == Next(s, e, c) && id in s.escrows
    ensures id in u.escrows && u.escrows[id].deadline == s.escrows[id].deadline
  {
    if c.ProposeDeadlineCall? {
      AmendmentsExact(s, e, c);
    } else {
      StepSameDeadline(s, e, c, id);
    }
  }

  // --- The pool and the fee ---

  /** Only the admin adds to the arbiter pool, nobody twice. */
  lemma AddArbiterExact(s: State, e: Env, admin: Address, arbiter: Address)
    ensures var u := Step(s, e, AddArbiterCall(admin, arbiter));
            && (u.Some? <==> Signed(e, admin) && s.admin == Some(admin) && arbiter !in s.pool)
            && (u.Some? ==> u.value == s.(pool := s.pool + [arbiter]))
  {
  }

  /** Only the admin takes an arbiter out; the others keep their order, and a turn that would
      lie beyond the end starts again. */
  lemma RemoveArbiterExact(s: State, e: Env, admin: Address, arbiter: Address)
    ensures var u := Step(s, e, RemoveArbiterCall(admin, arbiter));
            && (u.Some? <==> Signed(e, admin) && s.admin == Some(admin) && arbiter in s.pool)
            && (u.Some? ==>
                  && u.value == s.(pool := u.value.pool, nextArbiter := u.value.nextArbiter)
                  && TakenOut(s.pool, u.value.pool, arbiter)
                  && u.value.nextArbiter == if s.nextArbiter < |u.value.pool| then s.nextArbiter else 0)
  {
    WithoutTakesOut(s.pool, arbiter);
  }

  /** Only the admin sets the fee, to at most 2%. */
  lemma UpdateFeeExact(s: State, e: Env, admin: Address, feeBps: nat, recipient: Address)
    ensures var u := Step(s, e, UpdateFeeCall(admin, feeBps, recipient));
            && (u.Some? <==> Signed(e, admin) && s.admin == Some(admin) && feeBps <= 200)
            && (u.Some? ==> u.value == s.(feeBps := feeBps, feeRecipient := Some(recipient)))
  {
  }
}
