/**
 What every entry point of the escrow contract does to the contract's state
 (`contracts/ahjoor-escrow/src/lib.rs`). `None` is a call that traps.

 The journal is a history of the token movements the contract makes for each escrow;
 no entry point reads it.
 */
module EscrowModel {
  import opened Common
  import opened Ledger
  import opened Sums

  const MAX_BATCH := 10
  const MAX_SELLERS := 5
  const MAX_FEE := 200
  const PROPOSAL_WINDOW := 24 * 60 * 60

  datatype Status =
    | Active | Released | Disputed | Resolved | Refunded | PartiallyReleased | PartiallyDisputed

  predicate IsOpen(st: Status) {
    st == Active || st == PartiallyReleased
  }

  predicate IsDisputed(st: Status) {
    st == Disputed || st == PartiallyDisputed
  }

  predicate IsTerminal(st: Status) {
    st == Released || st == Resolved || st == Refunded
  }

  datatype Escrow = Escrow(
    buyer: Address,
    seller: Address,
    arbiter: Address,
    amount: int,
    token: Address,
    status: Status,
    createdAt: nat,
    deadline: nat,
    sellers: seq<(Address, nat)>,
    autoRenew: bool,
    renewalCount: nat,
    renewalsRemaining: nat,
    inactivity: nat)

  /** What a creator asks for; a batch entry has the same shape. */
  datatype Terms = Terms(
    seller: Address,
    arbiter: Address,
    amount: int,
    token: Address,
    deadline: nat,
    sellers: seq<(Address, nat)>,
    autoRenew: bool,
    renewalCount: nat,
    inactivity: nat)

  datatype Template = Template(arbiter: Address, token: Address, duration: nat, active: bool)

  datatype Proposal = Proposal(proposer: Address, newDeadline: nat, proposedAt: nat)

  datatype Kind = Deposit | ToSeller | ToBuyer | ToProtocol

  datatype Move = Move(id: nat, token: Address, kind: Kind, party: Address, amount: int)

  datatype State = State(
    admin: Option<Address>,
    paused: bool,
    allowed: set<Address>,
    templates: map<nat, Template>,
    feeBps: nat,
    feeRecipient: Option<Address>,
    counter: nat,
    escrows: map<nat, Escrow>,
    renewalAllowance: map<nat, nat>,
    lastBuyerAction: map<nat, nat>,
    proposals: map<nat, Proposal>,
    pool: seq<Address>,
    nextArbiter: nat,
    bal: Balances,
    approvals: Balances,   // by (token, owner): what the contract may pull from the owner
    journal: seq<Move>)

  // --- Token movements ---

  /** Pays `amount` out of the contract for escrow `id`. */
  function Pay(s: State, id: nat, token: Address, kind: Kind, to: Address, amount: int): Option<State> {
    var bal :- Transfer(s.bal, token, This, to, amount);
    Some(s.(bal := bal, journal := s.journal + [Move(id, token, kind, to, amount)]))
  }

  /** As `Pay`, when there is something to pay. */
  function PayPositive(s: State, id: nat, token: Address, kind: Kind, to: Address, amount: int): (r: Option<State>)
    ensures r.Some? ==> r.value == s.(bal := r.value.bal, journal := r.value.journal)
  {
    if amount > 0 then Pay(s, id, token, kind, to, amount) else Some(s)
  }

  /** Takes the deposit of the escrow about to be created. */
  function TakeDeposit(s: State, token: Address, from: Address, amount: int): Option<State> {
    var bal :- Transfer(s.bal, token, from, This, amount);
    Some(s.(bal := bal, journal := s.journal + [Move(s.counter, token, Deposit, from, amount)]))
  }

  /** Takes a deposit the owner has approved beforehand (`transfer_from`). */
  function PullDeposit(s: State, token: Address, from: Address, amount: int): Option<State> {
    if Bal(s.approvals, token, from) < amount then None
    else
      var s1 :- TakeDeposit(s, token, from, amount);
      Some(s1.(approvals := Add(s.approvals, token, from, -amount)))
  }

  // --- Creation ---

  ghost function ResolveSellers(seller: Address, sellers: seq<(Address, nat)>): Option<seq<(Address, nat)>> {
    if sellers == [] then Some([(seller, BPS)])
    else if |sellers| > MAX_SELLERS || SumSeq(BpsOf(sellers)) != BPS then None
    else Some(sellers)
  }

  /** Stores `x` under the next id. */
  function Place(s: State, x: Escrow, now: nat): State {
    s.(counter := s.counter + 1,
       escrows := s.escrows[s.counter := x],
       lastBuyerAction := if x.inactivity > 0 then s.lastBuyerAction[s.counter := now] else s.lastBuyerAction)
  }

  function FreshEscrow(e: Env, buyer: Address, t: Terms, sellers: seq<(Address, nat)>): Escrow
    requires sellers != []
  {
    Escrow(buyer, sellers[0].0, t.arbiter, t.amount, t.token, Active, e.now, t.deadline, sellers,
           t.autoRenew, t.renewalCount, t.renewalCount, t.inactivity)
  }

  ghost function CreateCore(s: State, e: Env, buyer: Address, t: Terms): Option<State> {
    if t.amount <= 0 || t.deadline <= e.now || t.token !in s.allowed then None
    else
      var sellers :- ResolveSellers(t.seller, t.sellers);
      var s1 :- TakeDeposit(s, t.token, buyer, t.amount);
      Some(Place(s1, FreshEscrow(e, buyer, t, sellers), e.now))
  }

  ghost function CreateEscrow(s: State, e: Env, buyer: Address, t: Terms): Option<State> {
    if s.paused || !e.Authorised(buyer) then None else CreateCore(s, e, buyer, t)
  }

  ghost function CreateAll(s: State, e: Env, buyer: Address, batch: seq<Terms>): Option<State> {
    if batch == [] then Some(s)
    else
      var s1 :- CreateAll(s, e, buyer, batch[..|batch| - 1]);
      CreateCore(s1, e, buyer, batch[|batch| - 1].(inactivity := 0))
  }

  ghost function CreateBatch(s: State, e: Env, buyer: Address, batch: seq<Terms>): Option<State> {
    if s.paused || !e.Authorised(buyer) || batch == [] || |batch| > MAX_BATCH then None
    else CreateAll(s, e, buyer, batch)
  }

  /** A single-seller escrow that does not renew, as templates and the pool create it. */
  function PlainTerms(seller: Address, arbiter: Address, amount: int, token: Address, deadline: nat): Terms {
    Terms(seller, arbiter, amount, token, deadline, [], false, 0, 0)
  }

  ghost function CreateFromTemplate(s: State, e: Env, buyer: Address, seller: Address, template: nat, amount: int)
    : Option<State>
  {
    if s.paused || !e.Authorised(buyer) || template !in s.templates then None
    else
      var t := s.templates[template];
      if !t.active || amount <= 0 then None
      else
        var s1 :- TakeDeposit(s, t.token, buyer, amount);
        var terms := PlainTerms(seller, t.arbiter, amount, t.token, e.now + t.duration);
        Some(Place(s1, FreshEscrow(e, buyer, terms, [(seller, BPS)]), e.now))
  }

  ghost function CreateWithPool(s: State, e: Env, buyer: Address, seller: Address, amount: int, token: Address,
                                deadline: nat)
    : Option<State>
  {
    if s.paused || !e.Authorised(buyer) || amount <= 0 || deadline <= e.now || token !in s.allowed || s.pool == []
    then None
    else
      var arbiter := s.pool[s.nextArbiter % |s.pool|];
      var s1 := s.(nextArbiter := (s.nextArbiter + 1) % |s.pool|);
      var s2 :- TakeDeposit(s1, token, buyer, amount);
      var terms := PlainTerms(seller, arbiter, amount, token, deadline);
      Some(Place(s2, FreshEscrow(e, buyer, terms, [(seller, BPS)]), e.now))
  }

  // --- Release and renewal ---

  function TouchBuyer(s: State, e: Env, caller: Address, id: nat): (r: State)
    requires id in s.escrows
    ensures r == s.(lastBuyerAction := r.lastBuyerAction)
  {
    if caller == s.escrows[id].buyer && s.escrows[id].inactivity > 0
    then s.(lastBuyerAction := s.lastBuyerAction[id := e.now])
    else s
  }

  /** The shares of the sellers at positions `1..k`. */
  ghost function Distributed(total: int, sellers: seq<(Address, nat)>, k: nat): int
    requires 1 <= k <= |sellers|
  {
    if k == 1 then 0 else Distributed(total, sellers, k - 1) + Share(total, sellers[k - 1].1)
  }

  ghost function PayOthers(s: State, id: nat, x: Escrow, k: nat): Option<State>
    requires 1 <= k <= |x.sellers|
  {
    if k == 1 then Some(s)
    else
      var s1 :- PayOthers(s, id, x, k - 1);
      PayPositive(s1, id, x.token, ToSeller, x.sellers[k - 1].0, Share(x.amount, x.sellers[k - 1].1))
  }

  /** Pays the whole amount to the seller, or to the sellers in proportion with the
      rounding remainder going to the first. */
  ghost function PaySellers(s: State, id: nat, x: Escrow): Option<State> {
    if |x.sellers| <= 1 then Pay(s, id, x.token, ToSeller, x.seller, x.amount)
    else
      var s1 :- PayOthers(s, id, x, |x.sellers|);
      PayPositive(s1, id, x.token, ToSeller, x.sellers[0].0,
                  x.amount - Distributed(x.amount, x.sellers, |x.sellers|))
  }

  predicate WantsRenewal(x: Escrow) {
    x.autoRenew && !(x.renewalCount != 0 && x.renewalsRemaining == 0)
  }

  function Successor(x: Escrow, now: nat): Escrow
    requires WantsRenewal(x)
  {
    x.(status := Active,
       createdAt := now,
       deadline := now + SaturatingSub(x.deadline, x.createdAt),
       renewalsRemaining := if x.renewalCount == 0 then 0 else x.renewalsRemaining - 1)
  }

  ghost function TryRenew(s: State, e: Env, source: nat, x: Escrow): Option<State> {
    if !WantsRenewal(x) then Some(s)
    else
      var allowance := if source in s.renewalAllowance then s.renewalAllowance[source] else 0;
      if allowance == 0 || SaturatingSub(x.deadline, x.createdAt) == 0 then None
      else
        var s1 :- PullDeposit(s, x.token, x.buyer, x.amount);
        var s2 := Place(s1, Successor(x, e.now), e.now);
        Some(s2.(renewalAllowance := s2.renewalAllowance[s.counter := allowance - 1]))
  }

  /** The escrow paid out and marked released, before any renewal. */
  ghost function ReleaseFunds(s: State, e: Env, caller: Address, id: nat): (r: Option<State>)
    ensures r.Some? ==> id in s.escrows
  {
    if s.paused || !e.Authorised(caller) || id !in s.escrows then None
    else
      var x := s.escrows[id];
      if !IsOpen(x.status) || (caller != x.buyer && caller != x.arbiter) then None
      else
        var s1 :- PaySellers(TouchBuyer(s, e, caller, id), id, x);
        Some(s1.(escrows := s1.escrows[id := x.(status := Released)]))
  }

  ghost function Release(s: State, e: Env, caller: Address, id: nat): Option<State> {
    var s1 :- ReleaseFunds(s, e, caller, id);
    TryRenew(s1, e, id, s.escrows[id])
  }

  ghost function SetRenewalAllowance(s: State, e: Env, buyer: Address, id: nat, renewals: nat): Option<State> {
    if s.paused || !e.Authorised(buyer) || id !in s.escrows then None
    else
      var x := s.escrows[id];
      if buyer != x.buyer || !x.autoRenew || x.amount * renewals < 0 then None
      else Some(s.(approvals := SetBal(s.approvals, x.token, buyer, x.amount * renewals),
                   renewalAllowance := s.renewalAllowance[id := renewals]))
  }

  ghost function CancelAutoRenew(s: State, e: Env, buyer: Address, id: nat): Option<State> {
    if s.paused || !e.Authorised(buyer) || id !in s.escrows || buyer != s.escrows[id].buyer then None
    else Some(s.(escrows := s.escrows[id := s.escrows[id].(autoRenew := false, renewalsRemaining := 0)],
                 renewalAllowance := s.renewalAllowance - {id}))
  }

  ghost function PartialRelease(s: State, e: Env, caller: Address, id: nat, amount: int): Option<State> {
    if s.paused || !e.Authorised(caller) || id !in s.escrows then None
    else
      var x := s.escrows[id];
      if !IsOpen(x.status) || (caller != x.buyer && caller != x.arbiter) || amount <= 0 || amount > x.amount then None
      else
        var s1 :- Pay(s, id, x.token, ToSeller, x.seller, amount);
        var left := x.amount - amount;
        Some(s1.(escrows := s1.escrows[id := x.(amount := left,
                                                status := if left == 0 then Released else PartiallyReleased)]))
  }

  // --- Disputes ---

  ghost function Dispute(s: State, e: Env, caller: Address, id: nat, disputed: int): Option<State> {
    if s.paused || !e.Authorised(caller) || id !in s.escrows then None
    else
      var x := s.escrows[id];
      if !IsOpen(x.status) || (caller != x.buyer && caller != x.seller) || disputed <= 0 || disputed > x.amount
      then None
      else Freeze(TouchBuyer(s, e, caller, id), id, x, disputed)
  }

  /** Releases what is not disputed to the seller and freezes the rest. */
  function Freeze(s: State, id: nat, x: Escrow, disputed: int): Option<State> {
    var released := x.amount - disputed;
    var s2 :- PayPositive(s, id, x.token, ToSeller, x.seller, released);
    Some(s2.(escrows := s2.escrows[id := x.(amount := disputed,
                                             status := if released > 0 then PartiallyDisputed else Disputed)]))
  }

  /** The protocol fee of a resolution; a fee nobody is set to receive traps. */
  function PayFee(s: State, id: nat, token: Address, fee: int): Option<State> {
    if fee <= 0 then Some(s)
    else if s.feeRecipient.None? then None
    else Pay(s, id, token, ToProtocol, s.feeRecipient.value, fee)
  }

  function Award(s: State, id: nat, x: Escrow, amount: int, toSeller: bool): Option<State> {
    if toSeller then Pay(s, id, x.token, ToSeller, x.seller, amount)
    else Pay(s, id, x.token, ToBuyer, x.buyer, amount)
  }

  function Settlement(s: State, id: nat, x: Escrow, fee: int, toSeller: bool): Option<State> {
    var s1 :- PayFee(s, id, x.token, fee);
    var s2 :- Award(s1, id, x, x.amount - fee, toSeller);
    Some(s2.(escrows := s2.escrows[id := x.(status := if toSeller then Released else Refunded)]))
  }

  ghost function Resolve(s: State, e: Env, arbiter: Address, id: nat, toSeller: bool): Option<State> {
    if s.paused || !e.Authorised(arbiter) || id !in s.escrows then None
    else
      var x := s.escrows[id];
      if !IsDisputed(x.status) || arbiter != x.arbiter then None
      else Settlement(s, id, x, Share(x.amount, s.feeBps), toSeller)
  }

  // --- Time-based exits ---

  ghost function AutoReleaseExpired(s: State, e: Env, id: nat): Option<State> {
    if s.paused || id !in s.escrows then None
    else
      var x := s.escrows[id];
      if !IsOpen(x.status) || e.now <= x.deadline || !e.Authorised(x.buyer) then None
      else
        var s1 :- Pay(s, id, x.token, ToBuyer, x.buyer, x.amount);
        Some(s1.(escrows := s1.escrows[id := x.(status := Refunded)]))
  }

  ghost function ClaimInactivity(s: State, e: Env, seller: Address, id: nat): Option<State> {
    if s.paused || !e.Authorised(seller) || id !in s.escrows then None
    else
      var x := s.escrows[id];
      var last := if id in s.lastBuyerAction then s.lastBuyerAction[id] else x.createdAt;
      if x.inactivity == 0 || !IsOpen(x.status) || seller != x.seller || SaturatingSub(e.now, last) < x.inactivity
      then None
      else
        var s1 :- Pay(s, id, x.token, ToSeller, x.seller, x.amount);
        Some(s1.(escrows := s1.escrows[id := x.(status := Released)]))
  }

  // --- Roles and deadlines ---

  ghost function ProposeDeadline(s: State, e: Env, caller: Address, id: nat, deadline: nat): Option<State> {
    if !e.Authorised(caller) || id !in s.escrows then None
    else
      var x := s.escrows[id];
      if (caller != x.buyer && caller != x.seller) || x.status == Disputed || IsTerminal(x.status)
         || deadline <= x.deadline
      then None
      else Some(s.(proposals := s.proposals[id := Proposal(caller, deadline, e.now)]))
  }

  ghost function AcceptDeadline(s: State, e: Env, caller: Address, id: nat): Option<State> {
    if !e.Authorised(caller) || id !in s.escrows || id !in s.proposals then None
    else
      var x, p := s.escrows[id], s.proposals[id];
      if (caller != x.buyer && caller != x.seller) || x.status == Disputed || IsTerminal(x.status)
         || caller == p.proposer || e.now > p.proposedAt + PROPOSAL_WINDOW || p.newDeadline <= x.deadline
      then None
      else Some(s.(escrows := s.escrows[id := x.(deadline := p.newDeadline)], proposals := s.proposals - {id}))
  }

  ghost function TransferBuyer(s: State, e: Env, buyer: Address, id: nat, newBuyer: Address): Option<State> {
    if s.paused || !e.Authorised(buyer) || buyer == newBuyer || id !in s.escrows
       || s.escrows[id].status != Active || s.escrows[id].buyer != buyer
    then None
    else Some(s.(escrows := s.escrows[id := s.escrows[id].(buyer := newBuyer)]))
  }

  // --- Administration ---

  predicate IsAdmin(s: State, e: Env, admin: Address) {
    e.Authorised(admin) && s.admin == Some(admin)
  }

  ghost function AddArbiter(s: State, e: Env, admin: Address, arbiter: Address): Option<State> {
    if !IsAdmin(s, e, admin) || arbiter in s.pool then None
    else Some(s.(pool := s.pool + [arbiter]))
  }

  ghost function RemoveArbiter(s: State, e: Env, admin: Address, arbiter: Address): Option<State> {
    if !IsAdmin(s, e, admin) || arbiter !in s.pool then None
    else
      var pool := Without(s.pool, arbiter);
      Some(s.(pool := pool, nextArbiter := if s.nextArbiter >= |pool| then 0 else s.nextArbiter))
  }

  ghost function UpdateFee(s: State, e: Env, admin: Address, feeBps: nat, recipient: Address): Option<State> {
    if !IsAdmin(s, e, admin) || feeBps > MAX_FEE then None
    else Some(s.(feeBps := feeBps, feeRecipient := Some(recipient)))
  }

  // --- Runs ---

  /** `AdministerCall` stands for every change of the admin, the pause flag, the token
      allowlist and the templates, whatever the new values; `OutsideCall` for token
      activity of other parties, including approvals they give, spend or let lapse. */
  datatype Call =
    | CreateEscrowCall(buyer: Address, terms: Terms)
    | CreateBatchCall(buyer: Address, batch: seq<Terms>)
    | CreateFromTemplateCall(buyer: Address, seller: Address, template: nat, amount: int)
    | CreateWithPoolCall(buyer: Address, seller: Address, amount: int, token: Address, deadline: nat)
    | ReleaseCall(caller: Address, id: nat)
    | SetRenewalAllowanceCall(buyer: Address, id: nat, renewals: nat)
    | CancelAutoRenewCall(buyer: Address, id: nat)
    | PartialReleaseCall(caller: Address, id: nat, amount: int)
    | DisputeCall(caller: Address, id: nat, disputed: int)
    | ResolveCall(arbiter: Address, id: nat, toSeller: bool)
    | AutoReleaseExpiredCall(id: nat)
    | ClaimInactivityCall(seller: Address, id: nat)
    | ProposeDeadlineCall(caller: Address, id: nat, newDeadline: nat)
    | AcceptDeadlineCall(caller: Address, id: nat)
    | TransferBuyerCall(buyer: Address, id: nat, newBuyer: Address)
    | SubmitEvidenceCall(party: Address, id: nat)
    | AddArbiterCall(admin: Address, arbiter: Address)
    | RemoveArbiterCall(admin: Address, arbiter: Address)
    | UpdateFeeCall(admin: Address, feeBps: nat, recipient: Address)
    | AdministerCall(newAdmin: Option<Address>, paused: bool, allowed: set<Address>, templates: map<nat, Template>)
    | OutsideCall(bal: Balances, approvals: Balances)

  ghost function SubmitEvidence(s: State, e: Env, party: Address, id: nat): Option<State> {
    if s.paused || !e.Authorised(party) || id !in s.escrows
       || (party != s.escrows[id].buyer && party != s.escrows[id].seller)
    then None
    else Some(TouchBuyer(s, e, party, id))
  }

  ghost function Outside(s: State, bal: Balances, approvals: Balances): Option<State> {
    if OthersMoved(s.bal, bal) && forall t :: Bal(approvals, t, This) == Bal(s.approvals, t, This)
    then Some(s.(bal := bal, approvals := approvals))
    else None
  }

  ghost function Step(s: State, e: Env, c: Call): Option<State> {
    match c
    case CreateEscrowCall(buyer, terms) => CreateEscrow(s, e, buyer, terms)
    case CreateBatchCall(buyer, batch) => CreateBatch(s, e, buyer, batch)
    case CreateFromTemplateCall(buyer, seller, template, amount) =>
      CreateFromTemplate(s, e, buyer, seller, template, amount)
    case CreateWithPoolCall(buyer, seller, amount, token, deadline) =>
      CreateWithPool(s, e, buyer, seller, amount, token, deadline)
    case ReleaseCall(caller, id) => Release(s, e, caller, id)
    case SetRenewalAllowanceCall(buyer, id, renewals) => SetRenewalAllowance(s, e, buyer, id, renewals)
    case CancelAutoRenewCall(buyer, id) => CancelAutoRenew(s, e, buyer, id)
    case PartialReleaseCall(caller, id, amount) => PartialRelease(s, e, caller, id, amount)
    case DisputeCall(caller, id, disputed) => Dispute(s, e, caller, id, disputed)
    case ResolveCall(arbiter, id, toSeller) => Resolve(s, e, arbiter, id, toSeller)
    case AutoReleaseExpiredCall(id) => AutoReleaseExpired(s, e, id)
    case ClaimInactivityCall(seller, id) => ClaimInactivity(s, e, seller, id)
    case ProposeDeadlineCall(caller, id, deadline) => ProposeDeadline(s, e, caller, id, deadline)
    case AcceptDeadlineCall(caller, id) => AcceptDeadline(s, e, caller, id)
    case TransferBuyerCall(buyer, id, newBuyer) => TransferBuyer(s, e, buyer, id, newBuyer)
    case SubmitEvidenceCall(party, id) => SubmitEvidence(s, e, party, id)
    case AddArbiterCall(admin, arbiter) => AddArbiter(s, e, admin, arbiter)
    case RemoveArbiterCall(admin, arbiter) => RemoveArbiter(s, e, admin, arbiter)
    case UpdateFeeCall(admin, feeBps, recipient) => UpdateFee(s, e, admin, feeBps, recipient)
    case AdministerCall(admin, paused, allowed, templates) =>
      Some(s.(admin := admin, paused := paused, allowed := allowed, templates := templates))
    case OutsideCall(bal, approvals) => Outside(s, bal, approvals)
  }

  /** A call that traps leaves the state as it was. */
  ghost function Next(s: State, e: Env, c: Call): State {
    Step(s, e, c).GetOr(s)
  }

  /** The outcome of a call: it commits what the model says, or reports a trap and
      leaves everything as it was. */
  predicate Outcome(r: Option<State>, before: State, ok: bool, after: State) {
    ok == r.Some? && after == r.GetOr(before)
  }

  /** A run: calls in order, each with its environment. */
  type Run = seq<(Env, Call)>

  ghost function Exec(s: State, run: Run): State
    decreases |run|
  {
    if run == [] then s else Exec(Next(s, run[0].0, run[0].1), run[1..])
  }

  /** A contract just deployed, in a world where parties hold what they hold. */
  ghost predicate Initial(s: State) {
    && s.counter == 0 && s.escrows == map[] && s.journal == []
    && s.renewalAllowance == map[] && s.lastBuyerAction == map[] && s.proposals == map[]
    && s.pool == [] && s.nextArbiter == 0 && s.feeBps == 0 && s.feeRecipient == None
    && forall t :: Bal(s.bal, t, This) >= 0 && Bal(s.approvals, t, This) == 0
  }
}
