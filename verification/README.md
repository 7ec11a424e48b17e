# Ahjoor contracts: a verified model

Three Soroban contracts hold other people's money: `ahjoor-escrow` (goods against payment, with an
arbiter), `ahjoor-rosca` (a rotating savings group with governance) and `ahjoor-payments` (customer to
merchant, with fees, splits and settlement). This project models each as a state machine, proves what
its runs keep, and proves an object with the contract's own storage fields and loops against that model.

**How a contract is modelled.** `XModel` gives, for every entry point, a function from the state and the
call to the new state, or `None` when the call traps: overflow checks are on and a panic discards every
write and transfer, so a call commits whole or not at all. The host supplies ledger time, ledger sequence
and the signers (`Env`); the contract's own address, `This`, never signs. Tokens are balances per holder
whose transfer traps on a negative amount or insufficient funds (`Ledger`). A run is a sequence of calls,
each with its environment; `Exec` folds a state over it, a trapping call leaving the state as it was. Two
kinds of step are deliberately broader than the code: `AdministerCall` sets the remaining configuration to
anything at all, and `OutsideCall` lets other parties move tokens in any way that takes none from the
contract. So "in every run" quantifies over more runs of the calls modelled than the contracts have; an
entry point under "Left out" that pays tokens out, such as the refund of an approved exit, is in no run.

**Where the imperative code went.** `XContract` holds a class with the storage fields. Its methods load,
loop, write, transfer and roll back as the entry points do, and each is proved to end exactly where the
model function says, for commits and traps alike.

The modules that say exactly when a call commits and what it changes (`EscrowCalls`, `EscrowTerms`,
`RoscaCalls`, `RoscaBallots`, `RoscaPayouts`, `RoscaShares`, `RoscaProposals`, `PaymentsCalls`) speak of the
fields of state and call, without the model's entry points, and of reachable states wherever a balance or a
configured value is at stake.

**What is proved.**

- Escrow. `EscrowSafety`: solvency, the per-escrow ledger, finality, exact splits. `EscrowJournal`: who each
  call pays, and the ledger from an escrow's creation on. `EscrowSplits`: exactly when a split is honoured.
  `EscrowChains`: bounded renewals and a fair arbiter pool. `EscrowCalls`, `EscrowTerms`: exactly when each
  call commits and what it changes, deadlines by consent. `EscrowWitness`: a run that breaks a split.
- ROSCA. `RoscaMoney`: recipient selection, backing of pot and reward pool, what a payout pays. `RoscaPots`:
  what every pot of a run is worth. `RoscaRewards`: claims fit in the pool. `RoscaOverclaims`: exactly when
  they can outgrow it. `RoscaCycle`: a full cycle costs each member one fee. `RoscaTurns`: who is paid how
  often while members are passed over. `RoscaStanding`, `RoscaSchedule`, `RoscaGovernance`: exact suspension,
  pauses that preserve the contribution window, acyclic delegation and exact tallies. `RoscaPayouts`: who gets
  what of every token. `RoscaShares`: what a claim is worth. `RoscaProposals`: what a decision does.
  `RoscaCalls`, `RoscaBallots`: exactly when calls commit and what they change. `RoscaWitness`: runs in which a
  promise fails.
- Payments. `PaymentsSafety`: exact distribution, backing of what is owed and when it breaks, finality.
  `PaymentsFlows`: who receives which tokens, call by call and over runs. `PaymentsLedger`: the ledger of a
  payment in those tokens, and the bound on any shortfall. `PaymentsSchedule`: exactly when a scheduled
  payment is locked. `PaymentsKeys`: how long a retry is free. `PaymentsVolume`: four buckets against the full
  history, and the fee that history earns. `PaymentsLimits`: the rate limiter over any span. `PaymentsCalls`:
  exactly when calls commit and what they change, and completion before expiry, return after it.
  `PaymentsWitness`: runs in which a promise fails.

**Where the code differs from what it promises.** Where a lemma is named, it states the point exactly.

- A partial refund pays out but leaves the payment's amount as it was, so completing or returning it later
  pays it again (`PaymentsSafety.PartialRefundBacking`, `PaymentsWitness.PartialRefundCanBreak`).
- A payment taken in another token is owed in USDC that nobody has brought in
  (`PaymentsSafety.CrossTokenBacking`, `PaymentsWitness.CrossTokenCanBreak`). The merchant allowlist is not
  consulted on that path (`PaymentsSafety.AllowlistOnlyForUsdc`, `PaymentsWitness.UnlistedMerchantPaid`).
- A settlement checks every id before it marks any, so an id listed twice is paid twice
  (`PaymentsSafety.SettlementBacking`, `PaymentsWitness.DuplicateSettlementCanBreak`).
- Before the fourth weekly bucket the rolling volume counts bucket 0 more than once
  (`PaymentsVolume.RollingRefinesHistory`), and in bucket 0 the tier booked can differ from the rate
  charged (`PaymentsVolume.FirstBucketMayDiffer`, `PaymentsWitness.ChargedOneRateBookedAnother`).
- A scheduled payment that nobody executes between its due time and its expiry is locked: after that it is
  neither executed, cancelled, expired, disputed nor refunded (`PaymentsSchedule.LockedExactlyWhenMissed`,
  `PaymentsWitness.ScheduledAndForgotten`). One that falls due at its expiry or later has no such time at all
  (`PaymentsSchedule.LockedFromCreation`, `PaymentsWitness.ScheduledTooLate`).
- Only `release_escrow` pays the later sellers of a split; a partial release, the undisputed part of a
  dispute, a resolution and an inactivity claim pay the first seller alone (`EscrowSplits.SplitHonoured`,
  `EscrowWitness.SplitNotHonoured`).
- A reward claim does not lower the pool on record, so the next pot is short by what was claimed, and that
  pot makes it up again (`RoscaPots.ClaimsShortenPots`, `RoscaWitness.ClaimLeavesPotShort`); a proportional
  division can hand out more than the pool when participation grows after a claim
  (`RoscaOverclaims.ClaimsCanOutgrow`, `RoscaWitness.ProportionalCanOverDistribute`).
- The scan for a recipient starts at the round's own position, so whoever follows a member that is passed
  over is paid for it and again in its own turn (`RoscaTurns.StandInsPaidAgain`,
  `RoscaWitness.StandInPaidTwice`).
- A round that begins with a zero deadline is not extended by pauses (`RoscaSchedule.ZeroDeadlineStays`).
- The comment on `finalize_round` speaks of three consecutive missed rounds; the code counts all defaults
  since the last successful appeal against a configured threshold, and the model follows the code.

## Model

| member | source | states |
|---|---|---|
| EscrowSafety.Solvency | contracts/ahjoor-escrow/src/lib.rs:305-343 | over every run from deployment, through all five ways in and six ways out, the contract holds at least the amounts of the live escrows, token by token |
| EscrowSafety.EscrowLedger | contracts/ahjoor-escrow/src/lib.rs:481-527 | over every run, an escrow's deposit equals what went to its sellers, its buyer and the protocol plus what it still holds |
| EscrowSafety.StepKeeps | contracts/ahjoor-escrow/src/lib.rs:839-889 | every call keeps the whole invariant, and token balances change exactly as the journal of movements says |
| EscrowSafety.Finality | contracts/ahjoor-escrow/src/lib.rs:1938-1950 | over every run an amount never grows, and after release or refund neither status nor money of that escrow changes again |
| EscrowSafety.SellersReceive | contracts/ahjoor-escrow/src/lib.rs:481-512 | a release raises each seller address's balance by exactly its cuts, also when an address is listed more than once |
| EscrowSafety.ExactSplit | contracts/ahjoor-escrow/src/lib.rs:492-510 | the cuts of a release sum to the amount; later sellers get their share rounded down, the first at most one unit per other seller more than its own |
| EscrowSafety.FirstSellerCut | contracts/ahjoor-escrow/src/lib.rs:284-303 | for every total and every list of 10,000 basis points the first seller's remainder lies between its floor share and that share plus the number of other sellers |
| EscrowSafety.ResolveOutcome | contracts/ahjoor-escrow/src/lib.rs:839-889 | a resolution pays the protocol at most 2% and everything else to the side the arbiter chose |
| EscrowSafety.DisburseKeeps | contracts/ahjoor-escrow/src/lib.rs:690-718 | any exit whose payments match the drop in what the escrow holds keeps solvency, the ledger and the records |
| EscrowSafety.OpenKeeps | contracts/ahjoor-escrow/src/lib.rs:305-343 | any creation that takes the deposit it records keeps them too |
| EscrowJournal.StepMoves | contracts/ahjoor-escrow/src/lib.rs:690-711 | every movement a call makes is owed by that call to that party: the deposit is the new escrow's amount and comes from its buyer, a release pays listed sellers, any other exit the primary seller or the buyer, and a fee goes to the fee recipient of that moment |
| EscrowJournal.LedgerFromCreation | contracts/ahjoor-escrow/src/lib.rs:305-343 | from any call that opens an escrow, over every run, the amount it was opened with equals what went to its sellers, its buyer and the protocol plus what it still holds |
| EscrowJournal.DepositForGood | contracts/ahjoor-escrow/src/lib.rs:305-343 | over every run the deposit on the journal never changes again, however little of the amount is left |
| EscrowSplits.LaterSellersReceive | contracts/ahjoor-escrow/src/lib.rs:481-512 | over every run, any set of addresses without the primary seller receives on account of an escrow exactly its floor shares of the amount that `release_escrow` found, and nothing if it never paid out |
| EscrowSplits.SplitHonoured | contracts/ahjoor-escrow/src/lib.rs:481-512 | over every run from deployment, every address has received what the split of the deposit gives it if and only if nothing of the deposit is held, returned or charged and the amount released yields the later sellers the same rounded shares |
| EscrowSplits.ReleasedWholeHonours | contracts/ahjoor-escrow/src/lib.rs:456-529 | an escrow released in one piece, before anything else was paid out of it, honours its split |
| EscrowWitness.SplitNotHonoured | contracts/ahjoor-escrow/src/lib.rs:706-711 | a run from deployment in which 50 of a deposit of 100 to be split in halves is released early, so that the second seller ends with 25 |
| EscrowChains.RenewalLink | contracts/ahjoor-escrow/src/lib.rs:1966-2053 | a renewal opens a new active escrow with the same parties, the amount just released and the same duration, and uses up one renewal and one allowance |
| EscrowChains.RenewalsBounded | contracts/ahjoor-escrow/src/lib.rs:1966-2053 | a chain with a renewal count makes, in any run, at most as many renewals as it has remaining |
| EscrowChains.ChainBounded | contracts/ahjoor-escrow/src/lib.rs:1966-2053 | the chain any reachable escrow stands in, however it was created, is renewed in any run at most as often as its renewal count says |
| EscrowChains.NoRenewalAfterRelease | contracts/ahjoor-escrow/src/lib.rs:456-479 | an escrow already released is never renewed again |
| EscrowChains.AllowanceBounds | contracts/ahjoor-escrow/src/lib.rs:617-677 | after an allowance of n, at most n renewals of the chain succeed before it is set again |
| EscrowChains.AssignedInTurn | contracts/ahjoor-escrow/src/lib.rs:1677-1695 | while the pool is unchanged, assignments go round it cyclically from the next index |
| EscrowChains.PoolStaysSound | contracts/ahjoor-escrow/src/lib.rs:1571-1628 | over every run from deployment the pool stays duplicate-free and the next index zero or in range |
| EscrowChains.PoolFairness | contracts/ahjoor-escrow/src/lib.rs:1571-1628 | any n consecutive assignments from a pool of n use every arbiter exactly once |
| EscrowCalls.ReleaseExact | contracts/ahjoor-escrow/src/lib.rs:456-529 | in every reachable state a release commits if and only if buyer or arbiter signs for an open escrow and, when it auto-renews with no count or with renewals left, allowance, duration, approval and the buyer's balance after its own part of the payout suffice; it opens a successor exactly then, and every balance, approval and record changes as stated |
| EscrowCalls.PaymentExact | contracts/ahjoor-escrow/src/lib.rs:680-919 | in every reachable state a partial release, dispute, resolution, expiry refund or inactivity claim commits if and only if the right party signs at the right time and status, never for lack of tokens, and pays each address in each token exactly what the call owes it |
| EscrowCalls.InactivityExact | contracts/ahjoor-escrow/src/lib.rs:1838-1898 | in every reachable state the seller's claim commits if and only if the escrow is open with a window that has passed since the buyer last acted, or since creation, and then pays all of it |
| EscrowCalls.ExpiryExact | contracts/ahjoor-escrow/src/lib.rs:1010-1053 | in every reachable state the buyer gets an open escrow back if and only if it signs after the deadline |
| EscrowTerms.CreateExact | contracts/ahjoor-escrow/src/lib.rs:253-401 | a creation commits if and only if amount, deadline, token and sellers are sound and the buyer holds the amount, and records every field of the terms |
| EscrowTerms.BatchExact | contracts/ahjoor-escrow/src/lib.rs:200-251 | a batch of one to ten commits if and only if every entry is sound and the buyer holds the sum of it in each of its tokens; ids are contiguous and entries have no inactivity window |
| EscrowTerms.AmendExact | contracts/ahjoor-escrow/src/lib.rs:1055-1230 | in every reachable state roles, deadlines, allowances and renewal change if and only if those who may change them have signed, and nothing else changes |
| EscrowTerms.DeadlineByConsent | contracts/ahjoor-escrow/src/lib.rs:1111-1175 | over every run from deployment a deadline changes only when one party proposed that later deadline at most a day before and the other party, now buyer or seller, accepts it |
| EscrowTerms.RemoveArbiterExact | contracts/ahjoor-escrow/src/lib.rs:1595-1649 | the admin takes an arbiter out, the others keep their order, and a turn beyond the end starts again |
| EscrowContract.Contract.constructor | contracts/ahjoor-escrow/src/lib.rs:145-162 | deployment gives the initial state the run statements start from |
| EscrowContract.Contract.CreateCore | contracts/ahjoor-escrow/src/lib.rs:253-401 | validates, resolves sellers in a loop, takes the deposit and stores the escrow, as the model says, or traps |
| EscrowContract.Contract.CreateEscrow | contracts/ahjoor-escrow/src/lib.rs:165-198 | commits exactly the model's creation or changes nothing |
| EscrowContract.Contract.CreateBatch | contracts/ahjoor-escrow/src/lib.rs:200-251 | creates every escrow of the batch with contiguous ids, or none |
| EscrowContract.Contract.CreateFromTemplate | contracts/ahjoor-escrow/src/lib.rs:1493-1569 | commits exactly the model's creation from a template or changes nothing |
| EscrowContract.Contract.CreateWithPool | contracts/ahjoor-escrow/src/lib.rs:1651-1742 | assigns the next arbiter and advances the index, or changes nothing |
| EscrowContract.Contract.TotalBps | contracts/ahjoor-escrow/src/lib.rs:284-303 | the loop's total is the sum of all allocations |
| EscrowContract.Contract.PaySellers | contracts/ahjoor-escrow/src/lib.rs:481-512 | the loop pays each seller and the first the remainder, as the model says |
| EscrowContract.Contract.TryRenew | contracts/ahjoor-escrow/src/lib.rs:1966-2058 | opens the successor from the buyer's allowance, does nothing when no renewal is due, or traps |
| EscrowContract.Contract.Release | contracts/ahjoor-escrow/src/lib.rs:456-529 | pays out, marks released and renews in one commit, or rolls all of it back |
| EscrowContract.Contract.SetRenewalAllowance | contracts/ahjoor-escrow/src/lib.rs:617-654 | grants the token allowance for exactly the stated number of renewals |
| EscrowContract.Contract.CancelAutoRenew | contracts/ahjoor-escrow/src/lib.rs:656-678 | stops the chain and clears its allowance |
| EscrowContract.Contract.PartialRelease | contracts/ahjoor-escrow/src/lib.rs:680-737 | pays part to the primary seller and keeps the rest, or changes nothing |
| EscrowContract.Contract.Dispute | contracts/ahjoor-escrow/src/lib.rs:739-827 | releases the undisputed part and freezes the rest, or changes nothing |
| EscrowContract.Contract.Resolve | contracts/ahjoor-escrow/src/lib.rs:829-919 | pays fee and award and closes the escrow in one commit, or rolls back |
| EscrowContract.Contract.AutoReleaseExpired | contracts/ahjoor-escrow/src/lib.rs:1010-1053 | returns an expired escrow to its buyer, or changes nothing |
| EscrowContract.Contract.ClaimInactivity | contracts/ahjoor-escrow/src/lib.rs:1838-1898 | pays the seller once the buyer has been inactive long enough, or changes nothing |
| EscrowContract.Contract.ProposeDeadline | contracts/ahjoor-escrow/src/lib.rs:1055-1109 | records a later deadline proposed by buyer or seller, or changes nothing |
| EscrowContract.Contract.AcceptDeadline | contracts/ahjoor-escrow/src/lib.rs:1111-1175 | applies a proposal of the other party within its window, or changes nothing |
| EscrowContract.Contract.TransferBuyer | contracts/ahjoor-escrow/src/lib.rs:1185-1230 | hands the buyer's role of an active escrow on, or changes nothing |
| EscrowContract.Contract.AddArbiter | contracts/ahjoor-escrow/src/lib.rs:1571-1593 | appends an arbiter not yet in the pool, or changes nothing |
| EscrowContract.Contract.RemoveArbiter | contracts/ahjoor-escrow/src/lib.rs:1595-1649 | the loop drops exactly the arbiter, in order, and resets an index out of range |
| RoscaMoney.RecipientSelection | contracts/ahjoor-rosca/src/internals.rs:46-65 | for any suspended, exited and skipped members the scan picks the first eligible one in cyclic order from the round's position, and fails exactly when nobody is eligible |
| RoscaMoney.PotBacking | contracts/ahjoor-rosca/src/lib.rs:665-711 | from deployment, over every run of base-token contributions without reward claims, the contract holds the reward pool plus everything contributed to the round, reinvested rounds included |
| RoscaMoney.RunKeeps | contracts/ahjoor-rosca/src/lib.rs:1454-1471 | with claims, it holds the pool less the claims plus the round's contributions |
| RoscaMoney.StepKeepsPool | contracts/ahjoor-rosca/src/lib.rs:1454-1526 | every call, in whatever token, keeps the pool less the claims covered by the base-token balance |
| RoscaPots.StepExact | contracts/ahjoor-rosca/src/internals.rs:159-239 | for every call, what the contract holds beyond pool and contributions changes exactly as stated, and a payout records the contributions of its round plus what was to spare |
| RoscaPots.EveryPot | contracts/ahjoor-rosca/src/internals.rs:159-239 | after any run, the pot on record is the contributions to its round plus what is to spare, and covers the round if and only if that is not negative |
| RoscaPots.ClaimsShortenPots | contracts/ahjoor-rosca/src/lib.rs:1500-1526 | from an exactly backed contract whose only other outflow is claims, each pot falls short of its round by what was claimed since a pot last made it up: it covers the round if and only if that is nothing |
| RoscaPots.PotMakesUp | contracts/ahjoor-rosca/src/internals.rs:159-239 | a payout leaves a contract that is short by what claims drew exactly backed again if and only if the pot it pays is not negative |
| RoscaPots.PotsCoverRounds | contracts/ahjoor-rosca/src/lib.rs:665-711 | from deployment, over every run of base-token contributions without reward claims, every pot on record is at least everything contributed to its round, and recipient and fee recipient are paid exactly that pot, or it is kept for reinvestment |
| RoscaPots.PotMoves | contracts/ahjoor-rosca/src/internals.rs:159-239 | whatever is to spare, the pot that goes on record is the one that moves, address by address |
| RoscaWitness.ClaimLeavesPotShort | contracts/ahjoor-rosca/src/lib.rs:1500-1526 | a run from deployment in which a claim of 5 leaves a pot of 15 for a round of 20 |
| RoscaTurns.PaidWithinGap | contracts/ahjoor-rosca/src/internals.rs:46-65 | whoever is suspended, gone or skipping, a round pays an eligible member if and only if it lies no further ahead of the round's position than members are passed over just before it |
| RoscaTurns.RunInTurn | contracts/ahjoor-rosca/src/internals.rs:46-65 | over every run that leaves order, exits, suspensions and skips alone and pays out each round, the payout records added name the recipients in turn |
| RoscaTurns.StandInsPaidAgain | contracts/ahjoor-rosca/src/internals.rs:46-65 | once such a run has paid out n rounds of an order of n without skips, the payout history names an eligible member once plus once for each member passed over just before it, and the others never |
| RoscaWitness.StandInPaidTwice | contracts/ahjoor-rosca/src/internals.rs:46-65 | a run from deployment in which a suspended member pays its own round in full and the other is paid a second time running |
| RoscaMoney.PayTokensPayPot | contracts/ahjoor-rosca/src/internals.rs:157-198 | whatever else is approved, a payout moves exactly one base-token pot |
| RoscaMoney.PayTokensLeave | contracts/ahjoor-rosca/src/internals.rs:159-198 | paying out never digs into the reward pool or into what is kept for reinvestment |
| RoscaMoney.FeeBounds | contracts/ahjoor-rosca/src/internals.rs:168-175 | the protocol fee is between nothing and 5% of the pot |
| RoscaRewards.NeverOverDistributed | contracts/ahjoor-rosca/src/lib.rs:1528-1603 | under fixed membership and a fixed division, over every run with contributions in any token, claims fit in the pool and the contract holds what is left of it; under Proportional while participation stays as it was at the first claim |
| RoscaRewards.RewardsSafeFromDeployment | contracts/ahjoor-rosca/src/lib.rs:1454-1603 | the same from deployment on |
| RoscaRewards.EveryClaimPayable | contracts/ahjoor-rosca/src/lib.rs:1500-1526 | a claim commits exactly when the group is unpaused, the member signs and something is claimable, and then pays all of it |
| RoscaRewards.ClaimsFit | contracts/ahjoor-rosca/src/lib.rs:1553-1593 | under all three divisions, shares claimed once each sum to no more than the pool |
| RoscaOverclaims.ClaimsCanOutgrow | contracts/ahjoor-rosca/src/lib.rs:1500-1603 | in every reachable state of an unpaused group, under any division and after any change of members or participation, claims alone can take the total past the pool if and only if the larger of claimed and today's share, summed over everybody, is more than the pool |
| RoscaOverclaims.RunStaysWithin | contracts/ahjoor-rosca/src/lib.rs:1528-1603 | over every run of claims and gifts, nobody comes to have claimed more than the larger of what it had claimed and its share, and that ceiling stays the same for everybody |
| RoscaWitness.ProportionalCanOverDistribute | contracts/ahjoor-rosca/src/lib.rs:1553-1570 | a run from deployment in which two members claim 15 of a proportional pool of 10, the second after participating later |
| RoscaCycle.FullCycle | contracts/ahjoor-rosca/src/internals.rs:46-65 | n fully paid rounds from any starting round, installments in any order and traps in between, pay each member one full pot exactly once and leave it poorer by exactly the fee on one pot |
| RoscaCycle.PayoutKeeps | contracts/ahjoor-rosca/src/internals.rs:295-309 | a fully paid round pays n contributions to the member whose turn it is and starts the next round empty |
| RoscaCycle.ExpectedInTotal | contracts/ahjoor-rosca/src/internals.rs:159-198 | a member's balance after k rounds in closed form: contributions paid, pots received, fees collected |
| RoscaCycle.ReceivedOnce | contracts/ahjoor-rosca/src/internals.rs:46-65 | in n rounds of a duplicate-free order of n everyone's turn comes exactly once |
| RoscaStanding.SuspensionExact | contracts/ahjoor-rosca/src/lib.rs:1135-1153 | in every reachable state the suspended list has no duplicates and holds exactly the members whose defaults reach the threshold, across finalised rounds, penalties and appeals |
| RoscaStanding.FinalizeCounts | contracts/ahjoor-rosca/src/lib.rs:1105-1153 | finalising a round adds a default to exactly the members who owed a payment and missed it, one for each time a member is listed |
| RoscaStanding.ExecuteKeeps | contracts/ahjoor-rosca/src/internals.rs:340-371 | an appeal clears count and suspension together |
| RoscaSchedule.PausePreservesWindow | contracts/ahjoor-rosca/src/lib.rs:2583-2637 | in every reachable state the deadline is round start plus duration plus time paused since, if and only if the round did not begin with a zero deadline or was not paused |
| RoscaSchedule.FullDurationUnpaused | contracts/ahjoor-rosca/src/lib.rs:2561-2637 | with a positive duration, under either schedule, a payment is late exactly when more than the full duration has passed unpaused |
| RoscaSchedule.ZeroDeadlineStays | contracts/ahjoor-rosca/src/lib.rs:2600-2617 | a zero deadline survives a pause unchanged |
| RoscaGovernance.DelegationsSettle | contracts/ahjoor-rosca/src/lib.rs:2918-2987 | over every run of delegating, re-delegating, revoking and lapsing, each chain ends within as many hops as there are delegations and no cycle of two or more members exists |
| RoscaGovernance.TalliesCountVoters | contracts/ahjoor-rosca/src/lib.rs:1832-1890 | with equal weights, in every reachable state, the tallies equal the number of recorded votes on each side |
| RoscaGovernance.VoteRecords | contracts/ahjoor-rosca/src/lib.rs:1839-1883 | a vote adds the voter and the delegators it carries, none of whom was on record, and changes no entry |
| RoscaGovernance.TurnoutBounded | contracts/ahjoor-rosca/src/lib.rs:1832-1890 | with equal weights and fixed membership no proposal draws more votes than there are members |
| RoscaGovernance.DecidedByQuorumAndMajority | contracts/ahjoor-rosca/src/lib.rs:1930-2017 | a proposal can be executed exactly when unpaused, pending and past its deadline, and ends Executed if and only if 10,000 times the votes reach possible votes times quorum and the ayes exceed the noes |
| RoscaGovernance.OnlyExecutionDecides | contracts/ahjoor-rosca/src/lib.rs:1930-2017 | in every reachable state, however votes are weighed, only executing a pending proposal changes its status, and no call changes its quorum or deadline |
| RoscaGovernance.DecidedForGood | contracts/ahjoor-rosca/src/lib.rs:1923-1929 | in every reachable state, however votes are weighed, a decided proposal is never reopened, recounted or enacted again |
| RoscaPayouts.EveryTokenPaid | contracts/ahjoor-rosca/src/internals.rs:157-239 | in every reachable state with no token approved twice, a call that pays out a round moves, of every approved token, all the contract then holds less the reward pool: the fee part to the fee recipient and the rest to the first member in turn who may receive, unless it reinvests the base token; nobody else and no other token moves, and the record says so |
| RoscaShares.ClaimExact | contracts/ahjoor-rosca/src/lib.rs:1500-1526 | in every reachable state a claim commits if and only if one unit more than the member has claimed fits its part and the contract holds the difference, and brings its claims to the part |
| RoscaShares.ShareIsPart | contracts/ahjoor-rosca/src/lib.rs:1528-1603 | under all three divisions and the fallback, a share is the largest whole number with total times share at most pool times weight |
| RoscaProposals.ExecutionExact | contracts/ahjoor-rosca/src/internals.rs:340-444 | an executed proposal has exactly the effect of its kind on members, order, suspension, quorum and member limit, a rejected one none, and nothing else changes |
| RoscaProposals.NeverPaid | contracts/ahjoor-rosca/src/internals.rs:46-65 | over every run in which the admin does not put it back, whoever is not in the payout order is named by no payout |
| RoscaProposals.RemovedForGood | contracts/ahjoor-rosca/src/internals.rs:407-444 | so a member voted out is never paid again by such a run |
| RoscaCalls.ContributionExact | contracts/ahjoor-rosca/src/lib.rs:542-839 | in every reachable state a contribution commits if and only if the member owes at least that much, holds what it is worth at the token's rate within the token's limit, and, when it completes the round, somebody may receive it: no payout is ever short of tokens |
| RoscaCalls.FinalizeExact | contracts/ahjoor-rosca/src/lib.rs:1041-1158 | in every reachable state a round that is over is finalised if and only if somebody may receive it; the first in turn is paid, the next round opens, and those who missed it have one default more |
| RoscaCalls.CloseExact | contracts/ahjoor-rosca/src/lib.rs:961-1030 | a round that is over is closed unpaid, naming the members that missed it in member order |
| RoscaBallots.VoteExact | contracts/ahjoor-rosca/src/lib.rs:1791-1907 | a vote commits if and only if an undelegated member with a stake votes for the first time in time; it records the voter and its unrecorded delegators and raises the tally by the sum of their weights |
| RoscaBallots.DecisionExact | contracts/ahjoor-rosca/src/lib.rs:1909-2029 | a proposal past its deadline passes exactly with a majority of a turnout that reaches its quorum of all the weight the members can cast, summed member by member |
| RoscaContract.Contract.Deploy | contracts/ahjoor-rosca/src/lib.rs:37-304 | initialises exactly the model's state, or nothing when the configuration is refused |
| RoscaContract.Contract.SelectRecipient | contracts/ahjoor-rosca/src/internals.rs:46-65 | the loop returns the model's recipient, or none |
| RoscaContract.Contract.PayOutAll | contracts/ahjoor-rosca/src/internals.rs:157-198 | the token loop makes exactly the model's transfers or reports the trap |
| RoscaContract.Contract.ResetRoundState | contracts/ahjoor-rosca/src/internals.rs:297-337 | opens the next round, with its deadlines, and touches nothing else |
| RoscaContract.Contract.CompleteRoundPayout | contracts/ahjoor-rosca/src/internals.rs:22-293 | selects, pays, records, resets and applies a reinvestment as the model says |
| RoscaContract.Contract.Contribute | contracts/ahjoor-rosca/src/lib.rs:542-839 | commits the installment, with the payout when it completes the round, or rolls back |
| RoscaContract.Contract.RequestSkip | contracts/ahjoor-rosca/src/lib.rs:841-959 | records a skip within the cycle's allowance and takes its fee, or changes nothing |
| RoscaContract.Contract.FindDefaulters | contracts/ahjoor-rosca/src/lib.rs:1012-1021 | the loop lists exactly the members who missed the round, in member order |
| RoscaContract.Contract.CloseRound | contracts/ahjoor-rosca/src/lib.rs:961-1030 | records the defaulters and opens the next round, or changes nothing |
| RoscaContract.Contract.FinalizeRound | contracts/ahjoor-rosca/src/lib.rs:1041-1158 | pays out under the standing before the round and then records its defaults, or rolls back |
| RoscaContract.Contract.Penalise | contracts/ahjoor-rosca/src/lib.rs:1160-1238 | takes the penalty and records one more default, or changes nothing |
| RoscaContract.Contract.DepositRewards | contracts/ahjoor-rosca/src/lib.rs:1454-1474 | adds to the pool what it takes, or changes nothing |
| RoscaContract.Contract.SumWeights | contracts/ahjoor-rosca/src/lib.rs:1579-1585 | the loop's total is the sum of all weights in whatever order the map yields them |
| RoscaContract.Contract.GetClaimable | contracts/ahjoor-rosca/src/lib.rs:1528-1603 | returns a member's share less what it has claimed, for all three divisions |
| RoscaContract.Contract.ClaimRewards | contracts/ahjoor-rosca/src/lib.rs:1500-1526 | books and pays the claim, or rolls back |
| RoscaContract.Contract.SetReinvest | contracts/ahjoor-rosca/src/lib.rs:1731-1780 | sets the preference before the deadline, or changes nothing |
| RoscaContract.Contract.UpdateFee | contracts/ahjoor-rosca/src/lib.rs:2468-2489 | sets a fee of at most 5%, or changes nothing |
| RoscaContract.Contract.Pause | contracts/ahjoor-rosca/src/lib.rs:2561-2581 | records when the pause began, or changes nothing |
| RoscaContract.Contract.Resume | contracts/ahjoor-rosca/src/lib.rs:2583-2644 | moves each deadline that is set back by the length of the pause, or changes nothing |
| RoscaContract.Contract.CreateProposal | contracts/ahjoor-rosca/src/lib.rs:1607-1707 | stores a pending proposal with the quorum in force under a fresh id, or changes nothing |
| RoscaContract.Contract.CountDelegators | contracts/ahjoor-rosca/src/lib.rs:1860-1883 | the loop records exactly the uncounted delegators of the voter and sums their weight, in whatever order |
| RoscaContract.Contract.Vote | contracts/ahjoor-rosca/src/lib.rs:1791-1907 | records and tallies the vote with those it carries, or changes nothing |
| RoscaContract.Contract.CountPossibleVotes | contracts/ahjoor-rosca/src/lib.rs:1946-1962 | the loop's total is what the quorum is taken of |
| RoscaContract.Contract.Filter | contracts/ahjoor-rosca/src/internals.rs:356-364 | the copying loop drops every occurrence of one address and keeps the order |
| RoscaContract.Contract.EnactProposal | contracts/ahjoor-rosca/src/internals.rs:340-444 | does what the approved proposal asks, the 32-bit cast of a new member limit included |
| RoscaContract.Contract.Execute | contracts/ahjoor-rosca/src/lib.rs:1909-2029 | enacts and closes, or closes, a proposal past its deadline, or changes nothing |
| RoscaContract.Contract.Delegate | contracts/ahjoor-rosca/src/lib.rs:2918-2960 | records a delegation to a member who does not delegate, or changes nothing |
| RoscaContract.Contract.Revoke | contracts/ahjoor-rosca/src/lib.rs:2963-2987 | removes exactly that delegation, or changes nothing |
| PaymentsSafety.PaymentsBacked | contracts/ahjoor-payments/src/lib.rs:419-455 | from deployment, over every run without partial refunds, cross-token payments and repeated settlement ids, each token's balance covers all pending, scheduled, disputed and unsettled completed payments |
| PaymentsSafety.PartialRefundBacking | contracts/ahjoor-payments/src/lib.rs:1711-1777 | a partial refund keeps that backing if and only if it closes the payment or the contract has the refund to spare |
| PaymentsWitness.PartialRefundCanBreak | contracts/ahjoor-payments/src/lib.rs:1735-1760 | a run from deployment in which a partial refund leaves 6 against 10 owed |
| PaymentsSafety.CrossTokenBacking | contracts/ahjoor-payments/src/lib.rs:1113-1148 | a cross-token payment keeps the backing if and only if the contract has its amount in USDC to spare |
| PaymentsWitness.CrossTokenCanBreak | contracts/ahjoor-payments/src/lib.rs:1113-1148 | a run from deployment in which a cross-token payment leaves 10 USDC owed and none held |
| PaymentsSafety.AllowlistOnlyForUsdc | contracts/ahjoor-payments/src/lib.rs:1010-1030 | with the allowlist in force, a multi-token payment for a merchant not on it commits if and only if its token is not USDC and it would commit in open mode |
| PaymentsSafety.AllowlistBindsCreate | contracts/ahjoor-payments/src/lib.rs:412-417 | a single-token creation for such a merchant always traps, unless it repeats a live key |
| PaymentsWitness.UnlistedMerchantPaid | contracts/ahjoor-payments/src/lib.rs:1010-1030 | a run from deployment in which a payment in another token commits for a merchant that is not on the allowlist in force, while one in USDC traps |
| PaymentsSafety.SettlementBacking | contracts/ahjoor-payments/src/lib.rs:703-751 | a settlement keeps the backing if and only if the contract has to spare what the list names again |
| PaymentsSafety.DuplicateSettlementShort | contracts/ahjoor-payments/src/lib.rs:703-751 | naming a payment twice leaves an exactly backed contract short |
| PaymentsWitness.DuplicateSettlementCanBreak | contracts/ahjoor-payments/src/lib.rs:703-751 | a run from deployment in which an id listed twice leaves nothing against 10 owed |
| PaymentsSafety.SettledOwedSum | contracts/ahjoor-payments/src/lib.rs:703-751 | a settlement discharges its total, each payment counted once |
| PaymentsSafety.CompletePays | contracts/ahjoor-payments/src/lib.rs:2077-2122 | a completion moves exactly the amount: fee, floor shares and the rest to the merchant, address by address and in no other token |
| PaymentsSafety.ExactSplit | contracts/ahjoor-payments/src/lib.rs:2080-2105 | in every reachable state, backed or not, the fee is at most 5%, fee and net are all that leaves, each recipient gets its share rounded down and the merchant's dust is less than one unit per recipient |
| PaymentsSafety.DustBounded | contracts/ahjoor-payments/src/lib.rs:2190-2264 | for every net amount and every list of 10,000 basis points the dust lies between 0 and the number of recipients |
| PaymentsSafety.RunSound | contracts/ahjoor-payments/src/lib.rs:378-494 | every run keeps all payments on record well-formed, with valid splits, and the fee table valid |
| PaymentsFlows.CustomerGetsBack | contracts/ahjoor-payments/src/lib.rs:643-660 | a cancelled, expired or rejected payment goes back to its customer in full and a partial refund goes there too, and no other balance changes |
| PaymentsFlows.StepFlows | contracts/ahjoor-payments/src/lib.rs:2055-2264 | every committed call changes every balance of every token by exactly what it pays that holder for each payment (fee, shares and rest, returns, refunds, settlements), what it takes from a customer and what others move |
| PaymentsFlows.RunFlows | contracts/ahjoor-payments/src/lib.rs:378-494 | the same over every run, summed payment by payment |
| PaymentsLedger.PaymentLedger | contracts/ahjoor-payments/src/lib.rs:2055-2188 | over every run, a payment's amount equals fee, net, returns, partial refunds and settlements plus what is still due, less the refunds that did not close it and what was settled more than once; those outlays are token movements that, with the other payments', deposits and movements of others, account for every balance |
| PaymentsLedger.ShortfallBounded | contracts/ahjoor-payments/src/lib.rs:1711-1777 | over every run from deployment, whatever is called, what is owed in a token exceeds what is held by at most the refunds that closed nothing, the amounts taken in another token and the repeated settlements |
| PaymentsSafety.ClosedForGood | contracts/ahjoor-payments/src/lib.rs:847-868 | a payment that is refunded, expired or completed and settled never changes again, whatever is called |
| PaymentsSchedule.LockedExactlyWhenMissed | contracts/ahjoor-payments/src/lib.rs:2062-2075 | in every reachable state and at every time, some run from that time and ledger on changes a scheduled payment if and only if it is not yet due, never expires or has not expired |
| PaymentsSchedule.LockedForGood | contracts/ahjoor-payments/src/lib.rs:642-644 | once a scheduled payment is due and has expired, no run from then on changes it |
| PaymentsSchedule.ExecutedWhenDue | contracts/ahjoor-payments/src/lib.rs:619-623 | unpaused and with the amount held, a scheduled payment is executed if and only if it is due and not expired |
| PaymentsSchedule.LockedFromCreation | contracts/ahjoor-payments/src/lib.rs:419-455 | a scheduled payment is executable if and only if it is created to fall due within the timeout, or its expiry is zero |
| PaymentsWitness.ScheduledTooLate | contracts/ahjoor-payments/src/lib.rs:180-180 | a run from deployment that schedules a payment for eight days ahead, which no run from that time on ever changes |
| PaymentsWitness.ScheduledAndForgotten | contracts/ahjoor-payments/src/lib.rs:2072-2075 | a run from deployment that schedules a payment for the next day, executable for six days, which no run from its expiry on ever changes |
| PaymentsKeys.RetryWithinLifetime | contracts/ahjoor-payments/src/lib.rs:393-403 | after any run, a creation repeated under its key returns the first payment and changes nothing if and only if no more than 17,280 ledgers have passed |
| PaymentsKeys.LapsedPaysAgain | contracts/ahjoor-payments/src/lib.rs:470-478 | with a lapsed or new key a creation that commits takes the amount and makes a new payment |
| PaymentsSafety.QuoteFair | contracts/ahjoor-payments/src/lib.rs:1087-1119 | a conversion takes the largest whole amount worth no more than the price, and falls short of it by no more than the tolerance |
| PaymentsVolume.RollingRefinesHistory | contracts/ahjoor-payments/src/lib.rs:2303-2313 | in every reachable state the four-bucket sum is the history of the last four buckets if and only if four exist or bucket 0 is empty; otherwise bucket 0 once more per missing bucket |
| PaymentsVolume.FeeIsEarned | contracts/ahjoor-payments/src/lib.rs:2077-2081 | the rate deducted is that of the greatest threshold not above the last four buckets' history with this payment; from the second bucket on it is also the tier recomputed after booking |
| PaymentsVolume.FirstBucketMayDiffer | contracts/ahjoor-payments/src/lib.rs:2150-2168 | in bucket 0, for every volume and amount, some valid table charges one rate and books another |
| PaymentsWitness.ChargedOneRateBookedAnother | contracts/ahjoor-payments/src/lib.rs:2150-2168 | a run from deployment in which a first payment of 20 is charged 5% and the tier booked for its merchant is 1% |
| PaymentsVolume.TierChosen | contracts/ahjoor-payments/src/lib.rs:2266-2301 | a validated table gives every volume the rate of its greatest threshold reached, or the default, never above 5% |
| PaymentsVolume.RollingAfter | contracts/ahjoor-payments/src/lib.rs:2563-2573 | booking an amount raises the rolling sum by it once, or by its multiple while in bucket 0 |
| PaymentsLimits.AnySpanBounded | contracts/ahjoor-payments/src/lib.rs:2315-2350 | after any history and with a limit below the largest 32-bit number, any span of window-size ledgers creates fewer than twice the limit for one customer, batches counted by size |
| PaymentsLimits.BoundReached | contracts/ahjoor-payments/src/lib.rs:2315-2350 | under every limit and every window of at least two ledgers, some run after deployment has one less than twice the limit created in one span, by the same count, so the bound is exact |
| PaymentsLimits.RefusesOnlyBelowMaximum | contracts/ahjoor-payments/src/lib.rs:2336-2340 | the limiter can refuse something if and only if the limit is below the largest 32-bit number |
| PaymentsLimits.StepUsage | contracts/ahjoor-payments/src/lib.rs:405-405 | every call counts exactly the payments it creates against its customer's window and touches no other |
| PaymentsCalls.CompletedOrReturned | contracts/ahjoor-payments/src/lib.rs:1655-1705 | at every time of every run after its creation with a timeout, a pending payment can be completed only before creation plus timeout and returned only from then on, and, unpaused and held, exactly then |
| PaymentsCalls.CompletionExact | contracts/ahjoor-payments/src/lib.rs:2055-2188 | in every reachable state a completion commits only for a pending payment on the admin's signature or a scheduled one that is due, unpaused and before expiry, and always then if the amount is held; fee, shares and rest never trap |
| PaymentsCalls.ActExact | contracts/ahjoor-payments/src/lib.rs:626-900 | in every reachable state a cancellation, expiry, dispute, decision or partial refund commits if and only if party, status and time are right and the contract holds what goes back, which goes to the customer alone |
| PaymentsCalls.CreateExact | contracts/ahjoor-payments/src/lib.rs:378-494 | in every reachable state a creation commits if and only if its key is live, or limit, labels, merchant, recipients and balance allow it; then the record, the key and the customer's window are as stated |
| PaymentsCalls.BatchExact | contracts/ahjoor-payments/src/lib.rs:499-603 | in every reachable state a batch commits if and only if it is within size and limit, every payment is acceptable and the customer holds the sum of it in each of its tokens |
| PaymentsCalls.PayInExact | contracts/ahjoor-payments/src/lib.rs:986-1181 | in every reachable state a payment priced in USDC commits if and only if it is paid in USDC to an accepted merchant or in a token with a fresh price within the tolerance, and takes exactly the quoted amount |
| PaymentsCalls.SettleExact | contracts/ahjoor-payments/src/lib.rs:671-764 | in every reachable state a list is settled if and only if it has 1 to 50 entries, all completed for that merchant in one token and unsettled, and the contract holds each amount as often as it is listed |
| PaymentsContract.Contract.Deploy | contracts/ahjoor-payments/src/lib.rs:301-344 | initialises exactly the model's state, or nothing when the fee is refused |
| PaymentsContract.Contract.EnforceLimit | contracts/ahjoor-payments/src/lib.rs:2315-2350 | counts against the window with saturation, or refuses and records nothing |
| PaymentsContract.Contract.CheckSplits | contracts/ahjoor-payments/src/lib.rs:2245-2264 | accepts exactly the absent lists and the non-empty ones of positive parts that sum to 10,000 |
| PaymentsContract.Contract.CheckLabels | contracts/ahjoor-payments/src/lib.rs:2373-2400 | accepts exactly the references of at most 64 bytes and the metadata of at most 5 entries of at most 32 bytes each |
| PaymentsContract.Contract.Create | contracts/ahjoor-payments/src/lib.rs:378-494 | takes the payment and returns its id, returns the id its live key stands for, or rolls back |
| PaymentsContract.Contract.CreateBatch | contracts/ahjoor-payments/src/lib.rs:499-603 | creates every payment of the batch with contiguous ids, or none |
| PaymentsContract.Contract.CreateMultiToken | contracts/ahjoor-payments/src/lib.rs:986-1181 | takes USDC or the quoted amount of another token, or rolls back |
| PaymentsContract.Contract.FeeForVolume | contracts/ahjoor-payments/src/lib.rs:2282-2301 | the loop returns the rate of the last tier reached |
| PaymentsContract.Contract.RollingMerchantVolume | contracts/ahjoor-payments/src/lib.rs:2303-2313 | the loop returns the model's four-bucket sum |
| PaymentsContract.Contract.CheckTiers | contracts/ahjoor-payments/src/lib.rs:2266-2280 | accepts exactly the strictly ascending tables of non-negative thresholds and rates of at most 5% |
| PaymentsContract.Contract.DistributeNet | contracts/ahjoor-payments/src/lib.rs:2190-2243 | the loop pays each share and the merchant the rest, or reports the trap |
| PaymentsContract.Contract.CompleteInternal | contracts/ahjoor-payments/src/lib.rs:2055-2188 | pays, records, marks settled and books the volume in one commit, or rolls back |
| PaymentsContract.Contract.CompletePayment | contracts/ahjoor-payments/src/lib.rs:606-616 | completes a pending payment on the admin's word, or changes nothing |
| PaymentsContract.Contract.ExecuteScheduled | contracts/ahjoor-payments/src/lib.rs:619-623 | completes a scheduled payment once it is due, or changes nothing |
| PaymentsContract.Contract.CancelScheduled | contracts/ahjoor-payments/src/lib.rs:626-666 | returns a scheduled payment before it is due, or changes nothing |
| PaymentsContract.Contract.Expire | contracts/ahjoor-payments/src/lib.rs:1655-1705 | returns a pending payment past its expiry, or changes nothing |
| PaymentsContract.Contract.Dispute | contracts/ahjoor-payments/src/lib.rs:770-822 | freezes a pending payment of the customer, or changes nothing |
| PaymentsContract.Contract.Resolve | contracts/ahjoor-payments/src/lib.rs:825-900 | completes it unsettled or returns it, or changes nothing |
| PaymentsContract.Contract.PartialRefund | contracts/ahjoor-payments/src/lib.rs:1711-1777 | pays part back and counts it toward a full refund, or changes nothing |
| PaymentsContract.Contract.CheckSettlement | contracts/ahjoor-payments/src/lib.rs:703-736 | accepts exactly the lists all of whose payments may be settled, and returns their total |
| PaymentsContract.Contract.Settle | contracts/ahjoor-payments/src/lib.rs:671-764 | pays the total in one transfer and marks every id, or changes nothing |
| PaymentsContract.Contract.UpdateTiers | contracts/ahjoor-payments/src/lib.rs:1302-1319 | installs a valid table, or changes nothing |
| PaymentsContract.Contract.UpdateRateLimit | contracts/ahjoor-payments/src/lib.rs:1334-1367 | installs a positive limit and window, or changes nothing |

## Left out

- RoscaCycle.FullCycle: the fee recipient is not the contract itself; a fee paid to the contract would join the next pot. The statement is about rounds that complete, not about members being able to pay.
- RoscaMoney.PotBacking: contributions in other tokens count toward a round at their rate but bring no base token, so the statement is about base-token contributions.
- RoscaPots.EveryPot: about base-token contributions and no token approved twice at once, which the code never does (`contracts/ahjoor-rosca/src/lib.rs:1353-1375`).
- RoscaPots.ClaimsShortenPots: as above, with nobody but contributors and reward donors paying in and the contract paying nothing to itself; `RoscaPots.EveryPot` has the general form.
- RoscaRewards.NeverOverDistributed: under Proportional, participation recorded after a claim can take the claims past the pool; `RoscaOverclaims.ClaimsCanOutgrow` says in every state whether claims can.
- RoscaTurns.StandInsPaidAgain: about runs in which nobody's standing changes and every round is paid out; a skip changes who is passed over in one round only, and such rounds are covered one by one by `RoscaTurns.PaidWithinGap`.
- RoscaPots.PotsCoverRounds: as `RoscaPots.EveryPot`; reward claims are the subject of `RoscaPots.ClaimsShortenPots`.
- PaymentsSafety.PaymentsBacked: the three kinds of call outside it have their own lemmas saying exactly when they break it, and `PaymentsLedger.ShortfallBounded` covers every run.
- PaymentsKeys.RetryWithinLifetime: takes the network's initial lifetime of a temporary entry to be below 10,000 ledgers, so that the contract's extension to 17,280 applies.
- EscrowContract.Contract.Dispute: the dispute record with its timeout is not stored; nothing but the escalation check reads it, and that only emits an event.
- EscrowContract.Contract.Resolve: that record is not marked resolved.
- EscrowContract.Contract.RemoveArbiter: the code also flags listed open escrows as needing a new arbiter; no entry point acts on the flag, and it is not modelled.
- The refund contract (`ahjoor-refund`): its queue, index and fee would repeat these proofs in easier form.
- Integer widths: amounts are unbounded, so traps by overflow are missing and the runs quantified over are a superset; the saturating counter of the rate limiter and the 32-bit cast of the member limit are explicit.
- Storage lifetimes other than those of idempotency keys and delegations: entries are taken to be kept alive. Upgrade, migration and version counters.
- Events, receipts, evidence and hashes, and the index by reference: data that no entry point acts on. The limits on references and metadata are modelled.
- Statistics, getters and pagination: easy members only.
- Admin transfer, invitations, multi-signature approval, the token, merchant and member lists: any change of them is one `AdministerCall` with arbitrary new values; who may make it is not modelled.
- Oracle calls: the answer is a parameter of the call.
- Dispute timeouts and escalation checks: they only emit events.
- RoscaContract.Contract.CompleteRoundPayout: a draw from the insurance pool is not booked; it moves no pot, and no entry point ever sets the insurance deduction.
- RoscaContract.Contract.Contribute: savings totals and milestones are not kept; the trap on a zero goal is modelled.
- ROSCA emergency exit with its refund (`approve_exit`): the exited list may change in any way, but no step pays the refund, so the statements about what the contract holds are about runs without it.
- Payments subscriptions: a charge passes through the contract in one call and leaves its balance as it was.
- A payout with an empty order traps in the code on a division by zero; in the model it finds no recipient and traps.
