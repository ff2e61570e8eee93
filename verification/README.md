# Settlement rail, verified model

A Dafny 4.11 model of the rail that locks confidential tokens on Solana, mints stablecoins for them on Canton, settles
a delivery-versus-payment trade there, burns, and releases, with an encrypted exposure ledger on Zama. `dafny verify
dfyconfig.toml` checks all of it.

- **Exposure ledger** (`Exposure`, `ExposureRuns`, `RiskEngine`): "try, then select" arithmetic on 64-bit counters over
  an unbounded map of reservations. No checked operation ever drops an update.
- **Escrow program** (`Escrow`, `EscrowSafety`, `EscrowDecisions`, `EscrowProgram`): lock receipts, 2-of-3 approvals that
  may be replaced once expired, and the vault, against anyone submitting any transaction.
- **Canton ledger** (`CantonLedger`, `CantonGateway`, `CantonRuns` and what is proved about them in `CantonBacking`,
  `CantonTotals`, `DvpSettlement`, `LedgerDecisions`, `TradeIsolation`, `TradeClashes`, `EligibilityWindows`,
  `CantonAccounting`, `CantonSupply`, `CantonBindings`, `GatewayDecisions`; `CantonProgram` is the ledger kept in place). One map of active contracts with fresh ids; a failed
  transaction changes nothing. Treasury and stablecoin registries are one module with a registry tag.
- **Coordinator** (`OperationJournal`, `ReservationResume`, `ByteOrder`, `Recovery`, `Agreement`, `Coordinator`,
  `CoordinatorSafety`, `CoordinatorRuns`, `ReleaseMaterials`, `Resumption`, `LateVotes`, `LeftAlone`, `Voting`,
  `Recoverability`, `Progress`, `LockDecision`, `CancelPath`, `Workflow`, `UndisturbedRuns`) over the three chains side by side (`Rail`, `RailSafety`). `BridgeSupply` runs the rail and the Canton ledger as one,
  with base units on one side and Decimals on the other. An attempt takes one chain effect or one journal write at a
  time and may stop after any of them, so also between an effect and the write that follows it; others act in between.
  `Workflow` is the same run as one sequential program, proved to stay on the points of `Coordinator` until it is over or
  is stopped, after as many events as its budget says; `UndisturbedRuns` says where it gets to when nobody interferes.
- **History verifier** (`LedgerValues`, `History`, `HistoryQueries`, `HistoryEvidence`, `HistoryFrame`) and **exact amounts** (`Decimals`, `Units`).

The `...Decisions` modules say of each operation, on the state alone, when it succeeds and what it then writes. What an
attempt gets to when it is left alone is in `Progress`, `LockDecision`, `CancelPath` and `Recoverability`.

How the layers join: `Coordinator` chooses actions from what an attempt reads; `CoordinatorSafety` shows each action is
`Allowed`; `Rail` says what allowed runs are; `RailSafety` proves safety of every allowed run, using the invariants of
the escrow and of the exposure ledger.

Assumptions. Digests and commitments are injective constructors, and a signature is a pair (key, digest) in a set.
Attesters A and B sign only through the coordinator; the third key may sign anything. A confidential transfer carries
the amount its commitment names (README.md:438 of the repository says it is attested, not proven). The exposure
ledger's roles and the Canton gateway act for the coordinator's operations only when the coordinator's own rules allow
it, also when an act of a stopped attempt lands late. The name of an operation on Canton, the hex text of its id, is
taken to be some injective function. Chain clocks do not go back. Canton
registries act through their choices only: parties themselves create attestations, eligibilities, rules, issuers,
proposals and redemption requests, and nobody creates a holding, an allocation, a trade, a gateway or a binding except
through the choice that makes it (`CantonLedger.MayPublish`); trade isolation and the gateway's books rest on this, and
a gateway is there from the start. The controllers of the AllocationV1 choices (executor, sender and receiver
for execute and cancel, the sender for withdraw) and their being consuming are those of CIP-0056, whose packages are
binary in the repository. Canton scripts (`Tests.Bridge.Runtime`) find the contract of a lock or exercise the choice.

## What was found

- A cancel that was stopped between its first recorded vote and the movement can never be resumed by this coordinator:
  it makes new proofs each time and the on-chain cancel approval is never replaced by it. README.md:443-445 says a later
  2-of-3 can recover such an operation; the program would accept one, the coordinator does not ask for it
  (`Agreement.FreshCancelVotesOnlyOnce`, `Agreement.CancelRefusesReplacement`; `Agreement.OneCancelVoteIsRecorded` is
  a run into such a state).
- Printing with zero decimals gives a string the parser refuses; with one decimal or more the round trip holds
  (`Units.PrintThenParse`).
- Release materials are safe against crashes exactly as long as each release vote that others bring to the chain is,
  when the program accepts it, on the materials of the saved journal and of the attempt at work
  (`ReleaseMaterials.WrittenAheadExactly`). A vote of the coordinator itself that lands late can break this: when the
  first approval has expired, new materials are saved and signed, the attempt stops before submitting, and the next one
  clears them, then the signature landing now makes that attempt be refused for the digest of its newer materials
  (`LateVotes.LateVoteStopsARelease`, from every world in which a release has stalled so; `LateVotes.SomeReleaseStalls`
  gives one).
- Otherwise a burned operation is never stuck: from every world in which its journal records the burn and the materials
  are written ahead, a new attempt that is left alone releases and redeems it
  (`Recoverability.EveryBurnedOperationCanBeFinished`). Before that, an attempt that is left alone carries an operation
  from its reservation to the release when nothing is in the way (`Progress.EveryOperationCanBeCarriedThrough`); it locks
  exactly when there is room, the vault is empty and the deadline ahead (`LockDecision.LocksExactlyWhenItMay`), so one
  operation in the vault holds up every other; and an attempt to cancel refunds exactly a receipt that is locked on its
  terms and was never voted on for a cancel (`CancelPath.CancelsExactlyWhenItMay`).
- Trades stay apart exactly as long as every proposal has a free root when it is published: one that no active proposal
  and no trade has (`TradeIsolation.RunIsApartExactly`). With `tradeCid = None` it always is. A root that is not free is
  harmless only until somebody uses it: as long as the deadlines are open, some run from there makes two trades with one
  settlement reference (`TradeClashes.FreeRootsAreNeeded`). If their terms are the same, as for two proposals created
  alike, the same allocations match both (`TradeIsolation.StartingWithATradeIdBreaksIsolation`).

## Model

| member | source | states |
|---|---|---|
| Exposure.ReserveDecidesExactly | zama/contracts/ConfidentialRiskEngine.sol:109-144 | A reservation is approved exactly when its amount is positive and the plain sums leave room under capacity and client limit; otherwise zero is recorded and no counter moves |
| Exposure.NoUpdateIsDropped | zama/contracts/ConfidentialRiskEngine.sol:146-188 | In every good state the flag of finalize, cancel and redeem is true, so no select keeps an old value |
| Exposure.SettleStepsMoveTheAmount | zama/contracts/ConfidentialRiskEngine.sol:146-188 | Finalize moves exactly the reserved amount to active exposure; cancel and redeem take exactly it out of their counter and the client's usage |
| Exposure.ExposureAgrees | zama/contracts/ConfidentialRiskEngine.sol:109-188 | In every reachable state each counter is the sum of the reservations it stands for, client usages add up to reserved plus active, and the total fits 64 bits |
| ExposureRuns.RefinesPlain | zama/contracts/ConfidentialRiskEngine.sol:109-188 | The flagged contract refines one that keeps reservations only and has no counters |
| ExposureRuns.NeverAboveThePeak | zama/contracts/ConfidentialRiskEngine.sol:84-135 | Committed exposure never exceeds the largest capacity configured so far, and likewise per client |
| ExposureRuns.WithinUnlessUndercut | zama/contracts/ConfidentialRiskEngine.sol:84-92 | A run stays within current capacity all the time if and only if no reconfiguration goes below what is then committed |
| ExposureRuns.ClientWithinUnlessUndercut | zama/contracts/ConfidentialRiskEngine.sol:94-107 | The same equivalence for a client's limit |
| ExposureRuns.DecisionIsPermanent | zama/contracts/ConfidentialRiskEngine.sol:127-144 | Client, amount and approval of a reservation never change afterwards, only its status does |
| ExposureRuns.RejectedReservationsCanBeErased | zama/test/ConfidentialRiskEngine.ts:121-177 | Deleting every call on rejected reservations from a run leaves a valid run with the same counters and the same other reservations |
| RiskEngine.ConfidentialRiskEngine.ConfigureCapacity | zama/contracts/ConfidentialRiskEngine.sol:84-92 | Overwrites the capacity in place and nothing else |
| RiskEngine.ConfidentialRiskEngine.ConfigureClientLimit | zama/contracts/ConfidentialRiskEngine.sol:94-107 | Overwrites a limit and initializes usage once |
| RiskEngine.ConfidentialRiskEngine.Reserve | zama/contracts/ConfidentialRiskEngine.sol:109-144 | The in-place updates are exactly the specified reservation, and a revert changes nothing |
| RiskEngine.ConfidentialRiskEngine.Finalize | zama/contracts/ConfidentialRiskEngine.sol:146-158 | The in-place updates are exactly the specified finalization |
| RiskEngine.ConfidentialRiskEngine.Cancel | zama/contracts/ConfidentialRiskEngine.sol:160-173 | The in-place updates are exactly the specified cancellation |
| RiskEngine.ConfidentialRiskEngine.Redeem | zama/contracts/ConfidentialRiskEngine.sol:175-188 | The in-place updates are exactly the specified redemption |
| Escrow.AttesterIndex | solana/programs/confidential-escrow/src/state.rs:47-54 | A position is found exactly for configured attesters, and it is theirs |
| Escrow.SettingABit | solana/programs/confidential-escrow/src/state.rs:56-58 | Setting a missing attester bit adds one distinct signer and leaves the other bits and the unused bits alone |
| EscrowSafety.InitialIsGood | solana/programs/confidential-escrow/src/handlers.rs:59-84 | Initialization succeeds exactly for three different attesters and starts in a good state |
| EscrowSafety.RunKeepsInv | solana/programs/confidential-escrow/src/handlers.rs:86-420 | Quorums, receipts, approvals, payouts and the vault sum stay good under every sequence of submissions by anyone |
| EscrowSafety.ApproveOutcome | solana/programs/confidential-escrow/src/handlers.rs:164-264 | An accepted vote writes one sound approval and moves the receipt to authorized exactly at the second mint vote |
| EscrowSafety.QuorumIsSound | solana/programs/confidential-escrow/src/handlers.rs:216-255 | Two distinct signers mean two different configured keys signed the approval's current digest |
| EscrowSafety.OldVotesNeverCount | solana/programs/confidential-escrow/src/handlers.rs:221-255 | A vote that replaces an expired approval starts at one, on a different digest, and never for a mint |
| EscrowSafety.MintApprovalIsNeverReplaced | solana/programs/confidential-escrow/src/handlers.rs:189-240 | A mint vote that is accepted goes into the approval already on chain |
| EscrowSafety.MintApprovalsOnlyGrow | solana/programs/confidential-escrow/src/handlers.rs:189-262 | A mint approval keeps its digest, gains votes only, and is never consumed |
| EscrowSafety.ReceiptsMoveForward | solana/programs/confidential-escrow/src/handlers.rs:256-262 | A step changes nothing of a receipt but its status, and that only forward |
| EscrowSafety.LifecycleOverRuns | solana/programs/confidential-escrow/src/handlers.rs:293-328 | Over a whole run a status that was left is never taken again |
| EscrowSafety.PaidMeansClosed | solana/programs/confidential-escrow/src/handlers.rs:402-409 | A payout is of a cancelled or a released receipt, according to its direction |
| EscrowSafety.VaultNeverTooSmall | solana/programs/confidential-escrow/src/handlers.rs:274-420 | In a good state no movement that passes the other checks finds the vault too small |
| EscrowSafety.VaultPaysOnceAndOnlyWhatWasSigned | solana/programs/confidential-escrow/src/handlers.rs:274-420 | Each operation is paid out at most once, to the destination and of the amount two attesters signed and before the expiry they signed, and the vault holds the open receipts |
| EscrowDecisions.LocksExactlyWhenNew | solana/programs/confidential-escrow/src/handlers.rs:86-162 | A lock succeeds if and only if the operation is new and its deadline ahead; it adds its amount to the vault and a locked receipt of its terms |
| EscrowDecisions.MovesExactlyWhenDue | solana/programs/confidential-escrow/src/handlers.rs:274-420 | In a good state a movement succeeds if and only if its own unconsumed, unexpired approval has two votes on exactly it and the receipt is locked for a cancel, authorized for a release, and on its terms |
| EscrowDecisions.CancelsAndReleases | solana/programs/confidential-escrow/src/handlers.rs:266-272 | The two instructions are that movement in their own direction |
| EscrowDecisions.AMovementWrites | solana/programs/confidential-escrow/src/handlers.rs:389-410 | It takes the committed amount out of the vault to the destination at the current time, consumes the approval, closes the receipt, and changes nothing else |
| EscrowDecisions.VotesExactlyWhen | solana/programs/confidential-escrow/src/handlers.rs:164-264 | The vote of any of the three attesters is accepted if and only if the request fits its receipt in time, the attester signed it, the approval is unused and lacks it or has expired, and a second mint vote finds the receipt open |
| EscrowDecisions.AVoteWrites | solana/programs/confidential-escrow/src/handlers.rs:216-264 | It adds exactly the voter's bit to the live approval or opens one with that bit alone, and authorizes the receipt at the second mint vote |
| EscrowProgram.Program.LockConfidential | solana/programs/confidential-escrow/src/handlers.rs:86-162 | The in-place handler is the specified lock; a failure changes nothing |
| EscrowProgram.Program.OpenApproval | solana/programs/confidential-escrow/src/handlers.rs:216-247 | The account a vote goes into is the one on chain, or a blank one in place of an expired one |
| EscrowProgram.Program.ApproveOperation | solana/programs/confidential-escrow/src/handlers.rs:164-264 | The in-place handler is the specified approval; a failure changes nothing |
| EscrowProgram.Program.MoveVaultTokens | solana/programs/confidential-escrow/src/handlers.rs:274-420 | The in-place movement is the specified one for cancel and release; a failure changes nothing |
| Recovery.ApprovalRoundTrip | bridge/src/recovery.rs:167-184 | Decoding a serialized approval gives its bitmap, consumed flag, expiry and digest, whatever follows it |
| Recovery.ShortApprovalIsRefused | bridge/src/recovery.rs:167-171 | Every proper prefix of a serialized approval is refused |
| Recovery.ReceiptStatusRoundTrip | bridge/src/recovery.rs:186-190 | The status byte is read at its place in the receipt layout |
| Recovery.I64RoundTrip | bridge/src/recovery.rs:159-184 | Little-endian two's complement reads back every 64-bit signed integer |
| Agreement.WhenAVoteLands | solana/programs/confidential-escrow/src/handlers.rs:164-264 | The program accepts the vote of A or B if and only if it opens the count or fills in a missing bit of the same, live digest |
| Agreement.FlaggedVotesReachQuorum | bridge/src/recovery.rs:86-123 | Submitting exactly the flagged votes in order all succeeds and leaves a quorum |
| Agreement.NeverRefusesWhatTheProgramAccepts | bridge/src/recovery.rs:86-123 | For mint and release the coordinator asks for votes whenever the program would accept A or B |
| Agreement.GoesOnExactlyWhen | bridge/src/recovery.rs:86-123 | For an open mint or release request the coordinator goes on if and only if the program would take the vote of A or B, or both stand already, and then it asks for none |
| Agreement.CancelRefusesReplacement | bridge/src/workflow.rs:1448-1454 | For cancel it refuses, of what the program accepts, exactly the replacement of an expired approval |
| Agreement.FreshCancelVotesOnlyOnce | bridge/src/workflow.rs:1223-1278 | A cancel attempt with new proofs gets to vote if and only if no cancel vote was ever recorded and its deadline is ahead |
| Agreement.FreshCancelIsRefusedForEver | bridge/src/workflow.rs:1223-1278 | One recorded cancel vote makes every later attempt be refused, whatever happens in between |
| Agreement.OneCancelVoteIsRecorded | bridge/src/workflow.rs:1223-1278 | Every operation can get there: lock, one signature and one vote leave exactly one recorded cancel vote |
| Agreement.DecidingFromBytes | bridge/src/recovery.rs:86-184 | Deciding on the decoded account bytes is deciding on the approval itself, unless the two hashes at hand collide |
| Units.ScaleNeverOverflows | bridge/src/units.rs:61-75 | Every accepted number of decimals has a scale that fits 64 bits |
| Units.ParsingIsExact | bridge/src/units.rs:87-140 | A string is accepted with a result if and only if it denotes exactly that positive number of base units |
| Units.PrintThenParse | bridge/src/units.rs:142-154 | Printing and parsing give the number back if and only if there is at least one decimal |
| Units.PrintedIsCantonAmount | bridge/src/units.rs:142-154 | What is printed for Canton denotes exactly the ten-place Decimal of those base units |
| Units.WholeTokensRoundTrip | bridge/src/units.rs:25-59 | Whole tokens convert to base units and back |
| Units.HistoryReadsTheSame | bridge/src/canton_history.rs:669-689 | Whenever the six-decimal parser accepts, the history's own reader gives the same number |
| Units.HistoryReadsExactly | bridge/src/canton_history.rs:669-689 | The history's reader gives a number if and only if the text, of any number of places, denotes exactly that many millionths, below 2^128 |
| Units.TenPlacesAreRead | bridge/src/canton_history.rs:669-689 | A Decimal written with the ledger's ten places is read as the base units it stands for |
| Units.PrintedAmountsMatch | bridge/src/canton_history.rs:662-689 | Two printed amounts match exactly when they are the same number |
| Units.ParseCantonDecimal | bridge/src/units.rs:87-140 | The loop that pads the fraction computes the specified parse |
| Units.ParseBase6 | bridge/src/canton_history.rs:669-689 | The loop that pads to six digits computes the specified reading |
| LedgerValues.FieldIsFirstOfAll | bridge/src/canton_history.rs:575-589 | A search by name finds the first of all fields with that name, a record's own before those of its parts |
| LedgerValues.ContainedIsCollected | bridge/src/canton_history.rs:691-730 | Testing a value for a contract id and collecting its contract ids see the same ids |
| LedgerValues.FieldTextIsNamed | bridge/src/canton_history.rs:575-609 | A field search finds only what occurs in the value |
| LedgerValues.ContainedIsNamed | bridge/src/canton_history.rs:691-705 | The contract-id search finds only what occurs in the value |
| LedgerValues.LegAllocationIsNamed | bridge/src/canton_history.rs:732-755 | The allocation found for a leg occurs in the value |
| History.ChooseBinding | bridge/src/canton_history.rs:883-925 | The gathering loop accepts bindings exactly when they agree on one holding and one trade, and picks the last with a payment, else the last |
| HistoryQueries.UniqueCreatedExactly | bridge/src/canton_history.rs:935-954 | A unique query answers with the first fact hit, one with arguments preferred, if and only if all facts hit are of one contract and update |
| HistoryQueries.UniqueExercisedExactly | bridge/src/canton_history.rs:956-975 | The same for choices, facts with argument and result preferred |
| HistoryQueries.CreatedByCidExactly | bridge/src/canton_history.rs:927-933 | A lookup by contract id answers with the last fact that has arguments, or the last where none has |
| HistoryQueries.BindingOfExactly | bridge/src/canton_history.rs:883-925 | A binding stands for its lock if and only if all bindings of the lock agree on the holding and on one trade and it is the last paid one, or the last |
| HistoryEvidence.ConnectsExactlyWhenSupported | bridge/src/canton_history.rs:114-514 | Evidence is given if and only if a chain of recorded facts, from the minted lock to the redeemed lock, says field by field what the evidence says |
| HistoryEvidence.AcceptedHistoryHas | bridge/src/canton_history.rs:480-514 | Each field of the evidence is in the history: the mint, the binding and its trade, the funding, the settlement and its two receipts with owners, amounts and instruments, the request, the burn and the redeemed lock |
| HistoryFrame.CreatedIgnoresNoise | bridge/src/canton_history.rs:935-954 | A selection of created facts is the same on every interleaving with facts it does not hit |
| HistoryFrame.ExercisedIgnoresNoise | bridge/src/canton_history.rs:956-975 | The same for exercised facts |
| HistoryFrame.UniqueCreatedAnswers | bridge/src/canton_history.rs:935-954 | What a unique query answers is one of the facts and is what was asked for |
| HistoryFrame.EvidenceIsFramed | bridge/src/canton_history.rs:114-514 | An accepted history gives the same evidence on any interleaving with facts naming none of the operation's ids |
| HistoryFrame.OperationsDoNotShareAMint | bridge/src/canton_history.rs:128-200 | One history never gives evidence for two locks from the same minted holding |
| CantonBacking.AllocateKeepsInv | daml/stablecoin-registry/daml/Stablecoin/Rules.daml:47-102 | Allocating locks the inputs behind exactly one new allocation of equal amount, instrument and sender |
| CantonBacking.LockInputsLocks | daml/treasury-registry/daml/Treasury/Rules.daml:75-102 | The effects of an allocation: the inputs go; the locked holding, the change and the allocation come |
| CantonBacking.ReleasingKeepsInv | daml/treasury-registry/daml/Treasury/Allocation.daml:26-60 | Ending an allocation ends its locked holding and no other |
| CantonBacking.RunKeepsInv | daml/stablecoin-registry/daml/Stablecoin/Allocation.daml:26-60 | In every reachable ledger locked holdings and active allocations are one-to-one with equal contents |
| CantonTotals.RemovingInputs | daml/stablecoin-registry/daml/Stablecoin/Rules.daml:62-75 | What the archived inputs take out of a total is exactly what was added up |
| CantonTotals.ReleasingKeepsTotals | daml/stablecoin-registry/daml/Stablecoin/Allocation.daml:26-60 | Execute, cancel and withdraw keep every instrument's total |
| CantonTotals.OtherStepsKeepTotals | daml/treasury-registry/daml/Treasury/Holding.daml:20-43 | Split, merge, allocate, execute, cancel, withdraw and settle keep every total |
| CantonTotals.TotalsAreConserved | daml/stablecoin-registry/daml/Stablecoin/Holding.daml:20-47 | Over every run a total changes by exactly what was minted or issued minus what was burned |
| DvpSettlement.LookupCannotAbort | daml/dvp-settlement/daml/Dvp/Trade.daml:39-43 | Once the leg ids are the two expected ones, looking each up finds exactly one |
| DvpSettlement.ExecuteCannotFail | daml/stablecoin-registry/daml/Stablecoin/Allocation.daml:26-38 | In a reachable ledger an authorized execution before the deadline succeeds |
| DvpSettlement.ExpectedIsOnTerms | daml/dvp-settlement/daml/Dvp/Trade.daml:107-122 | What a trade expects of a leg is exactly its venue, its proposal, its three times and that leg as agreed |
| DvpSettlement.SettlesExactlyWhenGuarded | daml/dvp-settlement/daml/Dvp/Trade.daml:61-93 | Settlement succeeds if and only if venue, deadline, legs, distinctness and the match with the trade's terms hold: neither leg can fail after them |
| DvpSettlement.SettlementMovesBothLegs | daml/dvp-settlement/daml/Dvp/Trade.daml:61-93 | A success moves exactly the two leg amounts to their receivers; a failure leaves the ledger unchanged |
| LedgerDecisions.SplitsExactlyWhen | daml/stablecoin-registry/daml/Stablecoin/Holding.daml:24-34 | An owner splits a free holding if and only if the part is positive and smaller, and gets exactly the two parts |
| LedgerDecisions.MergesExactlyWhen | daml/treasury-registry/daml/Treasury/Holding.daml:32-43 | Two holdings merge if and only if they are different, free, of one owner and instrument and their sum is a Decimal |
| LedgerDecisions.AMergeWrites | daml/treasury-registry/daml/Treasury/Holding.daml:32-43 | Both holdings go and one of their sum comes, nothing else changes |
| LedgerDecisions.BurnsExactlyWhen | daml/stablecoin-registry/daml/Stablecoin/Holding.daml:20-22 | The admin burns exactly free holdings, which only go |
| LedgerDecisions.IssuesExactlyWhen | daml/stablecoin-registry/daml/Stablecoin/Instrument.daml:16-28 | The admin issues any positive Decimal, unlocked, and nothing else |
| LedgerDecisions.AllocatesExactlyWhen | daml/stablecoin-registry/daml/Stablecoin/Rules.daml:47-102 | An allocation succeeds if and only if the sender asks in time with different free inputs that cover the leg, equality included, and both parties are eligible through settlement |
| LedgerDecisions.AnAllocationWrites | daml/stablecoin-registry/daml/Stablecoin/Rules.daml:75-102 | The inputs go; the locked leg, the change if any, and the allocation of exactly that specification come |
| LedgerDecisions.EndsExactlyWhen | daml/stablecoin-registry/daml/Stablecoin/Allocation.daml:26-60 | In a reachable ledger an allocation ends if and only if its controllers say so, by a transfer only before its deadline |
| LedgerDecisions.EndingsWrite | daml/stablecoin-registry/daml/Stablecoin/Allocation.daml:26-60 | A transfer pays the receiver, cancel and withdraw the sender, exactly the locked amount |
| LedgerDecisions.AcceptsExactlyWhen | daml/dvp-settlement/daml/Dvp/Proposal.daml:30-39 | Seller and buyer can each approve once, whoever else did; terms and root stay |
| LedgerDecisions.InitiatesExactlyWhen | daml/dvp-settlement/daml/Dvp/Proposal.daml:48-64 | The venue makes a trade of the terms if and only if both parties approved and the deadline to allocate is ahead |
| LedgerDecisions.RejectsExactlyWhen | daml/dvp-settlement/daml/Dvp/Proposal.daml:41-46 | A proposal or a trade goes on the word of exactly the parties that may reject or withdraw it, and nothing else changes |
| LedgerDecisions.AllocatedTradesCanBeSettled | daml/dvp-settlement/daml/Dvp/Trade.daml:61-122 | Seller and buyer who can each allocate their leg on the trade's terms can have it settled at any later time before its deadline |
| TradeIsolation.ProposingIsApartExactly | daml/dvp-settlement/daml/Dvp/Proposal.daml:9-39 | Publishing a proposal keeps roots and trades apart if and only if its root is free |
| TradeIsolation.StepIsApartExactly | daml/dvp-settlement/daml/Dvp/Proposal.daml:30-64 | Any transaction keeps them apart if and only if it publishes no proposal with a root already taken |
| TradeIsolation.RunIsApartExactly | daml/dvp-settlement/daml/Dvp/Proposal.daml:30-64 | They stay apart all through a run if and only if every proposal of it had a free root when it came |
| TradeIsolation.UnmarkedProposalsJoinApart | daml/dvp-settlement/daml/Dvp/Proposal.daml:30-39 | Proposals created without a trade id always have free roots |
| TradeIsolation.NoAllocationMatchesTwoTrades | daml/dvp-settlement/daml/Dvp/Trade.daml:107-122 | Over every run whose proposals had free roots, no two trades share a root, a settlement reference or an expected allocation |
| TradeIsolation.OneLegExactlyIfTheOther | daml/dvp-settlement/daml/Dvp/Trade.daml:77-93 | Over such runs that execute by settlement only, one leg of a trade was executed exactly if the other was |
| TradeIsolation.StartingWithATradeIdBreaksIsolation | daml/dvp-settlement/daml/Dvp/Proposal.daml:46-64 | Two proposals created with the same trade id break that guard and become two trades with the same expected allocation |
| TradeClashes.BecomesATrade | daml/dvp-settlement/daml/Dvp/Proposal.daml:30-64 | Before its deadline every proposal can still become a trade, and nothing else changes for others |
| TradeClashes.FreeRootsAreNeeded | daml/dvp-settlement/daml/Dvp/Proposal.daml:30-64 | While deadlines are open, a root is free if and only if no later run of unmarked proposals makes two trades of one root |
| EligibilityWindows.ExecutedInsideBothWindows | daml/stablecoin-registry/daml/Stablecoin/Eligibility.daml:28-37 | Every executed transfer lies inside the windows of both eligibilities presented at its allocation |
| EligibilityWindows.VouchersAreEligible | daml/treasury-registry/daml/Treasury/Eligibility.daml:28-37 | An accepted allocation was vouched for by eligibilities of its two parties that last through settlement |
| GatewayDecisions.MintsExactlyWhenAttested | daml/bridge-gateway/daml/Bridge/Gateway.daml:70-107 | A gateway mints if and only if two different configured attesters each signed an active attestation of exactly that mint, the lock is not minted yet and the registry can issue |
| GatewayDecisions.AMintWrites | daml/bridge-gateway/daml/Bridge/Gateway.daml:88-107 | It leaves the beneficiary's holding, the minted lock, the reference and the next gateway, and nothing else |
| GatewayDecisions.RedeemsExactlyWhenAttested | daml/bridge-gateway/daml/Bridge/Gateway.daml:109-173 | A gateway redeems if and only if two different configured attesters each signed exactly that request, the lock is minted and unredeemed, its trade paid the requester with that holding, and the holding is free and of the amount |
| GatewayDecisions.ARedemptionWrites | daml/bridge-gateway/daml/Bridge/Gateway.daml:161-173 | The holding goes; the redeemed lock and the next gateway come, and nothing else |
| GatewayDecisions.EveryMintAndBurnHadTwoKeys | daml/bridge-gateway/daml/Bridge/Gateway.daml:70-173 | Over every run each gateway mint and burn was made in a state in which two different configured attesters stood for it |
| GatewayDecisions.BindsExactlyWhen | daml/bridge-gateway/daml/Bridge/Binding.daml:20-44 | A reference is bound if and only if the buyer names a trade with a seller and a venue apart from each other, buyer and registry; the binding keeps lock and holding |
| GatewayDecisions.RecordsExactlyWhen | daml/bridge-gateway/daml/Bridge/Binding.daml:68-84 | The buyer records the treasury holding and the seller the payment, each if and only if none is recorded, and nothing else changes |
| CantonAccounting.RedeemNeeds | daml/bridge-gateway/daml/Bridge/Gateway.daml:109-160 | A redemption is of a minted, unredeemed lock, for the amount its minted lock and its holding both have |
| CantonAccounting.MintingStaysBalanced | daml/bridge-gateway/daml/Bridge/Gateway.daml:70-107 | A gateway mint adds one new lock and its amount to the books |
| CantonAccounting.BurningStaysBalanced | daml/bridge-gateway/daml/Bridge/Gateway.daml:161-173 | A gateway burn takes exactly the minted amount of one lock out of the books |
| CantonAccounting.BooksAlwaysBalance | daml/bridge-gateway/daml/Bridge/Gateway.daml:70-173 | Over every run no lock is minted or burned twice, burned means minted for the same amount, and mints minus burns are the minted, unredeemed locks |
| CantonAccounting.FreshGatewayIsBalanced | daml/bridge-gateway/daml/Bridge/Gateway.daml:51-68 | A new gateway starts with balanced books |
| CantonSupply.CirculationIsOutstandingLocks | daml/bridge-gateway/daml/Bridge/Gateway.daml:70-173 | If only the gateway mints and burns an instrument, its circulating total moves exactly with the minted, unredeemed locks, whatever trading does |
| CantonSupply.FromNothingOnlyLocksCirculate | daml/bridge-gateway/daml/Bridge/Gateway.daml:51-173 | From a gateway with empty lists and nothing in circulation, the circulating total is the minted, unredeemed locks |
| BridgeSupply.MintsTogether | daml/bridge-gateway/daml/Bridge/Gateway.daml:70-107 | A gateway mint of an operation for the Decimal of its amount, with the rail's mint, keeps lists and flags in step |
| BridgeSupply.BurnsTogether | daml/bridge-gateway/daml/Bridge/Gateway.daml:161-173 | A gateway burn with the rail's burn keeps them in step |
| BridgeSupply.StepKeepsJoinedInv | bridge/src/workflow.rs:284-411 | Every step of ledger, rail or both keeps the books balanced, the rail in order and the gateway's lists and the rail's flags equal |
| BridgeSupply.CirculationIsWithinTheVault | bridge/src/workflow.rs:249-411 | Over every joined run all coins circulating on Canton are exactly the operations minted and not burned, ten thousand last places a base unit, and within the vault and the committed exposure |
| BridgeSupply.NewIsInStep | daml/bridge-gateway/daml/Bridge/Gateway.daml:51-68 | A new gateway and a rail without mints start in step |
| CantonBindings.RunKeepsBindings | daml/bridge-gateway/daml/Bridge/Binding.daml:7-44 | Each lock has at most one mint reference or binding, and it names the holding that was minted |
| CantonBindings.BindingsAreForEver | daml/bridge-gateway/daml/Bridge/Binding.daml:46-84 | A binding never changes lock, holding, parties or trade, and a recorded payment or treasury holding stays |
| CantonProgram.Ledger.CheckInputs | daml/stablecoin-registry/daml/Stablecoin/Rules.daml:62-71 | The loop over the inputs accepts exactly usable ones and adds them up |
| CantonProgram.Ledger.AllocateHoldings | daml/stablecoin-registry/daml/Stablecoin/Rules.daml:47-102 | The archive and create sequence is the specified allocation, or nothing |
| CantonProgram.Ledger.ExecuteTransfer | daml/stablecoin-registry/daml/Stablecoin/Allocation.daml:26-38 | Archive, check and create are the specified execution, or nothing |
| CantonProgram.Ledger.CancelAllocation | daml/stablecoin-registry/daml/Stablecoin/Allocation.daml:40-60 | Gives the sender the locked amount back, or nothing |
| CantonProgram.Ledger.WithdrawAllocation | daml/stablecoin-registry/daml/Stablecoin/Allocation.daml:46-60 | The same on the sender's word alone |
| CantonProgram.Ledger.SplitHolding | daml/stablecoin-registry/daml/Stablecoin/Holding.daml:24-34 | Replaces a holding by its two parts, or nothing |
| CantonProgram.Ledger.MergeHoldings | daml/treasury-registry/daml/Treasury/Holding.daml:32-43 | Replaces two holdings by their sum, or nothing |
| CantonProgram.Ledger.BurnHolding | daml/stablecoin-registry/daml/Stablecoin/Holding.daml:20-22 | Archives an unlocked holding |
| CantonProgram.Ledger.IssueHolding | daml/stablecoin-registry/daml/Stablecoin/Instrument.daml:16-28 | Creates an unlocked holding of the issuer's instrument |
| CantonProgram.Ledger.AcceptProposal | daml/dvp-settlement/daml/Dvp/Proposal.daml:30-39 | Consumes the proposal and creates its successor with one approver more and the root fixed |
| CantonProgram.Ledger.InitiateSettlement | daml/dvp-settlement/daml/Dvp/Proposal.daml:46-64 | Consumes a proposal both parties approved and creates the trade |
| CantonProgram.Ledger.SettleTrade | daml/dvp-settlement/daml/Dvp/Trade.daml:61-93 | The sequence of checks and two executions is the specified settlement, or nothing |
| CantonProgram.Ledger.GatewayMint | daml/bridge-gateway/daml/Bridge/Gateway.daml:70-107 | The mint sequence is the specified gateway mint, or nothing |
| CantonProgram.Ledger.GatewayRedeem | daml/bridge-gateway/daml/Bridge/Gateway.daml:109-173 | The burn sequence is the specified redemption, or nothing |
| CantonProgram.Ledger.BindMint | daml/bridge-gateway/daml/Bridge/Binding.daml:20-44 | Consumes the reference and creates the binding |
| CantonProgram.Ledger.RecordSellerPayment | daml/bridge-gateway/daml/Bridge/Binding.daml:77-84 | Records a payment once |
| CantonProgram.Ledger.RecordBuyerTreasury | daml/bridge-gateway/daml/Bridge/Binding.daml:68-76 | Records a treasury holding once |
| OperationJournal.CompletingOnlyAdvances | bridge/src/journal.rs:47-128 | Completing a step reaches exactly what was reached before and the ranks up to that step |
| RailSafety.QuorumWasAllowed | solana/programs/confidential-escrow/src/handlers.rs:216-255 | Two votes mean A or B signed, so the reservation of a mint was approved and a release was burned first |
| RailSafety.EveryOperationIsBacked | bridge/src/workflow.rs:249-411 | Minted and not burned has an authorized receipt of the same amount and a live approved reservation; released means burned; cancelled means never minted |
| RailSafety.BridgedCoinsAreBacked | solana/programs/confidential-escrow/src/handlers.rs:256-328 | Over every allowed run all outstanding stablecoins are within the vault and within committed exposure |
| RailSafety.EachEffectHappensOnce | bridge/src/workflow.rs:755-761 | Over every allowed run each effect of an operation is brought about at most once |
| CoordinatorSafety.EveryMoveIsTrue | bridge/src/workflow.rs:81-411 | Each step of an attempt takes only allowed chain actions and writes only what the chains show |
| CoordinatorSafety.QuorumSeenIsAuthorized | bridge/src/workflow.rs:1528-1549 | A mint approval read with two votes means the program has authorized the mint |
| CoordinatorSafety.ReleaseEndsKnown | bridge/src/workflow.rs:843-902 | A release that is skipped is a release that is on chain |
| CoordinatorRuns.CoordinatorRefinesRail | bridge/src/workflow.rs:81-411 | Any run of attempts, crashes, resumptions and others' acts is an allowed run of the chains |
| CoordinatorRuns.BackingSurvivesCrashes | bridge/src/workflow.rs:249-411 | In every state of every such run, also between a chain effect and the journal write after it, every operation is backed and the sums are within vault and exposure |
| CoordinatorRuns.EffectsHappenOnceDespiteCrashes | README.md:400-406 | Over every such run lock, mint, settlement, burn, release and redemption each happen at most once |
| CoordinatorRuns.JournalIsNeverAhead | bridge/src/workflow.rs:1415-1423 | The saved journal reaches a step only if its effect is on chain, an approved release only if two attesters signed one, and says cancelled only if the refund is |
| ReleaseMaterials.NextStaysAheadExactly | bridge/src/workflow.rs:1044-1093 | An event leaves every live release approval on the saved materials if and only if it is no accepted outside vote on others |
| ReleaseMaterials.MaterialsAreWrittenAhead | bridge/src/workflow.rs:1044-1093 | Over every run of harmless events a live release approval carries the digest and expiry of the materials in the saved journal |
| ReleaseMaterials.WrittenAheadExactly | bridge/src/workflow.rs:863-954 | It does so all through a run if and only if every outside release vote was harmless when it landed |
| ReleaseMaterials.SoleSubmitterIsHarmless | bridge/src/workflow.rs:1437-1550 | With the coordinator as sole submitter of its release votes every run is harmless |
| ReleaseMaterials.NoReleaseIsRefusedForItsDigest | bridge/src/workflow.rs:863-954 | So in harmless runs no resumed release is refused because a live approval has another digest |
| ReleaseMaterials.RefreshedMeansDead | bridge/src/recovery.rs:141-157 | Materials are cleared only when no release approval is live |
| ReleaseMaterials.NewMaterialsClashExactly | bridge/src/recovery.rs:114-118 | An attempt that makes new materials is refused for their digest if and only if a release approval is live |
| ReleaseMaterials.LateVoteIsFatalExactly | bridge/src/recovery.rs:114-118 | If a release vote comes after the attempt cleared its materials, it is refused so if and only if the program accepted the vote |
| Resumption.ReturnsToTheRelease | README.md:400-406 | A new attempt on a burned operation comes back to the release and changes neither chains nor journals on its way |
| LateVotes.LateVoteStopsARelease | bridge/src/workflow.rs:863-954 | From every world with a stalled release there is a run in which the coordinator's own vote, landing late, stops the next attempt |
| LateVotes.SomeReleaseStalls | bridge/src/recovery.rs:141-157 | There is such a world |
| Recoverability.ReleaseSucceeds | solana/programs/confidential-escrow/src/handlers.rs:265-328 | With two votes on unexpired materials of an authorized operation the program accepts the release |
| Voting.DecidesAndCollects | bridge/src/workflow.rs:1437-1550 | For a mint, a cancel or a release an attempt that is left alone collects exactly the votes of A and B that are missing, and nothing else changes |
| Recoverability.EndsByVoting | bridge/src/workflow.rs:1437-1550 | An attempt that still lacks votes of A or B ends with the operation released and redeemed |
| Recoverability.EveryBurnedOperationCanBeFinished | bridge/src/workflow.rs:825-1042 | From every world at rest after the burn a new attempt that is left alone ends with the operation released and redeemed |
| Progress.EveryOperationGetsAuthorized | bridge/src/workflow.rs:81-245 | From every world at rest with nothing in the way a new attempt that is left alone gets a live reservation and, over a receipt it finds or makes, two attesters to authorize the mint |
| Progress.EveryOperationCanBeCarriedThrough | bridge/src/workflow.rs:81-411 | From there it mints, trades, settles and burns, and ends with the operation released and redeemed |
| Progress.CompletedOperationIsRecorded | bridge/src/workflow.rs:95-109 | An attempt on a redeemed operation changes nothing on the chains and completes the journal |
| Progress.StopsWhereAsked | bridge/src/workflow.rs:1415-1423 | An attempt that is to stop after a step completes it, saves it unless told not to, and leaves the chains alone |
| LockDecision.NoLockOverFunds | bridge/src/workflow.rs:755-769 | While the vault holds something, no number of attempts with any flags and crashes changes the escrow for an operation without a receipt |
| LockDecision.LocksExactlyWhenItMay | bridge/src/workflow.rs:742-822 | An operation without a receipt gets one from an attempt that is left alone if and only if it can be reserved, the vault is empty and the deadline ahead or not yet set |
| CancelPath.EveryLockedOperationCanBeRefunded | bridge/src/workflow.rs:1193-1343 | An attempt to cancel that is left alone refunds a locked operation, or finds it refunded, cancels its reservation and records it if nothing else is in the vault |
| CancelPath.CancelsExactlyWhenItMay | bridge/src/workflow.rs:1213-1278 | It cancels a receipt if and only if that is locked on the operation's terms and was never voted on for a cancel |
| CancelPath.NothingIsCancelled | bridge/src/workflow.rs:1213-1278 | Otherwise it leaves receipts, approvals, vault and reservations as they are |
| CancelPath.EveryExpiredLockCanBeRecovered | bridge/src/workflow.rs:1096-1190 | Once the mint deadline is over an expiry recovery that is left alone refunds the locked operation |
| CancelPath.WaitsForTheDeadline | bridge/src/workflow.rs:1096-1190 | Until then it waits and changes nothing |
| Workflow.Workflow.ReserveOnce | bridge/src/workflow.rs:612-652 | Resumes an approved reservation or submits one; a rejected one ends the attempt |
| Workflow.Workflow.LockOnce | bridge/src/workflow.rs:742-822 | Skips an existing receipt, else saves the proof commitment before the lock is sent |
| Workflow.Workflow.ApproveNeeded | bridge/src/workflow.rs:1437-1550 | The loop over the attesters submits the missing votes and goes on only with two of three |
| Workflow.Workflow.StartRelease | bridge/src/workflow.rs:843-902 | Requires the burn and an uncancelled receipt, and clears expired materials |
| Workflow.Workflow.MakeMaterials | bridge/src/workflow.rs:1044-1093 | Reuses saved materials or saves new ones before anything is signed |
| Workflow.Workflow.ReleaseOnce | bridge/src/workflow.rs:825-1042 | Votes, releases, and redeems the reservation, each only if still missing |
| Workflow.Workflow.RunExpiryRecovery | bridge/src/workflow.rs:1096-1190 | After the mint deadline the mint must be refused, then the lock is cancelled |
| Workflow.Workflow.CancelLockedOperation | bridge/src/workflow.rs:1193-1329 | Cancels a locked receipt and its reservation and checks the vault |
| Workflow.Workflow.CancelZamaIfReserved | bridge/src/workflow.rs:1331-1343 | Cancels a reserved reservation, accepts a cancelled one, refuses any other |
| Workflow.Workflow.Halt | bridge/src/workflow.rs:1415-1423 | Completes a step, saves unless told not to, and stops where asked |
| Workflow.Workflow.RunFull | bridge/src/workflow.rs:81-411 | One whole attempt is a run of the coordinator, and goes on until the coordinator's attempt is over unless its budget of events is used up |
| UndisturbedRuns.UndisturbedRunCarriesThrough | bridge/src/workflow.rs:81-411 | A plain run of the program that nobody interferes with or stops leaves the operation minted, settled, burned, released and redeemed when nothing was in the way |
| UndisturbedRuns.UndisturbedRunRefunds | bridge/src/workflow.rs:1193-1329 | A run that is to cancel leaves a cancellable operation refunded |
| Workflow.WhereverItStops | bridge/src/workflow.rs:81-411 | Wherever the program stops, every operation is backed and the sum is within the vault |

## Left out

- `prove_relayer` mode: it releases without a Canton burn on purpose, so the cross-chain results are about `run` only.
- Fault-injection flags of the coordinator (`halt_after_first_approval`, `inject_*`): they end an attempt early, which a
  crash at the same point already covers.
- Cryptography and account rules: FHE, ElGamal, SHA-256, Ed25519 offsets, Token-2022 account checks, PDA derivation.
- Role checks, pausing and epoch rollover of the exposure ledger; role checks of the escrow.
- Account creation and funding, reuse of accounts, the apply-pending step of the receiver, and the evidence field checks
  in `canton.rs` and `completed_operation_decision` beyond the receipt status.
- RPC, relayer, process and file errors: any of them is a stop of the attempt at that point. JSON parsing of facts.
- Error messages: kept as kinds that the callers tell apart; a failing fetch of an input holding is a rejection.
- `Tests.Bridge.Runtime` and the console scripts are not part of this model; neither are reassignment, topology and
  visibility, so a fetch is refused here only when the contract is not active or of another template.
- Metadata and extra arguments of the token standard, which the shown code only passes through.
- LockDecision.LocksExactlyWhenItMay: the source account is taken to hold the amount; its own balance check
  (bridge/src/workflow.rs:759-768) is about accounts that are not modelled.
- EscrowSafety.VaultPaysOnceAndOnlyWhatWasSigned: amounts are those of the commitments, because the ciphertexts are not modelled.
- TradeIsolation.OneLegExactlyIfTheOther: for runs in which transfers are executed by settlements only, because executor,
  sender and receiver together may execute a leg on their own.
- BridgeSupply.CirculationIsWithinTheVault: the gateway is used by the coordinator only, which attests the Decimal of the
  operation's amount (bridge/src/workflow.rs:306); the Daml gateway does not check the amount against the lock.
- CantonSupply.CirculationIsOutstandingLocks: for a gateway whose issuer is of the instrument it names; the gateway itself
  does not check that they agree.
