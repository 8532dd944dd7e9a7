# A verified model of the TIME Coin masternode

This project models, in Dafny, the parts of the TIME Coin masternode where a mistake costs
money or consensus, and proves what they are for:

- **Transaction finality on one node** (`Transactions`, `Ledger`, `FinalityRuns`,
  `FinalitySafety`, `FinalityValue`, `FinalityOutcomes`, `FinalityEdges`, `Engine`). Outpoints
  move through Unspent, Locked, SpentPending and SpentFinalized. A run is any sequence of
  submissions, gossip, mempool sync, vote requests, votes that claim any weight, voting rounds,
  rejections, recoveries, evictions, lock expiries, and finalizations and locks that peers tell
  of. In every run, two confirmed transactions that share an input were both confirmed by votes. If in addition one validator set holds for the run and every vote
  claims its validator's weight, the validators who accepted both carry at least 2% of the stake,
  more than a third when no round outlasts 30 seconds, and honest validators rule it out. The
  exact conditions for disjoint confirmed inputs, for spent outpoints staying spent, for
  confirmed transactions owning their inputs and for conservation of value are proved over whole
  runs. `FinalityOutcomes` says exactly which transactions validation accepts, when each operation
  confirms, rejects or keeps one, and that whatever runs confirm was signed and paid its fee.
  `Engine` is the imperative form: a class whose methods, with the loops of the source,
  refine the operations of `Ledger`.
- **Block voting** (`VoteAccumulator`, `BlockVoting`). The prepare and precommit accumulators,
  the exact participation at which a second block can overtake a signalled one, and the voters
  saved when the height advances.
- **TimeVotes and the fallback** (`Quorum`, `TimeVotes`, `Fallback`). Thresholds and the overlap
  of vote sets, accumulated weights, TimeProofs from assembly to verification, fallback rounds,
  fallback votes and TimeLock resolution, and exactly which operations take a finalized
  transaction back.
- **Fees and batches** (`Fees`, `Partition`). The fee to subtract from a gross amount as an
  inverse of a tiered schedule, and greedy partition into groups without conflicts.
- **Governance** (`Governance`, `GovernanceStore`). Tally, prediction of treasury spends, life of
  a proposal, and a database, keyed by text, that always reloads to the memory it was written
  from.
- **Block cache** (`Lru`, `BlockCache`). Two LRU tiers that read as the block last put, and
  exactly when they do not.
- **Three algorithms** (`Gregorian`, `Chunked`, `Headers` and `ChainValidation`). The closed-form
  calendar conversion against counting days, the chunked decoder against section 7.1 of RFC
  9112, and chain-sequence validation with Merkle roots and the bytes a block hash is taken over.

`dafny verify dfyconfig.toml` checks everything. Objects the source updates in place are
classes whose methods are proved against functions on values (`ensures View() == ...`); the
properties are lemmas about those functions. Iteration over hash maps is a loop that takes
any element that is left, so results hold for every order.

Some promises turned out not to hold of the code as it is. Each is kept as a lemma with a
concrete input or a whole family of them, next to the exact condition under which the promise
does hold:

| promise | fails for | holds exactly when |
|---|---|---|
| confirmed transactions are input-disjoint | `EquivocationDoubleSpends`; with honest votes `InflatedWeightDoubleSpends` | `RunDisjointIff`: each vote-driven finalization finds no confirmed transaction with a shared input. `NoDoubleSpend` is the honest case, for registered weights |
| a confirmed transaction keeps its inputs | `LapsedLockMints`: with honest votes the input of a confirmed transaction is Unspent again | `RunOwnsIff`: each vote-driven finalization finds no input held by another transaction |
| a spent outpoint stays spent | `UnknownInputComesBack` | `RunKeepsSpentIff`: no step confirms a transaction one of whose outputs is already spent. `SpentStaysSpent` is the case of known inputs |
| a run conserves value | `LapsedLockMints`; for one call `RepeatedInputMints` | `RunConservesIff`: each vote-driven finalization takes all the value it spends; for one call `SubmitConservesIff` |
| a rejected vote frees its inputs | `RejectedVoteKeepsClaim` | `RejectFreesIff`, and for eviction `EvictFreesIff` |
| eviction clears the fallback votes of a transaction | `OrphanedVotes` | `ForgetsVotesIff`: none is filed under anything but the transaction id, which is not how they are filed |
| the subtracted fee is accepted | `UncoveredAmountRefused` | `SubtractAcceptedIff` |
| the subtracted fee is at most 2 too high and the net amount never shrinks | `RisingRatesOvercharge` | one way only: `SubtractTight` and `NetNeverShrinks`, for rates that do not rise |
| the accumulated weight is that of the stored votes | `OverflowLosesVote` | `AccumulateSoundIff` |
| an assembled TimeProof verifies | `TwoChainsAssembled` | `AssembledAcceptableIff` |
| a fallback decision is final | `DecisionFlips`, for totals 2 and 4 | `DecisionFinalIff`: the total is neither 2 nor 4 |
| a finalized transaction stays finalized | `FinalizedThenRejected`, when its last round runs out; `LateVoteUnfinalizes`, by late fallback votes | `RunKeepsFinalizedIff`: no operation of the run is a return to voting or fallback, an eviction or a rejection of a finalized transaction, a vote that completes a quorum against one, or a timeout check that finds one in an exhausted round |
| the cache reads as the last block put | `StaleRead` | `RunReadsTrulyIff`: no step pushes a height out of the hot tier while its bytes in the warm tier are stale |
| an accepted chain sequence has only valid blocks | `FirstBlockUnchecked` | `AllSoundIff` |
| a block hash fixes the header | `TwinAccepted`, for every block that names its leader | `EqualMessages`: the leaders are equally long |
| a Merkle root fixes the transactions | `DuplicateSharesRoot` | `SameLengthSameRoot` for lists of one length, `MerkleRootDetermines` with the duplicate check |

Where comments and code differ the code is modelled: `accumulate_fallback_vote` and
`check_finality_threshold` are documented as simple majorities but ask for two thirds rounded
down and for 67% rounded up.

## Model

| member | source | states |
|---|---|---|
| FinalitySafety.NoDoubleSpend | src/consensus.rs:3305-3793 | in every run with one validator set, votes that claim their validator's weight and validators that accept no two conflicting transactions, no two confirmed transactions share an input |
| FinalitySafety.DoubleSpendIsVoted | src/consensus.rs:3305-3793 | in every run, whatever the votes claim: two confirmed transactions that share an input were both confirmed by votes, never by submission, gossip, sync or recovery |
| FinalitySafety.DoubleSpendIsAttributable | src/consensus.rs:3599-3713 | with one validator set, registered weights and thresholds of at least p percent, the validators that accepted two confirmed transactions sharing an input carry at least 2p - 100 percent of the stake |
| FinalitySafety.DoubleSpendShares | src/consensus.rs:6126-6130 | with the thresholds of the code these validators carry at least 2% of the stake, and more than a third when every round decides before 30 seconds |
| FinalitySafety.ThresholdsDemand | src/consensus.rs:6126-6130 | the thresholds of the code never ask for less than 51%, and for 67% when every round decides before 30 seconds |
| FinalitySafety.VotedIsBacked | src/consensus.rs:1062-1070 | with registered weights, whatever votes confirmed was accepted by validators with p percent of the stake |
| FinalitySafety.RunDisjointIff | src/consensus.rs:3700-3713 | whoever votes how, confirmed inputs are disjoint after a run if and only if each vote-driven finalization would have passed the conflict check that recovery makes; submission, gossip, sync and recovery never break it |
| FinalitySafety.RunKeepsSpentIff | src/utxo_manager.rs:718-774 | over a whole run every spent outpoint stays spent by the same transaction if and only if no step confirms a transaction one of whose outputs is already spent |
| FinalitySafety.FinalizeKeepsIff | src/consensus.rs:3448-3473 | a finalization gives back a spent outpoint if and only if it is an output of the transaction itself |
| FinalitySafety.SpentStaysSpent | src/utxo_manager.rs:718-774 | in every run in which mempool sync and finalizations told by peers bring known inputs, an outpoint finalized by a transaction is finalized by it ever after; it never returns to Unspent, Locked or SpentPending |
| FinalitySafety.RunOwnsIff | src/utxo_manager.rs:718-774 | in every such run all confirmed transactions own all their inputs at the end if and only if each vote-driven finalization found no input held by another; then confirmed inputs are disjoint, whoever votes how |
| FinalitySafety.FinalizeOwnsIff | src/utxo_manager.rs:718-774 | a finalization gets all its inputs if and only if no other transaction holds one |
| FinalitySafety.RunKeeps | src/consensus.rs:3305-3793 | the invariant of every reachable state: each confirmed transaction was voted, or all its inputs are tombstoned, have no coin and are wanted by nothing pending |
| FinalitySafety.StepKeeps | src/consensus.rs:3305-3793 | every single step of a node keeps that invariant |
| FinalityRuns.StepShape | src/consensus.rs:3305-3793 | every step other than a vote-driven finalization leaves confirmed and spent outpoints as they are, up to at most one finalization that nothing opposes |
| FinalityRuns.ProcessShape | src/consensus.rs:3305-3546 | processing admits only new transactions with no spent input, finalizes only unopposed ones and otherwise starts a vote |
| FinalityRuns.SubmitShape | src/consensus.rs:3214-3273 | submission has that shape on success and on both failure paths, and brings in only a transaction that balances and pays the minimum fee |
| FinalityRuns.BroadcastShape | src/network/message_handler/transactions.rs:40-75 | so does a gossiped transaction |
| FinalityRuns.RequestCalm | src/network/message_handler/consensus.rs:1511-1535 | a vote request only locks inputs and brings in a validated transaction |
| FinalityRuns.RecoverShape | src/consensus.rs:4072-4268 | recovery, through relocking, revalidation, fee repair, rejection of rivals and finalization, finalizes only what nothing opposes |
| FinalityRuns.WinnerShape | src/consensus.rs:4172-4206 | a transaction that nobody owns against is unopposed once its pending rivals are rejected |
| FinalityRuns.VoteShape | src/network/message_handler/consensus.rs:1641-1700 | a vote, a reached threshold or a voting round finalizes its transaction as it stands or changes nothing that counts, whatever weight is claimed |
| FinalityRuns.PeerShape | src/network/message_handler/transactions.rs:216-405 | what a peer calls final is confirmed only if nothing opposes it here; with an unknown input nothing is confirmed |
| FinalityRuns.PeerLockCalm | src/network/message_handler/utxo.rs:526-545 | a lock that a peer tells of touches nothing spent, pending or confirmed |
| FinalityRuns.DropCalm | src/consensus.rs:3276-3303 | rejection and eviction give back nothing that was spent for good |
| FinalityRuns.LockAndValidateCalm | src/consensus.rs:3157-3205 | locking and validating never touches a spent outpoint, and on success holds every input |
| FinalityRuns.ValidatedBalance | src/consensus.rs:2838-2940 | a transaction validated with its inputs locked balances: inputs equal outputs plus the fee, which is at least the minimum |
| FinalityRuns.RunBase | src/consensus.rs:3305-3793 | in every reachable state the pool and the confirmed transactions are disjoint and only base or confirmed transactions hold spent outpoints |
| FinalityValue.RunConservesIff | src/consensus.rs:2838-2940 | over every run of distinct-input transactions through validated entry, whoever votes how, live value plus fees never falls, and is constant if and only if every vote-driven finalization takes all the value it spends |
| FinalityValue.RunBalance | src/consensus.rs:2838-2940 | over every such run live value plus collected fees equals the value at the start plus the value of the inputs that vote-driven finalizations found in other hands, and every confirmed transaction paid at least the minimum fee |
| FinalityValue.FinalizeBalance | src/consensus.rs:3448-3473 | exact account of every finalization of a validated transaction: the live value falls by the fee and rises by the value of its inputs held by others |
| FinalityValue.StepBalance | src/consensus.rs:3448-3473 | the same account for every single step |
| FinalityValue.SubmitConservesIff | src/consensus.rs:3448-3473 | a submission that confirms lowers the live value by exactly the validated fee, at least the minimum, if and only if no input value is listed twice |
| FinalityValue.FinalizeAccount | src/consensus.rs:3448-3473 | exact account of any finalization: the claimed coins leave and the outputs arrive |
| FinalityValue.CleanFinalize | src/consensus.rs:3448-3473 | without a foreign claim on an input, a finalization removes every input's coin once, however often it is listed |
| FinalityValue.DivergedMints | src/network/message_handler/transactions.rs:265-304 | a finalization told by a peer with an input unknown here confirms nothing and raises the live value by exactly the outputs that are new |
| FinalityValue.RepeatedInputMints | src/consensus.rs:2838-2852 | a coin of 1 TIME listed twice passes validation and leaves 1.5 TIME |
| FinalityOutcomes.RunPaysDue | src/consensus.rs:2838-2940 | in every run through validated entry, whoever votes how, each pending or confirmed transaction was brought in by a step with good signatures and a fee of at least the minimum, which reaches what the schedule of that step asks for its first output unless it only moves coins of one address |
| FinalityOutcomes.ValidateOutcome | src/consensus.rs:2726-2941 | validation accepts exactly a transaction of admissible size whose inputs are all usable and that either spent them all before or can pay: signed, coins there, no dust, at least 1 TIME, at least the minimum fee, and the scheduled fee or a consolidation within one address; the answer is what it pays |
| FinalityOutcomes.LockedOutcome | src/consensus.rs:2838-2940 | with all inputs locked by the transaction, acceptance means exactly that none is collateral and that it can pay |
| FinalityOutcomes.EntryOutcome | src/consensus.rs:3157-3205 | lock-then-validate succeeds exactly when every input can be locked and the transaction can pay from the coins there are |
| FinalityOutcomes.DeductedPaymentIff | src/consensus.rs:67-98 | a payment to another address that deducts the closed-form fee from its gross amount is accepted if and only if a tier fits or the flat fallback is within the minimum fee, and pays exactly that fee |
| FinalityOutcomes.SubmitOutcome | src/consensus.rs:3214-3273 | a submission succeeds exactly for an admissible transaction, which is confirmed at once, its inputs spent and outputs created, if no other pending or confirmed one wants an input, and holds all its inputs under vote otherwise |
| FinalityOutcomes.BroadcastOutcome | src/network/message_handler/transactions.rs:40-75 | a gossiped transaction that is new here fares exactly as a submitted one, and otherwise nothing but locks changes |
| FinalityOutcomes.RequestOutcome | src/network/message_handler/consensus.rs:1511-1535 | a vote request brings an unknown transaction into the pool exactly when it can be locked, can pay and there is room, and otherwise nothing but locks changes |
| FinalityOutcomes.StoredVoteCounts | src/consensus.rs:1031-1090 | a stored vote adds the weight it claims, once for each voter and to its transaction alone |
| FinalityOutcomes.RoundOutcome | src/consensus.rs:3599-3713 | a voting round at its deadline confirms a valid transaction if and only if the preference is Accept and its votes make 67% of the weight, 51% from 30 seconds on; it is put off exactly below a quarter of that while the deadline can move, and rejected otherwise |
| FinalityOutcomes.ThresholdOutcome | src/network/message_handler/consensus.rs:1641-1700 | the vote that reaches the threshold confirms exactly a pending transaction that no vote confirmed before |
| FinalityOutcomes.RecoverOutcome | src/consensus.rs:4088-4268 | recovery confirms a pending transaction if and only if no input is spent or held by another or listed by a confirmed one and it still validates, and then rejects exactly its pending rivals; it rejects it alone if and only if an input is spent by another or it validates no longer; else it stays pending with a missing fee filled in |
| FinalityOutcomes.PeerConfirmsPending | src/network/message_handler/transactions.rs:216-405 | a peer's word confirms a pending transaction if and only if its inputs are known, unspent and uncontested here and it still validates |
| FinalityOutcomes.PeerConfirmsNew | src/network/message_handler/transactions.rs:216-405 | and an unknown one if and only if moreover it can be locked, can pay, was not rejected and there is room |
| FinalityOutcomes.LockLasts | src/utxo_manager.rs:535-581 | a lock keeps every other transaction out for 600 seconds, to the second, and its holder never |
| FinalityOutcomes.EntryLeaves | src/consensus.rs:3157-3205 | when every input can be locked, success leaves each locked, an own lock with the age it had, and a failed validation frees them all, own locks too; no other outpoint changes |
| FinalityOutcomes.PeerLockOutcome | src/network/message_handler/utxo.rs:526-545 | a lock told by a peer is taken over exactly where the outpoint can be locked |
| FinalityOutcomes.ArchivedRefused | src/consensus.rs:2779-2829 | an archived input can be neither locked nor validated, not even for the transaction that spent it |
| FinalityOutcomes.ForgottenIsDone | src/consensus.rs:2779-2829 | a transaction all whose inputs are tombstoned and without a state validates at no fee |
| FinalityOutcomes.FinalizeTakesIff | src/utxo_manager.rs:718-774 | a finalization takes an input if and only if no other transaction holds it and, where it is unknown, it was never spent |
| FinalityOutcomes.RoundActsOn | src/consensus.rs:2157-2195 | a voting round acts only at its deadline, on a pending transaction that was not rejected and none of whose inputs is spent for good or archived |
| FinalityOutcomes.RejectedStaysInvalid | src/consensus.rs:2157-2195 | a rejected transaction is not valid for a vote again, even back in the pool |
| FinalityOutcomes.DropRecords | src/consensus.rs:4275-4340 | rejection keeps the votes of a transaction and bars it, eviction forgets its votes and finalization and lets it come back; neither touches a coin |
| FinalityOutcomes.RelockOutcome | src/consensus.rs:4108-4130 | recovery locks exactly the free inputs that are no collateral, from that moment on |
| FinalityOutcomes.PeerKeepsRecords | src/network/message_handler/transactions.rs:216-405 | a finalization told by a peer leaves statuses and recorded finalizations alone |
| FinalityEdges.InflatedWeightDoubleSpends | src/consensus.rs:1062-1070 | a concrete run in which two validators with 1% of the stake each vote once, for different rivals, claiming all of it: everyone is honest and both rivals are confirmed |
| FinalityEdges.EquivocationDoubleSpends | src/consensus.rs:3700-3713 | a concrete run with registered weights in which a validator that votes for two rivals gets both confirmed |
| FinalityEdges.BothConfirmed | src/network/message_handler/consensus.rs:1641-1700 | two rivals for one coin are both confirmed by any votes that claim enough for each |
| FinalityEdges.LapsedLockMints | src/utxo_manager.rs:535-581 | a concrete run with honest registered votes and validated entries: a lock lapses, a rival takes the coin, votes confirm the first holder and the rival is evicted; the confirmed input is Unspent again and 2 TIME of coins have become 3.5 |
| FinalityEdges.RejectFreesIff | src/consensus.rs:3276-3303 | rejection leaves no input held by the transaction if and only if it held them by nothing but locks |
| FinalityEdges.EvictFreesIff | src/consensus.rs:4275-4313 | eviction leaves none held if and only if those it held were locked or pending and no collateral |
| FinalityEdges.EvictUndoesVoting | src/consensus.rs:4275-4340 | evicting a transaction under vote returns every input to Unspent and the pool and coins to what they were |
| FinalityEdges.RejectedVoteKeepsClaim | src/consensus.rs:3276-3303 | rejecting a transaction under vote leaves its inputs claimed, so no other transaction can lock or process them |
| FinalityEdges.FailedSubmitLeavesNoTrace | src/consensus.rs:3214-3273 | a failed submission whose inputs were not locked before leaves the node exactly as it was |
| FinalityEdges.VotingEnds | src/consensus.rs:3574-3713 | the voting deadline only grows, to 15 seconds at most, where the loop always decides; it finalizes exactly on an Accept preference with the threshold reached |
| FinalityEdges.UnknownInputComesBack | src/network/message_handler/transactions.rs:588-596 | mempool sync of a child before its parent spends an unknown outpoint that the parent then recreates as Unspent |
| Engine.ConsensusEngine.LockUtxo | src/utxo_manager.rs:535-581 | locks exactly Unspent outpoints, own locks and expired locks, never collateral, spent or unknown ones |
| Engine.ConsensusEngine.MarkTimevoteFinalized | src/utxo_manager.rs:718-774 | marks, tombstones and removes the coin unless another transaction holds the outpoint or it was spent before |
| Engine.ConsensusEngine.CleanupExpiredLocks | src/utxo_manager.rs:684-703 | frees exactly the expired locks and counts them |
| Engine.ConsensusEngine.LockInputs | src/consensus.rs:3160-3168 | the lock loop stops at the first input that cannot be locked and keeps the locks before it |
| Engine.ConsensusEngine.ValidateWithLocks | src/consensus.rs:2726-2941 | the loops of validation compute the specified verdict and fee, and accept exactly a transaction whose inputs are usable and that is done already or can pay |
| Engine.ConsensusEngine.CheckInputs | src/consensus.rs:2779-2829 | accepts inputs exactly when each is usable, and tells when all are already finalized |
| Engine.ConsensusEngine.GatherInputs | src/consensus.rs:2838-2856 | sums the input values and tells whether they share one address, or reports a missing coin |
| Engine.ConsensusEngine.LockAndValidateTransaction | src/consensus.rs:3157-3205 | refines the specified lock-then-validate, with the unlock on failure |
| Engine.ConsensusEngine.UnlockTransactionInputs | src/consensus.rs:3286-3303 | gives back exactly the locks the transaction holds |
| Engine.ConsensusEngine.InputsAlreadySpentByOther | src/consensus.rs:3123-3146 | true exactly when an input is spent by another transaction or tombstoned without being ours |
| Engine.ConsensusEngine.PoolInputsOverlap | src/transaction_pool.rs:478-494 | true exactly when another pool entry spends one of the inputs |
| Engine.ConsensusEngine.HasDoubleSpendConflict | src/consensus.rs:3096-3119 | true exactly when the pool or another holder contests an input |
| Engine.ConsensusEngine.FinalizePending | src/consensus.rs:3436-3497 | moves the entry to confirmed, marks inputs and creates outputs as specified |
| Engine.ConsensusEngine.ProcessTransaction | src/consensus.rs:3305-3546 | refines processing: refusal without a change, immediate finalization, or the start of a vote |
| Engine.ConsensusEngine.SubmitTransaction | src/consensus.rs:3214-3273 | refines submission with unlock on both failure paths |
| Engine.ConsensusEngine.RejectFailedVotingTransaction | src/consensus.rs:3276-3283 | refines rejection |
| Engine.ConsensusEngine.IsTransactionStillValid | src/consensus.rs:2157-2195 | true exactly when the transaction is pending, not rejected, and no input is spent for good |
| Engine.ConsensusEngine.VotingRound | src/consensus.rs:3584-3790 | one poll of the voting loop decides and acts as specified |
| Engine.ConsensusEngine.ConflictingPending | src/transaction_pool.rs:517-539 | lists each pending rival exactly once |
| Engine.ConsensusEngine.RecoverOne | src/consensus.rs:4088-4268 | refines recovery of one transaction: it ends confirmed exactly when nothing stands against it and it validates, and rejected exactly when an input is spent by another or it validates no longer; the first count is the growth of the confirmed pool and both together the shrinkage of the pending one |
| Engine.ConsensusEngine.RetryStuckPending | src/consensus.rs:4072-4268 | the pass is the recovery of each transaction in turn; its first count is exactly the number of newly confirmed transactions, its second the number of rejected ones |
| Engine.ConsensusEngine.EvictStale | src/consensus.rs:4275-4340 | taking all stale transactions out of the pool first and releasing inputs afterwards equals evicting them one by one, and the fallback tracker has forgotten round, proposals and preference of each |
| Quorum.VoteFinalityThreshold | src/consensus.rs:6126-6130 | the threshold is 67% of the weight, 51% from 30 seconds on, and the floor a quarter of it, each rounded up and by less than one |
| Quorum.ThresholdIsLeast | src/consensus.rs:6126-6130 | a weight reaches the threshold if and only if it makes 67%, or 51% from 30 seconds on, of the total, and the floor if and only if four times it reaches the threshold |
| Quorum.BftQuorumsOverlap | src/consensus.rs:6126-6130 | two vote sets that reach 67% share more than a third of the stake |
| Quorum.QuorumsShareVoter | src/consensus.rs:6126-6130 | any two vote sets that reach 67% or 51% share a voter |
| Quorum.TimeoutMeansMajority | src/consensus.rs:6126-6130 | reaching the threshold at any time is reaching 51%, and before 30 seconds 67% |
| Fees.RequiredFeeSubtract | src/consensus.rs:87-98 | the loop returns the fee of the first tier whose net amount stays below its bound, else the minimum fee |
| Fees.SubtractAcceptedIff | src/consensus.rs:67-98 | for any tiers, the subtracted fee satisfies the validator if and only if a tier fits or the fallback rate asks no more than the minimum |
| Fees.DefaultFees | src/consensus.rs:53-76 | the default schedule asks for 1% below 100 TIME, 0.5% below 1,000, 0.25% below 10,000 and 0.1% from there on, and for 0.01 TIME at least |
| Fees.UncoveredFee | src/consensus.rs:67-76 | an amount above every tier owes 0.1% |
| Fees.SubtractTight | src/consensus.rs:67-98 | for non-increasing covering schedules the fee is at least the required fee of the net amount and at most 2 above it, 1 when rates divide the basis |
| Fees.NetNeverShrinks | src/consensus.rs:87-98 | a larger gross amount never delivers a smaller net amount, even across tier bounds |
| Fees.DefaultScheduleShape | src/consensus.rs:52-64 | the default schedule meets every hypothesis on schedules |
| Fees.RisingRatesOvercharge | src/governance.rs:374-381 | a schedule governance accepts, with a rising rate, overcharges by more than 2 and shrinks the net amount |
| Fees.UncoveredAmountRefused | src/governance.rs:374-381 | a schedule governance accepts, without a covering tier, yields a fee the validator refuses |
| Partition.PartitionNonConflicting | src/consensus.rs:6097-6122 | the groups hold exactly the batch, are free of conflicts, each member conflicts with a member of every earlier group, and some transaction conflicts with at least as many others as there are further groups |
| Partition.FindGroup | src/consensus.rs:6108-6114 | finds the first group without a conflict |
| Partition.ColourBoundsRivals | src/consensus.rs:6097-6122 | a transaction in the i-th group has at least i rivals in the batch |
| VoteAccumulator.RunValid | src/consensus.rs:462-479 | in every reachable state each voter is stored once, under one block |
| VoteAccumulator.OneMajority | src/consensus.rs:484-535 | two blocks never hold a majority at once |
| VoteAccumulator.OvertakeBound | src/consensus.rs:484-535 | after a block is signalled with weight w, another can be signalled only once participation exceeds 2w |
| VoteAccumulator.OvertakeTight | src/consensus.rs:484-535 | at participation 2w + 1 it is, for every w of at least 2 |
| VoteAccumulator.SignalledOnce | src/consensus.rs:487-490 | a block is signalled once until it is cleared, whatever happens between |
| VoteAccumulator.CastWeights | src/consensus.rs:613-631 | a counted vote adds its weight to its block and to the participation |
| VoteAccumulator.Accumulator.AddVote | src/consensus.rs:462-479 | the first vote of a voter is stored and no later one, for any block |
| VoteAccumulator.Accumulator.TotalWeight | src/consensus.rs:511-519 | the deduplicated total is the sum of the block weights, in any order of visiting |
| VoteAccumulator.Accumulator.CheckConsensus | src/consensus.rs:638-686 | true exactly for a block with two voters, more than half of the participation, and no signal yet |
| VoteAccumulator.Accumulator.DropVoter | src/consensus.rs:556-560 | removes the voter from every block and keeps the others in order |
| VoteAccumulator.ClearReopens | src/consensus.rs:563-566 | a cleared block may be signalled again, the participation falls by exactly its weight, and its voters may vote anew for any block |
| VoteAccumulator.RemoveValid | src/consensus.rs:556-560 | after a removal the voter is under no block, so it can vote again, and the others still once each |
| VoteAccumulator.RemoveWeights | src/consensus.rs:556-560 | a removal lowers the weight of the voter's block and the participation by exactly the voter's weight, and leaves every other block as it was |
| VoteAccumulator.WithoutBallots | src/consensus.rs:556-560 | it keeps exactly the ballots of all others, as they are |
| BlockVoting.TimeLockVotes.AdvanceVoteHeight | src/consensus.rs:1670-1712 | a higher height loses no voter: every block keeps its saved voters in order and gains exactly those of both phases; otherwise only the height changes |
| BlockVoting.TimeLockVotes.CleanupBlockVotes | src/consensus.rs:1649-1664 | saves the union of both phases for the block in place of what was saved, and touches no other block |
| TimeVotes.RunSound | src/consensus.rs:1031-1090 | in every run without overflow the accumulated weight of each transaction is that of its stored Accept votes, from distinct voters |
| TimeVotes.AccumulateSoundIff | src/consensus.rs:1062-1070 | a vote keeps that so if and only if it does not overflow the sum |
| TimeVotes.AnswerIsStoredWeight | src/consensus.rs:1031-1090 | from a sound store the returned weight is that of the Accept votes then stored, which a vote against leaves as it was; the vote is refused exactly if unverified, repeated or overflowing |
| TimeVotes.CleanupForgetsIff | src/consensus.rs:904-934 | cleaning up forgets a transaction, votes and weight included, if and only if it was finalized before the cutoff |
| TimeVotes.ClearForgetsOne | src/consensus.rs:1167-1170 | clearing forgets the votes and the weight of one transaction, and of no other |
| TimeVotes.OverflowLosesVote | src/consensus.rs:1056-1070 | a concrete pair of votes whose weights overflow: the second is refused, stays stored and is not counted |
| TimeVotes.AssembledProof | src/consensus.rs:1389-1451 | a TimeProof carries exactly the accumulated weight, all Accept votes, distinct voters, one slot and one commitment |
| TimeVotes.AssembleFailsIff | src/consensus.rs:1389-1451 | assembly fails exactly without Accept votes or when two of them disagree on slot or commitment |
| TimeVotes.VerifyProof | src/types.rs:993-1056 | verification succeeds exactly for acceptable proofs and returns their weight |
| TimeVotes.AssembledAcceptableIff | src/types.rs:1008-1053 | an assembled proof is acceptable if and only if the weight reaches 67%, every Accept vote is of a known, signing voter and they name one chain |
| TimeVotes.TwoChainsAssembled | src/types.rs:1008-1053 | two concrete votes that name different chains are assembled with all the weight, and no verifier accepts the proof |
| TimeVotes.ProofsShareStake | src/types.rs:1046-1053 | two acceptable proofs share voters with more than a third of the stake |
| TimeVotes.ThresholdsShareStake | src/finality_proof.rs:61-72 | two vote lists that reach the manager's threshold share more than a third of the stake |
| TimeVotes.TimeVoteConsensus.AccumulateTimevote | src/consensus.rs:1031-1090 | refines the specified accumulation: from a sound store it returns the weight of the Accept votes then stored, and refuses exactly an unverified, repeated or overflowing vote |
| TimeVotes.ForgetSound | src/consensus.rs:1167-1170 | forgetting votes and weights together, of one transaction or of many, keeps every other accumulated weight that of its stored votes |
| TimeVotes.TimeVoteConsensus.CleanupOldFinalized | src/consensus.rs:904-934 | forgets exactly the transactions finalized before the cutoff and counts them |
| TimeVotes.TimeVoteConsensus.AssembleTimeproof | src/consensus.rs:1389-1451 | the filter and comparison loops refine the specified assembly |
| TimeVotes.FinalityProofManager.CheckFinalityThreshold | src/finality_proof.rs:61-72 | returns the summed weight exactly when it reaches 67% rounded up |
| Fallback.RunFollows | src/consensus.rs:4514-4536 | in every run the slot is the starting slot plus the expired rounds, at most five, and every transaction in fallback has a round |
| Fallback.SixthExpiryRejects | src/consensus.rs:5324-5450 | from an entry into fallback, five expiries move the slot by one each and the sixth rejects and drops the round; leaders change neither |
| Fallback.RearmDelays | src/consensus.rs:5674-5706 | a leader that acts puts off the expiry of its transaction to ten seconds from then, in the same slot and round, and changes nothing else |
| Fallback.EntryStartsRound | src/consensus.rs:4514-4536 | entry into fallback takes the 600-second slot of the moment, with no round spent and ten seconds for the first |
| Fallback.TimeLockSettles | src/consensus.rs:5053-5127 | settling the stalled transactions turn by turn in any order, each by its validity at its own turn, leaves nothing in fallback; each is finalized exactly when preferred and valid, else rejected; other statuses and unrelated votes and rounds are untouched |
| Fallback.AnyOrderSettles | src/consensus.rs:5084-5100 | the turns, in any order and with statuses changing between them, amount to settling all by their validity before the first |
| Fallback.SettlingKeepsValidity | src/consensus.rs:2157-2195 | settling other transactions does not change whether one is valid |
| Fallback.DecisionFinalIff | src/consensus.rs:4652-4689 | for votes that fit the total, every decision once returned is returned by all later votes if and only if the total is neither 2 nor 4 |
| Fallback.DecisionStable | src/consensus.rs:4652-4689 | for votes that fit the total and any total but 2 and 4 a returned decision is returned by every later vote |
| Fallback.BothSidesIff | src/consensus.rs:4680-4688 | both sides can reach the quorum exactly for totals 0, 1, 2 and 4 |
| Fallback.DecisionFlips | src/consensus.rs:4680-4688 | with total 2 or 4 a rejection by one half is overturned by the other half |
| Fallback.RunKeepsFinalizedIff | src/consensus.rs:4473-4552 | over any run finalized transactions stay finalized if and only if no operation of it takes one back: each such operation is listed with the guard it lacks |
| Fallback.StepKeepsFinalizedIff | src/consensus.rs:4722-4748 | the same for every single operation |
| Fallback.LateVoteUnfinalizes | src/network/message_handler/consensus.rs:1091-1126 | a concrete run from the empty state in which a late fallback vote rejects a transaction that a TimeVote finalization was recorded for |
| Fallback.ExpireKeepsFinalizedIff | src/consensus.rs:5350-5371 | a timeout check leaves finalized transactions finalized if and only if none has an exhausted round |
| Fallback.ForgetsVotesIff | src/consensus.rs:4326-4330 | eviction leaves no votes on proposals for the transaction if and only if none are filed under anything but its own id |
| Fallback.OrphanedVotes | src/consensus.rs:4326-4330 | a concrete vote on a proposal outlives the eviction of its transaction and can no longer decide anything |
| Fallback.StepCleanIff | src/consensus.rs:4473-4552 | only transactions in fallback have rounds, and a step keeps that so unless it records a finalization or a vote for one that has |
| Fallback.CleanKeepsFinalized | src/consensus.rs:5324-5450 | while only transactions in fallback have rounds, timeout checks leave every finalized transaction finalized |
| Fallback.RecordedThenRejected | src/consensus.rs:1358-1381 | a finalization recorded during the last round is undone when that round expires |
| Fallback.FinalizedThenRejected | src/consensus.rs:5350-5371 | a concrete run from the empty state that reaches the last round, is finalized and then rejected |
| Fallback.FallbackTracker.CheckFallbackTimeouts | src/consensus.rs:5324-5450 | handling the expired rounds one by one, in any order, is the specified check |
| Fallback.FallbackTracker.ResolveStallsViaTimelock | src/consensus.rs:5053-5127 | the loop, which looks up validity anew at each turn, leaves nothing in fallback, finalizes exactly the preferred and valid and rejects the rest, touches no other status, and tells whether anything was stalled |
| Fallback.FallbackTracker.AccumulateFallbackVote | src/consensus.rs:4652-4689 | appends the vote and returns the decision of the summed sides |
| Governance.TalliedOnce | src/governance.rs:476-526 | after the tally at a height the prediction there is zero and a second tally changes nothing, whatever the registry |
| Governance.DecidedForGood | src/governance.rs:413-538 | in every run a decided proposal never becomes Active again and its votes are frozen |
| Governance.PassedMeansQuorum | src/governance.rs:495-510 | a proposal passes only in the tally at its end height and with 67% of the active weight |
| Governance.YesAtMostTotal | src/governance.rs:540-586 | the yes weight never exceeds the total active weight |
| Governance.RunKeepsSides | src/governance.rs:413-470 | in every run each masternode stands on the side of the last entitled vote it cast on a proposal, whatever others cast |
| Governance.ApproversVotedLast | src/governance.rs:540-571 | so whoever is counted for a proposal is active and approved with its last vote |
| Governance.RecordOutcome | src/governance.rs:413-470 | a vote is refused exactly unless it is signed by a masternode above the free tier, on an active proposal and in time; it is reported as old exactly when its side is the stored one, and else stored in place of the voter's former one; no other vote and no proposal changes |
| Governance.SubmitStoresIff | src/governance.rs:307-408 | an unknown proposal is stored exactly when its submitter is a masternode above the free tier, the signature is good and the payload keeps the limits |
| Governance.TallyOutcome | src/governance.rs:476-526 | a tally decides exactly the active proposals that end at its height: passed if and only if there is weight and 67% of it approves, failed otherwise; votes and other proposals stay |
| Governance.TierWeights | src/governance.rs:540-571 | the free tier carries no weight, bronze 1, silver and gold 10 |
| Governance.PredictedIsTreasury | src/governance.rs:598-630 | the prediction is what the passing treasury spends ask for together, and saturates |
| Governance.MarkOutcome | src/governance.rs:529-538 | marking executed changes the status of one known proposal and nothing else |
| GovernanceStore.TextInjective | src/governance.rs:282-302 | different keys are written as different texts, whatever the addresses contain |
| GovernanceStore.WriteEncodes | src/governance.rs:282-302 | writing one record under the text of its key changes no other record of the database |
| GovernanceStore.PrefixTellsKind | src/governance.rs:238-256 | a prefix scan finds exactly the keys of one kind |
| GovernanceStore.GovernanceState.constructor | src/governance.rs:227-278 | loading a database gives back exactly the proposals and votes it was written from |
| GovernanceStore.GovernanceState.Restart | src/governance.rs:227-278 | after any operations a restart on the database finds the same memory |
| GovernanceStore.GovernanceState.SubmitProposal | src/governance.rs:307-408 | stores a new proposal exactly when submitter, signature and payload pass, in memory and database alike |
| GovernanceStore.GovernanceState.CheckPayload | src/governance.rs:340-399 | accepts exactly the payloads within the limits, fee tiers ascending |
| GovernanceStore.GovernanceState.RecordVote | src/governance.rs:413-470 | takes a vote exactly if signed by a masternode above the free tier, on an active proposal and in time, leaves the voter on the side of this vote and answers whether it stood elsewhere before, in memory and database alike |
| GovernanceStore.GovernanceState.TallyYesWeight | src/governance.rs:540-571 | sums the capped weights of approving active masternodes |
| GovernanceStore.GovernanceState.TotalActiveWeight | src/governance.rs:573-586 | sums the capped weights of the active masternodes |
| GovernanceStore.GovernanceState.CheckAndExecuteProposals | src/governance.rs:476-526 | decides every maturing proposal, returns each that passed once, and their treasury spends add up to the prediction, in any order |
| GovernanceStore.GovernanceState.TreasurySpendsMaturingAt | src/governance.rs:598-630 | the saturated sum of passing treasury spends, in any order |
| GovernanceStore.GovernanceState.Mark | src/governance.rs:529-538 | marks a known proposal executed, in memory and database alike |
| BlockCache.GetIsLastPut | src/block_cache.rs:65-142 | after any run a read gives nothing or the block last put since the last invalidate or clear, and both tiers are within capacity |
| BlockCache.RunCoherent | src/block_cache.rs:65-183 | after any run both tiers hold nothing but the blocks last put, within capacity |
| BlockCache.Retained | src/block_cache.rs:65-142 | a block is a hit while fewer than the warm capacity of other heights were put or read since its put |
| BlockCache.Forgotten | src/block_cache.rs:129-142 | as many other puts as both capacities make it a miss |
| BlockCache.CountersAddUp | src/block_cache.rs:145-166 | the three counters add up to the reads since the last clear |
| BlockCache.GetCounts | src/block_cache.rs:65-124 | each read counts once: as a hot hit when the hot tier has the height, else as a warm hit when bytes of the warm tier read back, else as a miss |
| BlockCache.HitsAreFound | src/block_cache.rs:145-166 | over any run the two hit counters are the reads since the last clear that found a block, and the third the others |
| BlockCache.GetRenews | src/block_cache.rs:65-124 | a hit makes its height the most recent of the hot tier, and of the warm tier if it was found there; a miss leaves nothing of it in either |
| BlockCache.ReadRetained | src/block_cache.rs:65-124 | after a hit the same block is a hit while fewer than the hot capacity of other heights are put or read, whether or not blocks serialize |
| BlockCache.OutdatedIsEmptied | src/block_cache.rs:78-94 | past the hot tier a read of an outdated cache empties it, so that every height is a miss |
| BlockCache.StoreTruthfulIff | src/block_cache.rs:129-142 | a put keeps every entry readable as nothing or the last block if and only if the bytes left in the warm tier do |
| BlockCache.RunReadsTrulyIff | src/block_cache.rs:65-183 | whether or not blocks serialize and read back, every read throughout a run gives nothing or the block last put if and only if no step pushes a height out of the hot tier while its bytes in the warm tier are stale and stay |
| BlockCache.TrulyIffCovered | src/block_cache.rs:65-124 | reads are true in a state if and only if the hot tier holds the blocks last put and the warm tier true bytes wherever the hot tier holds nothing |
| BlockCache.RunTruthfulIff | src/block_cache.rs:65-183 | all stored entries, covered or not, are true throughout a run if and only if every put of it leaves bytes that read as nothing or as its block |
| BlockCache.GetTruthful | src/block_cache.rs:65-124 | a read from such a cache gives nothing or the block put last and keeps it so |
| BlockCache.StaleRead | src/block_cache.rs:129-142 | a block that fails to serialize leaves its predecessor to be read again |
| BlockCache.BlockCacheManager.constructor | src/block_cache.rs:40-58 | capacities are positive, with defaults for zero |
| BlockCache.BlockCacheManager.GetBlock | src/block_cache.rs:65-124 | refines the specified read: hot hit, promotion from the warm tier, removal of unreadable bytes, or miss |
| BlockCache.StoreCoherent | src/block_cache.rs:129-142 | a put keeps both tiers within capacity and holding nothing but what was put last |
| BlockCache.DropCoherent | src/block_cache.rs:170-173 | so does an invalidation, after which the height was never put |
| Lru.PutKeepsIff | src/block_cache.rs:129-142 | a put keeps a key if and only if fewer than the capacity of others are more recent |
| Lru.PutDrops | src/block_cache.rs:129-142 | a put drops the least recent key of a full map that does not hold the key, and no other |
| Gregorian.CivilIsCounted | build.rs:43-58 | for every day number the closed form gives the date of counting days from January 1, 1970 |
| Gregorian.CivilStep | build.rs:49-58 | every date is valid and the next day number gives the calendar successor |
| Gregorian.QuartersStep | build.rs:50-52 | the quarter-day count advances by one day, and by two exactly after February 28 of a century year that is no leap year |
| Gregorian.StampIsCounted | build.rs:43-64 | date, hour and minute name the minute that contains the given second |
| Chunked.RoundTrip | src/http_client.rs:360-400 | decoding any encoding of non-empty chunks, with any size digits, zeros and trailer, returns the body |
| Chunked.DecodeTruncated | src/http_client.rs:360-400 | decoding any truncation returns exactly the body bytes that arrived, or fails exactly when the cut is inside a size line |
| Chunked.TruncationIsSafe | src/http_client.rs:385-397 | decoding a truncation fails or returns a prefix of the body |
| Chunked.ExtensionRefused | src/http_client.rs:376-381 | a size line with a chunk extension is refused |
| Chunked.ParsePadded | src/http_client.rs:376-381 | white space on either side of a size line and a plus sign do not change the size read |
| Chunked.HugeSizeAborts | src/http_client.rs:385-397 | a size that leads past the largest position yields no body: the decoder aborts |
| Chunked.DecodeChunked | src/http_client.rs:360-400 | the loop terminates and computes the specified outcome on every input |
| ChainValidation.BuildMerkleRoot | src/block/types.rs:14-34 | the loop computes the root of the pairing tree, with the last hash repeated on odd levels |
| ChainValidation.RootOfHalves | src/block/types.rs:14-34 | the root of twice a power of two of hashes is the pair of the roots of the first half and the second, in this order |
| ChainValidation.RootOfOdd | src/block/types.rs:14-34 | an odd list has the root of the list with its last hash repeated |
| ChainValidation.VerdictNames | src/blockchain_validation.rs:30-74 | each error is returned exactly when its rule is broken and all checked before it hold |
| ChainValidation.MerkleRootDetermines | src/block/types.rs:14-41 | duplicate-free transaction lists with one root are equal |
| ChainValidation.SameLengthSameRoot | src/block/types.rs:14-41 | lists of one length have one root if and only if they are equal, duplicates or not |
| ChainValidation.RootDetermines | src/block/types.rs:14-34 | on any level of the tree, duplicate-free lists with one root are equal |
| ChainValidation.DuplicateSharesRoot | src/block/types.rs:14-34 | with duplicates they need not be |
| ChainValidation.CheckDuplicates | src/blockchain_validation.rs:112-126 | true exactly for lists without a repeated id |
| ChainValidation.ValidateBlock | src/blockchain_validation.rs:30-74 | accepts exactly sound blocks with the expected predecessor and otherwise names the first broken rule |
| ChainValidation.ValidateChainSequence | src/blockchain_validation.rs:146-184 | accepts exactly linked sequences and otherwise names the first broken link |
| ChainValidation.HeightsAndTimes | src/blockchain_validation.rs:146-184 | accepted heights rise by one each and timestamps never fall |
| ChainValidation.ChainJoins | src/blockchain_validation.rs:146-184 | two sequences join to an accepted one if and only if both are accepted and the joint is linked |
| ChainValidation.TipFixesHeaders | src/blockchain_validation.rs:168-170 | the hash of the last block fixes all hashes of an accepted sequence and every header field at a fixed place of the hashed bytes, and a whole header if and only if its leader has the same length |
| ChainValidation.TwinAccepted | src/block/types.rs:189-203 | the last block of any accepted sequence, if it names its leader, can be replaced by a different one with the same hash |
| Headers.EqualMessages | src/block/types.rs:189-203 | headers with the same hashed bytes agree on version, height, both hashes, timestamp, reward and treasury balance, and are equal if and only if their leaders are equally long |
| Headers.TwinCollides | src/block/types.rs:189-203 | every header that names its leader shares its hashed bytes with a different header |
| Headers.LeRoundTrip | src/block/types.rs:191-202 | little-endian numbers that fit their width read back as they were |
| ChainValidation.TipFixesTransactions | src/blockchain_validation.rs:30-74 | and every transaction list but that of the first block |
| ChainValidation.AllSoundIff | src/blockchain_validation.rs:146-184 | all blocks of an accepted sequence are sound if and only if the first is |
| ChainValidation.FirstBlockUnchecked | src/blockchain_validation.rs:146-184 | a first block that breaks the rules is let through |

## Left out

- Special transactions, the AI validator, the purge list, byte limits and low-fee eviction of the pool: they would add easy branches only.
- Archival of confirmed transactions into blocks, restarts of the pool, `purge_banned_transactions`, `evict_finalized_with_missing_inputs` and `resume_sampling_after_fallback`: deliberate repairs outside the run relation.
- The finalized part of mempool sync takes over confirmed transactions as another node has them and is outside the run relation; so is the filter that drops a finalization message seen before.
- Concurrency: each operation is one atomic step and the clock is an argument; the voting loop is modelled poll by poll.
- Machine integers in sums of values and weights are unbounded, except where the code checks for overflow: fees, accumulated vote weights, chunk ends and treasury spends. Heights do not wrap.
- The threshold in the vote handler is computed in floating point from the validators of the moment; it is an argument of the step, and results about the stake assume a lower bound for it.
- The fee of a transaction processed without a validated fee is an argument of the step.
- Transaction ids, hashes and signatures are ideal: equal ids mean equal transactions, hashes are terms, signature checks are arguments.
- FinalitySafety.NoDoubleSpend: assumes honest validators, one validator set for the whole run and votes that claim their validator's weight; the code checks none of these, and `EquivocationDoubleSpends` and `InflatedWeightDoubleSpends` show runs without. `RunDisjointIff` needs no such assumption.
- FinalitySafety.DoubleSpendIsAttributable: assumes one validator set and registered weights for the same reason.
- FinalitySafety.SpentStaysSpent: for mempool sync and finalizations told by peers assumes inputs known on arrival, and a start from base outpoints; `RunKeepsSpentIff` is the exact condition without.
- FinalitySafety.RunOwnsIff: the same.
- FinalityValue.RunConservesIff: leaves out mempool sync, which enters the pool without validation, finalizations told by peers with unknown inputs, whose single step `DivergedMints` accounts for, and transactions that list an input twice, for which `SubmitConservesIff` is the exact condition.
- Headers: a leader is any byte string, without regard to UTF-8, and the size of a block is an argument.
- BlockVoting: both accumulators are values inside the object there; their own in-place updates are in `VoteAccumulator`.
- GovernanceStore: database writes succeed, and a database not written by this code is not loaded.
- Leader election, liveness alerts, broadcast, metrics and logging: no state that the properties speak of.
- The text format of the build stamp and the error texts: kinds of failure are kept where the code tells them apart for its callers.
- Chunked: white space and digits of a size line follow the standard library's documented behaviour.
