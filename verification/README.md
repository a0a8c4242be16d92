# Karstflow consensus in Dafny

A model, with proofs, of four parts of the Karstflow validator.

**The Alpenglow voting engine** (`crates/karstflow-alpenglow`). Validators vote to notarize,
skip and finalize slots; 60% of the stake makes a certificate, 80% a fast one.

- `votor_spec`, `votor_inv`, `votor_runs`, `votor_effects`, `votor_output`, `votor`: the process
  that decides when a validator votes, as a step function, its invariants over all runs, what each
  event does and sends, and the class that refines it.
- `slot_spec`, `slot_state`, `slot_meaning`: votes, stake totals, certificates and the
  safe-to-notar and safe-to-skip events of one slot.
- `parent_ready`: which blocks are valid parents for a leader window.
- `finality`, `finality_spread`, `finality_tracker`, `finality_halts`: how finality spreads to
  ancestors and skipped slots, that it misses nothing, and when it panics.
- `pool_spec`, `pool_core`, `pool_ready`, `pool`: the pool that wires these together, and when it panics.
- `network`, `agreement`, `schedules`, `rounds`, `validator`: a network of validators. The honest ones
  run the voting process, the others hold less than 20% of the stake and sign what they like,
  signatures are not forged, and a block's hash fixes its parent. Since pools count a notar and a
  notar-fallback vote of one validator for one block twice, the network names the validators
  that may have been counted so, honest ones included.
- `conflicts`, `mixed`, `orphans`, `panics`: runs that show how far these results reach.
- `base`, `epoch`, `sorted`, `aggsig`, `certs`: quorums, stake, signer masks, certificates.

The parts close into one argument. A pool's contract says that every event it emits is
justified by votes cast so far, as pools count them (`PoolImpl.Pool.AddVote`, `AddCert`,
`AddBlock`). Events that are justified when handed over stay so (`Schedules.FeasibleIsGrounded`).
Objects that feed a pool's events into a voting process keep exactly this up, for any votes and
certificates without forged honest signatures, in any order, until a pool panics
(`Validators.Validator`); when it does, and why, is part of the contracts. Whatever votes were
received, a slot finalized by a final certificate is sealed for every validator
(`Validators.FinalizedSlotsAgree`). While the adversary and the double voters hold less than 20%
in sum, an adversary that votes twice weighing twice, everything that validators finalize at or
above a slot with a final certificate descends from the block finalized there
(`Validators.FinalizedBlocksAgree`, `Schedules.SchedulesAgree`); from 20% on it need not
(`Conflicts.DoubleVotesSplitTheChain`, `ToleranceIsExact`). Above a block that was only
fast-finalized the same holds as long as the honest validators that voted both ways in its slot
are counted in and all together hold less than 20% (`Validators.FastFinalizedBlocksAgree`,
`Schedules.FastSchedulesAgree`); beyond that it need not (`MixedVotes.MixedVotesUndoFinality`).

**The fork tree** (`bank_forks`, `bank_forks_impl`), **the epoch schedule** (`epoch_schedule`)
and **lamport conservation** in a bank (`lamports`, `bank`).

State that the program changes in place is a class; its methods keep the loops of the program
and are proved against functions or predicates on values, about which the lemmas are.

## Where the code keeps less than it promises

Each of these comes with the condition under which the promise holds and with a case in which
it does not.

- A fast-finalized slot can also be skipped, and a later finalized chain can pass it by: skipping
  a window leaves a pending block in place, and the pending block can still be notarized later.
  This cannot happen while the adversary, the honest validators that voted both ways and the
  double voters hold less than 20% (`Quorums.FastFinalizationTolerates`, `FastFinalizedAgree`),
  and it can as soon as the stakes allow it, which takes 20%
  (`MixedVotes.MixedVotesUndoFinality`, `FastToleranceIsTight`).
- A validator with a notar and a notar-fallback vote for one block counts twice towards a
  fallback certificate (`SlotMeaning.DoubleVotesFallShort`, `FallbackCertFallsShort`), and honest
  validators do cast both (`MixedVotes.HonestDoubleVotesHappen`). Agreement survives this below 20% of
  adversary and double voters in sum (`Quorums.FinalizedAgree`). From there on it fails whenever
  the rest of the stake can be split in two (`Conflicts.DoubleVotesSplitTheChain`,
  `ToleranceIsExact`).
- A pool panics although everything it received is backed by votes and everybody is honest:
  because a block is notarized while another one of its slot is on the finalized chain
  (`Panics.HonestPoolsPanic`, `RivalPoolPanics`), because a parked child was pruned with its slot
  (`Panics.BackedChildPanics`, `OrphanPoolPanics`), or because a finalized block is not locked
  (`Panics.LooseBlockPanics`, `LoosePoolPanics`). The only other reason is a block that names a
  parent not below it (`PoolImpl.Pool.AddBlock`). These are all
  (`FinalityHalts.KnownHalt`, `PoolCore.KnownTakeAllHalts`), and the exact condition of each call
  is in its contract.
- A notarization or final certificate that arrives after a block became final overwrites it in the
  finality tracker. The block then no longer counts as final there, and a parent learnt later is
  not finalized with it. A final block stays final iff no such mark for its slot follows
  (`FinalitySpread.FinalUnlessMarkedAgain`, `LateMarkStopsSpreading`).
- What is announced as final can depend on whether a block is finalized before or after its parent
  is told: exactly when the block lies next to the watermark and its parent on it
  (`FinalitySpread.OrderMattersIff`, `GenesisDependsOnOrder`).
- Of several blocks parked under one parent only the last is told that the parent is certified
  (`PoolCore.TakeTellsChild`, `OnlyLastChildTold`).
- A finalization that makes several parents ready announces one of them only. Whether it will can
  be told before the call (`ParentReadiness.ParentReadyTracker.HandleFinalization`, `BestIsAllIff`;
  the case is `TwoReadyOneReturned`).
- Notar and fast-final certificates are built before the triggering vote is stored, so those a
  pool builds fail its own threshold test (`PoolSpec.BuiltFallsShort`).
- Our own notar vote is not followed by a safe-to-skip check
  (`SlotMeaning.SkipAnnouncedUnlessOwnNotar`, `OwnNotarGoesUnannounced`).
- A transaction that fails while its nonce account pays the fee creates lamports: the rollback
  of the nonce restores what was paid (`Banking.Bank.Process`, `NoncePayerCreatesLamports`).
- Without a scheduled leader the leader's share of the fees disappears from the accounts but
  not from the capitalization (`Banking.Bank.DistributeFees`, `LeaderlessFeesVanish`).
- The comments at crates/karstflow-consensus/src/bank_executor.rs:1788-1792 say that a
  transaction whose accounts do not load is charged. The code neither writes the debited payer
  nor collects the fee, yet reports it; the model follows the code
  (`Banking.Bank.ProcessBatch`, `ChargedOnPaperOnly`).

## Model

| member | source | states |
|---|---|---|
| `Epoch.NewEpochInfo` | crates/karstflow-alpenglow/src/epoch_info.rs:37-52 | the total is the stake of all validators when that fits in 64 bits, and 2^64 - 1 otherwise |
| `AggSig.AddValid` | crates/karstflow-alpenglow/src/aggsig.rs:142-175 | adding a signer adds exactly that index to the signers and keeps the signer count equal to their number |
| `AggSig.AddCommutes` | crates/karstflow-alpenglow/src/aggsig.rs:142-150 | the order in which two signers are added does not matter: same bitmask and same combined signature bytes |
| `AggSig.AddFolds` | crates/karstflow-alpenglow/src/aggsig.rs:142-150 | every byte of the signature is combined by exclusive or, bit by bit, and no other signer changes |
| `AggSig.InitValid` | crates/karstflow-alpenglow/src/aggsig.rs:115-124 | a new aggregate has no signers and a count of zero |
| `AggSig.Serialize` | crates/karstflow-alpenglow/src/aggsig.rs:177-197 | writes exactly the wire form into the front of the buffer and nothing else, or refuses a buffer that is too short |
| `AggSig.Deserialize` | crates/karstflow-alpenglow/src/aggsig.rs:200-236 | the loop over the words decodes what the wire form says, or rejects it |
| `AggSig.RoundTrip` | crates/karstflow-alpenglow/src/aggsig.rs:177-236 | decoding the wire form of a valid aggregate, followed by any bytes, gives the aggregate back and consumes exactly its serialized size |
| `AggSig.WireLayout` | crates/karstflow-alpenglow/src/aggsig.rs:177-197 | byte by byte: the signature, the bit count and the word count with the lowest byte first, then validator i at bit i mod 8 of byte i / 8 |
| `Certs.AggBuild` | crates/karstflow-alpenglow/src/cert.rs:111-117 | the aggregate's signers are exactly the listed ones |
| `Certs.TryNewNotar` | crates/karstflow-alpenglow/src/cert.rs:119-144 | succeeds iff all votes agree with the first; then it carries exactly the voters and their stake; otherwise it names the first disagreement |
| `Certs.TryNewFastFinal` | crates/karstflow-alpenglow/src/cert.rs:146-158 | the same for fast-final certificates |
| `Certs.TryNewFinal` | crates/karstflow-alpenglow/src/cert.rs:160-180 | the same for final votes, which agree on the slot only |
| `Certs.TryNewNotarFallback` | crates/karstflow-alpenglow/src/cert.rs:182-230 | the two vote lists become two aggregates; the recorded stake counts a validator on both lists twice |
| `Certs.TryNewSkip` | crates/karstflow-alpenglow/src/cert.rs:232-273 | the same for skip and skip-fallback votes |
| `Certs.ThresholdIsQuorum` | crates/karstflow-alpenglow/src/cert.rs:335-364 | the loop over validators tests whether the set of signers, each counted once, holds 60% (80% for fast-final) |
| `VotorInv.StepKeeps` | crates/karstflow-alpenglow/src/votor.rs:158-410 | every event keeps the voting discipline: final excludes skip and fallback votes, one first vote per slot, every vote backed by the events that allow it |
| `VotorInv.Run` | crates/karstflow-alpenglow/src/votor.rs:126-410 | the discipline holds after every run of events, across pruning |
| `VotorRuns.NotarAfterSkip` | crates/karstflow-alpenglow/src/votor.rs:250-275 | in every run, a notar vote that follows a skip vote for its slot is for the block that was pending when the slot was already skipped |
| `VotorRuns.OneKindPerEvent` | crates/karstflow-alpenglow/src/votor.rs:158-275 | no single event casts both a skip and a notar vote for a slot, and none casts a skip vote where a notar vote was cast |
| `VotorRuns.MixedVotesInOrder` | crates/karstflow-alpenglow/src/votor.rs:250-275 | whenever a run casts both a skip and a notar vote for a slot, some prefix of it has the skip vote and no notar vote, and the notar vote is for the block pending there |
| `VotorRuns.CheckPendingQuiet` | crates/karstflow-alpenglow/src/votor.rs:266-275 | one ascending pass over the pending blocks reaches the fixpoint: afterwards none could be notarized |
| `VotorRuns.Quiescence` | crates/karstflow-alpenglow/src/votor.rs:205-275 | between the events of any run no pending block meets the notar conditions |
| `VotorSpec.StepTidy` | crates/karstflow-alpenglow/src/votor.rs:277-280 | after every event nothing is kept below the window of the highest final certificate |
| `VotorImpl.Votor.DoTryFinal` | crates/karstflow-alpenglow/src/votor.rs:188-203 | the method computes `TryFinal` on the state and output buffer, and sends exactly what is cast |
| `VotorImpl.Votor.DoTryNotar` | crates/karstflow-alpenglow/src/votor.rs:205-248 | the method computes `TryNotar` and reports whether it voted; if so, this validator's notar vote for the block goes out first, and nothing goes out that is not cast |
| `VotorImpl.Votor.DoTrySkipWindow` | crates/karstflow-alpenglow/src/votor.rs:250-264 | the loop over the window computes `TrySkipWindow`, and sends exactly what is cast |
| `VotorImpl.Votor.DoCheckPending` | crates/karstflow-alpenglow/src/votor.rs:266-275 | the loop over the ordered map computes `CheckPending`, and sends exactly what is cast |
| `VotorImpl.Votor.HandlePoolEvent` | crates/karstflow-alpenglow/src/votor.rs:302-357 | the handler refines `Step` on pool events; the votes it appends to the output are exactly the newly cast ballots, signed by this validator, in order, and the certificates exactly the one it handled; a standstill appends its bundle and casts nothing |
| `VotorImpl.Votor.HandleBlockstoreEvent` | crates/karstflow-alpenglow/src/votor.rs:359-391 | the handler refines `Step` on blockstore events, and appends exactly the newly cast ballots as its votes |
| `VotorImpl.Votor.HandleTimeoutEvent` | crates/karstflow-alpenglow/src/votor.rs:393-411 | the handler refines `Step` on timeouts, and appends exactly the newly cast ballots as its votes |
| `VotorOutput.StepSends` | crates/karstflow-alpenglow/src/votor.rs:188-411 | for every event but a standstill: the votes among the new messages are exactly the newly cast ballots as votes of this validator, in order, and a created certificate in an unpruned slot is passed on once |
| `VotorOutput.RunSends` | crates/karstflow-alpenglow/src/votor.rs:126-411 | the same over every run, leaving out re-broadcast bundles |
| `VotorEffects.TimeoutEffect` | crates/karstflow-alpenglow/src/votor.rs:393-411 | exactly when a timeout, or a missing leader, skips its window, and that the ballots are skips for exactly the slots without a vote, ascending |
| `VotorEffects.InvalidBlockEffect` | crates/karstflow-alpenglow/src/votor.rs:359-373 | the same for an invalid block |
| `VotorEffects.FallbackEffect` | crates/karstflow-alpenglow/src/votor.rs:332-348 | a safe-to-notar or safe-to-skip event for an open slot casts the fallback vote, skips the rest of the window and bars a final vote |
| `VotorEffects.NotarCertEffect` | crates/karstflow-alpenglow/src/votor.rs:282-300 | a notarization certificate leads to a final vote iff its block is the one voted for and the slot is not marked; only that slot's entry changes |
| `VotorEffects.FinalCertEffect` | crates/karstflow-alpenglow/src/votor.rs:282-300 | a final certificate moves the highest final slot up, drops exactly what lies below its window and sets five timeouts |
| `VotorEffects.BlockEffect` | crates/karstflow-alpenglow/src/votor.rs:359-391 | a block for an open slot without a vote is notarized iff its parent fits, otherwise kept pending |
| `VotorEffects.ParentEffect` | crates/karstflow-alpenglow/src/votor.rs:319-331 | an announced parent is recorded and the five timeouts of its window are set |
| `VotorEffects.InitEffect` | crates/karstflow-alpenglow/src/votor.rs:126-147 | the initial entry of genesis and the timeouts of the first window |
| `Quorums.QuorumsMeet` | crates/karstflow-alpenglow/src/base.rs:80-106 | with less than 20% adversarial stake, two 60% quorums share an honest validator |
| `Quorums.NotarizedUnique` | crates/karstflow-alpenglow/src/votor.rs:238-244 | at most one hash per slot is notarized |
| `Quorums.SlowFinalizationSeals` | crates/karstflow-alpenglow/src/votor.rs:188-203 | a slot with a final quorum has one notarized block; no quorum of signers stands behind another hash of the slot or behind a skip, whoever votes twice; only notarization certificates must be backed by votes |
| `Quorums.SlowFinalizationLocks` | crates/karstflow-alpenglow/src/votor.rs:188-203 | the same against certificates that count double voters twice, as long as the adversary's and the double voters' stake sum to less than 20% |
| `Quorums.FastFinalizationLocks` | crates/karstflow-alpenglow/src/votor.rs:205-264 | the same for an 80% notar quorum, provided no honest validator cast both a skip and a notar vote in the slot |
| `Quorums.FastFinalizationTolerates` | crates/karstflow-alpenglow/src/votor.rs:205-275 | the same as long as the adversary and the honest validators that voted both ways hold less than 20%, double voters added; the bound is exact, see `MixedVotes.FastToleranceIsTight` |
| `Quorums.FastFinalizedAgree` | crates/karstflow-alpenglow/src/votor.rs:205-348 | under that condition every certified block at or above a fast-finalized one descends from it |
| `Quorums.WindowChain` | crates/karstflow-alpenglow/src/votor.rs:205-248 | any two notarized blocks of one leader window are ancestor-related |
| `Quorums.ParentJustified` | crates/karstflow-alpenglow/src/votor.rs:205-248 | the parent of a certified block is certified (or genesis) and every slot in between is skipped |
| `Quorums.OneChain` | crates/karstflow-alpenglow/src/votor.rs:188-348 | every certified block at or above a locked slot descends from the locked block |
| `Quorums.FinalizedAgree` | crates/karstflow-alpenglow/src/votor.rs:188-348 | the blocks of two finalized slots lie on one chain, with the adversary and the double voters below 20% in sum |
| `Agreement.CertificateMeaning` | crates/karstflow-alpenglow/src/cert.rs:335-364 | a certificate that passes the threshold and was not forged stands for the quorum its kind names |
| `Agreement.SlowFinalizationSafety` | crates/karstflow-alpenglow/src/votor.rs:188-203 | given a final certificate, every genuine certificate of the slot that names a block names the same one, and none is a skip certificate, whoever votes twice |
| `Agreement.RunsAreSound` | crates/karstflow-alpenglow/src/votor.rs:126-410 | validators that run the voting process satisfy the network's assumptions, whatever they are told and whatever the others sign |
| `Agreement.RunsAgree` | crates/karstflow-alpenglow/src/votor.rs:188-348 | the blocks of two final certificates lie on one chain, for any runs, with the adversary and the double voters below 20% in sum |
| `Schedules.JustifiedLasts` | crates/karstflow-alpenglow/src/pool.rs:162-303 | an event justified by cast votes stays justified while more votes are cast |
| `Schedules.FeasibleIsGrounded` | crates/karstflow-alpenglow/src/pool.rs:162-303 | if every event was justified when handed over, all events are justified at the end |
| `Schedules.SchedulesAgree` | crates/karstflow-alpenglow/src/votor.rs:188-348 | agreement end to end: for every schedule of justified events, the blocks of two final certificates lie on one chain |
| `Schedules.FastSchedulesAgree` | crates/karstflow-alpenglow/src/votor.rs:205-348 | the same above a fast-final certificate: the block of any certificate but a skip certificate at or above its slot descends from its block, as long as the adversary, the validators that voted both ways there and the double voters stay below 20% |
| `Rounds.DealIsFeasible` | crates/karstflow-alpenglow/src/pool.rs:162-303 | runs dealt out round by round are a feasible schedule if every round is justified by the votes of the rounds before |
| `MixedVotes.MixedVotesUndoFinality` | crates/karstflow-alpenglow/src/votor.rs:250-275 | in every epoch with 80% in two sets m and n and 40% outside n: a feasible schedule without adversary or double votes fast-finalizes a block, exactly m votes both ways in its slot, and a block that does not descend from it is finalized |
| `MixedVotes.FastToleranceIsTight` | crates/karstflow-alpenglow/src/votor.rs:250-275 | the two conditions need 20% in m, and one of five equal validators meets them: the tolerated share is exact |
| `MixedVotes.HonestDoubleVote` | crates/karstflow-alpenglow/src/votor.rs:250-345 | an honest run that casts a notar-fallback vote and then a notar vote for the same block |
| `MixedVotes.HonestDoubleVotesHappen` | crates/karstflow-alpenglow/src/votor.rs:250-345 | in every epoch, any validators that leave 20% of the stake outside can be led to cast both votes, everybody honest and every event justified when handed over |
| `Conflicts.DoubleVotesSplitTheChain` | crates/karstflow-alpenglow/src/slot_state.rs:331-351 | for all stakes with which one honest validator and the adversary are a quorum, and so are the other honest validator and the adversary counted twice: a schedule of events, all justified as pools count, finalizes two blocks that are not on one chain |
| `Conflicts.ToleranceIsExact` | crates/karstflow-alpenglow/src/slot_state.rs:331-351 | for every share of a double-voting adversary below 20%: it is tolerable iff twice the share is below 20%, and otherwise the rest of the stake can be split for that schedule |
| `Conflicts.PoolCountsTwice` | crates/karstflow-alpenglow/src/slot_state.rs:331-351 | in that schedule the votes are accepted and a pool counts the minority block up to a fallback certificate |
| `Conflicts.NotarizedAgainstFinalized` | crates/karstflow-alpenglow/src/votor.rs:188-348 | with no adversary and no double votes a feasible schedule notarizes one block of a slot while another one becomes the parent of a finalized block |
| `ParentReadiness.MarkKeepsExact` | crates/karstflow-alpenglow/src/parent_ready_tracker.rs:63-90 | a fallback mark with its forward pass keeps the ready lists exact |
| `ParentReadiness.SkipKeepsExact` | crates/karstflow-alpenglow/src/parent_ready_tracker.rs:93-146 | a skip mark with its backward and forward passes keeps the ready lists exact |
| `ParentReadiness.PruneKeepsExact` | crates/karstflow-alpenglow/src/parent_ready_tracker.rs:192-195 | pruning keeps them exact from the new root up |
| `ParentReadiness.ParentReadyTracker.AddToReady` | crates/karstflow-alpenglow/src/parent_ready_state.rs:72-79 | blocks are appended once; the duplicate assert is a precondition that every caller meets |
| `ParentReadiness.ParentReadyTracker.MarkNotarFallback` | crates/karstflow-alpenglow/src/parent_ready_tracker.rs:63-90 | ready means: marked, and every slot strictly between skipped; returned are exactly the newly ready pairs, each once |
| `ParentReadiness.ParentReadyTracker.MarkSkipped` | crates/karstflow-alpenglow/src/parent_ready_tracker.rs:93-146 | the same for a skip mark |
| `ParentReadiness.ParentReadyTracker.HandleFinalization` | crates/karstflow-alpenglow/src/parent_ready_tracker.rs:152-176 | all finalized blocks and skipped gaps are marked; a pair becomes ready iff the marks newly connect it or an old parent below the root is handed on; returned is one of these of the highest slot, the first appended to its list, or nothing iff there is none; it is all of them iff, on the tracker before the call and the arguments, at most one pair becomes ready |
| `ParentReadiness.BecomesReadyIff` | crates/karstflow-alpenglow/src/parent_ready_tracker.rs:63-176 | the ready lists grow by exactly the pairs that the new marks connect, and by parents from below the root that newly skipped slots hand on to a later window |
| `ParentReadiness.BestIsAllIff` | crates/karstflow-alpenglow/src/parent_ready_tracker.rs:148-176 | the one returned pair is everything that became ready iff the old lists and the new marks let at most one pair become ready |
| `ParentReadiness.TwoReadyOneReturned` | crates/karstflow-alpenglow/src/parent_ready_tracker.rs:148-176 | a concrete finalization that makes two parents ready and returns one |
| `ParentReadiness.ParentReadyTracker.WaitForParentReady` | crates/karstflow-alpenglow/src/parent_ready_tracker.rs:187-189 | returns the least ready parent, if any |
| `ParentReadiness.ParentReadyTracker.Prune` | crates/karstflow-alpenglow/src/parent_ready_tracker.rs:192-195 | drops exactly the slots below the root and keeps the lists exact |
| `SlotSpec.OffenceIffIncompatible` | crates/karstflow-alpenglow/src/slot_state.rs:484-556 | among votes that are no duplicates, the offences are exactly the votes that exclude one already stored |
| `SlotSpec.OffenceFirst` | crates/karstflow-alpenglow/src/slot_state.rs:484-556 | a vote is an offence iff it cannot stand beside a stored vote of its signer, also where it repeats one; a second notar vote for another block is always that offence; what is left and repeats something is a duplicate |
| `SlotSpec.AcceptedStaysCompatible` | crates/karstflow-alpenglow/src/slot_state.rs:484-556 | accepted votes never exclude each other |
| `SlotSpec.CountKeepsAccounted` | crates/karstflow-alpenglow/src/slot_state.rs:275-455 | every running total stays the stake of the validators with a stored vote of its kind, and the top total the largest per-hash one |
| `SlotSpec.TotalsBounded` | crates/karstflow-alpenglow/src/slot_state.rs:297-303 | the subtraction against the top total never underflows and no total exceeds the stake of the epoch |
| `SlotSpec.FinalExcludesSkip` | crates/karstflow-alpenglow/src/slot_state.rs:515-541 | inside one slot final and skip votes cannot both reach 60% |
| `SlotSpec.OneNotarQuorum` | crates/karstflow-alpenglow/src/slot_state.rs:497-510 | inside one slot at most one hash reaches 60% notar stake |
| `SlotSpec.SafeNotarIff` | crates/karstflow-alpenglow/src/slot_state.rs:213-252 | by the stored votes alone: safe iff the notar voters hold 20%, and 40% or 60% together with the skip voters, the parent is certified, and the own vote is a skip or for another block |
| `SlotStates.SlotState.CheckSafeToNotar` | crates/karstflow-alpenglow/src/slot_state.rs:213-252 | reports a block iff 20% of the stake is behind it, and 40% or 60% with the skip stake, its parent is certified and our own vote is skip or for another block |
| `SlotStates.SlotState.ProcessPending` | crates/karstflow-alpenglow/src/slot_state.rs:254-273 | afterwards the reported blocks are exactly those safe by the stored votes, and each newly safe block was reported once |
| `SlotStates.SlotState.AddVote` | crates/karstflow-alpenglow/src/slot_state.rs:417-455 | votes, totals, the skip flag and certificates after an accepted vote, all exactly, with the count-before-store order; afterwards exactly the blocks safe by the stored votes are reported, and exactly the unseen blocks with enough support among those rechecked are asked for |
| `SlotStates.SlotState.AddCert` | crates/karstflow-alpenglow/src/slot_state.rs:398-410 | stores the certificate; a second fallback certificate for one hash is dropped |
| `SlotStates.SlotState.NotifyParentKnown` | crates/karstflow-alpenglow/src/slot_state.rs:458-460 | records the parent once and keeps the report exact |
| `SlotStates.SlotState.NotifyParentCertified` | crates/karstflow-alpenglow/src/slot_state.rs:465-480 | certifies the parent of a known block; an event comes out iff that block became safe, and afterwards exactly the blocks safe by the stored votes are reported |
| `SlotMeaning.SkipCertMeets` | crates/karstflow-alpenglow/src/slot_state.rs:367-373 | every skip certificate built from votes passes the threshold test |
| `SlotMeaning.FinalCertMeets` | crates/karstflow-alpenglow/src/slot_state.rs:387-394 | every final certificate built from votes passes the threshold test |
| `SlotMeaning.CertsWhen` | crates/karstflow-alpenglow/src/slot_state.rs:275-396 | exactly when a vote creates each kind of certificate, by the stake of the voters stored with it: 60% for notar, fallback, skip and final, 80% for fast-final, and none of the kind stored |
| `SlotMeaning.NotarCertFallsShort` | crates/karstflow-alpenglow/src/slot_state.rs:319-328 | a notar or fast-final certificate carries the total before the triggering vote, and passes the test iff that total already met it |
| `SlotMeaning.FallbackCertFallsShort` | crates/karstflow-alpenglow/src/slot_state.rs:311-318 | a fallback certificate passes iff the stake before the trigger, less the stake of double voters, is a quorum |
| `SlotMeaning.DoubleVotesFallShort` | crates/karstflow-alpenglow/src/slot_state.rs:331-351 | a concrete case: a fallback certificate is due although two of five validators voted at all |
| `SlotMeaning.SafeSkipMeaning` | crates/karstflow-alpenglow/src/slot_state.rs:300-309 | the one subtraction stands for all blocks: safe to skip iff we notarized and 40% voted against every block |
| `SlotMeaning.SkipAnnouncedUnlessOwnNotar` | crates/karstflow-alpenglow/src/slot_state.rs:426-434 | every vote leaves each safe slot announced, except exactly our own notar vote when 40% already stand against the strongest block |
| `SlotMeaning.OwnNotarGoesUnannounced` | crates/karstflow-alpenglow/src/slot_state.rs:426-434 | a concrete case of the exception |
| `SlotMeaning.TotalsMeaning` | crates/karstflow-alpenglow/src/slot_state.rs:275-396 | the thresholds stand for quorums of votes really cast; in the fallback total the double voters count twice |
| `SlotMeaning.SafeNotarMeaning` | crates/karstflow-alpenglow/src/slot_state.rs:213-252 | a block is taken for safe iff it is by the stored votes, and then it has the support in the network that the event claims |
| `SlotMeaning.SafeSkipAgainst` | crates/karstflow-alpenglow/src/slot_state.rs:300-309 | a slot reported safe to skip has 40% of the network's stake against each of its blocks |
| `Finality.FinalitySound` | crates/karstflow-alpenglow/src/finality_tracker.rs:93-274 | over every run: implicitly finalized blocks are proper ancestors of directly finalized ones, implicitly skipped slots lie inside an edge out of a finalized block, direct ones rest on marks, and the watermarks stay in order |
| `Finality.StepKeeps` | crates/karstflow-alpenglow/src/finality_tracker.rs:180-274 | one operation keeps all of this and moves both watermarks up only |
| `Finality.WalkIsAncestry` | crates/karstflow-alpenglow/src/finality_tracker.rs:93-147 | a completed walk announces exactly the recorded ancestors, none left out, up to a decided block or slot, an unknown parent or the watermark, and contradicts no recorded hash |
| `Finality.WalkSkipsGaps` | crates/karstflow-alpenglow/src/finality_tracker.rs:105-117 | every slot leapt over on the way to an announced ancestor is announced as skipped |
| `Finality.Watermark` | crates/karstflow-alpenglow/src/finality_tracker.rs:158-172 | the watermark ends at the last slot of the decided run that follows it |
| `FinalitySpread.FinalizedIff` | crates/karstflow-alpenglow/src/finality_tracker.rs:206-274 | a block is announced as finalized iff the operation is its fast-final mark or the second of its notarization and its slot's final mark, above the watermark and not final before; the highest finalized slot follows |
| `FinalitySpread.StepSpreads` | crates/karstflow-alpenglow/src/finality_tracker.rs:93-274 | with every block that becomes final, and with every final block whose parent becomes known, exactly its recorded ancestry and the slots leapt over are announced; otherwise nothing |
| `FinalitySpread.StepRecords` | crates/karstflow-alpenglow/src/finality_tracker.rs:93-274 | whatever is announced is recorded as final or skipped, or lies below the new watermark |
| `FinalitySpread.FinalUnlessMarkedAgain` | crates/karstflow-alpenglow/src/finality_tracker.rs:229-274 | a final block stays final iff no notarization or final mark for its slot follows |
| `FinalitySpread.LateMarkStopsSpreading` | crates/karstflow-alpenglow/src/finality_tracker.rs:180-274 | a concrete run: a final certificate after a fast-final one keeps finality from spreading to the parent told later |
| `FinalitySpread.MarksCommute` | crates/karstflow-alpenglow/src/finality_tracker.rs:206-274 | notarization and final mark in either order, and a fast-final mark, end in the same tracker with the same announcement |
| `FinalitySpread.EitherOrder` | crates/karstflow-alpenglow/src/finality_tracker.rs:180-227 | away from the watermark, finalizing a block and learning its parent end the same in either order |
| `FinalitySpread.OrderMattersIff` | crates/karstflow-alpenglow/src/finality_tracker.rs:149-227 | what is announced depends on the order iff the block lies next to the watermark and its parent on it without being final |
| `FinalitySpread.GenesisDependsOnOrder` | crates/karstflow-alpenglow/src/finality_tracker.rs:149-227 | a concrete case: genesis is announced in one order only |
| `FinalitySpread.RunRests` | crates/karstflow-alpenglow/src/finality_tracker.rs:158-176 | after every run the watermark cannot move on and nothing is kept below it |
| `FinalityImpl.FinalityTracker.LeapOver` | crates/karstflow-alpenglow/src/finality_tracker.rs:105-117 | the gap loop marks the slots up to the first one already skipped, and panics iff one of them is final |
| `FinalityImpl.FinalityTracker.HandleImplicitlyFinalized` | crates/karstflow-alpenglow/src/finality_tracker.rs:93-147 | the nested loops compute `Walk`, including when they panic |
| `FinalityImpl.FinalityTracker.PruneDecided` | crates/karstflow-alpenglow/src/finality_tracker.rs:158-176 | the loop moves the watermark as `Prune` says |
| `FinalityImpl.FinalityTracker.Perform` | crates/karstflow-alpenglow/src/finality_tracker.rs:180-274 | each operation panics exactly when specified; otherwise it announces exactly the block it makes final and the ancestry that becomes final with it, records what it announces, keeps the announcements sound and the watermarks growing |
| `FinalityHalts.OneFinalizedChain` | crates/karstflow-alpenglow/src/finality_tracker.rs:93-147 | if direct finalizations are locked, two blocks of the finalized chain share no slot and neither is leapt over by the other |
| `FinalityHalts.WalkCompletes` | crates/karstflow-alpenglow/src/finality_tracker.rs:93-147 | then, unless a notarized block rivals the chain, the walk over the ancestors meets no conflict |
| `FinalityHalts.KnownHalt` | crates/karstflow-alpenglow/src/finality_tracker.rs:180-274 | an operation backed by votes panics only if a directly finalized block is not locked (with few double voters: a fast-finalized one), a notarized block rivals the finalized chain, or a block names a parent not below it |
| `PoolImpl.Pool.FinalityStep` | crates/karstflow-alpenglow/src/pool.rs:126-141 | panics iff the tracker does; exactly the announced blocks and gaps from the root up are marked, and a parent is announced iff some pair becomes ready: one of the highest slot, the first of its list; the root follows the watermark; nothing above it is lost; emitted parents are justified |
| `PoolImpl.Pool.NotifyChild` | crates/karstflow-alpenglow/src/pool.rs:173-181 | the child parked under a block, and no other, is told that its parent is certified; the panic happens iff its slot state no longer knows it |
| `PoolImpl.Pool.AddValidCert` | crates/karstflow-alpenglow/src/pool.rs:162-211 | panics iff the tracker panics or the child parked under the block did not survive the pruning; otherwise the certificate is stored and announced once, as the last event, with exactly the newly safe blocks; for every kind of certificate exactly the blocks and slots it stands for, or that it finalizes, are marked, and exactly the parents due are announced |
| `PoolImpl.Pool.AddVote` | crates/karstflow-alpenglow/src/pool.rs:260-303 | rejection for the first reason that applies; panic iff a certificate the vote completes cannot be taken, decided on the state before the call; or: the vote is stored and counted, every certificate that becomes due is announced for the first time and marks and announces the parents it makes ready, one after the other, every newly safe block and slot is reported, missing and certified blocks are asked for, and every event is justified by cast votes; on known votes a panic has one of the known reasons |
| `PoolImpl.Pool.AddCert` | crates/karstflow-alpenglow/src/pool.rs:232-257 | duplicate iff announced before; panic iff the certificate cannot be taken, decided on the state before the call, and on genuine certificates for one of the known reasons; an added certificate is announced once and last, leaves no certificate due, marks exactly what it stands for or finalizes, announces exactly the parents due, and every event is justified |
| `PoolImpl.Pool.AddBlock` | crates/karstflow-alpenglow/src/pool.rs:306-329 | panics iff the tracker does, for a known reason; otherwise the block is known, what becomes final through it is marked and the parent due is announced, and the block either learns that its parent has a fallback certificate or is parked under it, replacing an earlier child |
| `PoolImpl.Pool.VerdictMeaning` | crates/karstflow-alpenglow/src/pool.rs:260-284 | which votes are out of bounds, unknown, badly signed, offences or duplicates, by the votes held; a second notar vote for another block is always reported as the offence |
| `PoolImpl.Pool.SafeBlocksReported` | crates/karstflow-alpenglow/src/slot_state.rs:213-273 | in every slot of a pool exactly the blocks safe by the stored votes were reported |
| `PoolCore.TakeTellsChild` | crates/karstflow-alpenglow/src/pool.rs:168-181 | a notar or fallback certificate reaches the child parked under its block and no other |
| `PoolCore.OnlyLastChildTold` | crates/karstflow-alpenglow/src/pool.rs:306-329 | of two blocks parked under one parent only the later is ever told |
| `PoolImpl.Pool.KnowsLasts` | crates/karstflow-alpenglow/src/pool.rs:71-79 | what a pool holds stays true while the network goes on |
| `PoolCore.TakeAllKeepsParked` | crates/karstflow-alpenglow/src/pool.rs:162-211 | parked children at or above the watermark stay known through any certificates |
| `PoolCore.KnownTakeHalts` | crates/karstflow-alpenglow/src/pool.rs:162-211 | a certificate backed by votes makes a pool panic only for a reason of the tracker or because the child parked under its block lies below the watermark |
| `PoolCore.KnownTakeAllHalts` | crates/karstflow-alpenglow/src/pool.rs:260-303 | the same for all certificates a vote completes, one after the other |
| `Panics.PlayKeepsParked` | crates/karstflow-alpenglow/src/pool.rs:162-329 | over every run of blocks and certificates parked children at or above the watermark are known and the tracker's announcements sound |
| `Panics.ParkedChildPanics` | crates/karstflow-alpenglow/src/pool.rs:162-211 | a concrete run in which a notarization certificate prunes a parked child's slot and the notification panics |
| `Orphans.ChainIsFinalized` | crates/karstflow-alpenglow/src/votor.rs:188-348 | in every epoch a feasible schedule without adversary finalizes slots 4, 5 and 6 by the certificates that run uses |
| `Panics.BackedChildPanics` | crates/karstflow-alpenglow/src/pool.rs:162-211 | so in every epoch the moves of that run are backed by votes of honest validators |
| `Panics.HonestPoolsPanic` | crates/karstflow-alpenglow/src/finality_tracker.rs:118-140 | with no adversary, no double votes and everything backed by votes, a pool panics because a notarized block rivals the finalized chain |
| `Panics.LooseBlockPanics` | crates/karstflow-alpenglow/src/finality_tracker.rs:105-117 | with no adversary, no double votes and everything backed by votes, a pool panics because the finalized chain leaps over a fast-finalized block that is not locked |
| `Panics.PlayOnPool` | crates/karstflow-alpenglow/src/pool.rs:162-329 | a pool from its construction on panics in a run of blocks and certificates exactly when the run of its core does |
| `Panics.OrphanPoolPanics` | crates/karstflow-alpenglow/src/pool.rs:162-329 | a pool panics in the run with the parked child, for any certificates that pass the threshold test |
| `Panics.RivalPoolPanics` | crates/karstflow-alpenglow/src/finality_tracker.rs:118-140 | the same for the notarized block that rivals the finalized chain |
| `Panics.LoosePoolPanics` | crates/karstflow-alpenglow/src/finality_tracker.rs:105-117 | the same for the fast-finalized block that is leapt over |
| `Validators.Validator.ReceiveVote` | crates/karstflow-alpenglow/src/pool.rs:260-303 | a validator hands exactly its pool's events to its voting process, in order, and stays in step: the schedule grows by these events and stays feasible, the voting process is where it leads, and the pool holds only what is true; it halts iff its pool panics on the vote, for a known reason; the vote may be any that its honest signer cast |
| `Validators.Validator.ReceiveCert` | crates/karstflow-alpenglow/src/pool.rs:232-257 | the same when a certificate arrives on which no honest signature is forged |
| `Validators.Validator.ReceiveBlock` | crates/karstflow-alpenglow/src/pool.rs:306-329 | the same when a block arrives with its parent |
| `Validators.Validator.ReceiveBlockstoreEvent` | crates/karstflow-alpenglow/src/votor.rs:359-391 | the same for blockstore events |
| `Validators.Validator.ReceiveTimeout` | crates/karstflow-alpenglow/src/votor.rs:393-411 | the same for timeouts |
| `Validators.Validator.OthersMove` | crates/karstflow-alpenglow/src/votor.rs:319-357 | the moves of other validators leave a validator in step |
| `Validators.AnyVoteMayArrive` | crates/karstflow-alpenglow/src/pool.rs:260-303 | with every validator among the possible double voters, a received vote must meet nothing but that an honest signer cast it |
| `Validators.FinalizedSlotsAgree` | crates/karstflow-alpenglow/src/finality_tracker.rs:206-274 | for any votes at all: a slot that one validator finalized by a final certificate is sealed for all others; none of them notarizes, fast-finalizes or finalizes another block of it or takes it for skipped |
| `Validators.FinalizedBlocksAgree` | crates/karstflow-alpenglow/src/finality_tracker.rs:93-274 | with the adversary and the double voters below 20% in sum: whatever one validator finalized, directly, fast or implicitly, at or above a slot that another finalized by a final certificate, descends from the block finalized there |
| `Validators.FastFinalizedBlocksAgree` | crates/karstflow-alpenglow/src/finality_tracker.rs:93-274 | the same above a block that another validator fast-finalized, as long as the adversary, the validators that voted both ways in its slot and the double voters stay below 20% |
| `PoolSpec.FinalityKnown` | crates/karstflow-alpenglow/src/finality_tracker.rs:93-147 | finalized blocks and their implicitly finalized ancestors are certified, and implicitly skipped slots are skipped, by votes of the network |
| `PoolSpec.DueKnown` | crates/karstflow-alpenglow/src/slot_state.rs:275-396 | a certificate that is due stands for a quorum of cast votes |
| `PoolSpec.BuiltFallsShort` | crates/karstflow-alpenglow/src/pool.rs:298-300 | every notar or fast-final certificate the pool builds itself fails the threshold test it applies to received ones |
| `Forks.IndexRefinesScan` | crates/karstflow-consensus/src/bank_forks.rs:454-498 | for a present slot and a live bank, the child index and the ancestor scan agree |
| `ForksImpl.BankForks.Insert` | crates/karstflow-consensus/src/bank_forks.rs:112-145 | errors exactly as specified; otherwise the bank is listed under a present live parent |
| `ForksImpl.BankForks.Descendants` | crates/karstflow-consensus/src/bank_forks.rs:454-475 | the breadth-first walk ends, lists everything below a slot once, and for live banks agrees with the ancestor scan |
| `ForksImpl.BankForks.Scan` | crates/karstflow-consensus/src/bank_forks.rs:477-498 | the scan loop decides whether walking up present parents meets the ancestor |
| `ForksImpl.BankForks.MarkDead` | crates/karstflow-consensus/src/bank_forks.rs:285-316 | exactly the live banks at or below the slot die and are queued once; no live bank keeps a dead parent |
| `ForksImpl.BankForks.TryPruneDead` | crates/karstflow-consensus/src/bank_forks.rs:357-398 | evicts exactly the longest prefix of the queue that nobody holds |
| `ForksImpl.BankForks.MarkDeadAndEvict` | crates/karstflow-consensus/src/bank_forks.rs:238-276 | both in one |
| `ForksImpl.BankForks.PruneDead` | crates/karstflow-consensus/src/bank_forks.rs:321-346 | evicts exactly the dead banks |
| `ForksImpl.BankForks.SetRoot` | crates/karstflow-consensus/src/bank_forks.rs:159-216 | errors exactly as specified; otherwise exactly the banks below the root and the dead ones go, and the report lists them |
| `EpochSchedules.SumIsClosedForm` | crates/karstflow-consensus/src/epoch_schedule.rs:99-115 | the slow loops equal 2^e - 1 and meet the direct formula at the first normal epoch |
| `EpochSchedules.Adjacent` | crates/karstflow-consensus/src/epoch_schedule.rs:67-89 | each epoch ends where the next begins, and the saturating lengths are the exact ones |
| `EpochSchedules.EpochUnique` | crates/karstflow-consensus/src/epoch_schedule.rs:40-49 | a slot is in one epoch only |
| `EpochSchedules.EpochRoundTrip` | crates/karstflow-consensus/src/epoch_schedule.rs:40-76 | any slot of an epoch leads back to that epoch |
| `EpochSchedules.Schedule.EpochSlow` | crates/karstflow-consensus/src/epoch_schedule.rs:99-107 | the loop ends at the epoch whose saturating sums enclose the slot |
| `EpochSchedules.Schedule.FirstSlotSlow` | crates/karstflow-consensus/src/epoch_schedule.rs:109-115 | the loop adds up the epoch lengths |
| `EpochSchedules.Schedule.Epoch` | crates/karstflow-consensus/src/epoch_schedule.rs:40-49 | first(e) <= slot < first(e + 1), for every 64-bit slot, in warmup and after |
| `EpochSchedules.Schedule.EpochAndIndex` | crates/karstflow-consensus/src/epoch_schedule.rs:51-65 | slot = first(e) + index with index below the epoch's length |
| `EpochSchedules.Schedule.FirstSlot` | crates/karstflow-consensus/src/epoch_schedule.rs:67-76 | the exact first slot, saturated at 64 bits |
| `EpochSchedules.Schedule.LastSlot` | crates/karstflow-consensus/src/epoch_schedule.rs:78-81 | the slot before the next epoch, and what saturation makes of it |
| `EpochSchedules.Schedule.LeaderScheduleEpoch` | crates/karstflow-consensus/src/epoch_schedule.rs:91-97 | the epoch of the slot less the offset |
| `Banking.ValidateAccountLocks` | crates/karstflow-consensus/src/bank_executor.rs:530-554 | accepts iff there are at most 64 keys, all different, and names a key that occurs twice |
| `Banking.VerifyLamportBalance` | crates/karstflow-consensus/src/bank_executor.rs:561-589 | accepts iff the writable accounts hold the same lamports in sum before and after |
| `Banking.WrittenKeepsSupply` | crates/karstflow-consensus/src/bank_executor.rs:2206-2238 | what a balanced transaction writes keeps the supply of the debited accounts |
| `Banking.FailureSupply` | crates/karstflow-consensus/src/bank_executor.rs:2106-2123 | a failed transaction takes exactly the fee out of the accounts, or nothing if the nonce account itself paid |
| `Banking.LandedKeyByKey` | crates/karstflow-consensus/src/bank_executor.rs:2106-2244 | key by key: an account the machine changed is kept as changed, or emptied if it has no lamports left; an unchanged payer is charged; an unchanged nonce account is advanced; a failure charges the payer and advances the nonce; all others stay |
| `Banking.WritableAre` | crates/karstflow-consensus/src/bank_executor.rs:233-256 | which accounts of a transaction are writable |
| `Banking.Bank.Land` | crates/karstflow-consensus/src/bank_executor.rs:1848-2259 | outcome, every account key by key and the fee counters of a transaction that runs, on any bank: the accounts and the collected fees change in sum by exactly the fee a nonce account got back; a balanced bank stays so iff that is nothing |
| `Banking.Bank.Process` | crates/karstflow-consensus/src/bank_executor.rs:1395-1848 | when a transaction is rejected, charged on paper only, failed or succeeded; key by key what it leaves in each account; what it collects; and that accounts plus collected fees grow by exactly what a nonce account got back |
| `Banking.Bank.ProcessBatch` | crates/karstflow-consensus/src/bank_executor.rs:2332-2356 | for any batch on any bank: accounts plus collected fees grow by exactly the fees given back to nonce accounts, so a balanced bank stays balanced iff there are none, as long as the sum fits in 64 bits; the reported fees exceed the collected ones by those of transactions whose accounts did not load |
| `Banking.Bank.DistributeFees` | crates/karstflow-consensus/src/bank.rs:1634-1669 | refused iff the bank is frozen or rooted; nothing is lost in the split between burn and leader; the bank stays balanced iff a leader is scheduled or nothing is left for it |
| `Banking.Bank.Credit` | crates/karstflow-consensus/src/bank.rs:1715-1721 | the credit never saturates |
| `Banking.Bank.RunIncinerator` | crates/karstflow-consensus/src/bank.rs:1213-1231 | empties one account, changes no other, and stays balanced |
| `Banking.Bank.RunSlot` | crates/karstflow-consensus/src/bank.rs:1634-1669 | after a batch, fee distribution and incineration the capitalization is exactly what the accounts hold, and has not grown; a frozen or rooted bank keeps the fees collected and stays balanced |
| `Banking.NoncePayerCreatesLamports` | crates/karstflow-consensus/src/bank_executor.rs:2106-2123 | a concrete bank: a failing transaction paid by its own nonce account, above its rent minimum, leaves ten lamports too many |
| `Banking.ChargedOnPaperOnly` | crates/karstflow-consensus/src/bank_executor.rs:1786-1845 | a concrete bank: a transaction whose accounts do not load is reported with a fee of ten, and accounts and fee counters stay as they were |
| `Banking.LeaderlessFeesVanish` | crates/karstflow-consensus/src/bank.rs:1634-1669 | a concrete bank: fees given out without a leader leave five lamports too few |

## Left out

- The pool after a panic: nothing is stated about it.
- Epoch.NewEpochInfo: public keys and leader rotation are not modelled.
- Signing and verifying votes and certificates: placeholders in the code; whether a signature is good is a parameter, and the network assumes honest signatures are not forged.
- Clocks: timeouts are events; when they fire is not modelled.
- Standstill recovery: re-broadcast bundles pass through the voting process, but how the pool records and assembles them is left out.
- Network and blockstore transport, and the wire form of votes.
- 64-bit overflow of slot numbers: slots are unbounded; stake sums are assumed to fit.
- A validator with 60% or more of the stake: the code asserts that votes were stored before the one that completes a certificate, so this is required not to happen (`SlotStates.Fits`).
- The branch of `try_prune_dead` for a queued bank that is already gone: the invariant shows that it cannot be reached.
- `BankForks::prune_non_rooted`, the working bank and the notifier: the first drops banks without updating the dead tracking, the others carry no property of the tree; banks that somebody holds are a parameter.
- A bank's contents in the fork tree: only its parent is kept, and whether a bank is rooted is a parameter.
- The virtual machine, compute budgets, cost tracking, rent states, signature and blockhash checks: their answers are parameters of `Banking.Bank.Process`; the machine is assumed to change lamports only on writable accounts of the transaction.
- The sysvar cache: loaded accounts are those of the database.
- Lattice hashes, stake and vote caches, notifications, rewards, snapshots and rent collection.
