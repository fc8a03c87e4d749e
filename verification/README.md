# go-openaudio in Dafny

A model of the parts of go-openaudio whose correctness is hardest to see from the code, with proofs
about every run, every input and every interleaving. `dafny verify dfyconfig.toml` checks all of it.

- **Genesis writer** (`GenesisChain`, `GenesisState`, `GenesisMachine`, `GenesisSafety`,
  `GenesisCompletion`, `GenesisWriter`). A state machine of the producer with its list of steps, the
  background block writer, step checkpoints, crashes and resumes, and the writer's own code proved
  against the machine's functions. The first run starts on an empty database and all runs share the
  genesis time. A step that was not checkpointed is replayed from its start, so a finished run has
  written each of its steps at least once (`FinishedRunWroteEveryStep`), not exactly once.
- **ETL indexing** (`BlockIndexer`, `BlockNumbers`, `StorageProofs`, `BlockSource`). The fast path
  without savepoints against the savepoint path, block numbering, storage-proof voting, and the polling
  and streaming block sources. The fast path agrees for handlers of every kind: a tolerated error that
  left a failed statement makes the audit insert fail, which forces the replay.
- **Validator lifecycle** (`ValidatorModel`, `FaultyBehaviors`, `SimulatedNetworks`,
  `VersionSkewNetworks`, `NetworkEquivalence`, `NetworkDepartures`, `QuorumPlans`,
  `MixedPlanExecution`, `Recovery`). The lifecycle machine with its eight behaviours, the two in-memory
  networks, the quorum planners and the recovery stages with their baselines.
- **Rendezvous hashing and the parity merge** (`Rendezvous`, `ParityMerge`).
- **Reward pools and comments** (`RewardPlan`, `CommentEmission`).

`Options`, `Sums` and `Ordering` hold optional values, sums over maps, byte order on strings and sorting.

Hashes, signatures, key derivation, entity handlers, servers and the order in which concurrent work
lands are parameters, so the theorems hold for all of them. Integers are unbounded and times are whole
seconds. Go strings and byte slices are sequences of bytes.

Where the code and an expectation about it disagree:

- A mixed removal-and-stop plan need not exist with four live validators of equal power
  (`FourOfFiveHasNoPlan`); `EqualPowersPlanExists` gives the exact condition.
- A crash can leave a chain that no resume continues (`ACrashCanBeFinal`, `MissingTailRefusesForever`).
  With a blockstore this happens exactly when a committed block is not yet saved, or a commit that landed
  was reported as failed (`CrashIsStuckExactly`).
- A resumed run that writes no block and whose query for the last row fails ends without an error, reports
  height 0, and so leaves out the CometBFT state, genesis file and manifest (`AResumeCanReportNothing`);
  `FinishedRunReportsTheTip` gives the exact condition.
- Recovery without a working registrar does not bring back deregistered nodes; `RecoveryRestores` gives
  the exact condition. A register that silently does nothing passes all checks of the lifecycle model
  (`SilentRegisterIsNeverReported`), and the baselines show it exactly when some node could not be mended
  otherwise (`BaselinesTellExactly`).
- The comment in `filterLiveHosts` speaks of a host being in the list of dead hosts; the code matches
  substrings. Only listed hosts are dropped if and only if no other valid host contains an entry of that
  list (`OnlyListedHostsDropped`); an empty entry removes every host (`EmptyDeadEntryKillsAll`).

## Model

| member | source | states |
|---|---|---|
| GenesisSafety.EveryRunWritesOneChain | cmd/genesis-writer/writer.go:291-347 | over every interleaving, writer failure, crash and resume, the disk alone always shows one chain: heights 1..n without gaps, one second apart from genesis, each block carrying the id of, the commit over and the app hash after the one before, with the blockstore at most one block behind postgres |
| GenesisSafety.NothingIsRewritten | cmd/genesis-writer/writer.go:291-347 | what one state of a run has in core_blocks, core_transactions and the blockstore, every later state has unchanged |
| GenesisSafety.ResumeRestoresTheRun | cmd/genesis-writer/writer.go:529-571 | a resume whose queries are answered goes ahead if and only if nothing was written yet or the blockstore holds the last height in core_blocks, and then holds exactly the height, time, block id, commit and app hash of an uninterrupted run over the durable blocks, with the checkpointed steps marked done |
| GenesisSafety.SameBlocksSameTip | cmd/genesis-writer/writer.go:984-998 | two processes of any two runs, interrupted or not, that have produced the same blocks build the next one identically |
| GenesisSafety.MissingTailRefusesForever | cmd/genesis-writer/writer.go:552-559 | once a crash has left postgres a block ahead of the blockstore, every later resume refuses and nothing is ever written again |
| GenesisCompletion.CrashIsStuckExactly | cmd/genesis-writer/writer.go:291-347 | a crash of a running process leads to that refusal if and only if a committed block is waiting for its save or a commit that landed was reported as failed (without a blockstore: if a block exists) |
| GenesisCompletion.ACrashCanBeFinal | cmd/genesis-writer/writer.go:337-344 | a run that gets there: one step, one transaction, its block committed, then a crash |
| GenesisCompletion.FinishedRunWroteEveryStep | cmd/genesis-writer/writer.go:607-669 | a finished run has every step of its list in the progress table, recorded by it or an earlier run, and all that step emitted in core_transactions |
| GenesisCompletion.ARunCompletes | cmd/genesis-writer/writer.go:607-717 | runs do finish: one step, one transaction, one block in both stores, the step recorded |
| GenesisSafety.CheckpointedStepIsDurable | cmd/genesis-writer/writer.go:628-668 | in every reachable state, a step in the progress table has all transactions it emitted in core_transactions, as one contiguous range of blocks |
| GenesisSafety.CountsAgree | cmd/genesis-writer/writer.go:856-869 | in every reachable state: accepted = flushed + buffered, blocks written are a prefix of blocks produced, at most five blocks are in flight, and without a writer failure the difference is exactly the queue |
| GenesisSafety.ChecksNeverFire | cmd/genesis-writer/writer.go:658-676 | the lost-transaction check before a checkpoint and the final partial flush never find anything |
| GenesisSafety.FinishedRunReportsTheTip | cmd/genesis-writer/writer.go:692-717 | a run that ends holds the tip of the chain; it reports the last block if and only if it wrote a block or its query for the last row was answered, and otherwise ends without error and reports height 0 |
| GenesisCompletion.AResumeCanReportNothing | cmd/genesis-writer/writer.go:692-717 | a run that does so: a resume over recorded steps whose query fails, with a block in both stores |
| GenesisCompletion.AResumeCanReportTheTip | cmd/genesis-writer/writer.go:529-717 | the same resume with its query answered reports that block |
| GenesisSafety.RunKeeps | cmd/genesis-writer/writer.go:607-676 | the inductive invariant over every run of the state machine |
| GenesisSafety.SaveKeeps | cmd/genesis-writer/writer.go:341-344 | the blockstore save is always contiguous, so it never panics |
| GenesisSafety.RecordKeeps | cmd/genesis-writer/writer.go:643-668 | recording progress after flush, drain and count check covers exactly the blocks since the step began |
| GenesisSafety.ResumedIsContinuous | cmd/genesis-writer/writer.go:469-501 | the memory rebuilt from core_app_state and the blockstore tail is the one a continuous run holds |
| GenesisSafety.RecoveredIsFinal | cmd/genesis-writer/writer.go:694-716 | reading the final state back, hash through its hexadecimal text or left as resumed, gives what the last flush would have left |
| GenesisMachine.FlushKeeps | cmd/genesis-writer/writer.go:873-1009 | a flush, successful or not, keeps links, counts, step contents and final state |
| GenesisMachine.AddKeeps | cmd/genesis-writer/writer.go:856-869 | so does handing over one transaction, also after a failed flush left the buffer over-full |
| GenesisMachine.ProducerMemory | cmd/genesis-writer/writer.go:856-1009 | the machine's flush and hand-over act on the writer's memory as flushBlock and addTx do |
| GenesisMachine.DrainedIsSettled | cmd/genesis-writer/writer.go:276-286 | a closed and drained channel without an error means everything produced is durable |
| GenesisChain.ChainIsLinked | cmd/genesis-writer/writer.go:899-998 | the blocks of any run are linked from genesis |
| GenesisChain.LinkedIsUnique | cmd/genesis-writer/writer.go:899-923 | linked chains with the same transactions are the same chain |
| GenesisChain.HexRoundTrip | cmd/genesis-writer/writer.go:705-711 | a block hash stored as text decodes to the same bytes |
| GenesisState.CommittedHolds | cmd/genesis-writer/writer.go:291-339 | writing the next block passes the unique keys and leaves exactly the longer chain in the tables |
| GenesisState.SavedHolds | cmd/genesis-writer/writer.go:341-344 | saving the one missing block is contiguous and completes the blockstore |
| GenesisWriter.HashTxs | cmd/genesis-writer/writer.go:881-887 | the running hash is the hash of the concatenated transactions |
| GenesisWriter.MakeRows | cmd/genesis-writer/writer.go:889-897 | one row per transaction, in order, in an array of its own |
| GenesisWriter.CopyTxs | cmd/genesis-writer/writer.go:899-903 | the block gets its own copy of the buffer |
| GenesisWriter.Writer.constructor | cmd/genesis-writer/writer.go:213-228 | a new writer starts at height 1 and genesis time with nothing linked, buffered or queued |
| GenesisWriter.Writer.BuildBlock | cmd/genesis-writer/writer.go:878-963 | block, id, rows and commit built from the buffer are those of the next block of the chain |
| GenesisWriter.Writer.FlushBlock | cmd/genesis-writer/writer.go:873-1009 | the whole effect of a flush; empty buffers and failures change nothing; the backing array is kept |
| GenesisWriter.Writer.AddTransaction | cmd/genesis-writer/writer.go:856-869 | the whole effect of addTx; whatever the reused array held, no pending block changes |
| GenesisWriter.Writer.Append | cmd/genesis-writer/writer.go:863-863 | appending in place or into a larger array leaves all pending blocks as they were |
| GenesisWriter.Writer.Resume | cmd/genesis-writer/writer.go:530-571 | resume succeeds exactly when the tail is there, and then rebuilds the state machine's resumed memory |
| GenesisWriter.Writer.RecoverFinal | cmd/genesis-writer/writer.go:692-717 | the recovery of the final state as a whole, with either query failing unnoticed |
| GenesisWriter.Destination.WriteBlockToDB | cmd/genesis-writer/writer.go:291-347 | postgres commits first; a reported failure may have committed but never saved |
| GenesisWriter.Destination.ResumeTail | cmd/genesis-writer/writer.go:469-501 | the stored block's id, seen commit and time, or nothing |
| BlockIndexer.Indexer.ProcessBlock | pkg/etl/indexer.go:467-477 | for every block and every deterministic handler set, outcome, counts and committed database are those of the savepoint path, whether the fast path is taken, abandoned or not tried |
| BlockIndexer.FastPathAgrees | pkg/etl/indexer.go:429-477 | the attempt without savepoints either asks for savepoints or means the same; it asks exactly when some transaction cannot go in with writes and audit row |
| BlockIndexer.DirectAgrees | pkg/etl/indexer.go:547-603 | transaction by transaction: same work while all apply, savepoints asked for otherwise, also when a tolerated error left a failed statement |
| BlockIndexer.HardTxLeavesOnlyAudit | pkg/etl/indexer.go:595-602 | a transaction whose handler fails hard leaves its audit row and nothing else |
| BlockIndexer.HardTxIsAudited | pkg/etl/indexer.go:574-602 | every hard-failing transaction of an indexed block is in the audit log the block leaves |
| BlockIndexer.IndexedCounts | pkg/etl/indexer.go:653-797 | an indexed block counts every entity transaction once; rejected and unrouted together are at most that |
| BlockIndexer.BodilessIsNeverIndexed | pkg/etl/indexer.go:504-512 | a block holding a transaction without a body is never indexed and leaves nothing |
| BlockIndexer.Indexer.DirectAttempt | pkg/etl/indexer.go:479-611 | an abandoned attempt commits nothing; otherwise it is the direct run of the block |
| BlockIndexer.Indexer.NestedAttempt | pkg/etl/indexer.go:479-611 | a savepoint per transaction, with the error paths of an aborted transaction |
| BlockIndexer.Indexer.ProcessOneTx | pkg/etl/indexer.go:623-797 | handler verdicts to counts, rollback and poisoning |
| BlockIndexer.Indexer.NestedTx | pkg/etl/indexer.go:559-602 | one transaction in its savepoint: kept, undone or audit row only |
| BlockIndexer.Indexer.DirectTx | pkg/etl/indexer.go:559-588 | poisoned exactly when the transaction cannot stay |
| BlockIndexer.Indexer.OpenBlock | pkg/etl/indexer.go:484-545 | the rows before the transactions, and the ways not to get past them |
| BlockIndexer.MigrationOnlyBlock | pkg/etl/indexer.go:449-462 | true exactly for non-empty blocks of migrations with bodies |
| BlockIndexer.HasEntityTx | pkg/etl/indexer.go:503-512 | stops at the first entity transaction; none if a missing body comes first |
| BlockNumbers.SingleWriterNumbers | pkg/etl/indexer.go:1086-1119 | any sequence of hashes, repeats included, leaves the table that numbers them 1, 2, ... in first-seen order |
| BlockNumbers.SingleWriterLinks | pkg/etl/indexer.go:1086-1119 | every hash has a number, each row's parent is the hash numbered one below, and resolving again changes nothing |
| BlockNumbers.ClashExactly | pkg/etl/indexer.go:1086-1119 | a resolve fails exactly when its hash is new and an unseen row took its number; one that sees the whole table never fails |
| BlockNumbers.BlockTable.ResolveBlock | pkg/etl/indexer.go:514-531 | with the one retry, a block stays without a number exactly when both attempts clash, whatever other writers committed in between; numbers stay unique |
| BlockNumbers.TwoRivals | pkg/etl/indexer.go:514-531 | that takes two different rows of other writers, the second committed unseen after the first |
| BlockNumbers.InsertedIsUnique | pkg/etl/indexer.go:1092-1105 | no clash breaks the uniqueness of numbers |
| BlockNumbers.ResolveNumbered | pkg/etl/indexer.go:1086-1119 | a known hash leaves a numbered table alone, a new one is numbered next |
| BlockNumbers.BlockTable.Resolve | pkg/etl/indexer.go:1086-1119 | insert after the last row seen, unless hash or number clash, then read back |
| StorageProofs.ProcessConsensus | pkg/etl/indexer.go:1202-1262 | passed are the submitters whose update went through; failed are exactly the addresses named more than half the number of proofs that did not pass, each once, in whatever order the map is walked |
| StorageProofs.FewFailures | pkg/etl/indexer.go:1225-1262 | if no proof names more than r provers, r at least 1, fewer than 2r addresses fail |
| StorageProofs.PassedAndFailedAreDisjoint | pkg/etl/indexer.go:1228-1262 | without database errors, passing is submitting, and failing is being named more than half the number of proofs without submitting, so nobody does both |
| StorageProofs.VotesIgnoreOrder | pkg/etl/indexer.go:1217-1223 | the order of the proofs does not matter |
| StorageProofs.VoteMapCounts | pkg/etl/indexer.go:1217-1223 | the map holds the votes of exactly the addresses named |
| StorageProofs.CountVotes | pkg/etl/indexer.go:1217-1223 | the nested loops build the vote map |
| StorageProofs.MarkPassed | pkg/etl/indexer.go:1228-1245 | the addresses of signed, addressed proofs whose update succeeds |
| BlockSource.StreamOnTrack | pkg/etl/stream.go:52-129 | with an honest server, across stream drops, reconnects, empty messages and polling fallback, the blocks delivered are start, start+1, ... and the backoff is 0 or 200 ms to 2 s |
| BlockSource.PollRoundsOnTrack | pkg/etl/prefetch.go:69-168 | the same for polling with batch gaps, disabled batching and single fetches |
| BlockSource.RoundDeliversOrBacksOff | pkg/etl/prefetch.go:73-167 | a polling round delivers something exactly when it leaves no backoff |
| BlockSource.BatchingStaysOff | pkg/etl/prefetch.go:99-107 | once batching is disabled it stays disabled |
| BlockSource.IncreaseBackoff | pkg/etl/prefetch.go:48-57 | from 0 or a value in 200 to 2000 the next backoff is in 200 to 2000 |
| BlockSource.Prefetcher.EmitRun | pkg/etl/prefetch.go:115-133 | the longest contiguous run from the requested height, cut short only by cancellation |
| BlockSource.Prefetcher.Round | pkg/etl/prefetch.go:73-167 | one pass of the polling loop |
| BlockSource.Prefetcher.RunInto | pkg/etl/prefetch.go:69-168 | any number of passes from any height |
| BlockSource.RunStream | pkg/etl/stream.go:52-116 | the stream loop with its switch to polling: height, backoff, deliveries and cancellation at the end are those of the runs StreamOnTrack speaks of |
| BlockSource.Connect | pkg/etl/stream.go:71-116 | one connection: cancelled, fallen back because streaming is unimplemented, or to be retried with more backoff |
| BlockSource.ForwardAll | pkg/etl/stream.go:86-101 | forwards blocks, skips empty messages, stops on cancellation |
| ValidatorModel.CurrentRun | pkg/fuzz/validator_model.go:202-394 | under the intended behaviour no run on known nodes reports an error, active iff in the Comet set and online only if active hold, the height grows by the ticks taken with a quorum, and the emitted updates alone rebuild the Comet set |
| ValidatorModel.InitialIsConsistent | pkg/fuzz/validator_model.go:167-200 | a new model is consistent, positively weighted and lists its nodes once |
| ValidatorModel.ValidatorLifecycleModel.constructor | pkg/fuzz/validator_model.go:167-200 | node1..nodeN, the first ones active and online, everyone honest |
| ValidatorModel.ValidatorLifecycleModel.Perform | pkg/fuzz/validator_model.go:202-300 | one action of any of the eight behaviours, step by step, has the given meaning: nodes, height, events and error |
| ValidatorModel.ValidatorLifecycleModel.PerformUpdate | pkg/fuzz/validator_model.go:202-300 | register, jail, unjail, start, stop and endpoint actions |
| ValidatorModel.ValidatorLifecycleModel.UpdateNode | pkg/fuzz/validator_model.go:202-300 | the node each of these actions leaves under each behaviour, whether it emits an update, and whether that would remove a validator Comet does not have |
| ValidatorModel.ValidatorLifecycleModel.DeregisterNode | pkg/fuzz/validator_model.go:302-331 | one deregistration, with the faulty variants' errors |
| ValidatorModel.ValidatorLifecycleModel.TickOnce | pkg/fuzz/validator_model.go:333-365 | a tick, with the errors for advancing without and stalling with a quorum |
| ValidatorModel.ValidatorLifecycleModel.Power | pkg/fuzz/validator_model.go:367-378 | total and online power summed over the map in any order |
| ValidatorModel.ValidatorLifecycleModel.Validate | pkg/fuzz/validator_model.go:406-419 | reports exactly the inconsistent states |
| FaultyBehaviors.ReportedExactlyAtFirstTrigger | pkg/fuzz/validator_model.go:202-365 | each faulty behaviour but the silent register reports an error iff some action triggers it, runs in lock step with the intended one up to the first trigger, and stops there with its own violation |
| FaultyBehaviors.SilentRegisterIsNeverReported | pkg/fuzz/validator_model.go:202-300 | the silent register is never reported by the model's own checks on any run |
| FaultyBehaviors.LockStep | pkg/fuzz/validator_model.go:202-365 | untriggered runs are the intended runs |
| SimulatedNetworks.SnapshotQuorumIsModelQuorum | pkg/fuzz/types.go:151-167 | a snapshot's quorum verdict is the model's online quorum whatever endpoints advertise |
| SimulatedNetworks.CurrentCall | pkg/fuzz/simulated_network.go:73-129 | every intended call on a known node succeeds and changes that node and its endpoint only |
| SimulatedNetworks.CurrentSnapshot | pkg/fuzz/simulated_network.go:131-167 | a snapshot call adds at most one block, exactly when it ticks with a quorum |
| SimulatedNetworks.UnknownCall | pkg/fuzz/simulated_network.go:173-185 | calls about unknown nodes are refused and change only the step counter |
| SimulatedNetworks.ValidatorPower | pkg/fuzz/types.go:151-162 | total and live power of a snapshot |
| SimulatedNetworks.SimulatedNetwork.constructor | pkg/fuzz/simulated_network.go:32-67 | the initial model with every endpoint its own |
| SimulatedNetworks.SimulatedNetwork.Restart | pkg/fuzz/simulated_network.go:81-86 | stop, then start if that succeeded |
| SimulatedNetworks.SimulatedNetwork.Register | pkg/fuzz/simulated_network.go:88-96 | register and reset the endpoint |
| SimulatedNetworks.SimulatedNetwork.SetEndpoint | pkg/fuzz/simulated_network.go:102-121 | repair or lie, by the address given |
| SimulatedNetworks.SimulatedNetwork.TakeSnapshot | pkg/fuzz/simulated_network.go:131-167 | tick, then one status per node in order |
| VersionSkewNetworks.NewVersionSkewNetwork | pkg/fuzz/version_skew_network.go:87-139 | building fails if and only if some legacy id names no node; otherwise all nodes are active, online and honest at their own addresses, and node1 is legacy if none is named |
| VersionSkewNetworks.VersionSkewNetwork.TriggerLocked | pkg/fuzz/version_skew_network.go:398-591 | the whole trigger family: fork the legacy history or halt the active legacy nodes when the armed mode meets its event |
| VersionSkewNetworks.VersionSkewNetwork.Start | pkg/fuzz/version_skew_network.go:145-173 | start in each state and mode |
| VersionSkewNetworks.VersionSkewNetwork.Stop | pkg/fuzz/version_skew_network.go:175-179 | stop |
| VersionSkewNetworks.VersionSkewNetwork.Restart | pkg/fuzz/version_skew_network.go:181-186 | stop, then start |
| VersionSkewNetworks.VersionSkewNetwork.Register | pkg/fuzz/version_skew_network.go:188-220 | register in each state and mode |
| VersionSkewNetworks.VersionSkewNetwork.Deregister | pkg/fuzz/version_skew_network.go:222-234 | deregister in each state |
| VersionSkewNetworks.VersionSkewNetwork.SetEndpoint | pkg/fuzz/version_skew_network.go:236-297 | endpoint changes in each state and mode |
| VersionSkewNetworks.VersionSkewNetwork.Jail | pkg/fuzz/version_skew_network.go:299-309 | jail in each state |
| VersionSkewNetworks.VersionSkewNetwork.Unjail | pkg/fuzz/version_skew_network.go:311-335 | unjail in each state and mode |
| VersionSkewNetworks.VersionSkewNetwork.TakeSnapshot | pkg/fuzz/version_skew_network.go:344-376 | advance on a live quorum, then one status per node in order |
| NetworkEquivalence.QuietRunsAgree | pkg/fuzz/version_skew_network.go:145-376 | until a call departs, the two networks give equal replies to every call sequence, modulo address domain and version label, and stay in agreement; calls on which the armed mode acts without consequence do not count |
| NetworkEquivalence.DepartureEndsAgreement | pkg/fuzz/version_skew_network.go:145-376 | and no further: after a quiet run the next call ends the agreement if and only if it departs |
| NetworkDepartures.ToldExactlyIfDeparts | pkg/fuzz/version_skew_network.go:145-376 | some calls get different replies from the two networks if and only if some calls depart, for every mode and every network with a legacy node |
| NetworkDepartures.DepartureCanBeSeen | pkg/fuzz/version_skew_network.go:145-376 | after any quiet run, a departing call has a continuation with different replies: the next snapshot, or for a fork the first one with a block and everyone up |
| NetworkDepartures.NewIsArmed | pkg/fuzz/version_skew_network.go:118-138 | every network that can be built has a legacy node, which is all the two results above ask of it besides agreement |
| NetworkEquivalence.KeepsAgreement | pkg/fuzz/version_skew_network.go:145-376 | one call, known node or not, has the same outcome on both networks and keeps the agreement if and only if it does not depart; endpoint honesty may differ for absent nodes |
| NetworkEquivalence.FiringCallAgreement | pkg/fuzz/version_skew_network.go:145-335 | when the armed mode acts, the networks still agree if and only if it halts nobody whom the call does not bring up again, refuses a start of a node already online, or poisons an endpoint already poisoned; every other mode that acts always shows |
| NetworkEquivalence.InitialNetworksAgree | pkg/fuzz/version_skew_network.go:87-139 | freshly built networks of the same size and powers agree |
| QuorumPlans.QuorumBoundaryPlan | pkg/fuzz/scenarios.go:2018-2062 | with distinct ids and a live quorum the planner never fails and returns the boundary prefix; no power and no quorum are its only errors |
| QuorumPlans.BoundaryIsMaximal | pkg/fuzz/scenarios.go:2018-2062 | no larger set of live validators can be stopped without losing the quorum |
| QuorumPlans.BoundaryIsAttained | pkg/fuzz/scenarios.go:2018-2062 | the preserved prefix itself keeps it |
| QuorumPlans.LiveValidatorPowers | pkg/fuzz/scenarios.go:2064-2079 | the live validators sorted by power and id |
| QuorumPlans.MixedLifecycleQuorumPlan | pkg/fuzz/scenarios.go:2116-2180 | a returned plan is the first pair that works; "no boundary" means no prefix and following segment works at all |
| QuorumPlans.EqualPowersPlanExists | pkg/fuzz/scenarios.go:2116-2180 | with equal live powers a plan exists if and only if the quorum survives the loss of one live validator |
| QuorumPlans.SnapshotPlanExists | pkg/fuzz/scenarios.go:2116-2180 | the same in terms of a snapshot's total and live power |
| QuorumPlans.FourOfFiveHasNoPlan | pkg/fuzz/scenarios.go:2116-2180 | a snapshot of five validators of equal power, four of them live, has a quorum and no plan |
| QuorumPlans.AllLivePlanExists | pkg/fuzz/scenarios.go:2116-2180 | four or more live validators of equal power that hold all the power always have a plan |
| QuorumPlans.QuorumLossCohort | pkg/fuzz/scenarios.go:2261-2273 | a prefix one node larger than what the quorum can spare |
| QuorumPlans.QuorumPreservingCohort | pkg/fuzz/scenarios.go:2350-2356 | the largest prefix the quorum can spare |
| QuorumPlans.CohortsMeetAtTheBoundary | pkg/fuzz/scenarios.go:2261-2273 | with equal votes the loss cohort breaks the quorum, the preserving cohort keeps it, and they differ by one node |
| MixedPlanExecution.MixedPlanPlaysOut | pkg/fuzz/scenarios.go:2116-2252 | any plan found on a snapshot, carried out on the lifecycle model by deregistering or jailing: progress after removal, stall after stopping, progress after restoring, the original powers after restart, two blocks in three ticks and no error |
| MixedPlanExecution.PlanPlaysOut | pkg/fuzz/scenarios.go:2116-2180 | the same on node level, phase by phase |
| Recovery.RecoveryReturnsToBaseline | pkg/fuzz/chaos.go:591-609 | from a fresh network, after any calls about initially active nodes, recovery with a registrar restores every node and endpoint; both baselines match and the quorum holds |
| Recovery.RecoveryRestores | pkg/fuzz/chaos.go:591-609 | with any set of controls, and with a working or a silent register, the recovery runs without error and restores everything if and only if every listed node is mendable: the register works, or the other controls are enough for it |
| Recovery.BaselinesTellExactly | pkg/fuzz/recovery.go:236-316 | from a fresh network, after any calls and the recovery, a baseline reports a mismatch if and only if some listed node was not mendable, also with the silent register that no other check reports |
| Recovery.BaselinesMatchExactly | pkg/fuzz/recovery.go:236-316 | the power and reachability baselines together see every change: they match if and only if each node and endpoint is as it was |
| Recovery.RecoveredExactly | pkg/fuzz/chaos.go:591-609 | which nodes the stages, in their order, make healthy: an exact condition per node |
| Recovery.ValidatorRecoveryActions | pkg/fuzz/chaos.go:591-609 | the stages of the available controls, in order, each over all nodes |
| Recovery.RestoredMatchesBaselines | pkg/fuzz/recovery.go:259-316 | a restored network has no mismatch against the power and reachability baselines captured before |
| Recovery.BaselineMismatches | pkg/fuzz/recovery.go:259-316 | empty if and only if every status agrees with the baseline, every unknown node is quiet and no known one is missing |
| Recovery.CaptureBaseline | pkg/fuzz/recovery.go:236-257 | the baseline recorded from a snapshot |
| Rendezvous.RankIgnoresOrder | pkg/common/rendezvous.go:129-148 | the ranking does not depend on the order of the hosts |
| Rendezvous.RemovalKeepsRanking | pkg/common/rendezvous.go:129-148 | removing a host deletes it from the ranking and moves nobody else |
| Rendezvous.RankedIsPermutation | pkg/common/rendezvous.go:129-148 | the ranking lists exactly the hosts |
| Rendezvous.RankedIs | pkg/common/rendezvous.go:22-30 | the order has no ties, so any sort gives the same ranking |
| Rendezvous.AttestorCount | pkg/common/rendezvous.go:34-54 | among distinct validators min(size, n) attestors, none for a negative size, and a larger size only adds some |
| Rendezvous.OneReplacement | pkg/common/rendezvous.go:34-54 | when a validator leaves, the attestors lose it if it was one and gain the next in the ranking if there is one; otherwise they stay |
| Rendezvous.GetAttestorRendezvous | pkg/common/rendezvous.go:34-54 | the first size addresses of the ranking |
| Rendezvous.FilterLiveHosts | pkg/common/rendezvous.go:89-117 | drops dead, invalid and repeated hosts, keeping first occurrences in order |
| Rendezvous.LiveHostsAre | pkg/common/rendezvous.go:89-117 | exactly the live hosts, each once |
| Rendezvous.OnlyListedHostsDropped | pkg/common/rendezvous.go:89-117 | the filter drops only listed, invalid and repeated hosts if and only if no other valid host contains a dead entry |
| Rendezvous.EmptyDeadEntryKillsAll | pkg/common/rendezvous.go:93-99 | an empty dead entry is contained in every host and leaves none |
| Rendezvous.RankingDependsOnLiveSet | pkg/common/rendezvous.go:119-148 | lists with the same live hosts rank the same |
| Rendezvous.RendezvousHasher.constructor | pkg/common/rendezvous.go:81-86 | starts with the live hosts |
| Rendezvous.RendezvousHasher.UpdateHosts | pkg/common/rendezvous.go:121-125 | replaces the hosts by the live ones given |
| Rendezvous.RendezvousHasher.Rank | pkg/common/rendezvous.go:129-148 | the ranking of the current hosts |
| ParityMerge.RunParityCheck | cmd/genesis-writer/verify_auth.go:181-242 | the one-pass merge reports the findings of both row streams; an error of either query fails it |
| ParityMerge.ReportCounts | cmd/genesis-writer/verify_auth.go:206-240 | on key-sorted streams missing and extra are the sizes of the multiset key differences, source minus missing is chain minus extra, and each column totals the pairs that differ |
| ParityMerge.MergeFindsDifferences | cmd/genesis-writer/verify_auth.go:206-240 | the missing and extra keys are the multiset differences themselves, duplicates included |
| ParityMerge.MergePairsByOccurrence | cmd/genesis-writer/verify_auth.go:224-239 | within a key, rows are paired first with first, second with second |
| ParityMerge.MergeConserves | cmd/genesis-writer/verify_auth.go:206-240 | sorted or not, every row is found exactly once |
| ParityMerge.CleanIffIdentical | cmd/genesis-writer/verify_auth.go:133-143 | the report is clean if and only if the two row sequences are identical, sorted or not |
| ParityMerge.Clean | cmd/genesis-writer/verify_auth.go:133-143 | clean is: nothing missing, nothing extra, no mismatch in any column |
| ParityMerge.Tally | cmd/genesis-writer/verify_auth.go:224-232 | per-column counters and samples after one more pair |
| ParityMerge.TallyColumn | cmd/genesis-writer/verify_auth.go:224-232 | the same for one column |
| RewardPlan.KeysAreABijection | cmd/genesis-writer/reward_launchpad_keys.go:241-297 | when loading succeeds, (generation, mint) and reward manager determine each other and the mints are distinct |
| RewardPlan.LoadIndexes | cmd/genesis-writer/reward_launchpad_keys.go:253-296 | loading succeeds if and only if every pair derives and no two derive the same reward manager, and then indexes each by what it derives |
| RewardPlan.LoadKeys | cmd/genesis-writer/reward_launchpad_keys.go:235-297 | the two passes over the mints, with their errors |
| RewardPlan.RmForMint | cmd/genesis-writer/reward_launchpad_keys.go:368-378 | finds a reward manager of the mint and generation if there is one, in whatever order the map is walked |
| RewardPlan.AuthorityKeyFor | cmd/genesis-writer/reward_launchpad_keys.go:388-404 | the first authority the derivations cover decides |
| RewardPlan.PlanRewardPools | cmd/genesis-writer/entities_reward.go:165-207 | succeeds if and only if every pool is derived and every kept one can be signed for; errors name a real culprit; kept and dropped pools are sorted and complete |
| RewardPlan.PlanPartitions | cmd/genesis-writer/entities_reward.go:181-206 | planned and dropped pools partition the input, and the remap's domain is exactly the dropped set |
| RewardPlan.TargetsArePlanned | cmd/genesis-writer/entities_reward.go:184-189 | a remap target is an original-generation pool of the same mint, planned and never remapped itself |
| RewardPlan.RewardsResolve | cmd/genesis-writer/entities_reward.go:130-144 | a reward resolves to a planned pool if and only if it names an input pool |
| RewardPlan.PoolFor | cmd/genesis-writer/entities_reward.go:210-217 | the planned pool of a reward manager, if there is one |
| RewardPlan.WriteRewards | cmd/genesis-writer/entities_reward.go:107-151 | the step succeeds if and only if the pools can be planned, every reward names one and the writer takes every transaction; it emits the pools and then each reward once up to where it stops, every reward after its pool |
| CommentEmission.ParentsComeFirst | cmd/genesis-writer/entities_comment.go:65-101 | in every run, however batches land, wherever a row query breaks off and whether or not a row that reports an error lands, no comment precedes its parent when both are emitted |
| CommentEmission.CommentsEmittedOnce | cmd/genesis-writer/entities_comment.go:65-171 | the run ends well if and only if no reply is nested, no row query breaks off and no row reports an error; then every comment is emitted once, and in any case none twice; refused, with nothing emitted, exactly when replies are nested |
| CommentEmission.EmittedOnce | cmd/genesis-writer/batch.go:53-110 | for every batch size and every order inside batches, no row twice, every row when all is well, and success exactly without errors, also when rows that report an error land |
| CommentEmission.NestedRepliesCanLandFirst | cmd/genesis-writer/entities_comment.go:66-81 | without the nesting check a reply can land before its parent |
| CommentEmission.ProcessBatched | cmd/genesis-writer/batch.go:22-114 | full batches, then the rest; stops at the first batch with an error; a failed query drops the last partial batch |
| CommentEmission.ProcessBatch | cmd/genesis-writer/batch.go:57-80 | every row of the batch is tried; what lands is what reports no error and any row handed over before its error |
| CommentEmission.WriteComments | cmd/genesis-writer/entities_comment.go:65-101 | nesting check, roots, then replies, which are not begun when the first pass failed or its query broke off |
| CommentEmission.CountNested | cmd/genesis-writer/entities_comment.go:71-81 | positive exactly when a reply is nested under a reply |

## Left out

- A postgres server crash that loses commits acknowledged with synchronous_commit off: the writer's own crash and ambiguous commit results are modelled, the server's loss is not.
- Context cancellation in the in-memory networks, and other callers between the two locked sections of a register or endpoint call: calls are atomic.
- 64-bit overflow of powers, heights and counters.
- Which of several inconsistent nodes an error message names, message texts, and action codes the lifecycle model does not know.
- A start or resume whose own first queries fail: it returns an error before it changes anything.
- Serial ids of rows: a replayed block leaves gaps in database sequences.
- A broken connection or a failing BEGIN inside processBlockAttempt, and hooks fired by plays.
- The loop over blocks in pkg/etl/indexer.go, which skips a block whose indexing fails: no claim is made that every block is indexed.
- Null block numbers, which the source's descending order would put first; no writer here produces them.
- Parsing of the mint list, environment variables and secrets, and signing of reward transactions: failures there end the step before anything modelled happens.
- The auth-state projection inside the block writer's transaction, apart from its power to fail that transaction.
- Writing CometBFT state files, rebuilding indexes, dumps and manifests after the final state is known.
- The count query before a batched emission, which only decides whether to log and return early on no rows.
- Recovery.BaselineMismatches: says what is reported and not how it is worded or sorted.
- Other entity writers, which follow the pattern of rewards and comments; the explorer and Ethereum bindings, which pass data on; process networks and timed assertions, which depend on real time.
- NetworkSpec validation, MaxHeight, ReachableCount and ReadyCount: plain scans of a list.
- Random action choice: all action sequences are covered instead.
