# Event kernel and evidence vault: a verified model

The repository keeps auditable event logs and the evidence behind them. Most of its parts come in
pairs: a producer and the checker that re-validates what was produced, a loop and the recursive
definition it stands for, a paged form and a whole one, a run and its recovery after a crash. This
project models those parts and proves that the two halves of each pair agree, for every input and
every run. Nothing was executed.

What is modelled, and in which files:

- **Observation ledger and its two replays** (`ObservationLedger`, `LedgerInvariants`, `LedgerReplay`,
  `ReplayPreservation`, `ReplaySimulation`, `ReplayTheorem`, `AcquisitionReplay`, `ReplayAgreement`,
  `ReplayFixedPoint`, `ReplayLimits`, `LedgerEvidence`, `LedgerClocks`, `LedgerMeaning`, `LedgerEntries`, `LedgerLineage`,
  `AcquisitionMeaning`, `DroppedParents`, `AcquisitionDropping`). The validator's one-pass loop over a causal
  graph, and both ways of rebuilding the graph under new hash-derived names. What acceptance means is said over
  the entries alone. Replay is an isomorphism that preserves acceptance; the exact conditions for that, and for
  the two replays to agree, are proved in both directions, and what becomes of a ledger whose request and
  failure facts are dropped.
- **Artifact vault** (`VaultDatabase`, `VaultRepository`, `VaultProtocol`, `VaultSafety`, `VaultRecovery`,
  `VaultConvergence`, `VaultPlans`, `VaultScan`, `VaultBytes`, `VaultLaws`, `VaultStores`, `VaultLimits`). The tables as classes whose methods are the
  transactions, and the whole vault as a protocol: any number of stores and recoveries of any number of processes interleave
  at every await and transaction, with crashes and takeovers anywhere. What is recorded is tied to the events of a run:
  the bytes handed in, the failures reported, the inspections made.
- **Reconciliation** (`Reconciliation`). The phase loop over rows, files and shard directories, cut
  into calls by a budget of items.
- **Canonical JSON and hashing** (`Text`, `Json`, `KeyOrder`, `JsonWalker`, `JsonRoundTrip`,
  `JsonCanonical`, `Hashing`). The walker with its explicit stack against the recursive encoder, the round trip through
  a parser, and length framing.
- **Event log and deterministic processor** (`Events`, `Processor`, `ProcessorChecks`,
  `ProcessorRuns`, `ProcessorFold`). The in-memory
  and the captured log, the store, the processor and the checker, all against one left fold, and that fold against
  the reducer's own functions.
- **Event cluster** (`EventCluster`, `ClusterRules`, `ClusterRecovery`). The lifecycle, its bookkeeping and its
  rules; checkpoints into a shared log and recovery from it.
- **Acquisition journal, workflow coverage, quota** (`AcquisitionJournal`, `JournalRules`,
  `WorkflowCoverage`, `RollingQuota`).
- **Research engine** (`ResearchEngine`). No look-ahead, no leakage, nothing dropped.

`Base` holds small shared types and sequence facts.

## What the proofs found

Where a promised property is false of the code, the model keeps the code, a lemma gives an input or shows
the failure for all of them, and the property is proved under a condition. The condition is exact unless
"Left out" says otherwise.

- The check for well-formed strings lets a high surrogate at the very end through, because comparing
  with the missing next code unit is never true (`Text.AcceptedExactly`, `Text.TrailingSurrogateAccepted`).
- A replay of an accepted recorded ledger is refused when two commits differ only in being recorded or
  replayed: both are relabelled to the same entry (`ReplayTheorem.ReplayAccepted`, `ReplayLimits.TwinsNotReplayed`).
- The acquisition replay drops request facts, and with them all that told two live commits of one acquisition
  apart; such a ledger is not replayed, and for ledgers whose wall clocks never fall that is the only reason
  besides an improper name (`AcquisitionDropping.ReplayDropsExactly`). It stops at a regression witness whose ends
  it kept if it has made no witness of their new names (`AcquisitionMeaning.WalkStopsExactly`).
- The content scan hashes a file a second time when the first hash refused it. If a store of the same
  process removes its staging name between the two, the second hash goes through and the scan quarantines
  the content of a committed blob (`VaultLimits.DoubleHashLosesContent`). The safety theorem asks that no
  second hash goes through. The guard is needed wherever it bites: a file that a second hash would get through always
  is the content of a recorded blob, and the steps that follow lose it (`VaultScan.SecondHashAlwaysLoses`).
- Preparing an intent does not ask whether its attempt has already ended
  (`VaultLimits.PreparedAfterItsEnd`), and a resumed staging scan can expire the attempt of a pending
  intent (`VaultLimits.ExpiryWedgesRecovery`). Either leaves an intent that no pass can settle
  (`VaultConvergence.ConflictForever`); a pass completes if and only if there is none beyond its key
  (`VaultRecovery.FinishIntents`).
- A store that fails between the plan to expire its attempt and the application of that plan leaves an
  action that nothing can apply, and every later reconciliation stops at it
  (`VaultLimits.FailureWedgesPlan`, `VaultPlans.StuckForever`, `VaultPlans.PlanBlocks`). When a pending
  action can be finished is characterised (`VaultPlans.PlanFinishedExactly`), and with it recovery from any
  interrupted run (`VaultPlans.RecoverInstalls`).
- A pass resumed at the key it had persisted does not see an intent with a smaller identifier prepared
  since; that one stays pending until the next reconciliation (`VaultLimits.IntentBehindTheKey`).
- Releasing the writer lease forgets its generation, so generations repeat; only the owner's name, drawn
  anew for each claim, keeps a writer that lost the lease out (`VaultRepository.GenerationRestarts`,
  `VaultRepository.LostForGood`).
- A retry on a later page with that page's own token is refused by the journal's consumed-token set
  (`AcquisitionJournal.SameTokenRetryRefused`).
- A cluster completed by the bare transition has no inventory
  (`EventCluster.BareCompletionHasNoInventory`).
- The processor builds commits with longer names and more outputs than the persisted schema allows, and its
  own checker then refuses them (`Processor.ProducerMeetsChecker`, `Processor.AnnouncedExactly`).
- A reducer whose parser changes a state it returned once already takes no further event of that aggregate
  (`Processor.RecognizedExactly`, `ProcessorRuns.ChangedStateStops`).
- Freezing research input does not check that cluster members have unique keys; without that the order
  of members decides a feature (`ResearchEngine.DuplicateKeysLookAhead`).

## Model

| member | source | states |
|---|---|---|
| ObservationLedger.ValidateBundle | src/providers/observation-ledger.ts:1779-2012 | the loop, with its early refusals and its tables updated one by one, accepts exactly the bundles `Accepted` does, whose meaning over the entries alone is `LedgerLineage.AcceptedByLineage` |
| ObservationLedger.CountAcquisitions | src/providers/observation-ledger.ts:1854-1860 | one more entry is counted for each acquisition touched, and the bundle is refused exactly when one of them is already at its limit |
| LedgerLineage.AcceptedByLineage | src/providers/observation-ledger.ts:1779-2012 | over the entries alone, without a table or a search: a bundle is accepted if and only if it is not too long, every entry is well made, new and of one execution, has its parents before it, within the bounds on edges and on the length of paths, descends from what its kind demands, keeps the rules on failures, commits, requests, revisions and counts and on clocks, and every fall of a wall clock is attested once |
| LedgerLineage.LineageExactly | src/providers/observation-ledger.ts:1535-1777 | the parent rule of every kind of entry, said entry by entry: which earlier entries are its causes, how many, of which stage, for which acquisition, artifact, observation and subject, on which clock, in both directions |
| LedgerEntries.MadeExactly | src/providers/observation-ledger.ts:967-1488 | the factory gives an entry back unchanged if and only if it is named by the hash of its body, of a named execution, with at most 32 parents in order, and its facts are well made for their kind: names within bounds, raw links told apart and ordered by role, exactly one link of a raw primary artifact, clocks with the synchronization, bound and session they must have, selections with branch, join key and a trusted time not after the time they are as of |
| LedgerLineage.SelectionsTimely | src/providers/observation-ledger.ts:1659-1720 | in every accepted bundle the capture or the commit a selection trusts stands before it and was received by the time the selection is as of |
| LedgerMeaning.AcceptedExactly | src/providers/observation-ledger.ts:1779-2012 | acceptance is the conjunction over all entries of the rules towards the entries before them, and the attestation of all falls |
| LedgerMeaning.AdmittedExactly | src/providers/observation-ledger.ts:1810-2004 | over tables that mean what they should, the validator admits an entry exactly if it keeps the rules, and the tables then mean it again: depth is the longest path, the sets of blocked acquisitions are those that failed so, counts count, the last stamps are the last |
| LedgerMeaning.DepthIsLongest | src/providers/observation-ledger.ts:1829-1833 | the depth computed from the parents’ depths is the length of the longest path to the entry |
| LedgerMeaning.FailuresRuleOut | src/providers/observation-ledger.ts:1849-1944 | in every accepted bundle no commit of an acquisition follows its failure at the request stage, and no normalization with a raw link of it follows its failure at the store, verified-read or normalization stage |
| LedgerMeaning.BlocksExactly | src/providers/observation-ledger.ts:1926-1944 | after every run the two tables of blocked acquisitions hold exactly those with such a failure among the entries |
| LedgerMeaning.RolesInOrder | src/providers/observation-ledger.ts:967-994 | the roles of raw links of an accepted entry rise by code unit |
| LedgerEvidence.RulesDecided | src/providers/observation-ledger.ts:1849-1944 | the tables of counts, commits, vault evidence, revisions and failures decide exactly the rules stated over the entries before |
| LedgerClocks.RulesDecided | src/providers/observation-ledger.ts:1946-2004 | the tables of bases, last stamps and debts decide exactly the clock rules stated over the entries before |
| LedgerInvariants.SoundKept | src/providers/observation-ledger.ts:1604-1657 | an admitted entry keeps the invariant that every verified artifact comes from its one commit, every capture from its one emission, and the vault evidence on record from commits |
| LedgerInvariants.SoundRun | src/providers/observation-ledger.ts:1810-2004 | the invariant holds after every run of the validator |
| LedgerInvariants.CommitBehind | src/providers/observation-ledger.ts:1629-1631 | the commit that a search among a verified artifact’s parents finds is its only causal parent, whatever clock declarations stand around it |
| LedgerInvariants.LinkBackedMeaning | src/providers/observation-ledger.ts:1620-1646 | a raw link is backed if and only if some verified parent names its artifact and the vault evidence on record is the link’s own: the order in which the two searches meet parents never decides |
| LedgerReplay.ReplayBundle | src/providers/observation-ledger.ts:2033-2074 | the replay loop, with its map of new names, returns what relabelling entry by entry between two validations defines |
| ReplayPreservation.ParentTransitionKept | src/providers/observation-ledger.ts:1535-1777 | the parent rule of every kind of entry (kinds, acquisition agreement, backing of links, captures, selections, regressions) survives an injective renaming of the graph |
| ReplaySimulation.StepKept | src/providers/observation-ledger.ts:1810-2004 | whenever the validator admits an entry of the original, relabelling succeeds, the validator admits the new form, and all its tables (depths, clocks, regression debts, counters, commits, revisions) stay renamed copies |
| ReplayTheorem.RunTogether | src/providers/observation-ledger.ts:2033-2074 | the two validator runs go through side by side over every prefix free of request facts and mode twins |
| ReplayTheorem.TwinCollides | src/providers/observation-ledger.ts:2050-2069 | two commits that differ only in being recorded or replayed are relabelled to one and the same identifier |
| ReplayTheorem.ReplayAccepted | src/providers/observation-ledger.ts:2033-2074 | an accepted ledger is replayed to an accepted ledger if and only if the new execution name is bounded, it has no request facts and no two commits differ in acquisition mode alone |
| ReplayLimits.TwinsNotReplayed | src/providers/observation-ledger.ts:2050-2073 | under every collision-free hash: an accepted ledger of three entries, without request facts, that no execution name can replay |
| ReplayTheorem.ReplayIsomorphic | src/providers/observation-ledger.ts:2039-2073 | the relabelling is one to one; every entry keeps its place, clock, facts, parents (renamed) and causal depth |
| AcquisitionReplay.WalkPage | src/adapters/market-acquisition/replay.ts:66-187 | the inner loop over one page continues the walk over the entries before it |
| AcquisitionReplay.ReplayByPages | src/adapters/market-acquisition/replay.ts:47-189 | the paged replay returns a result that does not mention the page size, for every admissible page size, and is refused for any other; what the result is, is in the next three rows |
| AcquisitionMeaning.ReplayCarries | src/adapters/market-acquisition/replay.ts:47-189 | whatever the replay returns, however many rows were dropped: in their order the kept entries with their clocks and facts, commits as replayed ones, under the new names of their parents; every dropped row named after a kept entry it hangs on; and each owed witness right behind the entry that owes it |
| AcquisitionMeaning.WalkStopsExactly | src/adapters/market-acquisition/replay.ts:66-187 | over every accepted ledger the walk never stops at a dropped row or a kept entry; it stops at a witness exactly if both its ends are kept and no witness of their new names has been made |
| AcquisitionDropping.ReplayDropsExactly | src/adapters/market-acquisition/replay.ts:47-189 | a ledger whose wall clocks never fall, with any request and failure facts, is carried over if and only if it is empty, or the name is a proper one and no two commits become twins: commits of one acquisition with the same facts that only dropped rows and their modes told apart |
| ReplayAgreement.AgreeFrom | src/adapters/market-acquisition/replay.ts:66-187 | with prompt witnesses, an acquisition walk that agrees with the recorded replay so far agrees to the end |
| ReplayAgreement.ReplaysAgree | src/adapters/market-acquisition/replay.ts:47-189 | for every accepted ledger: both replays return, and return the same list, if and only if the execution name is bounded, there are no request or failure facts and no mode twins, and every regression witness directly follows the entry it witnesses |
| ReplayFixedPoint.ReplayOfReplay | src/adapters/market-acquisition/replay.ts:141-188 | whatever the acquisition replay of any accepted ledger returns, replaying that under the same execution returns it unchanged |
| VaultDatabase.RecordAttemptKept | src/adapters/artifacts/sqlite-artifact-repository.ts:927-962 | recording an attempt keeps the agreement of all tables and only adds rows |
| VaultDatabase.PrepareIntentKept | src/adapters/artifacts/sqlite-artifact-repository.ts:1008-1110 | preparing an intent keeps the agreement of all tables and only adds rows |
| VaultDatabase.CommitIntentKept | src/adapters/artifacts/sqlite-artifact-repository.ts:1134-1165 | committing an intent records blob, outcome and observation together, marks the intent, touches no other row and adds at most the intent’s own blob |
| VaultDatabase.AbortIntentKept | src/adapters/artifacts/sqlite-artifact-repository.ts:1167-1187 | aborting an intent marks it, adds at most an outcome that is not success, and touches nothing else |
| VaultDatabase.ApplyPlanKept | src/adapters/artifacts/sqlite-artifact-repository.ts:677-829 | applying a planned reconciliation action keeps the agreement of all tables and only adds rows |
| VaultDatabase.NeverBoth | src/adapters/artifacts/sqlite-artifact-repository.ts:1134-1187 | no intent is both aborted and evidence-committed |
| VaultRepository.ArtifactRepository.ClaimWriter | src/adapters/artifacts/sqlite-artifact-repository.ts:264-286 | the lease is taken exactly when there is none or the one there is has run out, under the next generation, and no other table changes |
| VaultRepository.ArtifactRepository.ReleaseWriter | src/adapters/artifacts/sqlite-artifact-repository.ts:297-308 | a lease is given up exactly by its owner under its generation |
| VaultRepository.ArtifactRepository.RenewWriter | src/adapters/artifacts/sqlite-artifact-repository.ts:288-295 | a lease is extended exactly by its owner, and not after it has run out |
| VaultRepository.LeaseKept | src/adapters/artifacts/sqlite-artifact-repository.ts:264-317 | while a lease runs, nothing anybody else does takes it away or gets a second writer in |
| VaultRepository.TakenExactly | src/adapters/artifacts/sqlite-artifact-repository.ts:264-317 | the lease can be taken if and only if nobody may write at any later time, and then its taker alone may write, until it ends |
| VaultRepository.LostForGood | src/adapters/artifacts/sqlite-artifact-repository.ts:264-317 | a writer that has lost the lease passes the writer check never again, whatever is taken, renewed or released, unless its own name is used for another claim; names are drawn anew for each claim |
| VaultRepository.GenerationRestarts | src/adapters/artifacts/sqlite-artifact-repository.ts:275-308 | the generation alone identifies no lease: after a release the next one has the first generation again |
| VaultRepository.ArtifactRepository.RecordAttempt | src/adapters/artifacts/sqlite-artifact-repository.ts:927-935 | the method is the transaction the lemmas speak of, and leaves the tables alone when refused |
| VaultRepository.ArtifactRepository.PrepareInstallIntent | src/adapters/artifacts/sqlite-artifact-repository.ts:1008-1110 | likewise for the intent row |
| VaultRepository.ArtifactRepository.MarkIntentContentInstalled | src/adapters/artifacts/sqlite-artifact-repository.ts:1112-1121 | likewise for the installed mark |
| VaultRepository.ArtifactRepository.MarkIntentStageCleaned | src/adapters/artifacts/sqlite-artifact-repository.ts:1123-1132 | likewise for the cleaned mark |
| VaultRepository.ArtifactRepository.SettleOutcome | src/adapters/artifacts/sqlite-artifact-repository.ts:1241-1246 | an outcome is inserted, or the very same one is found there |
| VaultRepository.ArtifactRepository.InsertSuccessEvidence | src/adapters/artifacts/sqlite-artifact-repository.ts:1898-1974 | blob, outcome and observation are inserted together or not at all |
| VaultRepository.ArtifactRepository.CommitIntentSuccess | src/adapters/artifacts/sqlite-artifact-repository.ts:1134-1165 | likewise for the commit of an intent |
| VaultRepository.ArtifactRepository.AbortInstallIntent | src/adapters/artifacts/sqlite-artifact-repository.ts:1167-1187 | likewise for its abort |
| VaultRepository.ArtifactRepository.FinishAttempt | src/adapters/artifacts/sqlite-artifact-repository.ts:1206-1221 | likewise for the end of an attempt without an intent |
| VaultRepository.ArtifactRepository.PlanReconciliationAction | src/adapters/artifacts/sqlite-artifact-repository.ts:541-675 | likewise for a planned action |
| VaultRepository.ArtifactRepository.ApplyReconciliationAction | src/adapters/artifacts/sqlite-artifact-repository.ts:677-829 | likewise for its application |
| VaultRepository.ArtifactRepository.ReadPendingIntentPage | src/adapters/artifacts/sqlite-artifact-repository.ts:1189-1200 | the least pending intent after the key, or none when there is none |
| VaultRepository.VaultFiles.Link | src/adapters/artifacts/durable-artifact-store.ts:1041-1044 | a hard link is made exactly when the source exists and the destination does not |
| VaultSafety.RefusedExactlyWhenTwinned | src/adapters/artifacts/durable-artifact-store.ts:1303-1309 | the content scan’s single-link hash refuses a file exactly when its inode still has a second name |
| VaultSafety.StepSafe | src/adapters/artifacts/durable-artifact-store.ts:338-541 | each step of a store, a crash, a takeover or a recovery keeps the invariant over tables, files and every running thread, and only adds rows |
| VaultSafety.RunSafe | src/adapters/artifacts/durable-artifact-store.ts:338-541 | so does every run of interleaved steps in which no second hash of a refused content file goes through |
| VaultSafety.VaultSafe | src/adapters/artifacts/durable-artifact-store.ts:338-541 | after every such run from the empty vault: every blob row has a content file with exactly its bytes; an attempt has succeeded if and only if its observation exists; its blob is recorded; a committed intent is not aborted and left the observation it was prepared with; which bytes those are is the next row |
| VaultBytes.ObservedAsReceived | src/adapters/artifacts/durable-artifact-store.ts:351-541 | after every such run, whatever crashed in it and whoever finished it: an observation has the record, the response and exactly the concatenation of the chunks its attempt was handed, in order, read off the events alone, and the file of its blob holds those bytes |
| VaultStores.StoreAlone | src/adapters/artifacts/durable-artifact-store.ts:351-541 | from every state such a run reaches: a store that has recorded its attempt and that nothing comes between goes through if and only if the attempt has not been ended meanwhile and content of the same bytes, if there is any, has no second name; it leaves one observation of all bytes handed in, one settled intent and the content file, no staging name, and nothing else changed |
| VaultLaws.OutcomesExplained | src/adapters/artifacts/durable-artifact-store.ts:351-541 | after every such run an attempt has ended for a reason the run shows: it was observed, its own store reported exactly this failure, or a reconciliation inspected it and gave it the outcome of that inspection |
| VaultLaws.BlobsExplained | src/adapters/artifacts/sqlite-artifact-repository.ts:1337-1356 | a blob is recorded as retrieved only with an observation of it, and as a recovered orphan only after its content file was inspected |
| VaultLaws.OnlyHolderWrites | src/adapters/artifacts/sqlite-artifact-repository.ts:310-317 | whoever has lost the lease, and does not know it yet, changes no row: every step that does is taken by the process the lease names |
| VaultLaws.FilesExplained | src/adapters/artifacts/durable-artifact-store.ts:351-541 | at every step the bytes of a file are written by the store it was created for and nobody else; a staging name is given by its store and goes with it, with a settled intent or into quarantine; a stage file is quarantined only while it holds the bytes it was planned with, and a content file only if it is the one planned |
| VaultLaws.PlannedExactly | src/adapters/artifacts/durable-artifact-store.ts:1074-1345 | a reconciliation at rest can plan an action if and only if none is pending and rows and files warrant it: a single stage file given up, or one of an open attempt; an open attempt whose stage file is gone; single content nobody recorded |
| VaultLaws.ScannedExactly | src/adapters/artifacts/durable-artifact-store.ts:1274-1345 | the content scan refuses a file under a second name, passes over recorded content and plans to adopt the rest |
| VaultLaws.PhasesExactly | src/adapters/artifacts/durable-artifact-store.ts:776-800 | a reconciliation at rest goes on to the next phase, in a fixed round, if and only if it holds the lease, no action is pending and no intent is ahead of its pass |
| VaultLaws.LoadedExactly | src/adapters/artifacts/sqlite-artifact-repository.ts:1189-1200 | the intent a pass takes up is the least pending one beyond its key |
| VaultSafety.OutcomesFinal | src/adapters/artifacts/sqlite-artifact-repository.ts:991-1006 | an outcome once recorded never changes, and a redelivered attempt is answered the same way for ever |
| VaultRecovery.InstallExact | src/adapters/artifacts/durable-artifact-store.ts:1037-1069 | the three transactions of a recovered install go through if and only if no foreign outcome stands in the way |
| VaultRecovery.AbortExact | src/adapters/artifacts/durable-artifact-store.ts:1023-1036 | an intent whose bytes are lost is aborted if and only if no foreign outcome stands in the way |
| VaultRecovery.FinishOneExact | src/adapters/artifacts/durable-artifact-store.ts:1009-1069 | whatever the crash left of an intent, settling it succeeds if and only if it is not in conflict, and it is then committed and cleaned where its bytes can be found and aborted otherwise |
| VaultRecovery.FinishIntent | src/adapters/artifacts/durable-artifact-store.ts:955-1073 | the method over the repository and file objects, step by step, does exactly that |
| VaultRecovery.FinishIntents | src/adapters/artifacts/durable-artifact-store.ts:955-1073 | a pass over the pending intents, begun or resumed at any key, completes if and only if no intent beyond the key is in conflict; what is then pending is exactly what was pending at or behind the key, and every other one is committed and cleaned exactly if its bytes survive in content or in the staging file of itself or of an earlier pending intent of the same digest beyond the key |
| VaultConvergence.StepTidy | src/adapters/artifacts/durable-artifact-store.ts:1102-1283 | conflicts arise from exactly two steps, an intent prepared for an attempt that has ended and the expiry of an attempt with a pending intent, and no step ends one |
| VaultConvergence.CrashThenRecover | src/adapters/artifacts/durable-artifact-store.ts:688-1073 | wherever a run was interrupted, inside recovery and inside a planned action included, the holder of the lease finds tables and files in the order that finishing the action and the pass over intents rely on |
| VaultConvergence.ConflictForever | src/adapters/artifacts/sqlite-artifact-repository.ts:1241-1246 | a conflict is never resolved by anything that happens later |
| VaultConvergence.PatientRunRecovers | src/adapters/artifacts/durable-artifact-store.ts:1179-1210 | after every run that expires no attempt with a store under way or an intent pending, no intent is in conflict; with no action pending the pass over intents therefore completes |
| VaultConvergence.FinishIsRun | src/adapters/artifacts/durable-artifact-store.ts:955-1073 | settling an intent is a run of the same protocol steps the safety theorem is about |
| VaultPlans.FinishPlanExact | src/adapters/artifacts/durable-artifact-store.ts:877-952 | a planned action that was interrupted can be finished if and only if its attempt has no other outcome, the bytes it adopts were not stored meanwhile, and its file still is what was planned under no further name; finishing leaves the order recovery relies on |
| VaultPlans.FinishPlanIsRun | src/adapters/artifacts/durable-artifact-store.ts:877-952 | finishing an action is a run of the same protocol steps the safety theorem is about |
| VaultPlans.StuckForever | src/adapters/artifacts/sqlite-artifact-repository.ts:677-829 | an action that can no longer be finished is pending after everything that happens later |
| VaultPlans.PlanBlocks | src/adapters/artifacts/durable-artifact-store.ts:877-955 | and while it is pending no process goes on to an intent or to another phase |
| VaultPlans.PlanFinishedExactly | src/adapters/artifacts/durable-artifact-store.ts:877-952 | after every run, with no reconciliation under way: some continuation gets past the pending action if and only if the stored rows and files allow it |
| VaultPlans.FinishPlannedAction | src/adapters/artifacts/durable-artifact-store.ts:877-952 | the method over the repository and file objects does what finishing the action is defined to be |
| VaultPlans.RecoverInstalls | src/adapters/artifacts/durable-artifact-store.ts:858-1073 | recovery from any interrupted run, an action pending or not, at any key of the pass: it completes if and only if the action can be finished and no intent is then in conflict, and every intent is then committed and cleaned, or aborted |
| VaultScan.SecondHashExactly | src/adapters/artifacts/durable-artifact-store.ts:1295-1372 | a second hash of a refused file goes through exactly when the file has lost its other name since the first |
| VaultScan.SecondHashLosesContent | src/adapters/artifacts/durable-artifact-store.ts:1336-1372 | in every safe state with no action pending where it goes through for a recorded blob, the next three steps leave the blob without content |
| VaultScan.StepExplains | src/adapters/artifacts/durable-artifact-store.ts:338-541 | no step takes the other name of a content file away, unless the file is the content of a recorded blob |
| VaultScan.RunRefusals | src/adapters/artifacts/durable-artifact-store.ts:1295-1345 | after every run free of second hashes, a file the content scan has refused still has its other name, or is the content of a recorded blob |
| VaultScan.SecondHashAlwaysLoses | src/adapters/artifacts/durable-artifact-store.ts:1336-1372 | why the guard of the safety theorem is needed wherever it bites: after every run it admits, a refused file that a second hash would get through is the content of a recorded blob, and with no action pending the next steps of that process lose it |
| VaultLimits.PreparedAfterItsEnd | src/adapters/artifacts/sqlite-artifact-repository.ts:1008-1110 | a run without any crash in which an intent is prepared for an attempt that has ended, and is in conflict from the start |
| VaultLimits.FailureWedgesPlan | src/adapters/artifacts/sqlite-artifact-repository.ts:677-829 | a run, without a crash and without expiring any attempt, after which the pending action can never be applied |
| VaultLimits.IntentBehindTheKey | src/adapters/artifacts/durable-artifact-store.ts:955-1073 | a run that ends with an intent pending, and not in conflict, at a key the pass has gone by and will not come back to |
| VaultLimits.DoubleHashLosesContent | src/adapters/artifacts/durable-artifact-store.ts:1295-1372 | a run in which the content scan meets a file still doubly linked, hashes it again once it is not, and quarantines the content of a committed blob |
| VaultLimits.ExpiryWedgesRecovery | src/adapters/artifacts/durable-artifact-store.ts:1179-1210 | a run in which the staging scan expires the attempt of a pending intent, after which no pass can ever complete |
| Reconciliation.NextLeafExact | src/adapters/artifacts/durable-artifact-store.ts:1449-1504 | the next leaf is the first existing one from the start on; no existing shard lies in the range jumped over |
| Reconciliation.ContentIterated | src/adapters/artifacts/durable-artifact-store.ts:1273-1372 | an iteration of the content phase plans, handles one file, or moves over a gap without losing a file |
| Reconciliation.EvidenceIterated | src/adapters/artifacts/sqlite-artifact-repository.ts:839-901 | a page of evidence rows handles exactly the next rows and ends the phase exactly when they run out |
| Reconciliation.Iteration | src/adapters/artifacts/durable-artifact-store.ts:858-1422 | every iteration moves the head strictly forward or plans at it, and what it handles together with what remains is what remained before |
| Reconciliation.ReconcileCall | src/adapters/artifacts/durable-artifact-store.ts:858-1435 | a call with any budget ends; what it handled followed by what it left is what there was; its head is strictly ahead |
| Reconciliation.ReconcileRun | src/adapters/artifacts/durable-artifact-store.ts:688-1435 | calls with any budgets, one after another, come to an end and have then handled exactly the whole list of items |
| Reconciliation.RunInOrder | src/adapters/artifacts/durable-artifact-store.ts:858-1422 | that list is in strict order of phase, shard and key, so nothing is handled twice |
| Reconciliation.RunCoversAll | src/adapters/artifacts/durable-artifact-store.ts:858-1422 | every row of every table and every content file is in it |
| Text.AssertUnicodeScalarString | src/core/json.ts:24-37 | the loop over code units accepts exactly what the specification does |
| Text.AcceptedExactly | src/core/json.ts:24-37 | the check accepts a string if and only if it is well formed, or is spoiled only by a high surrogate at its very end |
| Text.TrailingSurrogateAccepted | src/core/json.ts:24-37 | a string that is not well formed and passes the check |
| Text.Utf8Injective | src/core/hash.ts:5-7 | well-formed strings with the same UTF-8 bytes are equal |
| Text.Utf8ReadBack | src/core/hash.ts:9-24 | the bytes of a string, read back by section 3 of RFC 3629, are its characters in order, a surrogate alone having become the replacement character |
| Text.ReplacementCollides | src/core/hash.ts:5-7 | without well-formedness the bytes do not determine the string |
| JsonWalker.ObjectDataEntries | src/core/json.ts:73-105 | the entries returned are the members of the object, each once, and of two neighbouring keys the first is a proper prefix of the second or has the smaller code unit at the first difference; refused exactly for too many keys or a key out of limits |
| KeyOrder.LessExactly | src/core/json.ts:101-105 | the comparison of keys holds exactly if the first key is a proper prefix of the second or has the smaller code unit at the first difference |
| JsonCanonical.TextInOrder | src/core/json.ts:359-398 | in the value read back from any canonical text the keys of every object, at any depth, rise by code unit |
| JsonCanonical.EncodesExactly | src/core/json.ts:359-398 | a value is encoded if and only if every value occurring in it is writable: integers between -9007199254740991 and 9007199254740991, strings and keys well formed up to a final high surrogate, no key `__proto__`, nothing of a foreign type |
| JsonWalker.BytesExact | src/core/json.ts:195-284 | the bytes charged while walking are the UTF-8 length of the recursive encoding |
| JsonWalker.CountMeans | src/core/json.ts:170-284 | nodes and depth counted while walking are the recursive ones, and the checks passed are the encoder’s own together with the part limits |
| JsonWalker.NoCycle | src/core/json.ts:186-200 | a finite value is never among the containers being visited around it, so the cycle check refuses nothing |
| JsonWalker.AssertJsonWithinLimits | src/core/json.ts:170-284 | the walk with its explicit stack and early exits succeeds if and only if the limits are well formed, the recursive encoder succeeds and all six limits hold, and then reports exactly the nodes, the depth and the encoding’s UTF-8 length |
| JsonRoundTrip.RoundTrip | src/core/json.ts:359-398 | parsing the canonical text of a value gives the value with its keys sorted |
| JsonCanonical.CanonicalExactly | src/core/json.ts:359-398 | two values have the same canonical text if and only if sorting their keys makes them equal |
| JsonCanonical.Idempotent | src/core/json.ts:396-402 | encoding what was parsed from an encoding gives the same text |
| JsonCanonical.SortedExactly | src/core/json.ts:73-105 | sorting keys makes two values equal if and only if they differ in the order of members alone, defined without sorting |
| JsonCanonical.CanonicalUpToOrder | src/core/json.ts:359-398 | the encoding is injective up to key order and blind to key order |
| Hashing.HashParts | src/core/hash.ts:9-24 | the loop feeds the domain and every part under its length |
| Hashing.FramedMeans | src/core/hash.ts:15-22 | a part is fed as eight bytes that write its length, most significant first, followed by its bytes |
| Hashing.FramingInjective | src/core/hash.ts:9-24 | the bytes fed determine the parts and their number |
| Hashing.CanonicalHash | src/core/hash.ts:26-28 | what is fed for a domain and a value |
| Hashing.FramedHash | src/adapters/market-acquisition/journal.ts:111-122 | the journal’s own framing feeds the hash the very same bytes |
| Hashing.HashDetermines | src/core/hash.ts:26-28 | with an injective hash, equal canonical hashes mean the same domain and values equal up to key order, and conversely |
| Hashing.UnpairedDomainCollides | src/core/hash.ts:5-28 | a domain with an unpaired surrogate is hashed like one with the replacement character |
| Events.InMemoryEventLog.Append | src/adapters/memory/event-log.ts:39-84 | the indexed append answers and stores what a search through the list would |
| Events.InMemoryEventLog.Get | src/adapters/memory/event-log.ts:86-91 | the event at a position |
| Events.InMemoryEventLog.ReadAfter | src/adapters/memory/event-log.ts:93-105 | the page after a position |
| Events.AppendKeepsChain | src/adapters/memory/event-log.ts:66-80 | appending keeps the hash chain and only extends the list |
| Events.AppendKeepsWellformed | src/adapters/memory/event-log.ts:45-72 | provider keys stay unique, stream versions count each subject from one, and logical time is the latest receipt so far |
| Events.AppendAnswers | src/adapters/memory/event-log.ts:45-64 | over the events alone: a draft is appended if and only if its provider’s revision is new; otherwise the event of that revision decides, as an unannounced change of artifact, a conflict of anything else, or a redelivery of that event |
| Events.VersionsFollow | src/adapters/memory/event-log.ts:66-72 | the first event of a subject has version one and each further one the version after the one before it |
| Events.RedeliveryIdempotent | src/adapters/memory/event-log.ts:45-64 | delivering the same draft again, at any later time, changes nothing and is answered with the same event |
| Events.HeadDeterminesLog | src/core/event.ts:250-281 | the hash of the last event determines the whole log |
| Events.PageCovers | src/adapters/memory/event-log.ts:93-105 | a page is the next stretch of the log and says truly where it ends and whether more follows |
| Events.PagesCover | src/adapters/memory/event-log.ts:93-105 | pages of any sizes, read to the end, give every event once and in order |
| Events.VerifyCaptured | src/adapters/memory/captured-event-log.ts:20-32 | the constructor accepts a list exactly when it is a chain from genesis |
| Processor.SameIdSamePlace | src/core/processor.ts:1405-1470 | outputs under the same identifier have the same category, ordinal and body |
| Processor.OutputsMeetChecker | src/core/processor.ts:1405-1470 | everything materialized passes the checker of outputs if and only if its names and its number of outputs fit the persisted schema |
| Processor.ProducerMeetsChecker | src/core/processor.ts:903-970 | the commit built for the next event from a genesis-rooted cursor passes the transition check if and only if its outputs fit the persisted schema |
| ProcessorChecks.CheckedExactly | src/core/processor.ts:800-901 | the checker lets through nothing but what a producer could have built: a list of outputs passes if and only if it is, record for record, what some producible transition materializes to, and fits the schema |
| ProcessorChecks.TransitionExactly | src/core/processor.ts:752-970 | a commit passes after a cursor if and only if the cursor is sound, the event is the next one, the aggregate is a sealed checkpoint of it, the outputs are those of some producible transition and fit, and the commit’s cursor is the one all these determine |
| Processor.AnnouncedExactly | src/core/processor.ts:340-353 | inputs on which producer and checker part: any number of equally named decisions is produced, and refused exactly beyond 100000 of them or 512 characters |
| Processor.RecognizedExactly | src/core/processor.ts:1381-1403 | the hash comparison on loading lets a sealed checkpoint through if and only if the reducer parses its state to itself |
| ProcessorRuns.VerifyOutputs | src/core/processor.ts:800-901 | the checker’s loop, with its remembered ids and counters, decides the specification of checked outputs |
| ProcessorRuns.Materialize | src/core/processor.ts:1405-1470 | the materializing loops succeed exactly for producible transitions and build decisions, then jobs, then messages |
| ProcessorRuns.VerifyTransition | src/core/processor.ts:752-970 | the checker of a commit after a cursor decides its specification |
| ProcessorRuns.CommitIsAdvance | src/adapters/memory/processing-store.ts:80-153 | of what the processor produces, the store accepts exactly what the fold accepts |
| ProcessorRuns.InMemoryProcessingStore.Commit | src/adapters/memory/processing-store.ts:80-153 | all or nothing: the store changes exactly for an accepted commit |
| ProcessorRuns.DeterministicProcessor.VerifySuffix | src/core/processor.ts:1240-1275 | the page-by-page walk from a processed event to the cursor succeeds exactly when the cursor’s last hash is the log’s |
| ProcessorRuns.DeterministicProcessor.Process | src/core/processor.ts:1098-1206 | succeeds exactly for the next event, when reducer and store accept it, and for an exact copy of a processed one, which changes nothing; otherwise nothing changes |
| ProcessorRuns.DeterministicProcessor.ProcessAvailable | src/core/processor.ts:1277-1325 | for every reducer, any page size and whatever state any earlier processor left, the store ends up holding one left fold over the log, or over the events before the one the fold refuses, over both kinds of log; what the fold holds and when it refuses are the next two rows |
| ProcessorFold.FoldIsReducer | src/core/processor.ts:1098-1206 | after the fold every aggregate has the state its reducer makes by parsing its initial state and applying the events routed to it in order, as version the number of those events and as last input the last of them; the outputs are those the reducer returned, event by event, decisions before jobs before messages, with their keys and due times; all written down from the reducer’s own functions |
| ProcessorFold.FoldsExactly | src/core/processor.ts:1098-1206 | the fold gets through a log if and only if the reducer answers every event soundly, takes its own states for what they are, and never uses a key twice |
| ProcessorRuns.ChangedStateStops | src/core/processor.ts:1124-1129 | a reducer whose parser changes a state it has stored takes no further event of that aggregate |
| ProcessorRuns.ReachedOnLonger | src/core/processor.ts:1277-1325 | a log that has grown leaves a store where it was |
| ProcessorRuns.HeadsDetermineHistory | src/core/processor.ts:944-968 | two verified runs of one manifest with equal state and decision heads have the same length and, at every position, the same event, aggregate, state and outputs |
| EventCluster.CreateSound | src/domain/event-cluster-beta.ts:668-704 | a new cluster satisfies the invariant |
| EventCluster.OriginalsKept | src/domain/event-cluster-beta.ts:862-879 | adding a linked member keeps exactly one original for each record |
| EventCluster.SettledLanes | src/domain/event-cluster-beta.ts:936-983 | settling leaves every lane observed or missing, and missing exactly where it has no member |
| EventCluster.ApplyKept | src/domain/event-cluster-beta.ts:706-1002 | every operation keeps the invariant, raises the revision by one and accounts for each record call as a member or a duplicate |
| EventCluster.RunSound | src/domain/event-cluster-beta.ts:706-1002 | after every run: each lane counts its members and is observed exactly when it has some, revisions are unique, each record has one original, and a cluster completed by settlement lists exactly the lanes without members, none pending |
| EventCluster.RunFromCreation | src/domain/event-cluster-beta.ts:668-1002 | from creation on, members plus duplicates are the record calls made, the revision counts the operations, and a completed cluster has an inventory if and only if no operation was the bare transition to completion |
| EventCluster.LatestIsGreatest | src/domain/event-cluster-beta.ts:862-872 | no member of a record was retrieved later than its latest, and of those retrieved with it none has a later revision |
| ClusterRules.RecordExactly | src/domain/event-cluster-beta.ts:825-910 | an observing cluster takes a member if and only if it is welcome by itself (lane of its kind, ready provider, clocks in order) and is there already, or is the first and original of its record, or replaces the latest of its record; a repeated one is only counted; a new one joins the members, is counted in its lane and moves the status to the later of where it was and what the member’s kind means |
| ClusterRules.MayGoExactly | src/domain/event-cluster-beta.ts:694-704 | a transition goes one step on, except that an active cluster may pass over what it did not observe, and stopping is open until the end |
| ClusterRules.StatusRises | src/domain/event-cluster-beta.ts:706-1002 | no operation is taken after the end, none goes back, and preparation is not cut short |
| ClusterRules.CreateExactly | src/domain/event-cluster-beta.ts:643-692 | a cluster is created if and only if the plan has all lanes, and a lane is pending if and only if the plan is ready for it |
| ClusterRules.MissingExactly | src/domain/event-cluster-beta.ts:912-934 | exactly the one lane, if pending, goes missing for the reason given |
| ClusterRules.SettleExactly | src/domain/event-cluster-beta.ts:936-983 | a settling cluster settles if and only if it is of the plan and the settlement has ended; exactly the pending lanes go missing |
| ClusterRules.RunFromCreationOrderly | src/domain/event-cluster-beta.ts:668-1002 | in every run from creation: the status is at least what each member’s arrival means, lanes the plan is not ready for stay missing with their blocker, members are in key order, no inventory is made before the settlement ends, and preparation takes its three operations |
| EventCluster.BareCompletionHasNoInventory | src/domain/event-cluster-beta.ts:701-719 | the bare transition completes a cluster without an inventory |
| ClusterRecovery.RecoverFromLog | src/application/event-cluster-runtime-recovery.ts:71-87 | reading the log page by page, with any page size, recovers what the whole list of events does |
| ClusterRecovery.RecoverExactly | src/application/event-cluster-runtime-recovery.ts:35-69 | recovery answers by the newest snapshot of the plan alone: missing if and only if there is none, otherwise its state if that hashes to the digest stored with it and is of the plan’s revision, or the reason why not |
| ClusterRecovery.RecoveryMeans | src/application/event-cluster-runtime-recovery.ts:29-69 | the completed lanes are exactly those observed or missing, the pending ones exactly those pending in a run that has not ended, each in the fixed order |
| ClusterRecovery.DoAllHolds | src/application/event-cluster-runtime-recovery.ts:96-101 | whatever else is appended in between, the log holds the saved states of the plan, in order, and nothing else of it |
| ClusterRecovery.CheckpointThenRecover | src/application/event-cluster-runtime-recovery.ts:35-101 | recovery returns exactly the last state saved, with its lanes classified, for states saved in rising revisions into a log shared with any other events |
| ClusterRecovery.SavedOnce | src/domain/event-cluster-beta.ts:1004-1022 | in every log: a revision of a cluster is held by one event and one state, saving that state again adds nothing, and saving another under it is refused |
| ClusterRecovery.SettledRecovery | src/application/event-cluster-runtime-recovery.ts:103-115 | settling a recovered run gives a sound complete cluster with its inventory, and settling again changes nothing |
| AcquisitionJournal.ValidateJournalEntries | src/adapters/market-acquisition/journal.ts:717-778 | the walk, with its set of consumed tokens, accepts exactly the journals the specification accepts |
| AcquisitionJournal.PrefixClosed | src/adapters/market-acquisition/journal.ts:717-778 | every non-empty prefix of an accepted journal is accepted |
| JournalRules.MayFollowExactly | src/adapters/market-acquisition/journal.ts:580-608 | which stage may follow which, without the table: the next one, an attempt again until its artifact is committed or for the page after a checkpoint, and giving up until the end, but no quarantine of a checkpointed page |
| JournalRules.StagesBehind | src/adapters/market-acquisition/journal.ts:635-778 | behind every stage of an accepted journal stand the stages before it, entry by entry, down to the start of the attempt |
| JournalRules.StageHolds | src/adapters/market-acquisition/journal.ts:610-715 | no entry has an artifact before it is committed, every stage from then on has all of it; nothing is announced before a page is checkpointed, and a checkpoint announces the end exactly if it keeps neither material nor binding |
| JournalRules.CountersNeverFall | src/adapters/market-acquisition/journal.ts:717-778 | no counter of an accepted journal ever falls |
| JournalRules.TerminalLast | src/adapters/market-acquisition/journal.ts:500-578 | every entry is authorized; exactly a terminal one gives its reason and is not incomplete, and it is the last |
| JournalRules.CheckpointExactly | src/adapters/market-acquisition/journal.ts:500-578 | a checkpoint passes by itself if and only if it is authorized, every count is within its bound, tokens kept in the clear are those their hashes are of, later pages have token, material and binding and the first has none, and it gives a reason exactly if it ends |
| JournalRules.OnePageAccepted | src/adapters/market-acquisition/journal.ts:500-778 | an acquisition of one page, whatever it is of, is accepted stage after stage to its completion |
| AcquisitionJournal.SealLinks | src/adapters/market-acquisition/journal.ts:482-498 | a created entry always links to what it was created on |
| AcquisitionJournal.MemoryAcquisitionJournal.Append | src/adapters/market-acquisition/memory-journal.ts:49-58 | an entry is stored exactly when the journal with it is accepted |
| AcquisitionJournal.MemoryAcquisitionJournal.ClaimAttemptStarted | src/adapters/market-acquisition/memory-journal.ts:60-79 | a claim succeeds exactly when the head is a request-started entry with the expected hash, the entry an attempt-started one and the longer journal accepted; it then appends the entry, and otherwise changes nothing |
| AcquisitionJournal.PagesRise | src/adapters/market-acquisition/journal.ts:635-715 | page ordinals never fall and rise by at most one an entry |
| AcquisitionJournal.PageEntered | src/adapters/market-acquisition/journal.ts:635-715 | every later page is entered from a checkpointed page to a started attempt, with exactly the token and binding announced there |
| AcquisitionJournal.TokenOnce | src/adapters/market-acquisition/journal.ts:763-768 | no continuation token is dispatched twice |
| AcquisitionJournal.ArtifactsAgree | src/adapters/market-acquisition/journal.ts:610-633 | all checkpoints of a page that carry an artifact carry the same one, pinned to the same attempt |
| AcquisitionJournal.EarlierPagesCheckpointed | src/adapters/market-acquisition/journal.ts:635-715 | every page before the current one has been checkpointed |
| AcquisitionJournal.CompletedWellPaged | src/adapters/market-acquisition/journal.ts:717-778 | a completed journal ends there, has checkpointed every page and announced the end on the last |
| AcquisitionJournal.SameTokenRetryRefused | src/adapters/market-acquisition/journal.ts:763-768 | a second dispatch of a later page’s own token is never accepted |
| AcquisitionJournal.PlannedContinues | src/adapters/market-acquisition/journal.ts:320-380 | of an admitted page, exactly its own announced token and binding authorise the next page of the same request, and only once |
| AcquisitionJournal.PageChainDetermines | src/adapters/market-acquisition/journal.ts:279-342 | equal page-chain hashes mean the same list of admitted pages |
| WorkflowCoverage.SweepParents | src/adapters/market-acquisition/artifact-integration.ts:502-511 | a sweep adds only what every closed superset has, fails exactly on an unknown identifier and adds nothing exactly when closed |
| WorkflowCoverage.SweepWitnesses | src/adapters/market-acquisition/artifact-integration.ts:512-522 | likewise for witnesses whose two entries are covered |
| WorkflowCoverage.ValidateExactCoverage | src/adapters/market-acquisition/artifact-integration.ts:488-530 | the loop ends and accepts if and only if identifiers are unique and the least set that contains the references and is closed under both rules is the whole ledger |
| WorkflowCoverage.CoverageIsDerivability | src/adapters/market-acquisition/artifact-integration.ts:488-530 | coverage is exact if and only if the ledger’s identifiers are those with a finite derivation: each step a reference, a parent of a row derived before, or a regression witness both of whose entries were derived before |
| RollingQuota.AdmitExactly | src/adapters/market-acquisition/quota.ts:33-59 | a start is admitted exactly when the window that ends with it has room and no start lies in the future |
| RollingQuota.WaitExactly | src/adapters/market-acquisition/quota.ts:33-59 | a returned waiting time is exactly the earliest at which the start would be admitted |
| RollingQuota.StopExactly | src/adapters/market-acquisition/quota.ts:33-59 | the evaluator gives up exactly when there is no room now and none would come by the deadline, and never for the quota alone |
| RollingQuota.EvaluateKeepsAdmitted | src/adapters/market-acquisition/quota.ts:33-59 | the list an admission returns is again one made by admissions |
| RollingQuota.WindowBound | src/adapters/market-acquisition/quota.ts:33-59 | if starts are made only by admissions at times that never fall, every window, wherever it ends, holds at most the limit |
| RollingQuota.PlannersAgree | src/adapters/market-acquisition/credentials.ts:1018-1083 | over the table of claims all acquisitions share: the count-based planner admits exactly when everything but the quota allows it and the list-based evaluator admits, and refuses for the quota exactly when the evaluator waits or gives up |
| RollingQuota.SharedQuota | src/adapters/market-acquisition/credentials.ts:1018-1150 | if the table is filled by admissions only, every window of it holds at most thirty starts, and every acquisition at most forty-eight, all from its one start on and before its deadline |
| RollingQuota.BudgetFits | src/adapters/market-acquisition/credentials.ts:957-963 | an admitted attempt’s budget ends by the acquisition’s deadline |
| ResearchEngine.PriceKnown | src/research/engine.ts:149-164 | a price asked with a cutoff is the close of a bar that had ended and was available by then |
| ResearchEngine.UsableTimesExactly | src/research/engine.ts:212-268 | for every frozen input: a member has a usable time exactly through the first member under its key, if that one and its record were fully known by the cutoff |
| ResearchEngine.UsableTimesKnown | src/research/engine.ts:212-268 | with unique keys, a usable time comes from exactly the members and records fully known by the cutoff, their clocks in order |
| ResearchEngine.SourceOrderKnown | src/research/engine.ts:243-268 | one side is first exactly if its first known time precedes the other’s by more than the protocol calls simultaneous |
| ResearchEngine.ReactionIsAbnormalGain | src/research/engine.ts:164-188 | the initial reaction is the instrument’s gain up to the cutoff less the weighted gains of market and sector, all read off bars known by the cutoff |
| ResearchEngine.NoLookAhead | src/research/engine.ts:212-298 | inputs with unique keys that agree on all bars and evidence known by the cutoff have the same initial reaction and source order, whatever else they hold |
| ResearchEngine.DirectionNoLookAhead | src/research/engine.ts:369-381 | so they are traded on the same side by every variant, on every horizon |
| ResearchEngine.DuplicateKeysLookAhead | src/research/snapshot.ts:100-146 | without unique member keys, which freezing does not check, two inputs with the same knowledge have different features |
| ResearchEngine.PartitionExactly | src/research/engine.ts:122-147 | an input is in a window if and only if it is eligible and its decision falls into the window, and excluded otherwise |
| ResearchEngine.LabelExactly | src/research/engine.ts:300-346 | a label is available if and only if its span lies in one window, entered before it is left, and all three instruments have both bars |
| ResearchEngine.LabelIsAbnormalGain | src/research/engine.ts:164-346 | an available label is the instrument’s gain from entry to exit less the weighted gains of market and sector |
| ResearchEngine.SpanInside | src/research/engine.ts:300-346 | the whole span of an available label, from the first price of its feature to its exit, lies inside its partition, in order |
| ResearchEngine.NoLeakage | src/research/engine.ts:300-346 | available labels of different partitions have disjoint spans |
| ResearchEngine.TrialOf | src/research/engine.ts:369-398 | a trial is completed exactly when its label is available and the variant takes a side |
| ResearchEngine.DirectionExactly | src/research/engine.ts:369-381 | a side is taken if and only if the reaction is beyond the threshold either way, or one source was clearly first, and which side that is |
| ResearchEngine.TrialEarns | src/research/engine.ts:369-398 | a completed trial earns the abnormal return if signal and variant point the same way and its opposite otherwise, less the cost of both sides |
| ResearchEngine.AttemptsEveryInput | src/research/engine.ts:401-411 | every signal attempts each input of its partition exactly once and reports, in the order of the inputs, the net returns of exactly those trials with an available label and a side |
| ResearchEngine.AttemptsAreTrials | src/research/engine.ts:401-436 | the attempts of all signals add up to the number of trials |
| ResearchEngine.EvaluateManifest | src/research/engine.ts:355-438 | the nested loops build the trials and signals those lemmas speak of, and their attempts add up |

## Left out

- VaultSafety.VaultSafe: holds, as every lemma over calm runs does, of runs in which no second hash of a refused content file goes through (`Calm`). The converse, `VaultScan.SecondHashAlwaysLoses`, is stated where no reconciliation action is pending: while one is, the second plan has to wait for it.
- VaultRecovery.FinishIntents: starts with no reconciliation action pending; `VaultPlans.RecoverInstalls` starts from every interrupted run.
- VaultPlans.RecoverInstalls: takes the phases between its two passes over the intents to find nothing to do; whatever they do is a step of the protocol and covered by `VaultPlans.PlanFinishedExactly` and `VaultConvergence.StepTidy`.
- VaultPlans.PlanFinishedExactly: asks that no reconciliation is under way, because a thread that hashed its file before it changed may still apply the action.
- VaultConvergence.PatientRunRecovers: the condition is one way, since an expired attempt need not have an intent that matters; the exact condition on a state is the one in `VaultRecovery.FinishIntents` and `VaultPlans.RecoverInstalls`.
- VaultRepository.ArtifactRepository.ClaimWriter: with the other lease methods it reads the clock; the transactions take the owner on record for the holder, so the protocol also has the runs in which an owner writes after its lease ran out and before anybody took it, which the code refuses.
- ObservationLedger.ValidateBundle: its specification folds the rules over tables, and `LedgerLineage.AcceptedByLineage` says what that means; the byte limits of entries and bundles are left out.
- Processor.ProducerMeetsChecker: the bounds of the commit's envelope on bytes, nodes and depth are left out.
- Reconciliation.ReconcileCall: elapsed-time and byte budgets, cursor tokens and receipts are left out.
- ReplayFixedPoint.ReplayOfReplay: for every ledger the replay accepts. Which those are is exact for ledgers without dropped rows (`ReplayAgreement.ReplaysAgree`) and for ledgers without falls of the wall clock (`AcquisitionDropping.ReplayDropsExactly`).
- AcquisitionDropping.ReplayDropsExactly: is stated for ledgers without regression facts; with them, see the next line.
- AcquisitionMeaning.WalkStopsExactly: where both rows are dropped and wall clocks fall, this says at which entry the walk stops and `AcquisitionMeaning.ReplayCarries` what it makes; whether the result is then accepted is not characterised.
- ResearchEngine.UsableTimesKnown: asks for unique member keys, which the cluster's lifecycle keeps and freezing does not check; what happens without them is `ResearchEngine.UsableTimesExactly`.
- ResearchEngine.NoLookAhead: asks for unique member keys likewise; the condition is sufficient and, by `ResearchEngine.DuplicateKeysLookAhead`, cannot simply be dropped; an input with repeated keys need not look ahead.
- ResearchEngine.DirectionNoLookAhead: asks for unique member keys for the same reason.
- RollingQuota.PlannersAgree: asks for an entitlement of at least the project's limit, because the count-based planner does not know of a smaller one.
- Events.HeadDeterminesLog: takes SHA-256 as an injective function, as every statement about hashes here does; preimages are values with one constructor for each domain tag, and `Hashing` shows that the framing keeps domains and values apart.
- Identifiers are numbers, ordered as their fixed-width hexadecimal texts are; in the vault a digest is the bytes it is the digest of, so a tampered file has no place in it.
- Fields that no rule compares travel as one text (`rest`); a value that is only hashed or compared is its canonical text.
- Byte, depth and length limits outside the JSON walker, schema parsing, frozen objects, proxies, accessors, sparse arrays and ownership tokens.
- JSON parsing is modelled without white space and for the integers the encoder admits; `-0` and fractions are not values here.
- In the vault: unsynced directory entries and power loss, retention denial, tombstones and erasure, tampered files, incidents, snapshots, reads, the lock file, lease clocks in the protocol (a claim may take over at any moment), and errors other than a store failing at any step.
- In the vault the staging, open-attempt and content phases look at any file or attempt, in any order, which includes every order the keys give; the order is the subject of `Reconciliation`.
- Reconciliation takes disk and tables as otherwise unchanged: its own actions remove or add entries only at keys already passed or in phases not yet reached. The repository's compare-and-set is left out; a call stopped by time before its first step makes no progress.
- The processor is modelled for one run in its store: registration, other runs sharing a store, dispatch of effects and the snapshot reader are left out.
- Stream positions are unbounded; the safe-integer bound is kept where the code checks it.
- ClusterRules.RecordExactly: takes the locale's comparison of revisions for an order (`Collates`), and `ClusterRules.RunFromCreationOrderly` that of member keys likewise.
- Event clusters: compiling and amending plans and calendars; the checks of one member against its plan are the parameter `admits`, the collation order is the parameter `before`.
- Acquisition journal: proof sets and ledger rows beside the journal, restart decisions, and the length of a token in bytes (characters here). Linear revision chains are not claimed where retrieval times fall.
- Equal decision heads across different runs: identifiers of jobs and messages contain the run.
- The reader semaphore, HTTP transport, secrets, clocks, SQL text and migrations, markdown output, provider loaders and registries.
- Research: rounding (prices are reals), identities of features and labels (the values themselves), expectations and language-model bundles, artifact verification.
