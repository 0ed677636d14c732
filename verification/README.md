# Verified model of the Stacks network tooling

This project models, in Dafny 4.11, the parts of the repository whose guarantees hold only over whole
interleavings, whole loops or whole inputs, and proves those guarantees. `dafny verify dfyconfig.toml`
checks everything.

- **Mutation authority** (`Authority*`, `Outcomes`, `ReorganizationRuns`, `Reservations`, `Lifecycle`, `Hex`). One
  Bitcoin execution record, any number of worker processes that may crash anywhere, and the lifecycle controller of
  finite actions, all communicating through versioned objects whose writes may land while the acknowledgement is
  lost. Each event of the transition system is one API call, one RPC or one local decision. The invariant is stated
  over the parts of the state each fact needs and is kept by every event; the theorems then speak about every run.
  `Outcomes` says what each lifecycle outcome means and where in a run it came from. `AuthorityProgress` and
  `AuthoritySends` say what a reservation and an RPC can still become and what cleared every send. `AuthorityRuns` and
  `ReorganizationRuns` show that the protocol can finish what it admits.
- **Bootstrap funding** (`Bootstrap`, `Funding`, `FundingProofs`, `FirstGate`, `FundingRuns`). Schedulers that commit
  and publish offers from samples of any age, one live worker process, and Core executing what was sent, possibly long after
  the sender died. The expected tip is the fence. The first-gate schedule is also computed exactly, and is a run of the
  protocol; every later ceiling is reached from there.
- **Baseline production** (`Baseline`, `BaselineProofs`, `BaselineHistory`, `Targets`). Durable weighted opportunities,
  their stages, and receipt cursors fed by stale, repeated and reordered reads.
- **Timing overrides** (`Overrides`, `OverridePhases`, `OverrideRuns`). One activation slot shared by schedulers and
  the override controller, and what the phases of a request say.
- **Clarity codec and addresses** (`Radix`, `Address*`, `Clarity*`). The consensus encoding of "Clarity Value
  Representation" in SIP-005 and c32check addresses, with the encoder and decoder as written and a one-line
  specification of what they accept. `ClarityLayout` and `AddressLayout` say the formats byte by byte.
- **Bounded investigation loops** (`Evidence`, `Inspect`, `Workload`). The evidence pager, the ancestry walk and
  the workload driver.

Conventions. UIDs, digests, bindings and wallet identities are opaque numbers. Clocks, draws, actor identity and
admission answers are event parameters that may differ between any two reads. The checksum of an address is an
arbitrary function. Integers are unbounded; where the source's width matters (32- and 64-bit counters, nonces and
keys) the bound or the wrap-around is written out. Objects that a function changes in place are classes whose
methods are proved equal to a value function; API objects that live in the cluster are values replaced by
compare-and-swap.

What the theorems assume. `Funding` has one live worker process per record and a chain moved only by managed
offers. `BaselineProofs` reads executions whose baseline receipts name offers this ledger committed to that node,
with one execution record per node. `Evidence` and `Inspect` read a backend that does not change meanwhile. A block
hash fixes its header. Identifiers drawn by a process are new.

## Model

| member | source | states |
|---|---|---|
| `Hex.TextOrderIsNumeric` | operators/network/internal/bitcoincontrol/action_reorganization.go:174-201 | comparing two 64-digit lower-case hexadecimal work values as text is comparing the numbers they denote, both ways |
| `Reservations.CaptureReorganization` | operators/network/internal/bitcoincontrol/action_reorganization.go:82-140 | the backward cursor loop returns exactly the ancestor `depth` below the tip and the hash of its child, or nothing when depth, height, any parent or the final tip read fails |
| `Reservations.AncestorIsLower` | operators/network/internal/bitcoincontrol/action_reorganization.go:82-140 | a captured ancestor lies exactly n blocks lower and has numerically less work |
| `Reservations.Held.Account` | operators/network/internal/bitcoincontrol/action_admission.go:125-177 | the in-place receipt accounting equals the value function, and fails exactly where it does (malformed hash, refused cadence, unsupported method) |
| `Reservations.ReceiptsAreStamped` | operators/network/internal/bitcoincontrol/action_admission.go:125-177 | a receipt leaves its identifier, its time rounded up to a second and exactly the progress its RPC stands for, and is refused only when malformed or when the cadence of a block still to come is |
| `Reservations.Held.Halt` | operators/network/internal/bitcoincontrol/actions.go:449-459 | the first stop reason stays and unsafety only accumulates |
| `Reservations.Held.Verify` | operators/network/internal/bitcoincontrol/action_reorganization.go:174-201 | one replacement header is accepted, the step is refused, or nothing is left to verify; only the accepted header changes |
| `Reservations.Held.Settle` | operators/network/internal/bitcoincontrol/action_reorganization.go:239-264 | the closing loop over canonical positions sets the final chain, or stops the action unsafely for insufficient work or a position that differs |
| `Reservations.AccountKeepsSound` | operators/network/internal/bitcoincontrol/action_admission.go:125-177 | accounting a receipt keeps the captured suffix and the verified part of the replacement chain |
| `Reservations.VerifyKeepsSound` | operators/network/internal/bitcoincontrol/action_reorganization.go:174-201 | accepting a header keeps the replacement linked from the fork parent |
| `Reservations.FinishKeepsSound` | operators/network/internal/bitcoincontrol/action_reorganization.go:204-306 | setting the final chain is justified by everything it claims; FinishIsExact says exactly when it is set |
| `Reservations.VerifyIsExact` | operators/network/internal/bitcoincontrol/action_reorganization.go:174-201 | a replacement header is accepted exactly when it is the next block, names its predecessor and carries numerically more work |
| `Reservations.FinishIsExact` | operators/network/internal/bitcoincontrol/action_reorganization.go:239-264 | the final chain is set to the tip exactly when the whole replacement is generated, verified, compensated and canonical and both its last header and the tip outweigh the original chain in numbers |
| `Reservations.LinkedAt` | operators/network/internal/bitcoincontrol/action_reorganization.go:174-201 | each replacement hash has a header one above its predecessor and naming it |
| `Reservations.FinalChainIsTheReplacement` | operators/network/internal/bitcoincontrol/action_reorganization.go:239-264 | a set final chain means Depth+1 headers linked one by one from a fork parent exactly Depth below the original tip, the invalidated block its child, and a last header one above the original tip with numerically more work |
| `Lifecycle.Draft.Finish` | operators/action/controllers/foundation/reconciler.go:405-413 | only the first terminal outcome is recorded |
| `Lifecycle.Draft.Copy` | operators/action/controllers/foundation/reconciler.go:310-344 | attribution and receipts are copied whatever the phase, which is left alone |
| `Lifecycle.Draft.Derive` | operators/action/controllers/foundation/reconciler.go:347-403 | the in-place projection computes the projected phase and reason, whose meaning is Outcomes.OutcomesAreExact, and freezes terminal ones |
| `Lifecycle.Draft.Reconcile` | operators/action/controllers/foundation/reconciler.go:118-139 | the in-place status computation of one reconcile equals the specified one |
| `Lifecycle.OutcomeStandsOn` | operators/action/controllers/foundation/reconciler.go:347-403 | which readings each new terminal outcome stands on: Completed on complete receipts with nothing armed, NoDispatch on no binding and no admission, other failures on a stopped and cleaned-up reservation |
| `Outcomes.OutcomesAreExact` | operators/action/controllers/foundation/reconciler.go:347-413 | an unfinished request is given a phase, and with a terminal phase a reason, exactly when the reservation, the outstanding RPC, the clock and the deletion mark call for it, for every phase and reason; a finished one keeps both |
| `Outcomes.CallsAreExclusive` | operators/action/controllers/foundation/reconciler.go:347-413 | any readings call for one outcome only |
| `Outcomes.EvidenceIsCopied` | operators/action/controllers/foundation/reconciler.go:310-344 | what was read of the reservation is copied whatever the outcome; without one only the outcome changes |
| `AuthorityTheorems.EventKeeps` | operators/network/internal/bitcoincontrol/worker.go:133-437 | every read, write, send, crash, request change and lifecycle step keeps the protocol invariant |
| `AuthorityMoves.ArmKeeps` | operators/network/internal/bitcoincontrol/worker.go:211-289 | arming on an unchanged version keeps it, with or without the acknowledgement |
| `AuthorityMoves.WithdrawKeeps` | operators/network/internal/bitcoincontrol/worker.go:314-328 | withdrawing an exact unsent authorization keeps it |
| `AuthorityMoves.DispatchKeeps` | operators/network/internal/bitcoincontrol/worker.go:331-357 | the one send of a confirmed authorization keeps it |
| `AuthorityMoves.AccountKeeps` | operators/network/internal/bitcoincontrol/worker.go:363-405 | recording a receipt, freeing the slot and moving the counters in one write keeps it |
| `AuthorityWrites.ReserveKeeps` | operators/network/internal/bitcoincontrol/actions.go:86-223 | reserving the record for a request keeps it |
| `AuthorityWrites.ReleaseKeeps` | operators/network/internal/bitcoincontrol/actions.go:301-424 | giving the record back keeps it |
| `AuthorityMoves.JudgeKeeps` | operators/action/controllers/foundation/reconciler.go:74-206 | a guarded lifecycle status write keeps it |
| `AuthorityTheorems.SendsAreAtMostOnceAndNeverLost` | operators/network/internal/bitcoincontrol/worker.go:211-405 | over all runs each armed identifier is sent at most once, receipts are accounted at most once and only for sends, and the sends not accounted are none or exactly the one in the armed slot |
| `AuthorityTheorems.OffersAreSentOnceAndCounted` | operators/network/internal/bitcoincontrol/worker.go:252-258 | over all runs each offer number is sent at most once and the block counter is the total of the accounted generate receipts |
| `AuthorityTheorems.CompletedOfferIncreases` | operators/network/internal/bitcoincontrol/worker.go:363-405 | the completed-offer cursor changes only with an offer receipt, and then strictly upward to that number |
| `AuthorityTheorems.RequestsSendInOrder` | operators/network/internal/bitcoincontrol/action_admission.go:17-122 | a request is granted the record at most once and its sends are at most Count generations, or one invalidation, at most Depth+1 generations and one reconsideration in that order, both markers naming the captured hash |
| `AuthorityTheorems.CleanOutcomesAreFinal` | operators/action/controllers/foundation/reconciler.go:405-413 | Completed and Failed never change and no further RPC is ever sent for the request |
| `AuthorityTheorems.NoDispatchIsTheTruth` | operators/action/controllers/foundation/reconciler.go:126-191 | a request concluded Failed with NoDispatch had no RPC sent before and has none sent after, in any interleaving |
| `AuthorityTheorems.CompletedIsTheTruth` | operators/action/controllers/foundation/reconciler.go:347-413 | Completed means exactly the whole script of the request was sent and accounted, now and for ever |
| `AuthorityTheorems.FinalChainsAreSound` | operators/network/internal/bitcoincontrol/action_reorganization.go:239-264 | in every reachable state a set final chain is sound and numerically heavier than the original |
| `Outcomes.ReadingsAreReal` | operators/action/controllers/foundation/reconciler.go:118-121 | whatever record a reconcile holds is the record as it stood at some earlier moment of the run |
| `Outcomes.OutcomesHaveCauses` | operators/action/controllers/foundation/reconciler.go:74-206 | in every run each phase beyond Pending goes back to one judgement whose readings call for it, made on the request as it then was and on a record as it stood then or earlier, and a terminal one keeps its reason |
| `Outcomes.UndisturbedRequestsGoOn` | operators/action/controllers/foundation/reconciler.go:347-403 | a request whose judgements find its reservation in time, undeleted, unstopped, certain, safe and not disposed is never Inconclusive, Failed or Recovering, whatever RPC is outstanding |
| `AuthorityProgress.ReservationsOnlyMoveForward` | operators/network/internal/bitcoincontrol/actions.go:449-459 | over every run, release included, what a request was granted stays, counters, acknowledgements and doubts only accumulate, a stop reason and a final chain stay, and the next dispatch is not rescheduled before another block |
| `AuthorityProgress.GenerationsKeepTheirDistance` | operators/network/internal/bitcoincontrol/action_admission.go:94-168 | after an accounted generation no further one of the request is authorized before the receipt time plus its delay, rounded up to a second, in any later state that has accounted no other block |
| `AuthorityProgress.WithdrawnRpcsAreNeverSent` | operators/network/internal/bitcoincontrol/worker.go:314-328 | a withdrawn authorization was never sent, is never sent in any continuation, and leaves the slot free |
| `AuthorityProgress.ReceiptsAreKeptUntilRecorded` | operators/network/internal/bitcoincontrol/worker.go:363-405 | the record always shows the last receipt accounted, and a collector that finds its receipt recorded is right that it was accounted, once |
| `AuthorityProgress.StartedBeforeSentAndRepairedBeforeReleased` | operators/network/internal/bitcoincontrol/actions.go:346-358 | anything sent for a request implies its reservation is marked started, and no reservation is released with an invalidated suffix not reconsidered |
| `AuthoritySends.SendsAreCleared` | operators/network/internal/bitcoincontrol/action_admission.go:17-122 | whenever a process sends an RPC it confirmed that very RPC after arming it, on readings with the right actor and runtime, the request present, unfinished, acknowledged and in time, quota and cadence open and the chain exactly where the receipts say |
| `AuthoritySends.GrantsAreAskedFor` | operators/network/internal/bitcoincontrol/actions.go:86-223 | the record is granted only while free, to a request never granted it before and read as live and in time, for exactly what it asks and under its own deadline |
| `AuthoritySends.ReleasesAreAcknowledged` | operators/network/internal/bitcoincontrol/actions.go:346-358 | the record is given back only with nothing outstanding or to undo, and only to a request gone or read as finished with the record's own evidence |
| `AuthoritySends.FinalizersAreDroppedLast` | operators/action/controllers/foundation/reconciler.go:192-202 | a finalizer is dropped only from a finished request that the record found does not hold, or whose network is gone |
| `AuthorityRuns.RpcRuns` | operators/network/internal/bitcoincontrol/worker.go:211-405 | an RPC that the state at rest authorizes can be armed, confirmed, sent, answered and accounted in one run |
| `AuthorityRuns.OffersCanComplete` | operators/network/internal/bitcoincontrol/worker.go:211-405 | every published offer can be sent once, counted with all its blocks and completed under its number |
| `AuthorityRuns.BlockRuns` | operators/network/internal/bitcoincontrol/worker.go:211-405 | from an acknowledged reservation with k blocks there is a run that arms, sends once, answers and accounts block k+1 |
| `AuthorityRuns.GenerationsCanComplete` | operators/network/internal/bitcoincontrol/actions.go:301-424 | for every block generation of 1 to 100 blocks some run of the protocol ends with it Completed and its record free again |
| `ReorganizationRuns.CapturesTheFork` | operators/network/internal/bitcoincontrol/action_reorganization.go:82-140 | the suffix of every linked chain of 1 to 6 blocks above its fork is captured |
| `ReorganizationRuns.HeaderIsAccepted` | operators/network/internal/bitcoincontrol/action_reorganization.go:174-201 | the next header of every linked replacement chain is accepted |
| `ReorganizationRuns.TipIsFinal` | operators/network/internal/bitcoincontrol/action_reorganization.go:239-264 | once generated, verified and compensated, the heavier replacement becomes the final chain |
| `ReorganizationRuns.BlockRuns` | operators/network/internal/bitcoincontrol/action_reorganization.go:204-306 | from k replaced blocks there is a run that arms, sends, accounts and verifies block k+1 |
| `ReorganizationRuns.ReorganizationsCanComplete` | operators/network/internal/bitcoincontrol/action_reorganization.go:204-306 | for every depth 1 to 6 and every chain holding the original suffix and a heavier linked replacement, with a deadline that leaves a second between blocks, some run ends with the request Completed, the last replacement header as its final chain and the record free |
| `Bootstrap.BootstrapBatch` | operators/network/internal/bitcoincontrol/generation_batch.go:45-55 | a new offer stays under the ceiling, within what the wallet still needs, and is larger than one block only in the first gate and within the batch limit |
| `Bootstrap.Select` | operators/network/internal/bitcoincontrol/scheduler.go:357-374 | the payee is a miner wallet still short, with what it is short of, or the payout wallet with nothing to fill |
| `Bootstrap.CreditAdds` | operators/network/internal/bitcoincontrol/bootstrap_receipts.go:57-75 | crediting adds to that wallet and no other, and is refused only on 32-bit overflow |
| `Bootstrap.Progress.AccountBootstrapReceipt` | operators/network/internal/bitcoincontrol/bootstrap_receipts.go:15-79 | counters and cursor move together exactly when the receipt is new, authorized and known, and otherwise not at all |
| `Bootstrap.Progress.AddOutputs` | operators/network/internal/bitcoincontrol/bootstrap_receipts.go:57-75 | the scan over the retained counters credits as specified |
| `FundingProofs.CreditedCounts` | operators/network/internal/bitcoincontrol/scheduler.go:176-178 | crediting a retained receipt moves exactly its share into the counters and clears it |
| `FundingProofs.SettleBalances` | operators/network/internal/bitcoincontrol/scheduler.go:176-178 | a reconcile working from an unchanged initialization and any stale execution read keeps the books balanced |
| `FundingProofs.NewOfferIsSound` | operators/network/internal/bitcoincontrol/scheduler.go:357-405 | an offer committed from a stale sample still fits the payee's target on the chain it names |
| `FundingProofs.LandBalances` | operators/network/internal/bitcoincontrol/worker.go:252-265 | executing a fenced offer adds to the books what it adds to the chain and stays within the target |
| `FundingProofs.StepKeeps` | operators/network/internal/bitcoincontrol/scheduler.go:323-409 | every scheduler, worker, crash, landing and gate event keeps the funding invariant |
| `FundingProofs.FundingStaysWithinThePlan` | operators/network/internal/bitcoincontrol/scheduler.go:323-409 | over all interleavings the height is at or below the gate ceiling and each miner wallet other than the payout wallet holds, and is credited, at most its outputs |
| `FundingProofs.FundingIsConserved` | operators/network/internal/bitcoincontrol/bootstrap_receipts.go:15-79 | outputs on the chain are those credited, plus those in the uncredited receipt, plus those of the landed armed offer |
| `FundingProofs.ArmedOffersExpectTheChain` | operators/network/internal/bitcoincontrol/worker.go:252-265 | an armed offer that can still execute expects exactly the chain that is there |
| `FirstGate.RoundOffer` | operators/network/internal/bitcoincontrol/scheduler.go:357-405 | at each point of the lossless schedule the next offer's payee, size and number |
| `FirstGate.FirstGatePrepares` | operators/network/internal/bitcoincontrol/scheduler.go:357-405 | from height 0 the schedule pays each miner in turn and then the payout wallet to exactly the minimum height, in the stated number of offers, leaving every miner's outputs mature; it completes exactly when a payout wallet that is also a miner stays within its 32-bit counter |
| `FirstGate.PreparationNeedsTheCapacity` | operators/network/internal/bitcoincontrol/records.go:274-277 | no chain of any shape is prepared unless 100 + miners x outputs fits its height |
| `FirstGate.BatchingIsOneOfferPerMiner` | operators/network/internal/bitcoincontrol/generation_batch.go:9-55 | with at most 500 outputs a wallet, batching needs one offer per miner and one per 500 remaining blocks, rounded up |
| `FirstGate.MatureIsDeep` | operators/network/internal/bitcoincontrol/wallets.go:277-320 | outputs with 101 or more confirmations are those at least 100 blocks below the tip |
| `FundingRuns.RoundRuns` | operators/network/internal/bitcoincontrol/scheduler.go:323-409 | one round of the first-gate schedule is a run of the protocol from rest to rest with the same chain and counters |
| `FundingRuns.ScheduleRuns` | operators/network/internal/bitcoincontrol/scheduler.go:323-409 | a schedule that completes is a run of the protocol that ends on the same chain |
| `FundingRuns.PreparationIsReachable` | operators/network/internal/bitcoincontrol/scheduler.go:277-299 | from an empty chain the protocol reaches the minimum height with every miner mature |
| `FundingRuns.OfferRuns` | operators/network/internal/bitcoincontrol/scheduler.go:323-409 | from rest any fitting new offer is committed, published, armed, sent, executed, accounted and credited in one run |
| `FundingRuns.GatesAreReachable` | operators/network/internal/bitcoincontrol/scheduler.go:277-405 | from the prepared chain the protocol reaches every later frozen ceiling exactly, and every block above the minimum height pays the payout wallet |
| `Baseline.Status.constructor` | operators/network/internal/bitcoincontrol/baseline.go:34-45 | a first baseline reconcile starts numbering after every known bootstrap number |
| `Baseline.Status.FindCursor` | operators/network/internal/bitcoincontrol/baseline.go:406-414 | the cursor scan finds the execution's first cursor or none |
| `Baseline.Status.Fund` | operators/network/internal/bitcoincontrol/baseline.go:381-383 | an outstanding bootstrap receipt is credited and the sequence never falls behind it |
| `Baseline.Status.Notice` | operators/network/internal/bitcoincontrol/baseline.go:385-391 | an offer found on its target becomes assigned once |
| `Baseline.Status.Count` | operators/network/internal/bitcoincontrol/baseline.go:392-436 | a baseline receipt above its execution's cursor is counted and moves the cursor; every other is skipped; what that means for the history is BaselineHistory.AcknowledgedExactly |
| `Baseline.Status.AccountReceipts` | operators/network/internal/bitcoincontrol/baseline.go:364-439 | the loop over executions computes the specified fold |
| `Baseline.Status.Withdraw` | operators/network/internal/bitcoincontrol/baseline.go:232-240 | an open opportunity becomes unassigned and offer and cadence are cleared |
| `Baseline.Status.Progress` | operators/network/internal/bitcoincontrol/baseline.go:155-204 | an open opportunity expires, is skipped, committed or assigned |
| `Baseline.Status.Select` | operators/network/internal/bitcoincontrol/baseline.go:205-228 | a new opportunity takes the next number unless a counter is exhausted |
| `Baseline.Status.Reconcile` | operators/network/internal/bitcoincontrol/baseline.go:28-229 | the whole in-place reconcile computes the specified ledger |
| `BaselineProofs.AdvanceRaises` | operators/network/internal/bitcoincontrol/baseline.go:421-431 | moving one execution's cursor moves no other |
| `BaselineProofs.CountedKeeps` | operators/network/internal/bitcoincontrol/baseline.go:406-432 | a receipt above its cursor was never counted before |
| `BaselineProofs.OpportunitiesAreConserved` | operators/network/internal/bitcoincontrol/baseline.go:28-240 | in every reachable state opportunities are those assigned, skipped, unassigned and the one selected or offered, and no counter leaves 64 bits |
| `BaselineProofs.AcknowledgementsAreOpportunities` | operators/network/internal/bitcoincontrol/baseline.go:364-439 | acknowledgements map one to one into committed opportunities with distinct numbers, so Acknowledged is at most Opportunities whatever was read stale or twice |
| `BaselineHistory.FatesAreExact` | operators/network/internal/bitcoincontrol/baseline.go:155-204 | exactly when an open opportunity is assigned, skipped or unassigned, and that it otherwise stays open |
| `BaselineHistory.OpeningIsExact` | operators/network/internal/bitcoincontrol/baseline.go:205-228 | exactly when a new opportunity opens, and that it takes the next number and the drawn target |
| `BaselineHistory.CadenceIsExact` | operators/network/internal/bitcoincontrol/baseline.go:146-154 | the cadence starts with the first calm reconcile, moves only when an opportunity opens and stops with production |
| `BaselineHistory.CommitIsExact` | operators/network/internal/bitcoincontrol/baseline.go:169-195 | exactly when a selected opportunity becomes an offer, and that the offer is to its own target under its own number and deadline |
| `BaselineHistory.OffersGoWhereDrawn` | operators/network/internal/bitcoincontrol/baseline.go:28-240 | over every run each committed offer goes to the target drawn for one opportunity, until its deadline, numbered from its number on and below the next one's, and under exactly its number when no late bootstrap receipt turns up |
| `BaselineHistory.NumbersStartAfterBootstrap` | operators/network/internal/bitcoincontrol/baseline.go:34-45 | over every run all opportunity numbers lie above every bootstrap number known at the start |
| `BaselineHistory.SequenceKeepsUp` | operators/network/internal/bitcoincontrol/baseline.go:381-383 | over every run the sequence only grows and never falls behind a credited bootstrap number |
| `BaselineHistory.AcknowledgedExactly` | operators/network/internal/bitcoincontrol/baseline.go:364-439 | over every run a reconcile acknowledges exactly the read receipts for a node's own latest offer that lie strictly above everything acknowledged for that node, as far as counter and cursors have room |
| `BaselineHistory.ReadReceiptsAreAcknowledged` | operators/network/internal/bitcoincontrol/baseline.go:364-439 | with fewer than 1000 cursors and room in the counter no read receipt is left behind: it is acknowledged or at or below an acknowledged number of its node |
| `Targets.Total` | operators/network/internal/bitcoincontrol/baseline_inputs.go:188-199 | the checked sum is the sum, refused exactly for a weight below one or a total beyond 64 bits |
| `Targets.SelectBaselineTarget` | operators/network/internal/bitcoincontrol/baseline_inputs.go:188-210 | selection fails exactly for undrawable weights or a draw out of range and otherwise picks the target whose share contains the draw; the trailing error cannot happen |
| `Targets.SelectionIsUnique` | operators/network/internal/bitcoincontrol/baseline_inputs.go:203-208 | a draw selects one target only |
| `Targets.WeightManyDraws` | operators/network/internal/bitcoincontrol/baseline_inputs.go:188-210 | exactly weight-many draws select each target |
| `Overrides.Draft.Observe` | operators/network/internal/bitcoincontrol/override_controller.go:69-99 | the status copy changed branch by branch is the specified next status, whose meaning is OverridePhases.WrittenPhases and PhasesAreTrue |
| `Overrides.WithdrawKeeps` | operators/network/internal/bitcoincontrol/overrides.go:56-67 | releasing the slot keeps every activation acknowledged, held or orphaned |
| `Overrides.ActivateKeeps` | operators/network/internal/bitcoincontrol/overrides.go:91-119 | activating a listed request under an unchanged empty slot keeps it, because that request was never activated |
| `Overrides.ActivatedAtMostOnce` | operators/network/internal/bitcoincontrol/overrides.go:28-122 | over all interleavings of schedulers and controllers each request UID is activated at most once |
| `Overrides.WithdrawnOnlyWhenAcknowledged` | operators/network/internal/bitcoincontrol/overrides.go:56-67 | a request that still exists is withdrawn only while its status holds that exact activation, and an activation that has run out only after its request was read as closed |
| `Overrides.AdmissionsStay` | operators/network/internal/bitcoincontrol/override_controller.go:69-158 | a status's admission is that request's one activation and no step removes it |
| `Overrides.ActivationsAreNeverLost` | operators/network/internal/bitcoincontrol/overrides.go:28-122 | every activation is in the slot, acknowledged by its request, or its request is gone |
| `OverridePhases.WrittenPhases` | operators/network/internal/bitcoincontrol/override_controller.go:69-99 | the phase a status write gives, for every reading of slot, clock and deletion, both ways |
| `OverridePhases.HeldMeansActive` | operators/network/internal/bitcoincontrol/override_controller.go:61-85 | a status written from a slot that holds the request's activation is Active exactly when the request is not being deleted and the activation has not run out |
| `OverridePhases.PhasesAreTrue` | operators/network/internal/bitcoincontrol/override_controller.go:69-99 | in every reachable state Active and Completed requests were activated and Completed ones have run out, Pending and Expired ones were not and Expired ones are five minutes old, and Cancelled ones are being deleted, were withdrawn, or had a controller that found no current network |
| `OverridePhases.ActivationsAreInTime` | operators/network/internal/bitcoincontrol/overrides.go:91-119 | every activation was decided within five minutes of its request and lasts at most an hour |
| `OverridePhases.AdmissionsAreEligible` | operators/network/internal/bitcoincontrol/overrides.go:91-119 | only a request read as undeleted, open, never admitted, guarded by its finalizer and in time is admitted |
| `OverridePhases.FinalizersFollow` | operators/network/internal/bitcoincontrol/override_controller.go:103-127 | a finalizer is dropped exactly from a closed request without activation and added to an open one not being deleted |
| `OverrideRuns.OverridesRunTheirCourse` | operators/network/internal/bitcoincontrol/overrides.go:28-122 | every override of up to an hour can be activated, be Active while it holds the slot, become Completed when its time has run out, and then free the slot |
| `OverrideRuns.CancelledWhileStillHeld` | operators/network/internal/bitcoincontrol/override_controller.go:50-99 | Cancelled does not always mean deleted or withdrawn: a controller that finds no current network cancels a request whose activation still holds the slot and still runs |
| `Radix.ValueOfMinimal` | libs/stacks/identity/identity.go:106-109 | repeated division yields digits of the number without a leading zero |
| `Radix.MinimalOfValue` | libs/stacks/identity/identity.go:106-109 | and they are the only such digits |
| `Radix.FixedIsPadded` | libs/stacks/identity/address.go:32-37 | left-padding the minimal bytes gives the fixed-width bytes |
| `Radix.PositionalIsValue` | libs/stacks/identity/address.go:22-31 | accumulating digit by digit is summing the digits by the powers of their places |
| `Address.Divide` | libs/stacks/identity/identity.go:106-109 | the division loop emits the minimal digits, lowest first |
| `Address.AppendZeros` | libs/stacks/identity/identity.go:110-115 | one zero letter per leading zero byte |
| `Address.Reverse` | libs/stacks/identity/identity.go:116-118 | the swap loop reverses the array |
| `Address.EncodeText` | libs/stacks/identity/identity.go:101-120 | the text is the digits of the number behind one zero letter for each leading zero byte |
| `Address.Accumulate` | libs/stacks/identity/address.go:22-31 | the digit loop computes the number, or fails at a foreign letter |
| `Address.Decode` | libs/stacks/identity/address.go:13-47 | the decoding method computes the specified result, errors included |
| `Address.TextLength` | libs/stacks/identity/address.go:50-57 | 24 bytes take between 1 and 39 letters |
| `Address.EncodeThenDecode` | libs/stacks/identity/address.go:13-57 | for every version below 32, every 20-byte hash and every checksum function, decoding the encoding returns them, and the text has 3 to 41 letters |
| `Address.DecodeIsExact` | libs/stacks/identity/address.go:13-47 | an address is accepted exactly when it is the encoding of what it decodes to |
| `Address.AddressesAreUnique` | libs/stacks/identity/address.go:50-57 | different accounts have different addresses |
| `AddressLayout.AddressesAreLaidOut` | libs/stacks/identity/address.go:50-57 | an account's address is exactly an S, its version's letter and letters of the c32 alphabet whose base-32 sum is the base-256 sum of hash and checksum, with one zero letter for each leading zero byte |
| `AddressLayout.AcceptedAddressesAreLaidOut` | libs/stacks/identity/address.go:13-47 | an address is accepted exactly when it is laid out that way for the 20-byte account it decodes to |
| `Clarity.CheckContractName` | libs/stacks/clarity/value.go:94-109 | the scan decides the contract-name grammar |
| `Clarity.ContractNamesAreNames` | libs/stacks/clarity/value.go:88-109 | contract names are names and contain no dot |
| `ClarityDecode.Decoder.Take` | libs/stacks/clarity/decode.go:40-47 | bytes are consumed from the front or, when too few, not at all |
| `ClarityDecode.Decoder.Count` | libs/stacks/clarity/decode.go:50-61 | a 32-bit count no larger than what is left |
| `ClarityDecode.Decoder.Name` | libs/stacks/clarity/decode.go:64-77 | a length byte and a valid name |
| `ClarityDecode.Decoder.Integers` | libs/stacks/clarity/decode.go:90-98 | 16 bytes as an unsigned or two's-complement number |
| `ClarityDecode.Decoder.Strings` | libs/stacks/clarity/decode.go:99-119 | counted text, UTF-8 and for ASCII seven-bit |
| `ClarityDecode.Decoder.Parties` | libs/stacks/clarity/decode.go:121-141 | a version, a hash and for contracts a name, rendered as principal text |
| `ClarityDecode.Decoder.Items` | libs/stacks/clarity/decode.go:148-160 | the loop that fills a list reads exactly the specified items |
| `ClarityDecode.Decoder.Fields` | libs/stacks/clarity/decode.go:161-182 | the loop that fills a tuple reads strictly ascending names and their values |
| `ClarityDecode.Decoder.Value` | libs/stacks/clarity/decode.go:80-187 | one value is read as specified within the depth limit and exactly its bytes are consumed |
| `ClarityDecode.Decode` | libs/stacks/clarity/decode.go:16-29 | the whole decoding computes the specified result |
| `ClarityEncode.AppendData` | libs/stacks/clarity/value.go:129-139 | counted data fits the wire and the budget, or nothing is appended |
| `ClarityEncode.AppendItems` | libs/stacks/clarity/value.go:200-211 | the item loop appends exactly the items' bytes, or fails because an item is malformed or the whole does not fit |
| `ClarityEncode.AppendFields` | libs/stacks/clarity/value.go:226-234 | the same for tuple fields in key order |
| `ClarityEncode.Append` | libs/stacks/clarity/value.go:123-245 | the incremental checks accept exactly the well-formed values whose whole encoding fits, and append exactly its bytes |
| `ClarityEncode.EncodeWithLimits` | libs/stacks/clarity/value.go:115-120 | the encoder computes the one-condition specification |
| `ClarityProofs.IntegerExact` | libs/stacks/clarity/decode.go:90-98 | 16 bytes parse to n exactly when they are n's bytes and n is in range |
| `ClarityProofs.PartyIsItsText` | libs/stacks/clarity/value.go:175-194 | principal text denotes a party exactly when it is that party's text |
| `ClarityProofs.AscendingIsSorted` | libs/stacks/clarity/value.go:216-223 | there is one ascending order of a set of keys and sorting finds it |
| `ClarityProofs.ValueSound` | libs/stacks/clarity/decode.go:80-187 | whatever decodes is the encoding of the value it decodes to, followed by what was left |
| `ClarityProofs.ValueComplete` | libs/stacks/clarity/value.go:123-245 | every encoding decodes to its value, whatever follows it |
| `ClarityProofs.DecodingIsExact` | libs/stacks/clarity/decode.go:16-29 | a byte string decodes to v exactly when the limits are valid, it fits, v is well formed within the depth and the bytes are v's encoding |
| `ClarityProofs.EncodeAndDecodeAreInverse` | libs/stacks/clarity/value.go:115-245 | under the same limits encode gives b for v exactly when decode gives v for b |
| `ClarityProofs.EncodingsAreUnique` | libs/stacks/clarity/value.go:115-245 | no two values share an encoding |
| `ClarityLayout.NumberIsBytes` | libs/stacks/clarity/value.go:139-160 | sixteen bytes add up to a number modulo 2 to the 128th exactly when they are its encoding |
| `ClarityLayout.BeforeIsBytewise` | libs/stacks/clarity/value.go:216-223 | the order of tuple keys is bytewise: equal so far, and then a smaller byte or the end |
| `ClarityLayout.AcceptedBytesAreLaidOut` | libs/stacks/clarity/decode.go:80-187 | a byte string decodes to v exactly when it fits the limits and is laid out as SIP-005 prescribes for v: the type identifier 0 to 14, the sixteen-byte sum of a number, the four-byte sum of a length, a version and hash, a name with its length, and the items or ascending fields one after another |
| `ClarityLayout.EncodingsAreLaidOut` | libs/stacks/clarity/value.go:115-245 | and the encoder produces exactly that layout |
| `Evidence.Exporter.Fetch` | tools/stacks-evidence/bundle.go:337-447 | one query returns the ordered page at the offset within every remaining budget and counts exactly what it kept, or stops, and then for a cancellation, a spent budget or a reply that failed, was too large or could not be stored |
| `Evidence.Exporter.ExportWindow` | tools/stacks-evidence/bundle.go:336-453 | the pages of a window join to a prefix of it, all of it when the window is finished |
| `Evidence.Exporter.ExportTable` | tools/stacks-evidence/bundle.go:322-457 | on every outcome the exported rows are a prefix of the table's rows in [From, To) holding all rows before Through, Exported means all of them once, the loop ends and no budget is exceeded; it stops short only for such a cause |
| `Evidence.WindowsJoin` | tools/stacks-evidence/bundle.go:331-335 | adjacent windows of an ordered table join without gap or repeat |
| `Evidence.PageExtends` | tools/stacks-evidence/bundle.go:448-452 | a page at the current offset extends the prefix, and a short page completes it |
| `Evidence.Context.Retain` | tools/stacks-evidence/bundle.go:508-534 | the running byte count is exactly the size of the retained context, which stays within every bound; an object is kept or replaced exactly when all bounds allow it |
| `Inspect.Look` | tools/stacks-inspect/bitcoin.go:94-114 | one turn meets a known header, reads the linked one, or fails exactly when the read does |
| `Inspect.Walk` | tools/stacks-inspect/bitcoin.go:84-163 | a completed walk saw exactly the path up to its first known block, and it completes unless a read fails |
| `Inspect.PathIsAncestry` | tools/stacks-inspect/bitcoin.go:84-163 | a path of n blocks is exactly the ancestors at a distance below n |
| `Inspect.EarlyStopIsEnough` | tools/stacks-inspect/bitcoin.go:94-102 | stopping the second walk at its first known block changes neither test |
| `Inspect.Compare` | tools/stacks-inspect/bitcoin.go:41-78 | the reported relation is the true one for ancestors at distance below Blocks |
| `Workload.FilterConserves` | tools/stacks-workload/execution.go:132-159 | filtering the outstanding list neither loses nor repeats a transaction |
| `Workload.FilterInPlace` | tools/stacks-workload/execution.go:133-159 | the in-place loop keeps exactly the unsettled transactions in order |
| `Workload.Driver.constructor` | tools/stacks-workload/execution.go:77-108 | a run starts empty with the default bound of 100 when none is given |
| `Workload.Driver.Poll` | tools/stacks-workload/execution.go:131-172 | a batch moves exactly the recorded inclusions out of the outstanding list |
| `Workload.Driver.Submit` | tools/stacks-workload/execution.go:173-209 | a submission takes the next nonce and is outstanding before its outcome is known |
| `Workload.Driver.Execute` | tools/stacks-workload/execution.go:122-240 | on every exit attempted = included + outstanding as sets of ordinals, outstanding within the bound, nonces base, base+1, ... without gap, repeat or wrap; completion means everything attempted is included, and in a run whose window never closes that is the whole count; turns that nothing hinders submit one transaction each |
| `Workload.Start` | tools/stacks-workload/execution.go:77-87 | a run is refused exactly when its nonces would wrap |
| `Workload.Varied` | tools/stacks-workload/variation.go:86-112 | every drawn shape stays within the validated bounds; each field comes from its own range by its own digest, and one without a range is unchanged |
| `Workload.WriteKeys` | tools/stacks-workload/main.go:157-174 | the write loop's keys |
| `Workload.ReadKeys` | tools/stacks-workload/main.go:175-183 | reads go to the call's own written keys in turn, or to its first key |
| `Workload.KeysDoNotWrap` | tools/stacks-workload/variation.go:41-52 | a key of an accepted request is the plain sum |
| `Workload.OrdinalsAreDisjoint` | tools/stacks-workload/main.go:157-183 | calls of different ordinals never share a key, whatever shapes were drawn |
| `Workload.WritesAreDistinct` | tools/stacks-workload/main.go:157-174 | different writes of a call have different keys |

## Left out

- Kubernetes clients, informers, watches, predicates, RBAC and rendered Deployments; a guarded read and a guarded write are the only primitives kept.
- Actor identity and admission validation (`resolveActor`, `foundation.Validate*`): an answer that may change between reads.
- Wallet planning and maturity queries beyond the 101-confirmation rule; an observation is a chain sample.
- HTTP, JSON, SQL and RPC transport, signing, key derivation and hashing.
- The worker's mutex, goroutines and cancel function: a process is its `active` and `closed` flags, a program point and a collector. Updating the in-memory copy of the API record inside a step is not modelled as mutation; the value it writes is.
- Pause acknowledgement, drain and control-Pod termination evidence: they appear only as writes that leave authority alone or stop a reservation.
- `condition` timestamps, event reasons and other reporting fields of the lifecycle controller.
- `freezeInitialization` as a loop over captured bindings: its acceptance is the predicate `Bootstrap.Frozen`, for wallets that are distinct objects.
- `currentGate` and `advancementReady` beyond ascending ceilings, the current index and retained preparation.
- `interval` and `cadenceBounds`: a cadence answer is any number or a refusal.
- The order in which `reconcileOverride` prefers pending requests, and the dispatch-time recheck `authorizeTimingOverride`: any eligible request may be activated.
- `observeBatch`'s concurrency: a batch is its result array, position by position, in any completion order.
- Error texts; an error is the absence of a result.
- ClarityDecode.Decoder.Value: after an error the unread bytes are not specified, since the decoder is then discarded.
- Evidence.Exporter.Fetch: the schema query and the row identity checks are either passed or reported as a failed reply; the rows a backend serves are the ordered rows asked for.
- Inspect.Look: the checks on merkle roots, times and transaction lists are folded into whether the read fails.
