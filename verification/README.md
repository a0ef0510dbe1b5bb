# A model of the GPU host agent's admission core, and of the gateway's recoverable protocols

The platform runs several models on one GPU. This project models the code that decides who may use the
device, the two gateway protocols that must survive a crash, and three self-contained algorithms, and
proves what they keep over whole runs.

**The coordinator** (`hostagent/coordinator.py`, `hostagent/coordadmission.py`). A table of resident models,
reservations for loads in flight, ref-counted claims, joiners of a load, drain-then-unload eviction,
generations, and a barrier for exclusive jobs. Each `with self._locked()` block is one section function in
`CoordinatorState.dfy`; `CoordinatorWorld.dfy` interleaves the sections of any number of operations, with
loads, unloads, measurements and allocations in between. Nothing is scheduled: every interleaving is a run.
`Coordinator.dfy` is the object itself, one method per critical section, each proved to perform its section
function in place, loops included. The invariants are in `CoordinatorOwnership`, `CoordinatorJoiners`,
`CoordinatorFlights` (no assumption), `CoordinatorClaims` (kept by every step but one kind, named exactly),
`CoordinatorPhases` (clean runs), `CoordinatorBudget` and `CoordinatorMemory`; `CoordinatorRuns.dfy` states the
results about whole runs, `CoordinatorWitnesses.dfy` has runs from the start in which something is lost, and
`VictimSelection.dfy` the choice of what to evict. `CoordinatorDecisions.dfy` says which answer is right when, of
the tables alone, and the sections are proved to give it; `CoordinatorRefusals.dfy` and `CoordinatorRecency.dfy`
carry two of its consequences through whole runs. `CoordinatorShim.dfy` is the legacy admission surface the
coordinator serves.

**The single slot** (`hostagent/admission.py`, `lifecycle.py`, `swap.py`, `jobs.py`). `Slot.dfy` has the slot
object and the swap transaction interleaved with everybody else; `Lifecycle.dfy` an engine's runtime and the
interleaving of engines and jobs; `Swap.dfy` the swap as the agent runs it and the operation-keyed reload;
`Jobs.dfy` the one-job launcher.

**The activation saga** (`gateway/app/activation.py`) is `Activation.dfy`; **the settlement outbox**
(`gateway/app/metering.py` over `platformlib/storeimpl/metering.py`) is `Metering.dfy`, down to the bytes
missing from a torn line.

**Kernels**: `EditDistance.dfy`, `RankSum.dfy` (both `gateway/app/evaluation.py`) and `Framing.dfy` (the body
reader of `hostagent/main.py`).

## What is assumed of the surroundings

A run of the coordinator carries a `Surroundings` record; with every field off nothing is assumed beyond
distinct ids for concurrent operations, a constant device total, and one free-memory reading per pass
through stage 1. The fields name the rest:

- `idlePops`: whoever removes an entry by key meets none that has a request on it. Claims are conserved as long
  as this holds and no longer (`CoordinatorRuns.ConservationEndsExactly`); `CoordinatorWitnesses.EntryInUseRemoved`
  is a run in which it does not.
- `clean`: no admission of a key falls between two closings of it, and the runtime forgets only an entry
  that has no claim and is not loading. This is enough for `idlePops`, for no claimed entry to be committed to
  unload, and for what is said of device memory; it is not claimed to be needed.
- `noOvershoot`: the runtime's late report does not raise an entry's bytes. `modest`: neither does a load's
  own measurement exceed its estimate.
- `external`: other programs hold that many bytes throughout; a load allocates at most its estimate until it
  is measured; a late report is what the process occupies; an unload frees what its process held.

In `Lifecycle` a hard cut happens only while the lock holder is forwarding. In `Activation` nobody else
writes the pointer, and one run at a time drives an operation.

## What turned out not to hold

- A model that fits an empty device can be refused as permanently too large on a busy one: the threshold
  subtracts the headroom from the budget, not from the device. Some model meets this exactly when there is
  headroom to keep, usable capacity is below the device total and the device admits anything at all
  (`VictimSelection.TooLargeThoughItFitsExactly` per request, `CoordinatorWitnesses.ThresholdIsWrongExactly` per
  device, a run in `CoordinatorWitnesses.RefusedForGood`).
- Evictions and rollbacks remove an entry by its key, without asking whose it is by then. An eviction whose
  unload makes the runtime forget the entry leaves the key free; a load that comes next is committed and claimed,
  and the eviction then removes it with the claim on it (`CoordinatorWitnesses.EntryInUseRemoved`). A step breaks
  the conservation of claims exactly when it is such a removal of an entry in use
  (`CoordinatorClaims.ClaimedExactly`), and takes a load's entry exactly when it closes a key being loaded
  (`CoordinatorFlights.LoadsDisturbedExactly`); admissions do neither, whoever is still closing. A load whose entry
  was taken finds out at its re-check (`CoordinatorRuns.LateClosingDisplacesLoad`).
- A rolled-back swap ends its reservation twice. The second end drops the reservation of a new swap for the
  same target, exactly when one has begun in between (`SwapProtocol.GuardedKept`,
  `LateEndDropsNewReservation`).
- A verify-pending reply, or a refused pointer write, is counted as an attempt but never gives up
  (`Activation.LastAttemptExactly`, `PendingForEver`, `PreparedForEver`).
- A crash in the middle of a log write leaves no newline, and the next settlement is lost with the fragment
  it is appended to, unless a replay rewrote the file first; a replay that found nothing readable, or
  finished nothing, does not. So does a write that fails without a crash, on a full disk
  (`Metering.RememberedExactly`, `ReplayMendsExactly`, `TornTailLosesNextSettlement`).
- The store reads a reservation's state before its settling transaction. A release or sweep in between is
  charged all the same, and ledger and reservations no longer agree (`Metering.ReconciledExactly`,
  `SweepBetweenReadAndCharge`).
- A job whose thread never starts, or whose terminal write fails, holds its idempotency key until the agent
  restarts (`Jobs.KeyHeldForGoodExactly`, `DeadJobKeepsItsKey`).
- A chunked body comes back as if complete whenever a size line has no size on it: at the end of a stream cut
  off in the middle, but also at a blank line or a line that is only an extension, with the rest left unread. A
  body is a whole, terminated message exactly when its last size line spells zero (`Framing.CompleteExactly`,
  `TokenEmptyExactly`; inputs in `TruncationPassesForTheEnd`, `BlankLineEndsBody`).
- A chunk-size line is read up to 64 bytes. A longer one, which extensions may make, is cut, and the chunk
  cannot come out as it was sent (`Framing.ChunkReadExactly`; an input that yields a carriage return for a body in
  `LongExtensionMisread`). Trailers are not read: the body is right, but reading stops before the end of the
  message (`Framing.RoundTrip`, `ReadAsSentExactly`, input in `TrailerLeftUnread`).

## Model

| member | source | states |
|---|---|---|
| CoordinatorRuns.EveryRun | hostagent/coordinator.py:730-737 | in every run, with nothing assumed: an exclusive job means no resident and no reservation; every draining entry has an evictor on its way or a raised barrier; every open joiner is in exactly one place |
| CoordinatorRuns.EveryIdlePopRun | hostagent/coordinator.py:514-535 | in every run in which no removal by key meets an entry in use, an entry's request count is the number of its live claims, each live claim is in exactly one operation's hands, and a claimed entry is resident |
| CoordinatorRuns.EveryCleanRun | hostagent/coordinator.py:514-535 | in every clean run that holds too, and a claimed entry is never evicting or rolling back |
| CoordinatorRuns.ConservationEndsExactly | hostagent/coordinator.py:1090-1097 | after any run with claims conserved, with nothing assumed, the next step conserves them if and only if it does not remove an entry that has a request on it |
| CoordinatorRuns.SelfCheckNeverFails | hostagent/coordinator.py:1214-1261 | the coordinator's own invariant check reports nothing after any clean run whose measurements stay within estimates |
| CoordinatorRuns.ResidentsAlwaysFit | hostagent/coordinator.py:919-926 | with arbitrary measurements at commit, resident bytes alone never exceed usable capacity |
| CoordinatorRuns.PromisesAlwaysFit | hostagent/coordinator.py:464-467 | with measurements within estimates, resident bytes plus all reservations never exceed usable capacity |
| CoordinatorRuns.CommitRestoresBudget | hostagent/coordinator.py:954-975 | however far measurements overshot, a commit that goes through leaves the whole bound satisfied |
| CoordinatorRuns.DeviceNeverOvercommitted | hostagent/coordinator.py:469-486 | the bytes admitted loads may still allocate never exceed what the device has free, and leave the headroom while any are pending, across deferred spawns, measurements, evictions and rollbacks |
| CoordinatorRuns.NamesAreUnique | hostagent/coordinator.py:488-493 | no two entries ever created in a run share key and generation |
| CoordinatorRuns.CreatedLater | hostagent/coordinator.py:776-782 | an entry created later under a key carries a strictly later generation than the one standing now |
| CoordinatorRuns.FailureTouchesOwnEntry | hostagent/coordinator.py:993-1012 | a failed load deletes no entry but the one its own stage 1 created |
| CoordinatorRuns.CommitTouchesOwnEntry | hostagent/coordinator.py:906-926 | a committing load changes no entry but the one its own stage 1 created |
| CoordinatorRuns.NothingAddedWhileExclusive | hostagent/coordinator.py:1165-1182 | while an exclusive job is set no section of anybody adds a resident or a reservation |
| CoordinatorRuns.BarrierOnlyDrains | hostagent/coordinator.py:1184-1204 | under a barrier no entry appears and no request count rises, whoever moves: why the drain converges; a second job is turned away with nothing changed |
| CoordinatorWitnesses.EntryInUseRemoved | hostagent/coordinator.py:1084-1097 | a concrete run from the start in which an eviction, its entry forgotten during the unload and loaded anew by another, removes that entry with its claim on it |
| CoordinatorFlights.InFlightIdleKept | hostagent/coordinator.py:741-758 | whoever moves, however late: an entry standing under its load's generation has no request on it and is given to nobody |
| CoordinatorFlights.LoadsDisturbedExactly | hostagent/coordinator.py:1032-1041 | a step leaves every load its own loading entry if and only if it does not remove, or take out of its phase by a drain poll, a key being loaded; no admission does |
| CoordinatorOwnership.OwnedKept | hostagent/coordinator.py:453-454 | every section keeps: reservations belong to loading operations, generations name entries, the exclusive slot is over an empty set, drains are answered for |
| CoordinatorOwnership.ReservationNeverLost | hostagent/coordinator.py:906-912 | the "reservation lost" branch is dead, and an unchanged generation means the load's own entry is still there |
| CoordinatorJoiners.OpenJoinerHasOnePlace | hostagent/coordinator.py:423-429 | an undisposed joiner is on exactly one list, a reservation's or a load owner's custody, and once on it |
| CoordinatorJoiners.DispositionWrittenOnce | hostagent/coordinator.py:539-556 | a disposition once given is changed by no later section, deadline races included |
| CoordinatorJoiners.JoinedKept | hostagent/coordinator.py:816-849 | every section keeps joiners listed exactly where their home says, in lists without repetition |
| CoordinatorClaims.CommitHands | hostagent/coordinator.py:965-975 | joiner i of a commit is handed exactly claim i after the loader's, and awaits that very key |
| CoordinatorClaims.ReleaseKeepsClaimed | hostagent/coordinator.py:526-535 | releasing keeps counts equal to live claims, and the saturating decrement never saturates |
| CoordinatorClaims.RemoveKeepsClaimed | hostagent/coordinator.py:1090-1097 | an entry removed while nobody has a request on it has no claim left on it, and claims stay conserved |
| CoordinatorClaims.PollKeepsClaimed | hostagent/coordinator.py:1062-1083 | only an entry without claims is committed to unload, and claims stay conserved |
| CoordinatorClaims.ClaimedExactly | hostagent/coordinator.py:514-524 | with nothing assumed, a step of anybody keeps claims conserved if and only if it does not remove, by key, an entry with a request on it |
| CoordinatorClaims.CleanPopsIdle | hostagent/coordinator.py:1062-1083 | in clean surroundings no removal meets an entry in use |
| CoordinatorPhases.PhasedKept | hostagent/coordinator.py:1045-1083 | every section of a clean run keeps: closers face entries in their own phase, loads are never displaced, drained entries gain no request |
| CoordinatorBudget.CommitFits | hostagent/coordinator.py:919-926 | what the re-check does not object to commits within the whole bound |
| CoordinatorBudget.BudgetKept | hostagent/coordinator.py:762-782 | every section keeps resident bytes plus reservations within capacity, measurements within estimates |
| CoordinatorMemory.ReserveKeepsSound | hostagent/coordinator.py:764-782 | an admission under the live bound leaves headroom beside everything still to be allocated |
| CoordinatorMemory.ReportedKeepsSound | hostagent/coordadmission.py:230-264 | the runtime's report of a deferred process settles its estimate without uncovering memory |
| CoordinatorMemory.CommitKeepsSound | hostagent/coordinator.py:954-975 | a deferred commit moves the pending bytes from the reservation to the entry, losing none |
| CoordinatorMemory.SoundKept | hostagent/coordinator.py:469-486 | every clean, physically possible section keeps pending bytes within free memory |
| VictimSelection.SelectVictims | hostagent/coordinator.py:574-608 | the shortest run of eligible entries, idle first then oldest, that satisfies both bounds; empty if and only if no choice of eligible entries would |
| VictimSelection.EvictionMakesRoom | hostagent/coordinator.py:599-608 | with exactly the victims gone and their memory free, the request fits both bounds |
| VictimSelection.TooLargeThoughItFitsExactly | hostagent/coordinator.py:784-802 | with nothing to evict, a request is refused as too large though it fits the empty device if and only if its size is above capacity less headroom, within capacity and device less headroom, and a bound fails; a refusal as busy is always of a request that fits the empty device |
| CoordinatorWitnesses.RefusedSomewhereExactly | hostagent/coordinator.py:784-795 | a request that fits the empty device is refused for good in some run from the start if and only if its size lies in that range |
| CoordinatorWitnesses.ThresholdIsWrongExactly | hostagent/coordinator.py:784-802 | a device has such requests if and only if it keeps headroom, capacity is below its total, and it admits anything |
| CoordinatorWitnesses.RefusedForGood | hostagent/coordinator.py:786-795 | a concrete run from the start: a request admitted by the empty device is refused for good while another load is in flight |
| CoordinatorClass.Coordinator.Stage1 | hostagent/coordinator.py:724-812 | stage 1 in place, each answer by exactly when it is given: shared if and only if resident, joined if and only if loading with a reservation, loaded if and only if absent and both bounds hold, victims if and only if some choice makes room, too large or busy for the rest, busy under a job or barrier; and what each answer does to the tables |
| CoordinatorClass.Coordinator.Stage3 | hostagent/coordinator.py:906-979 | the re-check in place, each outcome by exactly when it is given: busy for a job, try again for a displaced key, and over budget too large if and only if the measured size is above capacity less headroom; kept if and only if none of these; and what commit and rollback do to the tables |
| CoordinatorDecisions.DecisionIsRight | hostagent/coordinator.py:724-812 | the branches of stage 1 give the one answer that is right for the tables, the victims being a least sufficient run of the entries that may go, in the order they should |
| CoordinatorDecisions.VerdictIsRight | hostagent/coordinator.py:906-953 | the branches of the re-check give the one outcome that is right for the tables |
| CoordinatorDecisions.CommitIsRight | hostagent/coordinator.py:954-975 | a commit leaves the entry resident with its measured bytes and one request for each claim, joiner i handed claim i after the loader's |
| CoordinatorDecisions.EntryCounts | hostagent/coordinator.py:464-486 | an entry counts its bytes against the budget, and as pending until they are allocated |
| CoordinatorDecisions.ReservationCounts | hostagent/coordinator.py:464-486 | so does a reservation |
| CoordinatorRefusals.JoinerLeavesForGood | hostagent/coordinator.py:941-953 | in every run a joiner whose wait ends for good met its own deadline, or its load failed, or its load was rolled back at a re-check that found its measured size above capacity less headroom |
| CoordinatorRecency.OldestIsLeastRecentlyUsed | hostagent/coordinator.py:501-535 | in every run, of two entries both idle or both busy the one evicted first is the one whose last use, by creation, grant or release, lies further back |
| CoordinatorClass.Coordinator.Commit | hostagent/coordinator.py:954-975 | granting one claim after another, to the loader and each joiner, is the commit in one step |
| CoordinatorClass.CommitIsGranting | hostagent/coordinator.py:965-975 | the commit's loop of grants equals the closed form of the commit |
| CoordinatorClass.Coordinator.FailLoad | hostagent/coordinator.py:1001-1013 | the failure section in place: own reservation dropped, own entry only |
| CoordinatorClass.Coordinator.Dispose | hostagent/coordinator.py:539-556 | the disposal loop in place: each joiner without a disposition gets it, all are deregistered, custody ends |
| CoordinatorClass.Coordinator.EndWait | hostagent/coordinator.py:816-849 | the joiner leaves with the disposition found, or deregisters everywhere and refuses itself |
| CoordinatorClass.Coordinator.PollDrain | hostagent/coordinator.py:1062-1083 | drained commits to unload; timed out reverts, unless a barrier takes the entry over |
| CoordinatorClass.Coordinator.BeginJob | hostagent/coordinator.py:1151-1163 | the barrier goes up and every resident entry drains, or nothing happens |
| CoordinatorClass.Coordinator.FinishJob | hostagent/coordinator.py:1170-1182 | the job starts only over an empty set; otherwise every draining entry reverts and the barrier falls |
| CoordinatorClass.Coordinator.EndJob | hostagent/coordinator.py:1206-1210 | the end of the job that holds the device frees it, the end of another leaves everything as it was |
| CoordinatorClass.Coordinator.Release | hostagent/coordinator.py:526-535 | one request less, never below none, the claim gone, and the entry the latest used |
| CoordinatorShim.CoordinatorAdmission.AcquireServing | hostagent/coordadmission.py:143-187 | the load claim is given back before the tenant is marked; a refusal leaves coordinator and marks alone and is told in the legacy words |
| CoordinatorShim.CoordinatorAdmission.Release | hostagent/coordadmission.py:189-228 | a release ends the tenant's job, forgets an engine exactly when its process is gone, and otherwise leaves the coordinator alone |
| CoordinatorShim.ReleaseUndoesGrant | hostagent/coordadmission.py:173-184 | releasing the claim just granted restores request count and claims, so residency never holds up eviction |
| Slot.Admission.AcquireSlot | hostagent/admission.py:141-164 | admitted if and only if the tenant holds the slot afterwards; a holder keeps it, a reservation admits only its target, and memory refuses exactly when the reading, or 95 percent of the budget without one, is below the estimate |
| SwapProtocol.GuardedKept | hostagent/admission.py:102-130 | every step of anybody keeps the swap guarded if and only if it is not the late outer end hitting a new swap's reservation |
| SwapProtocol.SlotMovesAsReserved | hostagent/swap.py:60-111 | during a transaction the slot keeps its holder, loses it, or passes from nobody to the very tenant the reservation names |
| SwapProtocol.NoGap | hostagent/swap.py:92-111 | a transaction is never without a reservation: a failed load turns the target's into the victim's in one step |
| SwapProtocol.JobsAreNeverUnloaded | hostagent/swap.py:64-86 | in every run, the slot is not a job's when a swap unloads its victim |
| SwapProtocol.SwapCarriedOut | hostagent/swap.py:60-111 | a swap nothing goes wrong with ends with the target holding the slot and no reservation |
| SwapProtocol.LateEndDropsNewReservation | hostagent/swap.py:106-111 | a concrete run from the empty slot, for any two engines, after which the outer end drops another swap's reservation |
| SwapClass.EngineManager.PreemptFor | hostagent/swap.py:42-111 | the swap in place, each answer by exactly when it is given: refused, not evicted, done and failed, from the holder, the probes and what the two engines meet; refusals touch nothing, the reservation is restored on every path, and a victim that can be brought back holds the slot again |
| ReloadStore.StoredMeansNoReload | hostagent/swap.py:233-277 | once a result is stored for an operation id no later call with that id reaches the engine, in any interleaving, the result is the operation's target, and a call naming another target changes nothing |
| ReloadStore.Store.EnterOp | hostagent/swap.py:251-262 | a mismatch, a replay or an execution, each by exactly when |
| Lifecycle.EngineRuntime.EnsureLoaded | hostagent/lifecycle.py:73-137 | started, already ready or failed, each by exactly when, from the spawn, readiness and kill outcomes and the slot; the slot follows the child, and nobody else's hold changes |
| Lifecycle.EngineRuntime.IdleReap | hostagent/lifecycle.py:206-224 | a dead child is reconciled, wedge cleared and slot freed; an idle one is unloaded |
| Lifecycle.ReadyBeforeExit | hostagent/lifecycle.py:128-137 | the readiness loop succeeds if and only if some poll is ready and no earlier one found the child gone |
| EngineProtocol.TiedKept | hostagent/lifecycle.py:171-197 | every step of every engine, job and swap keeps the tie between child and slot |
| EngineProtocol.SlotFollowsChild | hostagent/lifecycle.py:73-121 | in every run an engine whose lock is free holds the slot exactly when it has a recorded child; at most one engine has one; none while a job holds the slot |
| EngineProtocol.LoadTakesSlot | hostagent/lifecycle.py:73-121 | a load on a free slot with memory enough, spawned and ready, ends with the slot held and the child recorded |
| EngineProtocol.UnloadFrees | hostagent/lifecycle.py:171-197 | one unload frees the slot of a dead child, and of a live one unless it survives its kill |
| Jobs.JobManager.Submit | hostagent/jobs.py:201-286 | submission in place, each reply by exactly when it is given, and what it does: a job started has the job slot, its record and key, the device exactly if it trains on it and the batch flag exactly if it drives an engine on it; store failures are unwound |
| Jobs.ReplyIsRight | hostagent/jobs.py:201-270 | the order of checks gives the one reply that is right for the launcher, the slot and the request |
| Jobs.LaunchIsRight | hostagent/jobs.py:247-300 | and leaves launcher and slot as that reply demands |
| Jobs.AcceptableExactly | hostagent/jobs.py:207-221 | what each kind of job needs, field by field and modality by modality |
| Jobs.JobManager.Worker | hostagent/jobs.py:302-334 | whatever the journal does the slot, lease and batch flag are free at the end, and the durable state is the last one written |
| Jobs.LeaseMatchesSlot | hostagent/jobs.py:225-300 | in every run the lease flag matches the training tenant's hold, an open job slot means no lease and no batch flag, no submission changes anything while a job is live, and one that needs no device never touches the slot |
| Jobs.HeldUntilTerminalWrite | hostagent/jobs.py:317-334 | from the moment its runner was reached a job keeps the job slot, its records and its hold on the device through any events of anybody, until its terminal write is attempted |
| Jobs.KeyHeldForGoodExactly | hostagent/jobs.py:90-98 | a key answers for its job at every later time if and only if the job's last durable state is not terminal |
| Activation.PointerAlwaysExplained | gateway/app/activation.py:158-202 | with crashes and lost answers anywhere the serving pointer is at the previous or the target model; committing, reloading and active imply target, rolled back implies previous |
| Activation.ActiveWasReported | gateway/app/activation.py:204-234 | an operation became active only where the agent had just reported exactly its model and version |
| Activation.ToldKept | gateway/app/activation.py:158-287 | every call keeps that, phases never move backwards, terminal records never change, and each compare-and-set finds the phase it expects |
| Activation.GoodPassesEnd | gateway/app/activation.py:358-385 | as many good passes as there are attempts left, and at least one, end the operation |
| Activation.LastAttemptExactly | gateway/app/activation.py:253-264 | at its last attempt a pass ends the operation if and only if its pointer write works and its reply is not verify-pending |
| Activation.PendingForEver | gateway/app/activation.py:229-233 | any number of verify-pending passes leaves the operation reloading, attempts counted past the limit |
| Activation.PreparedForEver | gateway/app/activation.py:187-196 | any number of refused pointer writes leaves the operation prepared |
| Activation.PassEffect | gateway/app/activation.py:158-180 | the call-by-call machine, uninterrupted, does to record and pointer exactly what one pass is said to do |
| Activation.PassIsRight | gateway/app/activation.py:158-287 | what a pass leaves, by the record's phase and the answers met: active only on the exact target, rolled back or degraded when it cannot be resolved, an attempt counted otherwise and the fifth giving up |
| Activation.ActivationService.Run | gateway/app/activation.py:158-180 | the service's pass ends with the record and pointer of the machine's uninterrupted pass, which are the right ones case by case |
| Activation.ActivationService.Submit | gateway/app/activation.py:87-130 | at most one operation is under way; created only when none is, joined exactly for the same key and target |
| Metering.SettlementExactlyOnce | gateway/app/metering.py:164-213 | in every run each operation is charged at most once; if no append meets a torn tail nothing logged is forgotten before it is finished, and if no settle is overtaken charges equal settled seconds |
| Metering.ChargesWereWritten | gateway/app/metering.py:164-213 | in every run nothing is charged or settled but the seconds of an entry written for that operation, and nothing released but what was swept or had its release written |
| Metering.WholeReplayChargesOnce | gateway/app/metering.py:248-277 | from its start to its compaction, under any interleaving, a replay with no store call unanswered leaves everything owed at its start finished, what it found gone from the log, and each such operation charged exactly once if settled and not at all if released, for seconds written for it; with one settlement written and no release or sweep, for exactly those |
| Metering.WholeReplayFinishes | gateway/app/metering.py:248-277 | that replay finishes every operation it found in the log and leaves none of them there, whatever was lost or overtaken before |
| Metering.LeavesOnlyFinished | gateway/app/metering.py:96-119 | an entry on a line of the log leaves it only after the store finished its operation, whatever is appended meanwhile |
| Metering.CompactionDropsExactly | gateway/app/metering.py:96-119 | compaction drops exactly the entries of finished operations and leaves the file well terminated |
| Metering.RememberedExactly | gateway/app/metering.py:66-76 | a step forgets a durable entry if and only if it appends an unfinished, unlogged operation onto a torn tail |
| Metering.AppendReadableExactly | gateway/app/metering.py:66-93 | an appended entry reads back if and only if the file ended in a newline, or it was there already |
| Metering.ReconciledExactly | platformlib/storeimpl/metering.py:220-256 | a step breaks the agreement of ledger and reservations if and only if it charges a reservation released since its state was read |
| Metering.SweepBetweenReadAndCharge | platformlib/storeimpl/metering.py:232-255 | a concrete run from the start that charges a released reservation |
| Metering.TornTailLosesNextSettlement | gateway/app/metering.py:66-93 | a concrete run from the start, through a crash or a failed write, after which a settlement is owed, unfinished and not in the log |
| Metering.ReplayTwiceChargesOnce | platformlib/storeimpl/metering.py:220-256 | applying an entry twice is applying it once |
| Metering.ReplayedFinishes | gateway/app/metering.py:259-275 | a replay finishes exactly the operations the store answers for, never unfinishes one, and keeps ledger and reservations in agreement |
| Metering.ReplayedCharges | gateway/app/metering.py:259-275 | a replay charges only what the log says, and settles a reserved operation for the seconds logged |
| Metering.Gateway.SettleOp | gateway/app/metering.py:164-200 | settling in place: a reserved operation the store answers for is charged exactly the seconds asked for, once, and settled at them; otherwise the store is unchanged; deferred keeps the entry, and settled, declined and deferred are told apart |
| Metering.Gateway.ReplayOutbox | gateway/app/metering.py:248-277 | the replay loop in place: store effects in log order, charging only the seconds the log says, then exactly the finished operations compacted away |
| EditDistance.TokenDistance | gateway/app/evaluation.py:121-129 | the two-row loop computes the recurrence |
| EditDistance.DistanceIsLeast | gateway/app/evaluation.py:121-129 | the distance is the least cost over all edit scripts turning one list into the other |
| EditDistance.Symmetric | gateway/app/evaluation.py:121-129 | the distance is symmetric |
| EditDistance.Triangle | gateway/app/evaluation.py:121-129 | the distance obeys the triangle inequality |
| EditDistance.ZeroExactlyWhenEqual | gateway/app/evaluation.py:121-129 | the distance is zero if and only if the lists are equal |
| EditDistance.WordErrorRate | gateway/app/evaluation.py:132-143 | total edits over total reference words of the paired transcripts, undefined without reference words |
| EditDistance.NoEditsExactly | gateway/app/evaluation.py:132-143 | no edits if and only if every pair agrees word for word |
| RankSum.Auc | gateway/app/evaluation.py:155-175 | for 0/1 labels the result is exactly the share of pairs the positive wins, ties counting one half; the error without both labels, and an indexing error with too few |
| RankSum.RankSumIdentity | gateway/app/evaluation.py:173-175 | the positives' rank sum less its least value is their wins over the negatives |
| RankSum.AveragedRank | gateway/app/evaluation.py:163-172 | the averaged rank of a group of ties is fixed by how many scores it beats and ties with |
| RankSum.Ranks | gateway/app/evaluation.py:161-172 | the loop gives every score that rank |
| RankSum.AreaMirrors | gateway/app/evaluation.py:155-175 | the area lies between 0 and 1, and exchanging the classes mirrors it |
| Framing.RoundTrip | hostagent/main.py:1188-1216 | for every message whose chunk lines are at most 64 bytes, sizes in digits and letters of either case with any zeros in front, padded or not, any extensions, trailers or not, the body is the payload, or refused over the limit; reading stops at the end of the message if and only if the last size line fits too and there is no trailer |
| Framing.SpellsExactly | hostagent/main.py:1206-1208 | a hexadecimal string has a value if and only if it is that number's digits by name, letters in either case, behind any number of zeros |
| Framing.ChunkReadExactly | hostagent/main.py:1196-1216 | a chunk comes out with its own bytes and reading goes on at its own end if and only if its size line is at most 64 bytes |
| Framing.LineWholeExactly | hostagent/main.py:1196 | a chunk's size line is consumed whole if and only if it is at most 64 bytes |
| Framing.ReadAsSentExactly | hostagent/main.py:1196-1216 | a message of any chunks, extensions and trailers is read chunk by chunk as sent, to its end, if and only if every size line fits and there is no trailer |
| Framing.LongExtensionMisread | hostagent/main.py:1196-1216 | a message with a payload of one byte and an extension of 63 comes back as a carriage return, and reading stops before its end |
| Framing.TrailerLeftUnread | hostagent/main.py:1209-1211 | a message with a trailer of which 3 bytes are left unread |
| Framing.EveryBodyArrives | hostagent/main.py:1188-1216 | any body within the limit, sent in pieces of any size with plain size lines, comes back as it was, the whole message read |
| Framing.ReadChunked | hostagent/main.py:1188-1216 | on every stream the reader never buffers more than the limit |
| Framing.CompleteExactly | hostagent/main.py:1196-1216 | on every stream: a body comes back at a size line that spells zero if and only if the stream holds a whole, terminated message within the limit, and at a size line without a token if and only if that line is blank, only an extension, or past the end |
| Framing.RefusedExactlyWhen | hostagent/main.py:1206-1214 | on every stream: malformed if and only if, within the limit, a size line holds a byte that is no hexadecimal digit, and too large if and only if the sizes pass the limit |
| Framing.StripExactly | hostagent/main.py:1196-1197 | stripping takes every blank off both ends and nothing else |
| Framing.TokenEmptyExactly | hostagent/main.py:1196-1208 | the token of a line is empty if and only if the line is blank or starts its first non-blank with a semicolon |
| Framing.TruncationPassesForTheEnd | hostagent/main.py:1206-1216 | a stream ending inside a chunk yields what arrived as the body |
| Framing.BlankLineEndsBody | hostagent/main.py:1196-1211 | an empty line where a size is due ends the body, whatever follows |
| Framing.DigitCountIsExact | hostagent/main.py:1266-1279 | counting digits agrees with the exact decimal value about the limit and about zero, for digit strings of every length |
| Framing.ReadBody | hostagent/main.py:1266-1294 | no body exceeds the limit; a declaration is refused exactly when two differ or it is empty or not all digits, and one that is too large or malformed costs no byte of reading |

## Left out

- Floating point: bytes, GPU-seconds and sizes are natural numbers, scores exact reals, ranks doubled integers.
- CoordinatorRuns.EveryCleanRun: assumes clean surroundings, which are enough but not claimed to be needed; what conservation of claims needs exactly is CoordinatorRuns.ConservationEndsExactly.
- CoordinatorRuns.SelfCheckNeverFails: the orphan check is stated per joiner record, which implies the coordinator's check per operation id.
- CoordinatorShim.CoordinatorAdmission.AcquireServing: whether the tenant's job is ending is a parameter, and the check of the marks and the marking are one step.
- CoordinatorShim.CoordinatorAdmission.Release: whether the runtime's child is gone is a parameter, and taking the mark and acting on it are one step.
- CoordinatorRuns.DeviceNeverOvercommitted: assumes the physical surroundings named above; a failed device reading is not modelled.
- Lifecycle.EngineRuntime.EnsureLoaded: one thread; interleavings are the business of EngineProtocol, where each access to the slot is a step.
- SwapClass.EngineManager.PreemptFor: one thread; interleavings are the business of SwapProtocol.
- Metering.Gateway.ReplayOutbox: one thread; interleavings, crashes and lost answers are the business of the machine in the same module.
- RankSum.Auc: labels other than 0 and 1 are accepted, as evaluation.py accepts them, but the result is then not claimed to be an area.
- Deadlines, backoff and attempt limits of admission: an operation may give up or time out at any moment.
- Waiting for a transient entry: the operation simply tries stage 1 again.
- Wall-clock recency, decision log, snapshots, metrics, logging and explanation texts: no decision reads them.
- Child objects: a process is represented by the bytes it may still take and the bytes it holds.
- The order in which the resident and reservation tables are walked: any order.
- The admission shim's swap reservations, which do nothing, and its job admission as one call: its sections are the coordinator's own.
- A hard cut that outlives the request it cuts: the runtime lock is then free while the slot is still being given back.
- The same-tenant model switch of the serving language model, which holds no reservation.
- The reload's own engine work behind the keyed store, and the untracked activation used when the store is down.
- The store's quota windows and budgets; a reservation is only reserved, settled or released.
- Body reading with a header the agent's HTTP library rejects first, and sockets altogether.
- Routing, handlers, console, seeding, capture pruning, paging, policies, scheduling and promotion verdicts: easier members that would add little.
