# A verified model of the collaboration store, its harness, the Tura adapter and the native capsules

This project models the part of `codex_collaboration_harness` that has to stay right while many
callers act at once, and proves what it promises.

* **The store** (`core.py`, `InMemoryStore`). `StoreSpec` gives the state as six ledgers (missions,
  claims, work, steps, recovery, callbacks) and one transition per public method, guard by guard in
  source order, with the raised code and message of every rejection. `InMemoryStore` is the class with
  the program's own fields; each of its methods updates them step by step and is proved to carry out
  its transition. `StoreInvariant` states how the ledgers bind each other, and `StoreSafety` proves that
  every call keeps all of it, so it holds after every run: any calls, by any callers, in any order.
  The theorems speak of the states `h[i]` of a history, so that they can relate any two moments.
  The `…Laws` modules say of every method, on the fields of its arguments and the store's maps, exactly
  when each answer is given and what is written, and draw the laws of whole runs from that: no method's
  meaning rests on the transition that defines it.
* **The harness** (`core.py`, `CollaborationHarness`). `Harness` is a machine of any number of callers.
  The store's methods are its atomic steps; between them, while an executor or a transport runs,
  anything else may happen. `execute` is split into begin, block and outcome, `continue_existing` into
  check, resume, submission, turn and mark, and an interruption may end a caller anywhere between its
  store calls. Every play of the machine is a run of the store, so the
  store's theorems hold of it; the theorems that need the harness are proved on top. The class
  `CollaborationHarness` is the same code for one undisturbed caller.
* **The Tura adapter** (`adapters/tura.py`): request builder, terminal wire decoder, and the mapping of
  whatever a client returns onto an executor's end, composed with the harness.
* **The capsules** (`native_tura.py`): packet and profile codecs, file names, the loader, and publishers
  racing file operation by file operation; the class `TaskDirectory` carries out a lone publication and
  a load.
* **The skill replacement** (`native_tura.py`): staging, two renames, verification and rollback, where
  any file operation may fail, with the history of every state the disk was in.

Content addresses are taken to be collision-free: an id is the payload it is computed from (`Of`), or a
text that is the digest of nothing (`Raw`), so `verify_identity` is a structural comparison. The texts
of ids, where they stand on a wire or in a file name, are parameters. The executor, the transport,
clocks and the file system are inputs: their answers and failures are arbitrary.

## What the proofs found

Each of these has its exact condition, and a concrete case in which it happens.

* **An executor's end can be lost for good.** `execute` records a structured failure under origin
  EXECUTOR whatever the signal's own origin, so a signal of the packet's own whose code only the harness
  may use is refused inside the handler; `record_execution` refuses a result, before recording the
  attempt, while a step effect of the packet is unsettled; and an interruption (a `BaseException` such as
  a cancelled task) passes every handler. In these three cases and no other nothing is recorded
  (`HarnessTheorems.OutcomeIsRecordedIff`), and the packet then holds its lease for ever as far as the
  harness's own methods go (`HarnessTheorems.OrphansNeverClose`, `HarnessTheorems.HarnessClosesIff`,
  `HarnessWitnesses.OrphansHappen`).
* **An interrupted turn is never settled.** A started delivery has nobody to record its end exactly when
  its caller was interrupted, and it then stays started through everything callers of the harness can do
  (`HarnessTheorems.StartedDeliveriesAreAttendedIff`, `HarnessTheorems.UnattendedStays`,
  `HarnessWitnesses.UnattendedHappens`).
* **A lease can be stranded.** With an unsettled step, a newer mission revision or a disposition of the
  route makes every later reconciliation of the step fail. A leased packet can still reach its receipt
  exactly when it has no unsettled step, or its revision is the registered one and its route has no
  disposition (`Stranding.LeasesCloseIffClosable`, `Witnesses.StrandingHappens`).
* **`acknowledge_after_convergence` does not compare its receipt with the stored one.** The bijection of
  acknowledgements, acknowledged continuations and packets survives exactly as long as every accepted
  call presents a receipt of its own packet (`Delivery.AcknowledgementsExactIff`,
  `Witnesses.ForeignAcknowledgementHappens`); the harness always does
  (`HarnessTheorems.HarnessAcknowledgesOneToOne`).
* **Two kinds of envelope object escape the adapter's `execute`.** An envelope built by the client itself
  passes the envelope's checks with white space for a result's effect id, and then fails in
  `ExecutionResult`, or with white space for a failure's detail digest, and then fails in
  `ExecutorFailureSignal`. No other reply does, and no JSON payload at all (`TuraAdapter.ExecuteEscapesIff`,
  `TuraAdapter.WireNeverEscapes`). The harness then records an executor error without effect in place of
  the code, detail and effect reported (`TuraAdapter.AdapterOutcomeIsKept`,
  `HarnessWitnesses.BlankReportsAreLost`).
* **A revision of more than twenty digits makes its directory unreadable**, and exactly such a revision
  does (`CapsuleFiles.FileNameRoundTrips`, `CapsuleSequence.SequencesLoadTheGreatest`,
  `CapsuleWitnesses.UnreadableDirectoryHappens`). So does a temporary file left by a publisher that
  stopped, until somebody removes it (`CapsuleRaces.LoadsUnderRaces`).
* **A profile's wire form is not unique**: `thinking` may be null where the default effort is meant, so
  exactly the profiles of the default effort have two wire forms (`PacketCodec.DecodesProfileIff`,
  `PacketCodec.DefaultEffortsHaveTwoForms`, `PacketCodec.SomeDefaultEffort`).

## Model

| member | source | states |
|---|---|---|
| `StoreSafety.ReachableKeepsInv` | src/codex_collaboration_harness/core.py:1357-2687 | The joint invariant of all six ledgers holds after any calls by any callers in any order from the empty store. |
| `Histories.HistoryIsRun` | src/codex_collaboration_harness/core.py:169-177 | Each public method being one atomic step, the states of any history are the states its calls lead to one after the other. |
| `LedgerLaws.HeldIffOpen` | src/codex_collaboration_harness/core.py:1641-1656 | In every state of a run the lease check passes exactly for a claimed packet under its own lease that has no receipt yet. |
| `LedgerLaws.UnsettledIffOpen` | src/codex_collaboration_harness/core.py:1966-1979 | In every state of a run a packet has an unsettled step exactly when one of its steps was recorded unsettled and never reconciled. |
| `LedgerLaws.ScanIsExact` | src/codex_collaboration_harness/core.py:1512-1540 | `first_false` of a registered mission is in doubt, naming the first doubtful predicate, exactly when one is; else it is the first false predicate by readback or declaration, or none exactly when all hold. |
| `RouteLaws.PacketAcceptedIff` | src/codex_collaboration_harness/core.py:1542-1599 | A packet is accepted if and only if it is authentic, its mission is registered at its revision with its mode and destination, its predicate is the first false one, its route is undisposed and equals its own key, executor, scope, delta, abandon clause and budget; tampering and doubt have their own codes. |
| `RouteLaws.ClaimAnsweredIff` | src/codex_collaboration_harness/core.py:1601-1639 | Which of granted, lease conflict, version mismatch and duplicate a claim gets, each if and only if, on the active scopes and current versions. |
| `RouteLaws.ClaimGrants` | src/codex_collaboration_harness/core.py:1617-1639 | A granted lease carries the packet and its scope one version on; exactly the items of the scope move by one version. |
| `RouteLaws.RevisionIsOneMission` | src/codex_collaboration_harness/core.py:1394-1408 | Over a whole run one revision of a mission is one mission. |
| `RouteLaws.ClaimedPacketsAreRegistered` | src/codex_collaboration_harness/core.py:1542-1639 | Every claimed packet carries destination, mode and a route of its mission as registered at its revision, whenever one looks. |
| `RouteLaws.CallbacksGoToTheMission` | src/codex_collaboration_harness/core.py:2312-2336 | Every continuation is addressed to the destination registered with its packet's mission. |
| `EffectLaws.FailureAnsweredIff` | src/codex_collaboration_harness/core.py:2056-2083 | A failure is recorded if and only if its packet runs, has none yet, and text and code suit; each refusal has its own condition. |
| `EffectLaws.FailureIsAdded` | src/codex_collaboration_harness/core.py:2084-2101 | A recorded failure has the values reported; its observed effect is then owned, by its packet if and only if no other packet owned it; nothing else changes owner. |
| `EffectLaws.BlockAnsweredIff` | src/codex_collaboration_harness/core.py:2025-2054 | A packet is blocked if and only if it is claimed, unstarted and without open step; the receipt is spelt out field by field. |
| `EffectLaws.ResultRefused` | src/codex_collaboration_harness/core.py:2166-2184 | A result of a packet that is not running, has an open step or has a result changes nothing, under its own code. |
| `EffectLaws.ResultBecomesFailure` | src/codex_collaboration_harness/core.py:2185-2216 | A result that names another executor, packet or lease, or an effect somebody owns, becomes a failure of the running packet that observed the effect claimed. |
| `EffectLaws.ResultIsAdded` | src/codex_collaboration_harness/core.py:2217-2242 | The packet's own result with a new effect is recorded as it is and takes the effect; settled it is the receipt, spelt out field by field. |
| `EffectLaws.FailureSettledIff` | src/codex_collaboration_harness/core.py:2106-2164 | When a failure reconciliation is accepted, what its receipt says, and which effect is then owned or freed. |
| `EffectLaws.EffectSettledIff` | src/codex_collaboration_harness/core.py:2244-2288 | When an effect reconciliation is accepted and what its receipt says. |
| `EffectLaws.EffectsAreReserved` | src/codex_collaboration_harness/core.py:2056-2288 | An owned effect stays its owner's until the owner has a receipt; no receipt whatever carries it in that time. |
| `EffectLaws.ObservedEffectIsReserved` | src/codex_collaboration_harness/core.py:2084-2101 | An effect that was free when a failure observing it came on record is that packet's at every later moment until its receipt, so nobody else settles it. |
| `DeliveryLaws.PrepareAnsweredIff` | src/codex_collaboration_harness/core.py:2294-2336 | When a receipt prepares a continuation, gets its prepared one back, or is refused, each if and only if. |
| `DeliveryLaws.FirstPreparation` | src/codex_collaboration_harness/core.py:2312-2336 | A first continuation names the receipt, its packet's destination and the ids derived from both. |
| `DeliveryLaws.PreparedAnsweredIff` | src/codex_collaboration_harness/core.py:2345-2367 | The check before a delivery, field by field. |
| `DeliveryLaws.ResumeAnsweredIff` | src/codex_collaboration_harness/core.py:2369-2388 | The check of a resume proof, field by field, with the code of each refusal. |
| `DeliveryLaws.DeliveryAnsweredIff` | src/codex_collaboration_harness/core.py:2390-2407 | When a delivery starts, and that nothing but its state moves. |
| `DeliveryLaws.MarkAnsweredIff` | src/codex_collaboration_harness/core.py:2409-2425 | When a delivery is marked unsettled, and that nothing but its state moves. |
| `DeliveryLaws.AcknowledgementAnsweredIff` | src/codex_collaboration_harness/core.py:2427-2482 | A delivery is acknowledged if and only if the turn proof is authentic, completed and names its continuation, receipt, destination and turn; the acknowledgement is spelt out. |
| `DeliveryLaws.ConvergenceStartsFromStarted` | src/codex_collaboration_harness/core.py:2485-2497 | The public method acknowledges started deliveries only. |
| `DeliveryLaws.AbsenceAcceptedIff` | src/codex_collaboration_harness/core.py:2499-2535 | An unsettled delivery goes back to PREPARED if and only if the proof is an authentic absence proof, named by the reconciliation, of this very continuation, receipt, destination and turn. |
| `DeliveryLaws.ConvergenceAcceptedIff` | src/codex_collaboration_harness/core.py:2536-2554 | It is acknowledged if and only if the proof is an authentic one, named by the reconciliation, that this very turn completed. |
| `DeliveryLaws.UnboundReconciliation` | src/codex_collaboration_harness/core.py:2499-2515 | A reconciliation of anything but a stored unsettled continuation with its own receipt and turn changes nothing. |
| `DeliveryLaws.ReplayAnsweredIff` | src/codex_collaboration_harness/core.py:2655-2674 | When a continuation replays, and the code of each refusal. |
| `VerdictLaws.RegistrationAnsweredIff` | src/codex_collaboration_harness/core.py:1394-1408 | A mission registers if and only if it is new, newer or the one registered. |
| `VerdictLaws.ReadbackAcceptedIff` | src/codex_collaboration_harness/core.py:2556-2602 | A readback is accepted if and only if acknowledgement and readback are authentic, the mission read is the acknowledged packet's at its registered revision, all predicates are listed in order and no other readback at or past its sequence is stored. |
| `VerdictLaws.VerdictIsTheReadbacks` | src/codex_collaboration_harness/core.py:2603-2647 | A verification's verdict on the acknowledged packet's predicate is the readback's, its mission, revision, sequence, state and evidence are the readback's, and its next action is what the readback leaves to do. |
| `VerdictLaws.VerdictIsStored` | src/codex_collaboration_harness/core.py:2648-2653 | Readback and verification are then on record and nothing else has changed. |
| `StepLaws.ClaimStandsIff` | src/codex_collaboration_harness/core.py:1641-1656 | A claim stands exactly while its packet is acceptable, claimed under that lease and without receipt. |
| `StepLaws.StartAnsweredIff` | src/codex_collaboration_harness/core.py:1658-1669 | A packet starts if and only if its claim stands and it has not started. |
| `StepLaws.StepAnsweredIff` | src/codex_collaboration_harness/core.py:1671-1752 | When a step is recorded, field by field, with what an admitted recovery step needs, and what it appends. |
| `StepLaws.StepReconciledIff` | src/codex_collaboration_harness/core.py:1760-1798 | When a step's effect is reconciled, field by field. |
| `StepLaws.BlockerAnsweredIff` | src/codex_collaboration_harness/core.py:1800-1853 | When a blocker is recorded: it names the claim and reports its step's effect as it now is. |
| `StepLaws.DispositionAnsweredIff` | src/codex_collaboration_harness/core.py:1409-1448 | When a disposition is recorded, field by field. |
| `StepLaws.SupersessionAnsweredIff` | src/codex_collaboration_harness/core.py:1456-1506 | When a supersession is recorded, field by field. |
| `RecoveryLaws.SubmissionAnsweredIff` | src/codex_collaboration_harness/core.py:1856-1888 | When a proposal gets an answer at all: it answers the stored blocker of a standing claim and is untampered. |
| `RecoveryLaws.DecisionIsExact` | src/codex_collaboration_harness/core.py:1890-1955 | Each of the twelve reasons is given if and only if its objection holds, in order; ADMITTED exactly without any, DUPLICATE exactly for a fingerprint admitted before. |
| `RecoveryLaws.DecisionIsRecorded` | src/codex_collaboration_harness/core.py:1930-1964 | What a decision writes: only an admission takes fingerprint and budget. |
| `StoreTheorems.EffectSettlesOnce` | src/codex_collaboration_harness/core.py:2057-2288 | Two receipts carrying the same effect are the same receipt, and its packet owns the effect, on every settlement path. |
| `StoreTheorems.ActiveLeasesFence` | src/codex_collaboration_harness/core.py:1601-1639 | At every moment active leases have disjoint scopes and each holds the current version of every item of its scope. |
| `StoreTheorems.NoVersionGrantedTwice` | src/codex_collaboration_harness/core.py:1617-1639 | Over a whole run no version of a scope item is granted to two packets, however far apart in time. |
| `StoreTheorems.ClaimedIsLeasedOrTerminal` | src/codex_collaboration_harness/core.py:1981-2023 | A claimed packet stays claimed, holds its lease or its receipt but never both or neither, keeps its receipt for ever, and the receipt is BLOCKED exactly when it was never started. |
| `StoreTheorems.OneReceiptPerPacket` | src/codex_collaboration_harness/core.py:1996-2023 | Two receipts of one packet are the same receipt. |
| `StoreTheorems.TerminalPacketsAreSettled` | src/codex_collaboration_harness/core.py:1966-1979 | No step of a packet with a receipt has an unsettled effective state. |
| `StoreTheorems.TerminalCallsAreWhole` | src/codex_collaboration_harness/core.py:1981-2288 | A terminal call either records one whole receipt and releases exactly its lease, or leaves receipts, leases and versions alone; a refused block or reconciliation changes nothing. |
| `RecoveryTheorems.BudgetIsConserved` | src/codex_collaboration_harness/core.py:1930-1964 | Consumed recovery budget is the sum of the budgets of the packet's ADMITTED proposals and never exceeds the packet's own. |
| `RecoveryTheorems.FingerprintAdmittedOnce` | src/codex_collaboration_harness/core.py:1935-1955 | Over a whole run a recovery fingerprint is admitted for one proposal only. |
| `RecoveryTheorems.ResubmissionIsFree` | src/codex_collaboration_harness/core.py:1886-1888 | A proposal submitted again at any later time gets its first admission back and changes nothing. |
| `RecoveryTheorems.AdmissionIsExact` | src/codex_collaboration_harness/core.py:1890-1964 | A first submission is DUPLICATE, ADMITTED or ESCALATED exactly under the stated conditions, and only ADMITTED takes fingerprint and budget. |
| `RecoveryTheorems.RecoveryStepsAreAForest` | src/codex_collaboration_harness/core.py:1692-1751 | Following recovery parents goes strictly back in the packet's own ledger and ends at a step that is no recovery. |
| `RecoveryTheorems.RecoveryStepsStayInside` | src/codex_collaboration_harness/core.py:1699-1733 | Every recovery step carries out an ADMITTED action of its packet and lease, inside the packet's scope, read-only or reversible-local. |
| `Delivery.NoBlindRedelivery` | src/codex_collaboration_harness/core.py:2390-2554 | For each continuation of a run, delivery starts equal the authentic proofs presented that this very turn of it, for its receipt at its destination, was not delivered, plus one while it is not PREPARED. |
| `Delivery.ContinuationsKeepIdentity` | src/codex_collaboration_harness/core.py:2312-2336 | Id, receipt, destination and turn request of a continuation never change, and an acknowledged one never changes at all. |
| `Delivery.AcknowledgementsExactIff` | src/codex_collaboration_harness/core.py:2427-2497 | Up to any moment of a run: acknowledgements, acknowledged continuations and acknowledged packets are in bijection, record by record, if and only if every acknowledgement accepted so far presented a receipt of its own packet. |
| `Delivery.CorrespondenceIff` | src/codex_collaboration_harness/core.py:2427-2482 | The invariant the store keeps index by index and the bijection spelt out are the same. |
| `Witnesses.ForeignAcknowledgementHappens` | src/codex_collaboration_harness/core.py:2427-2482 | A concrete run whose last call acknowledges with a receipt rebuilt under another packet id: accepted, and the bijection is gone. |
| `Delivery.PreparedIsPrepared` | src/codex_collaboration_harness/core.py:2294-2367 | In every store the invariant holds in, the check before a delivery accepts exactly the continuation that preparing its receipt again would return. |
| `Delivery.ResumedCanBegin` | src/codex_collaboration_harness/core.py:2369-2407 | Once a resume is accepted its delivery can begin, with the stored receipt and no other. |
| `Delivery.ReplayNamesItsPacket` | src/codex_collaboration_harness/core.py:2655-2674 | While acknowledgements correspond exactly the current acknowledged continuations replay, each for the packet whose acknowledgement names it. |
| `LedgerSafety.AckKeepsAcksIffReceiptNamesPacket` | src/codex_collaboration_harness/core.py:2427-2482 | One acknowledgement keeps the correspondence exactly when its receipt names the packet of the stored receipt. |
| `MissionTruth.FirstFalseMovesOnlyAtParentCalls` | src/codex_collaboration_harness/core.py:1512-1540 | The `first_false` answer for a mission changes only at an accepted registration or verification of that mission. |
| `MissionTruth.TruthIsTheParents` | src/codex_collaboration_harness/core.py:2556-2653 | Missions and snapshots after a run are what replaying its accepted registrations and readbacks gives. |
| `MissionTruth.SnapshotsAreMonotone` | src/codex_collaboration_harness/core.py:2587-2602 | Per mission revision the snapshot sequence never decreases, and one sequence number means one snapshot, at any two moments of a run. |
| `TruthSafety.AcceptedReadbackIsStored` | src/codex_collaboration_harness/core.py:2648-2653 | Whenever `verify_mission` returns, also where it skips the write, the stored snapshot is the readback just accepted. |
| `MissionTruth.VerificationAgreesWithFirstFalse` | src/codex_collaboration_harness/core.py:2603-2653 | After a verification `first_false` raises, returns None or returns predicate k exactly when the verification says recheck, complete or route selection with key k. |
| `MissionTruth.ScansNeverEscape` | src/codex_collaboration_harness/core.py:1512-1599 | In reachable states the truth scan, the packet check and continuation preparation never end in an unforeseen error. |
| `MissionTruth.AcknowledgedCallsNeverEscape` | src/codex_collaboration_harness/core.py:2556-2674 | Nor do verification and replay while acknowledgements correspond. |
| `WorkerTheorems.RunMirrors` | src/codex_collaboration_harness/core.py:2167-2242 | Two runs whose results differ in any flags, result by result, stay mirror images call by call; only the recorded result of a packet counts. |
| `WorkerTheorems.OtherRunExists` | src/codex_collaboration_harness/core.py:793-820 | Whatever flags the workers choose, there is such a second run. |
| `WorkerTheorems.WorkersCannotMoveTruth` | src/codex_collaboration_harness/core.py:2231-2242 | Hence mission truth, dispositions, claims, every `first_false`, packet check, plan and verification are the same in both runs at every moment, but for the acknowledgement's name. |
| `WorkerTheorems.FlippedTwiceIsTheRun` | src/codex_collaboration_harness/core.py:793-820 | The inversion of claims is its own inverse on every call. |
| `EvidenceTheorems.BlockersNameTheirSteps` | src/codex_collaboration_harness/core.py:1800-1853 | Every blocker of every run names a persisted step of its own packet with exactly that step's effect, in a state the effect has or had, or claims no effect at all. |
| `EvidenceTheorems.DisposedRoutesStayClosed` | src/codex_collaboration_harness/core.py:1409-1448 | A disposition is final: never replaced, no packet of its route accepted again, no plan at its revision takes the route. |
| `EvidenceTheorems.SupersessionsBindOldEvidence` | src/codex_collaboration_harness/core.py:1456-1506 | Every recorded supersession binds an authentic acknowledgement of a strictly older revision to that acknowledgement's own receipt. |
| `Planning.PlanTakesLeastRoute` | src/codex_collaboration_harness/core.py:2720-2742 | A plan targets the first false predicate through its least undisposed route by rank and route id. |
| `Planning.FreshPlansAreNeverStale` | src/codex_collaboration_harness/core.py:2712-2756 | Claimed at once, a plan is accepted exactly when no active lease overlaps its scope and is otherwise a lease conflict, never a duplicate or a version mismatch. |
| `Planning.PlansAreTotal` | src/codex_collaboration_harness/core.py:2712-2740 | Planning never escapes, and refuses for want of a route exactly when all routes of the first false predicate are disposed. |
| `Planning.ClaimedVersionsArePast` | src/codex_collaboration_harness/core.py:1617-1627 | The versions of every claimed packet lie strictly below the current ones. |
| `PlanLaws.PlanAnsweredIff` | src/codex_collaboration_harness/core.py:2712-2756 | A plan asks for the first false predicate by the usable route of least rank and id, repeats mission and route field by field and lists its scope at current versions; each refusal has its own condition. |
| `Records.TextLessIsStrictOrder` | src/codex_collaboration_harness/core.py:2729-2738 | The order of route ids is a strict total order, so the least route is unique. |
| `Closing.SettleStepLowers` | src/codex_collaboration_harness/core.py:1760-1798 | While the packet validates, settling an open step is accepted and lowers the number of open steps by one. |
| `Closing.ClosingPath` | src/codex_collaboration_harness/core.py:1754-2288 | Some sequence of at most the open steps plus two calls gives the packet its receipt. |
| `Stranding.ClosingIsShort` | src/codex_collaboration_harness/core.py:1754-2288 | The same from every reachable state; with no open step two calls suffice even after mission drift. |
| `Stranding.LeasesCloseIffClosable` | src/codex_collaboration_harness/core.py:1754-1798 | A leased packet can reach its receipt if and only if it has no open step, or its revision is registered and its route undisposed; then within its open steps plus three calls. |
| `Stranding.StrandedForEver` | src/codex_collaboration_harness/core.py:1760-1798 | A packet that is not closable holds its lease through every later run. |
| `Witnesses.StrandingHappens` | src/codex_collaboration_harness/core.py:1671-1798 | A concrete run that strands: a step left open when the next revision is registered. |
| `Cycle.CycleCompletes` | src/codex_collaboration_harness/core.py:2921-2993 | From any reachable state, given a plan, a free scope, a settled new effect, a resumed and completed turn and a new readback, every call and check of the cycle passes and it leaves exactly the promised records. |
| `Harness.PlayIsARun` | src/codex_collaboration_harness/core.py:2706-2993 | Whatever any number of callers do, the store has seen one run of its own calls. |
| `HostSafety.PlayKeepsHost` | src/codex_collaboration_harness/core.py:2800-2955 | The invariant of store and callers in flight holds after every interleaving of their steps. |
| `HarnessTheorems.ExecutorRunsAtMostOnce` | src/codex_collaboration_harness/core.py:2811-2819 | A packet's executor runs at most once, exactly when the packet was started; a receipt is BLOCKED exactly when it never ran. |
| `HarnessTheorems.AttemptOrFailure` | src/codex_collaboration_harness/core.py:2818-2903 | No packet has both a result and a failure on record. |
| `HarnessLaws.ExecutionBegins` | src/codex_collaboration_harness/core.py:2800-2817 | The executor runs if and only if it is the packet's and the packet starts; only a stale identity goes on to block. |
| `HarnessLaws.WrongExecutorBlocks` | src/codex_collaboration_harness/core.py:2803-2809 | Another executor blocks the packet, if it still can be, and never runs. |
| `HarnessLaws.HarnessBlocksForStaleness` | src/codex_collaboration_harness/core.py:2803-2817 | Through the harness every BLOCKED receipt carries STALE_IDENTITY. |
| `HarnessLaws.CheckAdvances` | src/codex_collaboration_harness/core.py:2936-2936 | A delivery goes on from its check exactly for the current prepared continuation of the stored receipt. |
| `HarnessLaws.ResumeAdvances` | src/codex_collaboration_harness/core.py:2937-2938 | And from its resume exactly on a non-blank proof of this continuation and destination. |
| `HarnessLaws.SubmissionAdvances` | src/codex_collaboration_harness/core.py:2939-2939 | And starts exactly if nobody has moved it in the meantime. |
| `HarnessLaws.EndIsRecorded` | src/codex_collaboration_harness/core.py:2818-2903 | What every way an executor can end leaves on record: code, detail, observed effect and origin, or the result and its effect, or nothing. |
| `HarnessLaws.ObservedEffectIsHeldIff` | src/codex_collaboration_harness/core.py:2084-2101 | A failed packet holds the effect it observed if and only if nobody else held it when the failure came on record. |
| `HarnessLaws.EffectsAreExact` | src/codex_collaboration_harness/core.py:2818-2919 | What a packet holds at any moment of any play, exactly: its receipt's effect, else its result's, else the observed one if it was free then, else nothing. |
| `HarnessTheorems.HarnessAcknowledgesOneToOne` | src/codex_collaboration_harness/core.py:2927-2963 | Through the harness acknowledgements are in bijection with acknowledged continuations and packets, unconditionally. |
| `HarnessTheorems.TurnsAlwaysLand` | src/codex_collaboration_harness/core.py:2937-2955 | A started turn ends acknowledged, or its caller marks it unsettled and the mark cannot fail, or the caller is interrupted and the store stays as it is. |
| `HarnessTheorems.StartedDeliveriesAreAttendedIff` | src/codex_collaboration_harness/core.py:2936-2955 | At any moment a started delivery has no caller to record its end if and only if its caller was interrupted before. |
| `HarnessTheorems.UnattendedStays` | src/codex_collaboration_harness/core.py:2936-2963 | Such a delivery stays started and unattended through every step of every caller. |
| `HarnessWitnesses.UnattendedHappens` | src/codex_collaboration_harness/core.py:2936-2955 | A concrete play that leaves one. |
| `HarnessTheorems.OutcomeIsRecordedIff` | src/codex_collaboration_harness/core.py:2818-2903 | The end of an execution is recorded if and only if it is none of these: a result while a step of the packet is open, a signal of the packet's own with a code reserved to the harness, an interruption. |
| `HarnessTheorems.UnrecordedOutcomeOrphans` | src/codex_collaboration_harness/core.py:2818-2903 | An end orphans its packet exactly when it is not recordable. |
| `HarnessWitnesses.OrphansHappen` | src/codex_collaboration_harness/core.py:2818-2903 | Concrete plays in which each of the three unrecorded ends leaves an orphan. |
| `HarnessTheorems.OrphansNeverClose` | src/codex_collaboration_harness/core.py:2800-2955 | An orphaned packet keeps its lease through everything callers of the harness can do. |
| `HarnessTheorems.HarnessClosesIff` | src/codex_collaboration_harness/core.py:2905-2919 | After the executor's end a leased packet can reach its receipt through the harness if and only if the outcome was recorded and the packet is closable. |
| `InMemoryStore.InMemoryStore.constructor` | src/codex_collaboration_harness/core.py:1360-1392 | The fields start as the empty store, which satisfies the invariant. |
| `InMemoryStore.InMemoryStore.RegisterMissionRecord` | src/codex_collaboration_harness/core.py:1394-1408 | Registers a new or newer mission, accepts a repetition, refuses anything else; carries out the transition and keeps the invariant. |
| `InMemoryStore.InMemoryStore.DisposeRoute` | src/codex_collaboration_harness/core.py:1409-1448 | Records one disposition per current route. |
| `InMemoryStore.InMemoryStore.SupersedeMission` | src/codex_collaboration_harness/core.py:1456-1506 | Classifies old evidence only if it binds an acknowledgement, its receipt and the current revision. |
| `InMemoryStore.InMemoryStore.FirstFalsePredicate` | src/codex_collaboration_harness/core.py:1512-1540 | The scan finds the first indeterminate, else the first unsatisfied predicate, for lists of any length. |
| `InMemoryStore.InMemoryStore.CheckPacket` | src/codex_collaboration_harness/core.py:1542-1599 | Accepts exactly the packets that carry their registered mission, its destination and an undisposed route of its first false predicate, field by field. |
| `InMemoryStore.InMemoryStore.ClaimPacket` | src/codex_collaboration_harness/core.py:1601-1639 | Grants the next version of every scope item by overlap check, version check and update, exactly to acceptable unclaimed packets with a free scope at current versions. |
| `InMemoryStore.InMemoryStore.CheckClaim` | src/codex_collaboration_harness/core.py:1641-1656 | The current mission and the exact active lease are both required. |
| `InMemoryStore.InMemoryStore.BeginPacket` | src/codex_collaboration_harness/core.py:1658-1669 | Starts a packet at most once. |
| `InMemoryStore.InMemoryStore.RecordStep` | src/codex_collaboration_harness/core.py:1671-1752 | Appends a step to its packet's ledger with its effect, or refuses it and changes nothing. |
| `InMemoryStore.InMemoryStore.CheckAdmitted` | src/codex_collaboration_harness/core.py:1699-1733 | A recovery step needs an admitted action with its operation and effect class. |
| `InMemoryStore.InMemoryStore.ReconcileStep` | src/codex_collaboration_harness/core.py:1760-1798 | Resolves exactly the unsettled effect of its step, once. |
| `InMemoryStore.InMemoryStore.ReportBlocker` | src/codex_collaboration_harness/core.py:1800-1853 | Records a blocker that matches its step's effective state and effects. |
| `InMemoryStore.InMemoryStore.Objections` | src/codex_collaboration_harness/core.py:1890-1933 | Collects the objections to a proposal in order. |
| `InMemoryStore.InMemoryStore.AdmitProposal` | src/codex_collaboration_harness/core.py:1856-1964 | Decides, charges and records a proposal. |
| `InMemoryStore.InMemoryStore.FindUnsettled` | src/codex_collaboration_harness/core.py:1966-1979 | Finds an open step exactly when there is one. |
| `InMemoryStore.InMemoryStore.Terminalize` | src/codex_collaboration_harness/core.py:1981-2023 | Writes the receipt and releases the lease together, or changes nothing. |
| `InMemoryStore.InMemoryStore.BlockPacket` | src/codex_collaboration_harness/core.py:2025-2054 | Blocks a packet only before its execution starts. |
| `InMemoryStore.InMemoryStore.RecordFailure` | src/codex_collaboration_harness/core.py:2056-2101 | Records a failure with the values reported and gives its observed effect to the packet unless another owns it. |
| `InMemoryStore.InMemoryStore.SettleFailure` | src/codex_collaboration_harness/core.py:2106-2164 | Settles or frees the observed effect of a failed packet and writes its FAILED receipt. |
| `InMemoryStore.InMemoryStore.RecordResult` | src/codex_collaboration_harness/core.py:2166-2242 | Records a result, a mismatch failure or a duplicate-effect failure, and a receipt only for a settled effect. |
| `InMemoryStore.InMemoryStore.SettleEffect` | src/codex_collaboration_harness/core.py:2244-2288 | Settles the recorded attempt without another result. |
| `InMemoryStore.InMemoryStore.Prepare` | src/codex_collaboration_harness/core.py:2294-2336 | Prepares one continuation per receipt. |
| `InMemoryStore.InMemoryStore.CheckPrepared` | src/codex_collaboration_harness/core.py:2345-2367 | Accepts exactly the current prepared continuation of the stored receipt, which is the one preparing that receipt again returns and exactly what a delivery can begin from. |
| `InMemoryStore.InMemoryStore.CheckResume` | src/codex_collaboration_harness/core.py:2369-2388 | Accepts exactly a non-blank proof for the current prepared continuation and its destination, returns that continuation unchanged, and a delivery of it can then begin. |
| `InMemoryStore.InMemoryStore.Replay` | src/codex_collaboration_harness/core.py:2655-2674 | Replays for the packet of the stored receipt; while acknowledgements correspond, exactly the current acknowledged continuations, whose acknowledgement names them. |
| `InMemoryStore.InMemoryStore.StartDelivery` | src/codex_collaboration_harness/core.py:2390-2407 | Starts a delivery only from the exact prepared identity. |
| `InMemoryStore.InMemoryStore.MarkUnsettled` | src/codex_collaboration_harness/core.py:2409-2425 | Marks exactly the started delivery. |
| `InMemoryStore.InMemoryStore.Acknowledge` | src/codex_collaboration_harness/core.py:2427-2482 | Acknowledges a delivery on a completed turn bound to it. |
| `InMemoryStore.InMemoryStore.SettleContinuation` | src/codex_collaboration_harness/core.py:2499-2554 | Returns an unsettled delivery to PREPARED exactly on an authentic absence proof of this very turn, or acknowledges it on exact convergence. |
| `InMemoryStore.InMemoryStore.Verify` | src/codex_collaboration_harness/core.py:2556-2653 | Stores an accepted readback with its verification, whose verdict is the readback's on the packet's predicate. |
| `InMemoryStore.InMemoryStore.ScanReadback` | src/codex_collaboration_harness/core.py:2603-2632 | The verification's own scan of a readback. |
| `CollaborationHarness.CollaborationHarness.SelectRoute` | src/codex_collaboration_harness/core.py:2726-2742 | Finds the head of the eligible routes in order of rank and route id. |
| `CollaborationHarness.CollaborationHarness.PlanPacket` | src/codex_collaboration_harness/core.py:2712-2756 | Plans as specified and leaves the registration, also when it refuses. |
| `CollaborationHarness.CollaborationHarness.ExecutePacket` | src/codex_collaboration_harness/core.py:2800-2903 | One undisturbed caller leaves what the machine of callers leaves; a returned receipt is the stored one, and an executor's end is reported as it was recorded. |
| `CollaborationHarness.CollaborationHarness.EndExecution` | src/codex_collaboration_harness/core.py:2818-2903 | Each way an executor can end becomes its own store call; the caller is told the code now on record, by ending, or the store's refusal where nothing was recorded. |
| `CollaborationHarness.CollaborationHarness.ContinueExisting` | src/codex_collaboration_harness/core.py:2927-2955 | A delivery that may begin ends with the stored acknowledgement of its own turn, or unsettled with the content of the reported failure, or started when interrupted; any other call changes nothing. |
| `TuraAdapter.IssuedLeasesBuild` | src/codex_collaboration_harness/adapters/tura.py:304-334 | Every lease ever issued builds a request exactly when its packet has no context binding, at the versions the lease granted. |
| `TuraAdapter.CodesRoundTrip` | src/codex_collaboration_harness/adapters/tura.py:48-56 | Every failure code reads back from its own text. |
| `TuraAdapter.DecodesIff` | src/codex_collaboration_harness/adapters/tura.py:203-244 | Exactly the wire forms of sound envelopes decode, each to its own envelope. |
| `TuraAdapter.WireNeverEscapes` | src/codex_collaboration_harness/adapters/tura.py:426-578 | Every JSON payload becomes a result, a failure or a rejection, and the executor ends by returning or by a structured signal. |
| `TuraAdapter.DispatchEscapesIff` | src/codex_collaboration_harness/adapters/tura.py:562-578 | Of all replies exactly a self-built result envelope with a white-space effect id escapes `dispatch`. |
| `TuraAdapter.ExecuteEscapesIff` | src/codex_collaboration_harness/adapters/tura.py:426-588 | Of all replies exactly two end `execute` in an unforeseen error: a self-built envelope of this request with a white-space effect id as a result, or with a white-space detail digest as a failure. |
| `TuraAdapter.AnswersAreTheirOwn` | src/codex_collaboration_harness/adapters/tura.py:536-561 | An envelope is rejected exactly when the request, packet, lease or executor it names is not the one asked about. |
| `TuraAdapter.ResultsAreAnswers` | src/codex_collaboration_harness/adapters/tura.py:536-578 | A result comes only from an envelope that names this request, packet, lease and executor, with that envelope's effect, output and flag. |
| `AdapterLaws.RequestBuiltIff` | src/codex_collaboration_harness/adapters/tura.py:304-334 | A request is built if and only if the packet has no context binding, the lease follows it and the budget is not negative; every field is the packet's or the lease's. |
| `AdapterLaws.SoundIff` | src/codex_collaboration_harness/adapters/tura.py:134-182 | Which envelopes keep their own rules, on their fields. |
| `AdapterLaws.WireSpells` | src/codex_collaboration_harness/adapters/tura.py:185-244 | The wire form of an envelope, member by member. |
| `AdapterLaws.FailureEnvelopeIsKept` | src/codex_collaboration_harness/adapters/tura.py:562-569 | A failure envelope of this request is a failure of this packet and lease with the envelope's own code, detail and effect, whatever the effect's state. |
| `AdapterLaws.MismatchIsRejected` | src/codex_collaboration_harness/adapters/tura.py:536-561 | An envelope of another request is rejected for a stale identity with the envelope's effect, naming exactly the identities that differ. |
| `AdapterLaws.OtherRepliesAreReported` | src/codex_collaboration_harness/adapters/tura.py:426-535 | What becomes of refused requests, transport errors, undecodable payloads and foreign objects. |
| `AdapterLaws.EnvelopeReachesStore` | src/codex_collaboration_harness/adapters/tura.py:580-588 | The store then holds exactly those values of the envelope, and its effect if nobody else owned it. |
| `TuraAdapter.AdapterOutcomeIsKept` | src/codex_collaboration_harness/adapters/tura.py:580-588 | While the harness runs the adapter, whatever the client does: a failure or rejection is recorded with its own code, detail and effect if and only if it is not the one with a white-space detail, and a result is recorded as it is if and only if no step is open and nobody owns its effect. |
| `HarnessWitnesses.BlankReportsAreLost` | src/codex_collaboration_harness/adapters/tura.py:562-588 | Concrete plays in which the two escaping envelopes end on record as an executor error without effect. |
| `PacketCodec.DecodesBindingIff` | src/codex_collaboration_harness/native_tura.py:1293-1326 | Exactly the wire forms of well-formed context bindings decode, each to its own binding. |
| `PacketCodec.DecodesPacketIff` | src/codex_collaboration_harness/native_tura.py:1259-1399 | Exactly the wire forms of authentic packets with non-blank texts and a non-negative budget decode, each to its own packet. |
| `PacketCodec.ProfileRoundTrip` | src/codex_collaboration_harness/native_tura.py:1917-1993 | Every constructed profile decodes from its own wire form. |
| `PacketCodec.DecodesProfileIff` | src/codex_collaboration_harness/native_tura.py:1934-1993 | Exactly the wire forms of constructed profiles decode, each to its own profile, where a null `thinking` may stand for the default effort. |
| `PacketCodec.DefaultEffortsHaveTwoForms` | src/codex_collaboration_harness/native_tura.py:1934-1993 | A constructed profile has a second wire form if and only if its effort is the default. |
| `PacketCodec.MakingIsIdempotent` | src/codex_collaboration_harness/native_tura.py:228-300 | A constructed profile constructed again from its own fields is itself. |
| `CapsuleLaws.PayloadSpells` | src/codex_collaboration_harness/native_tura.py:1212-1256 | The members of a published capsule, one by one. |
| `CapsuleLaws.CallbackBindsInput` | src/codex_collaboration_harness/native_tura.py:2150-2167 | Equal callback ids mean equal task, mission, route, packet and profile, as digests do not collide. |
| `CapsuleLaws.LoadsIff` | src/codex_collaboration_harness/native_tura.py:1116-1206 | Exactly the objects of sound capsules load, each as its own capsule, under the revision of its packet and the digest of its members and no other. |
| `CapsuleLaws.FileLoadsIff` | src/codex_collaboration_harness/native_tura.py:1098-1125 | A file loads exactly when it is frozen with one link and its name binds its content; a digest-only name stands for the first version alone. |
| `CapsuleLaws.LoadAnsweredIff` | src/codex_collaboration_harness/native_tura.py:926-962 | A load returns exactly the file of the one greatest revision when all members are identified and no revision is shared; else the refusal says which failed. |
| `CapsuleLaws.InputAnsweredIff` | src/codex_collaboration_harness/native_tura.py:833-873 | An input is the file of its revision if that holds this very input, a conflict if it does not, stale under a newer one, else the capsule to be written. |
| `CodecLaws.PacketSpells` | src/codex_collaboration_harness/native_tura.py:1259-1292 | The members of a packet's wire form, one by one. |
| `CodecLaws.ListsSpell` | src/codex_collaboration_harness/native_tura.py:1267-1268 | Scope and scope versions on the wire, item by item. |
| `CodecLaws.BindingSpells` | src/codex_collaboration_harness/native_tura.py:1259-1292 | The members of a context binding's wire form, one by one. |
| `CodecLaws.DecodableIff` | src/codex_collaboration_harness/native_tura.py:1293-1399 | Which packets survive their wire form, on their own fields. |
| `CodecLaws.ProfileSpells` | src/codex_collaboration_harness/native_tura.py:302-310 | The members of a profile's wire form, one by one. |
| `CodecLaws.ProfileConstructedIff` | src/codex_collaboration_harness/native_tura.py:228-300 | What the profile constructor accepts, by version, policy, model, effort and target, and the profile it makes. |
| `CapsuleFiles.FileNameRoundTrips` | src/codex_collaboration_harness/native_tura.py:2174-2185 | A capsule's file name is recognised and reads back as its revision exactly below ten to the twentieth. |
| `CapsuleFiles.NamesAreInjective` | src/codex_collaboration_harness/native_tura.py:2174-2179 | Names differ when revisions or digests do. |
| `Capsules.CapsuleRoundTrip` | src/codex_collaboration_harness/native_tura.py:1098-1256 | Whatever a publication writes loads back as the capsule published: task, mission, route, packet, profile and context. |
| `Capsules.LoadedFileIsBound` | src/codex_collaboration_harness/native_tura.py:1183-1206 | A file that loads carries in its name the revision of its packet and the digest of its content, and its packet is authentic. |
| `Capsules.FreshIsSound` | src/codex_collaboration_harness/native_tura.py:833-898 | What passes the checks before writing is sound, is the caller's input, and is newer than every file of the directory. |
| `CapsuleRaces.LoadsUnderRaces` | src/codex_collaboration_harness/native_tura.py:900-962 | However publishers interleave, crash and abort, a load answers not found, members invalid, conflict, or the unique greatest published revision, each exactly when it should. |
| `CapsuleRaces.RivalsNeverLoad` | src/codex_collaboration_harness/native_tura.py:951-962 | Once two different capsules of one revision were published, no later load succeeds. |
| `CapsuleRaces.ListedFilesStay` | src/codex_collaboration_harness/native_tura.py:900-923 | A published capsule is never changed or removed, so a file read later is the file that was listed. |
| `CapsuleSequence.SequencesAreRaces` | src/codex_collaboration_harness/native_tura.py:900-923 | Publishing one after another is one of the interleavings, with nothing left over. |
| `CapsuleSequence.SequencesLeaveOneFileEach` | src/codex_collaboration_harness/native_tura.py:900-923 | After any publications in sequence the directory holds the file of each published capsule and nothing else, one per revision. |
| `CapsuleSequence.SequencesLoadTheGreatest` | src/codex_collaboration_harness/native_tura.py:820-962 | A load then returns the greatest revision, unless one of more than twenty digits was published. |
| `CapsuleWitnesses.UnreadableDirectoryHappens` | src/codex_collaboration_harness/native_tura.py:2174-2185 | A concrete publication, accepted, of a twenty-one digit revision after which its directory cannot be loaded. |
| `CapsuleSequence.RepublishingIsANoOp` | src/codex_collaboration_harness/native_tura.py:846-864 | Publishing an input again names its file and changes nothing; a different input of that revision is a conflict. |
| `TaskDirectory.TaskDirectory.Faulty` | src/codex_collaboration_harness/native_tura.py:2182-2246 | When some member stands for no revision the fault reported is that of the first such member in name order. |
| `TaskDirectory.TaskDirectory.Revisions` | src/codex_collaboration_harness/native_tura.py:951-960 | The revision map covers every member, and a conflict is reported exactly when two share a revision. |
| `TaskDirectory.TaskDirectory.LoadCapsule` | src/codex_collaboration_harness/native_tura.py:926-962 | The loader's loops compute the specified load. |
| `TaskDirectory.TaskDirectory.Check` | src/codex_collaboration_harness/native_tura.py:833-873 | The checks before writing decide as specified. |
| `TaskDirectory.TaskDirectory.PublishCapsule` | src/codex_collaboration_harness/native_tura.py:820-923 | Temporary file, link and unlink leave exactly the published capsule besides what was there. |
| `SkillReplace.SkillParent.Stage` | src/codex_collaboration_harness/native_tura.py:719-737 | Staging touches nothing but the staging path, whatever fails, and clears it on failure unless the removal fails. |
| `SkillReplace.SkillParent.Verify` | src/codex_collaboration_harness/native_tura.py:792-817 | Verification passes only for exactly the payloads. |
| `SkillReplace.SkillParent.Replace` | src/codex_collaboration_harness/native_tura.py:740-789 | At every step a complete old or new skill is at the target or the old one at the backup; every exit whose rollback renames worked leaves the target exactly old or exactly the verified new one; without failures it is replaced. |
| `SkillReplace.SkillParent.Exchange` | src/codex_collaboration_harness/native_tura.py:766-788 | The guarded part keeps the same promises through rename, verification, rollback and clean-up, and leaves nothing staged unless a removal fails. |
| `SkillReplace.SkillParent.RollBack` | src/codex_collaboration_harness/native_tura.py:775-780 | The rollback restores the old skill, or the first rename that fails leaves it complete at the backup path. |

## Left out

- SHA-256, JSON text and canonical encoding: ids are taken to be collision-free and wire values are modelled as values.
- The re-entrant lock: each store method is taken as one atomic step, which an interruption does not cut in two.
- Python's runtime type checks: subsumed by the types; value constraints of records are kept as well-formedness of the calls.
- The store's plain lookups and the counts of `StoreSnapshot`: they only read a field.
- HarnessTheorems.OrphansNeverClose: speaks of the harness's own methods; the store's public methods can still close such a packet (Closing.ClosingPath).
- HarnessTheorems.UnattendedStays: likewise; the store's public `mark_delivery_unsettled` still frees such a delivery.
- `run` has no method of its own; Cycle.CycleCompletes follows its steps on the specification.
- TuraAdapter.AdapterOutcomeIsKept: the request sent to the client is built but its wire encoding is not modelled.
- Real file-system calls, modes other than 0444, symbolic links in the packet root, fsync, file sizes and link counts other than one and two.
- Capsules.CapsuleRoundTrip: the content of an embedded task context and its J-Space rules are a parameter of the site, lawful when a context just read is accepted.
- TaskDirectory.TaskDirectory.PublishCapsule: one publisher with nobody else at work; races are in CapsuleRaces, on values.
- SkillReplace.SkillParent.Replace: empty directories inside a skill and concurrent changes by other programs are not modelled.
- Prompt rendering, dispatch plans, native terminal parsing, packet inspection, installation into an empty home, the command line, scripts, schemas and release tooling: string assembly and flat comparisons that would add only easy members.
