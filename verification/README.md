# Verified model of a crash-safe control plane

The repository is a control plane for a small fleet of machines. Its shared state is one authority
document, changed by compare-and-swap; its local state is a handful of protected settings files.
Replies can be lost, a process can die between any two accesses, and ownership of the document can
pass to another installation at any moment. This project models the state machines that keep it safe
and proves what holds over all their runs. `dafny verify dfyconfig.toml` checks everything.

Each Dafny file is one module.

- **Object move** - `RootProtocol` (the machine, one step for each atomic access), `RootOrder` and
  `RootPrefix` (what every step and every run keep unconditionally), `RootSafety` (the inductive
  invariant for at most one send), `RootRuns`, `RootReceipts` and `RootTheorems` (runs,
  counterexamples, exact conditions), `RootLedger` (its writes are mutations that `EffectLedger`
  accepts, its saves those of `Settings`), `RootEvidence` (what each access finds and each action does,
  on the fields of the world), `RootEarned` (what every action of a run was preceded by), `RootGuards`
  (that nothing else keeps an access from being made), and `RootMoves` (the controller's methods as
  straight-line code, refined to the machine).
- **Commands** - `Command`, `CommandLeaf`, `Admission` and `AdmissionRules`, `Lifecycle` and
  `LifecycleRules`, and `CommandRun`, which composes the two machines.
- **Stores** - `Settings` (stage, promote, recover), `NetworkTable`, `NetworkTableRules` and
  `NetworkTableResults` (one transaction over two such stores, beside other writers of one of them),
  `Commissioning` and `CommissioningRules` (external actions that must not run twice).
- **Authority document** - `EffectLedger`, `Plans` and `PlanRules` (frozen plans), `Reconciliation`
  (the bounded loop that applies one).
- **Others** - `Discovery` and `DiscoveryRules`, `Fencing` and `FencingRules`, `Timing` and
  `TimingRules`, `Layout`, and the codecs `Codecs`, `FetcherProfile`, `Ballpark` and `BallparkRules`.

A module named `...Rules` states when each operation of its partner accepts, refuses and with which
effect, without the functions that compute it, and traces what is found in later states back to the
steps it came from.

Where the source updates an object in place, the model is a class with those fields, each method is
proved equal to a specification function of the old state, and the results about all runs are lemmas
about that function.

## What turned out differently from the documented promise

**One provider call for each object.** The design promises that the same object is never sent twice.
The code does not give this for every deployment. A controller is one write-ahead store with the root
it moves to; several may belong to one installation. A cancellation, or an inherited settlement, is
*current* when what it proved still describes the entry that its compare-and-swap replaces. The
conditions below are exact, over all runs in which the named ones are current.

- Cancellations current: at most one send per object if and only if no two controllers share both
  installation and target, whether inherited settlements are current or not
  (`AtMostOnceWhenCurrent`). Otherwise one store can revoke its own PREPARED cursor for an operation
  that the other store has already armed, since both write the same owner, epoch and operation id into
  the document (`SharedSiteSendsTwice`).
- Cancellations not current: if and only if no two controllers share a target (`AtMostOnceAlways`).
  `ProvenNoDispatchSettlement` reads the local revocation and the document separately, so a
  cancellation that read an old revocation can cancel a later attempt of the same operation
  (`StaleCancelSendsTwice`).
- The same two conditions decide whether at most one move is in flight (`OneInFlightExactly`). "A durable
  possible-send boundary is never answered by NOT_DISPATCHED" holds under the first, and otherwise
  only without any controller (`NeverDeniedWhenCurrent`, `DeniedByStaleCancel`).
- An inherited settlement that is not current never costs any of these. `InheritedRootSettlement`
  checks the entry against its own inspection of the object, but reads it once more before it writes,
  and two objects of one device share a catalogue row. A settlement that waits there while another
  completes the receipt it inspected, and the move goes on, can mark a later object of that device
  COMPLETE that is still in flight (`FalseReceipt`). Receipts are all true if and only if inherited
  settlements are current or no two objects share a row, or there is nobody to move
  (`ReceiptsAreTrue`); a false one stands, and keeps its object from being started again, until the
  object moves (`FalseReceiptBlocks`). This is also what a flight's entry staying UNKNOWN depends on
  (`FlightsAreKnown`).
- That moved objects form a prefix, that no cursor is ahead of it, and that one root serves all sends,
  holds in every run without any condition (`OrderedMove`).

**Other findings.**

- A rollback of the setup does not compare the network table's selection. It can replace a recorded
  intent, after which a second CREATE starts while the directory and candidate of the first exist
  (`SecondCreate`). No second transaction starts before the first is finished exactly when no rollback
  does that (`OneTransactionAtATime`); everything else about the table holds beside any rollback.
- A cancellation or acknowledgement leaf carries no digest of its binding. It is refused against
  another operation or generation, but read against another payload of the same operation it decodes
  to a value that was never written (`OtherLeavesAreBoundToOperation`). Result leaves are safe.
- A holder keeps its lease until a given time exactly when every renewal it is granted lasts until
  then: an early renewal for less lets another actor in before the first lease would have ended
  (`LeaseProtects`, `ShortRenewalLoses`, `RenewalIsExact`).
- A device that was first seen without a hardware hint takes on whatever hint an unproven observation
  brings next, so two devices can come to bear one hint (`HintsMeet`). A hint once recorded changes only
  by proof (`BatchHintsStand`).
- A torn staged settings file blocks its store for good, with the committed frame kept (`TornIsFinal`).
  So a table transaction is stranded exactly by a torn candidate, or by a directory that was created
  but never written (`StrandedExactly`).
- A report of an active fetcher that does not know its clock is valid, and so is one held by a clock it
  knows; nobody can compute either (`PollingExactly`, `UncomputedIsAccepted`).
- Three closing checks can never fail: the size check of `validate_document`
  (`BudgetsImplyDocumentBound`), the comparison at the end of the report decoder
  (`LastCheckIsRedundant`) and the one at the end of `changes` (`PublishThenShared`).

## Model

| member | source | states |
|---|---|---|
| `RootTheorems.AtMostOnceWhenCurrent` | src/tb4/reconfiguration_roots.py:312-363 | Over all runs with any interleaving of advances, crashes, recoveries, takeovers, revocations, resumptions and settlements, in which cancellations are current (inherited settlements need not be), each object gets at most one provider call, if and only if no two controllers share installation and target. |
| `RootTheorems.AtMostOnceAlways` | src/tb4/reconfiguration_roots.py:335-363 | The same over all runs whatever cancellations do, if and only if no two controllers share a target. |
| `RootTheorems.NeverDeniedWhenCurrent` | src/tb4/reconfiguration_root_settlement.py:177-211 | An object whose INVOKING cursor was ever durable is never recorded NOT_DISPATCHED, over all runs with current cancellations, if and only if no two controllers share installation and target. |
| `RootTheorems.DeniedByStaleCancel` | src/tb4/reconfiguration_root_settlement.py:197-211 | Without current cancellations that holds over all runs only if there is no controller at all. |
| `RootTheorems.FlightsAreKnown` | src/tb4/reconfiguration_roots.py:335-415 | Over all runs a send not seen to move its object keeps the shared entry UNKNOWN for its own operation, owner and epoch, if and only if cancellations are current, no two controllers share installation and target, and inherited settlements are current or no two objects share a catalogue row; or there is no controller. |
| `RootTheorems.OneInFlightExactly` | src/tb4/reconfiguration_roots.py:335-363 | Over all runs at most one object is sent and not yet moved, exactly under the condition for at most one send. |
| `RootReceipts.ReceiptsAreTrue` | src/tb4/reconfiguration_root_settlement.py:144-168 | Over all runs every COMPLETE receipt names an object that has moved, if and only if inherited settlements are current, or no two objects share a catalogue row, or there is no controller. |
| `RootReceipts.ReceiptProvesPrefix` | src/tb4/reconfiguration_root_resume.py:206-228 | Under that condition a COMPLETE receipt of the i-th object proves that all objects up to it are at the planned root, which is what a resumption relies on. |
| `RootReceipts.FalseReceipt` | src/tb4/reconfiguration_root_settlement.py:144-168 | For any two objects that share a row, a run in which a settlement inspects the inherited UNKNOWN entry of the earlier and waits, another completes it, the controller reads that receipt and goes on, and the waiting settlement marks the later object COMPLETE while it is in flight. |
| `RootReceipts.FalseReceiptBlocks` | src/tb4/reconfiguration_effects.py:238-247 | While its object has not moved, a receipt is never replaced, and the object is not started again. |
| `RootLedger.WritesAreMutations` | src/tb4/reconfiguration_effects.py:121-258 | In every reachable state each write of the move to the document, under its purpose and by the present owner, passes the mutation check of the ledger. |
| `RootLedger.OthersLeaveLedger` | src/tb4/reconfiguration_roots.py:312-468 | No other step of the machine changes the document's row. |
| `RootLedger.SavesAreSettings` | src/tb4/private_settings.py:104-146 | In every state of a run a save, read or recovery of a controller is that of a protected settings store, faults included. |
| `RootTheorems.StaleCancelSendsTwice` | src/tb4/reconfiguration_root_settlement.py:171-211 | Two controllers of one target can send twice through a settlement that read an old revocation. |
| `RootTheorems.SharedSiteSendsTwice` | src/tb4/reconfiguration_roots.py:392-415 | Two stores of one installation and target can send twice although all settlements are current. |
| `RootPrefix.OrderedMove` | src/tb4/reconfiguration_roots.py:275-296 | In every run the moved objects are exactly the first ones, all at the planned root; no store's index exceeds them; every send names the planned root and an object not beyond the first unmoved one. |
| `RootPrefix.RunOnward` | src/tb4/reconfiguration_effects.py:163-180 | Once a root plan is recorded no step of any run replaces it, and no object ever moves back. |
| `RootPrefix.RunKeeps` | src/tb4/reconfiguration_roots.py:164-231 | The unconditional invariant over stores, ledger, locations, owners of epochs and calls in progress is kept by every run. |
| `RootTheorems.RunSafe` | src/tb4/reconfiguration_roots.py:335-363 | The safety invariant (who may still send, and what the ledger says about it) is kept by every run in which controllers are told apart and, where only by installation and target, cancellations are current. |
| `RootSafety.StepSafe` | src/tb4/reconfiguration_roots.py:312-468 | Each single enabled step keeps it. |
| `RootMoves.RootMoves.Advance` | src/tb4/reconfiguration_roots.py:312-363 | However others interleave, an advance performs a prefix of check, save PREPARED, request and confirm the start, prove again, lock, prove, read the receipt, save INVOKING, prove, send; the answer says how far it came, and after DONE the provider call was earned (`RootEarned.Earned`): every one of these checks held at its moment. |
| `RootMoves.RootMoves.Begin` | src/tb4/reconfiguration_root_resume.py:206-253 | A beginning reads its empty store and what has moved, proves, and only then saves its first frame. |
| `RootMoves.RootMoves.Inspect` | src/tb4/reconfiguration_roots.py:365-390 | Inspection reads its store, proves its own epoch, sees the object at the target under a second proof, reads the receipt or makes it, and only then moves its own index; it never sends. When it goes no further the answer says why: in place, elsewhere, superseded or refused. |
| `RootMoves.RootMoves.RevokePrepared` | src/tb4/reconfiguration_roots.py:392-415 | A revocation reads its store, proves and sees the object in place, proves again and saves; the shared entry is not touched. |
| `RootMoves.RootMoves.ResumeRevoked` | src/tb4/reconfiguration_roots.py:454-468 | A revoked cursor is cleared only after the revocation, a proof of its own epoch, the receipt NOT_DISPATCHED, the revocation again and another proof, in this order. |
| `RootMoves.RootMoves.SettleRevoked` | src/tb4/reconfiguration_root_settlement.py:197-211 | A cancellation reads the revocation, the document and the object, and later compares and swaps on what it read. |
| `RootMoves.RootMoves.RecoverLocal` | src/tb4/reconfiguration_roots.py:470-489 | A recovery reads what is staged, proves it outside the lock, and promotes exactly that. |
| `RootMoves.DomainIsSafe` | src/tb4/reconfiguration_roots.py:312-363 | Whatever these methods and everything interleaved with them have done, no object was sent twice and no two are in flight, when targets differ, or when sites differ and the cancellations of this history were current; then no armed object was denied either. |
| `RootEarned.ActionsAreEarned` | src/tb4/reconfiguration_roots.py:312-468 | In every run each provider call, first frame, revocation, settled index, cleared cursor, cancellation and recovery was preceded by all the accesses its code makes, in their order, and at each of them the world said what that access checks: stored frame, owner, plan, UNKNOWN entries, locations, receipts, all stated on the world's fields; and it does exactly what it should. The controller's methods answer DONE only for actions earned in this way. |
| `RootEarned.SendsAreProven` | src/tb4/reconfiguration_roots.py:335-363 | In particular between the durable INVOKING frame and the provider call there was a state in which the store still held that frame, the controller's installation owned the document, the plan named its target and nothing but this operation was UNKNOWN. |
| `RootEarned.WritesAreEarned` | src/tb4/reconfiguration_root_settlement.py:144-168 | Likewise for what no live call writes: a start that lands was asked for by an advance of the owner and epoch it names, and a settlement was preceded by its own inspection; what plans, starts, settlements and arriving objects write. |
| `RootGuards.ReadExactly` | src/tb4/reconfiguration_roots.py:312-333 | A call begins exactly when its store is unlocked and the evidence of its first access holds, and it begins as what it read. |
| `RootGuards.LookExactly` | src/tb4/reconfiguration_root_resume.py:206-253 | A call looks on exactly while the evidence of its next access holds. |
| `RootGuards.PhaseExactly` | src/tb4/reconfiguration_roots.py:335-363 | An advance passes each check exactly while its evidence holds, its start is read back as the very row it asked for, and the store it locks is as it left it. |
| `RootGuards.SaveExactly` | src/tb4/reconfiguration_roots.py:392-415 | A call saves exactly when all its accesses are done and its store is unlocked, unstaged and at the revision it saw. |
| `RootGuards.SharedExactly` | src/tb4/reconfiguration_root_settlement.py:144-168 | When a plan, a requested start, a sent object and both parts of an inherited settlement may reach the document or its place. |
| `EffectLedger.MutationKeeps` | src/tb4/reconfiguration_effects.py:121-258 | An accepted mutation raises the generation by one, leaves a well-formed row held exactly while some entry is UNKNOWN, changes at most one action (initialization apart), drops none, changes an UNKNOWN entry only as its purpose permits and keeping owner, epoch and operation, and replaces a root plan only for a new transition. |
| `EffectLedger.UnknownStays` | src/tb4/reconfiguration_effects.py:121-258 | Along any sequence of accepted mutations an UNKNOWN entry stays exactly what it is until a mutation that may resolve it. |
| `EffectLedger.GenerationsCount` | src/tb4/reconfiguration_effects.py:69-77 | The generation counts the accepted mutations. |
| `EffectLedger.StartedIsValid` | src/tb4/reconfiguration_effects.py:391-421 | What `start` composes for an owner that is an heir of every entry, as a start or as a retry of the very operation recorded as not dispatched, passes the mutation check. |
| `EffectLedger.AlwaysHeir` | src/tb4/reconfiguration_effects.py:121-258 | Along any accepted mutations by successive owners, entry epochs never exceed the owner's, and an entry of its epoch is its own. |
| `EffectLedger.StartsAfterAnyRun` | src/tb4/reconfiguration_effects.py:391-421 | So after any such sequence since the ledger began whatever `start` composes is accepted, retries of another owner's attempt included. |
| `EffectLedger.StartedExactly` | src/tb4/reconfiguration_effects.py:391-421 | `start` goes on exactly when nothing is recorded for its action, or a resolved attempt of another operation, or, in maintenance, this object's own undispatched attempt; the error otherwise. |
| `EffectLedger.StartedDoes` | src/tb4/reconfiguration_effects.py:391-421 | It then writes this owner's UNKNOWN attempt and nothing else, after which no start goes on. |
| `EffectLedger.FinishedExactly` | src/tb4/reconfiguration_effects.py:423-437 | `finish` goes on exactly for the caller's own attempt while it is UNKNOWN or already has this outcome; it writes that outcome and nothing else, doing it again changes nothing, and any other outcome is refused from then on. |
| `EffectLedger.StartAccepted` | src/tb4/reconfiguration_effects.py:121-258 | A START is accepted exactly outside maintenance and when it is one that `start` composes. |
| `EffectLedger.RootStartAccepted` | src/tb4/reconfiguration_effects.py:121-258 | A ROOT_START or ROOT_RETRY is accepted exactly in maintenance, behind the cleared barrier of the transition, and when `start` composes it; a retry only by an owner that may speak for the attempt. |
| `EffectLedger.FinishAccepted` | src/tb4/reconfiguration_effects.py:121-258 | A FINISH is accepted exactly when `finish` composes it. |
| `EffectLedger.ResolutionAccepted` | src/tb4/reconfiguration_effects.py:121-258 | Who may settle or cancel another's UNKNOWN move, with which outcome, and in which maintenance; nothing else changes. |
| `EffectLedger.PlanAccepted` | src/tb4/reconfiguration_effects.py:121-258 | A root or folder plan is recorded exactly once for a transition and beside no other, and a barrier is cleared exactly by its own owner. |
| `EffectLedger.BeginningAccepted` | src/tb4/reconfiguration_effects.py:121-258 | A ledger begins once, outside maintenance, in epoch 1, with nothing but that epoch's attempts. |
| `Plans.ReadyIsExact` | src/tb4/reconfiguration_effects.py:266-296 | A READY document differs from the snapshot in the plan's declared rows alone and evaluates to CONFIRMED (effect, maintenance and commit plans). |
| `Plans.ReadyExactly` | src/tb4/reconfiguration_effects.py:266-296 | A plan of any kind is READY exactly when binding, header and owner are the document's and it shows every protected, every other guarded and every `before` row. |
| `Plans.ConfirmedExactly` | src/tb4/reconfiguration_effects.py:266-296 | It is CONFIRMED exactly when binding and header are the document's and it shows every guarded and every written row. |
| `Plans.ReadyIsMutation` | src/tb4/reconfiguration_effects.py:266-296 | A READY effect is a mutation that the ledger accepts from the present document, under the configuration and summary row found there. |
| `Plans.EffectsInPhase` | src/tb4/reconfiguration_effects.py:121-296 | In every run each applied effect was such a mutation at that moment: no START in phase MAINTENANCE, and no move started, settled or cancelled outside it. |
| `PlanRules.EffectExactly` | src/tb4/reconfiguration_effects.py:121-296 | Some valid effect plan turns one document into another exactly when its owner leads and the summary row alone changes, by a mutation the ledger accepts under the present configuration. |
| `PlanRules.EnterExactly` | src/tb4/reconfiguration_maintenance.py:49-145 | Entering: exactly out of no configuration or an ACTIVE one of another transition, into the next revision's maintenance, the evidence unchanged or barred by this owner, every other row kept. |
| `PlanRules.CommitExactly` | src/tb4/reconfiguration_commit.py:53-116 | Committing: exactly out of maintenance once its move is complete, nothing UNKNOWN and its barrier cleared, into the next revision of the same transition; only the root plan is dropped from the evidence, and only settings, registry and catalogues are rewritten. |
| `PlanRules.AppliedChange` | src/tb4/reconfiguration_effects.py:266-296 | In every run each applied plan made one of these changes to the document as it stood at that moment. |
| `Plans.ConfirmedForAnyOwner` | src/tb4/reconfiguration_maintenance.py:129-145 | CONFIRMED does not depend on the present owner. |
| `Plans.AppliesOnce` | src/tb4/reconfiguration_commit.py:82-116 | Once applied, a plan is never READY again, whatever other plans and takeovers follow. |
| `Plans.EnterProgresses` | src/tb4/reconfiguration_maintenance.py:49-80 | Entering maintenance is the one next revision, in phase MAINTENANCE, and loses no evidence. |
| `Plans.CommitProgresses` | src/tb4/reconfiguration_commit.py:82-116 | A commit is the one next revision, in phase ACTIVE, of the transition that is in maintenance. |
| `Plans.RunProgresses` | src/tb4/configuration_contract.py:21-49 | Over any run configuration revisions never fall, one revision stands for one marker, and parity tells the phase. |
| `Plans.OneActivePeriod` | src/tb4/configuration_contract.py:52-69 | A saved dispatch revision accepted at two moments of a run was accepted throughout, under one marker. |
| `Plans.CommitNeedsReceipts` | src/tb4/reconfiguration_commit.py:53-66 | A commit needs maintenance, no UNKNOWN effect, and the COMPLETE receipt of the last root move of this transition. |
| `Reconciliation.Reconcile` | src/tb4/drive/authority_transaction.py:111-144 | Against a document that others change and whose replies are lost or late: at most one write of the loop takes effect, making exactly the evaluated change; CONFIRMED is what the document says on return; any other answer that does not ask for inspection means that nothing changed and nothing is on its way, and is explained by the last reading, a lost access or the budget; undisturbed, a READY plan is confirmed with one write. |
| `Reconciliation.Backend.CompareReplace` | src/tb4/drive/authority_transaction.py:111-144 | For each fate of a compare-and-swap, its answer, the document, and the write still on its way. |
| `Admission.AdmissionModel.Submit` | src/tb4/command_contract.py:255-289 | A submission gives the judged receipt and next state; a rejection or duplicate changes nothing. |
| `Admission.AdmissionModel.Recycle` | src/tb4/command_contract.py:291-305 | Recycling with its eviction loop equals its specification, and its refusals are exactly the stated faults. |
| `Admission.RecycledOk` | src/tb4/command_contract.py:291-305 | The history after a recycle is again a contiguous run of the newest generations, grows by one up to this call's bound, and ends with the closing receipt. |
| `Admission.AnswersByGeneration` | src/tb4/command_contract.py:264-284 | Although history is evicted, every answer equals the one read off the generation number alone: duplicate, conflict, expired, busy, gap or admitted. |
| `Admission.AdmitsEachGenerationOnce` | src/tb4/command_contract.py:248-305 | Over any run, with any bounds on history, the operations admitted for a target are exactly its next generations in order without gaps. |
| `Admission.NoOperationTwice` | src/tb4/command_contract.py:248-305 | From an empty table no operation id is admitted twice, and the i-th admission is generation i. |
| `AdmissionRules.RefusalExactly` | src/tb4/command_contract.py:136-158 | A request passes validation exactly when no check finds anything wrong with it (time, shape, domain, target, name, deadline, payload against its digest or staged artifact, budget), and otherwise is told the first thing that is. |
| `AdmissionRules.AnsweredExactly` | src/tb4/command_contract.py:255-289 | ADMITTED exactly for a sound request of the next generation, in time, for an idle target with room; DUPLICATE exactly when that very request is in progress or its receipt is kept. |
| `AdmissionRules.RejectedExactly` | src/tb4/command_contract.py:270-281 | When a sound request is rejected as conflicting, busy, stale, ahead, expired or beyond capacity. |
| `AdmissionRules.RecycledExactly` | src/tb4/command_contract.py:291-305 | Recycling takes place exactly for its own lifecycle when READY, confirmed and acknowledged; the kept receipts are the newest of the old ones and the new one. |
| `AdmissionRules.RecordedWasAdmissible` | src/tb4/command_contract.py:136-289 | In every run each request in progress or on record was submitted when it was admissible: its payload was the one its digest names, in time, and its target idle. |
| `Lifecycle.LifecycleModel.Apply` | src/tb4/command_contract.py:369-425 | An event against the observed state gives the specified answer and next state; a stale observation or bad clock changes nothing. |
| `Lifecycle.LifecycleModel.Cancel` | src/tb4/command_contract.py:341-367 | The cancellation sub-machine's answer and next state, and its compare-and-swap rule per actor. |
| `Lifecycle.StepOk` | src/tb4/command_contract.py:308-425 | The joint invariant over stage, execution, publication, consumption, terminal, result, responsible actor and cancellation is kept by every event. |
| `Lifecycle.CancelStepOk` | src/tb4/command_contract.py:341-367 | Every cancellation step keeps it too. |
| `Lifecycle.RunPersists` | src/tb4/command_contract.py:341-425 | Over any run the invariant holds, result digest, confirmation, acknowledgement and cancellation identity stand once set, ALREADY_FINISHED is absorbing, and after the waiting stages at most `Rank` more events apply. |
| `Lifecycle.OneDecision` | src/tb4/command_contract.py:308-323 | At most one of claim, expiry and withdrawal ever applies; claims are before the deadline and never after a recorded cancellation, expiries not before it. |
| `Lifecycle.OnwardApplies` | src/tb4/command_contract.py:369-425 | In every state short of READY some event applies and lowers the rank; from CLAIMED on its writer is the recorded responsible actor. |
| `Lifecycle.ReachesReady` | src/tb4/command_contract.py:369-425 | From every such state at most `Rank` events lead to READY. |
| `LifecycleRules.AppliesExactly` | src/tb4/command_contract.py:308-425 | An event applies exactly for its actor, when execution, publication, consumption and cancellation are what it is due for, its verdict, readback or acknowledgement is that of this operation and result, and time has not gone back. |
| `LifecycleRules.AppliedDoes` | src/tb4/command_contract.py:387-425 | An applied event leads to its one stage at its time, with its one result, and leaves a cancellation standing until the recycle. |
| `LifecycleRules.NothingElse` | src/tb4/command_contract.py:325-425 | Stage, stage time, result, cancellation and revision fix the whole state, wait, deadline and next check included. |
| `LifecycleRules.DeclinedExactly` | src/tb4/command_contract.py:387-399 | An event is declined exactly when only the clock, or for a claim a recorded cancellation, decides against it. |
| `LifecycleRules.VerdictExactly` | src/tb4/command_contract.py:228-245 | A result is accepted exactly when it is this operation's, is what its digest names, and is one of the plausible outcomes, listed by outcome. |
| `LifecycleRules.CancelsExactly` | src/tb4/command_contract.py:341-367 | A cancellation step applies exactly for this binding, before READY, under one identity, by the actor whose next step it is. |
| `LifecycleRules.WithdrawalsWereAsked` | src/tb4/command_contract.py:341-425 | In every run a withdrawal follows a cancellation that the coach recorded for this very operation. |
| `CommandRun.RunOk` | src/tb4/command_contract.py:255-425 | The joint invariant of both machines over runs of submissions, lifecycle moves and recycling. |
| `CommandRun.Components` | src/tb4/command_contract.py:255-425 | Each step of the composed machine is one event of admission, or one move of one life, and nothing else; only an admission begins a life. |
| `CommandRun.NextGenerationAfterConsumption` | src/tb4/command_contract.py:277-305 | Generation g+1 is admitted only after g reached READY with CONFIRMED publication and an acknowledgement of its own result digest, which the retained receipt carries. |
| `CommandLeaf.ResultLeafIsBound` | src/tb4/command_contract.py:178-213 | A result leaf expands to the value written, and against any other binding not at all. |
| `CommandLeaf.OtherLeavesAreBoundToOperation` | src/tb4/command_contract.py:178-213 | Cancellation and acknowledgement leaves round-trip exactly for their own binding and decode, wrongly, for exactly the other payloads of their operation and generation. |
| `Settings.PrivateSettings.Read` | src/tb4/private_settings.py:80-91 | Reading refuses while anything is staged, and otherwise gives the committed frame. |
| `Settings.PrivateSettings.Save` | src/tb4/private_settings.py:104-125 | For every point of interruption: the refusals, the exact store left behind, and success only with the given payload at the next revision. |
| `Settings.PrivateSettings.RecoverPending` | src/tb4/private_settings.py:127-146 | Recovery promotes exactly a whole staged successor, or refuses and changes nothing. |
| `Settings.RunsStayLinear` | src/tb4/private_settings.py:59-146 | Every run, however cut off, commits one chain that extends the one before: revisions rise by one, `previous` is the prior payload, and any whole staged frame is the valid successor. |
| `Settings.InterruptedSaveSettles` | src/tb4/private_settings.py:104-146 | After a save cut off anywhere and a recovery the store holds the old frame or exactly the intended one, decided by whether a whole frame had been staged. |
| `Settings.TornIsFinal` | src/tb4/private_settings.py:127-146 | A linear store is recoverable exactly when its staged file is not torn; a torn one never changes again. |
| `Settings.OneSavePerRevision` | src/tb4/private_settings.py:104-125 | After a committed save every later save from the same revision is told to reload. |
| `Settings.SaveExactly` | src/tb4/private_settings.py:104-125 | Why a save is refused, in which order, and the exact store it leaves otherwise, for every interruption. |
| `Settings.RecoverExactly` | src/tb4/private_settings.py:127-146 | A recovery promotes exactly a whole staged frame that follows the committed one, or says what is wrong with it. |
| `Settings.HeldWasSaved` | src/tb4/private_settings.py:59-146 | In every run each frame, committed or staged, was put there by an accepted save of that payload over the revision before it. |
| `NetworkTable.LocalNetworkTable.Target` | src/tb4/network_table_store.py:271-308 | The branchy target step equals its specification for every store, kind, guard and fault. |
| `NetworkTable.TargetedUnderway` | src/tb4/network_table_store.py:271-308 | It keeps the target store within the stages of one save, hands the candidate over at most once, and succeeds only on the committed candidate. |
| `NetworkTableRules.TargetWrites` | src/tb4/network_table_store.py:271-308 | The target changes exactly when its owner check, if one is due, passes, and either only a promotion is missing or it is untouched and may be written; and to what, for every interruption. |
| `NetworkTableRules.TargetSucceeds` | src/tb4/network_table_store.py:271-308 | It succeeds exactly on a candidate committed before, or committed now without interruption. |
| `NetworkTableRules.IntentExactly` | src/tb4/network_table_store.py:216-269 | A transaction has an intent exactly when maintenance, selection, source and destination allow it, and exactly that intent. |
| `NetworkTableRules.WorkedExactly` | src/tb4/network_table_store.py:310-328 | Working on it changes its target alone, creates it only when it may be written, and claims the selection exactly on success. |
| `NetworkTableRules.OthersExactly` | src/tb4/commissioning_state.py:377-397 | What any other save, and any rollback, makes of the setup and its selection, for every interruption. |
| `NetworkTableRules.NothingWithoutOwner` | src/tb4/network_table_store.py:296-308 | When the owner check fails, a guarded update changes no store or directory, in any mode and for any interruption, and succeeds only where its candidate was committed before. |
| `NetworkTableRules.RunWithoutOwner` | src/tb4/network_table_store.py:256-343 | Over any run whose owner checks fail, with guarded intents only, directories and candidates stay as they were. |
| `NetworkTable.LocalNetworkTable.Work` | src/tb4/network_table_store.py:310-328 | The part under the setup lock: refusals, the new target store and the claim to confirm. |
| `NetworkTable.LocalNetworkTable.Finish` | src/tb4/network_table_store.py:310-335 | Work, then the selection, each possibly cut off (`write` false is `inspect`, true is `resume`). |
| `NetworkTable.LocalNetworkTable.Configure` | src/tb4/network_table_store.py:216-239 | CREATE: the maintenance checks, then the durable intent, and only then the work; every refusal and every cut-off is stated. |
| `NetworkTable.LocalNetworkTable.Move` | src/tb4/network_table_store.py:241-254 | MOVE, likewise. |
| `NetworkTable.LocalNetworkTable.Update` | src/tb4/network_table_store.py:256-269 | UPDATE, likewise, with the owner check where one is due. |
| `NetworkTableResults.TransactionSelectsCandidate` | src/tb4/network_table_store.py:223-269 | A transaction is a run of the machine wherever it is cut off; a reported success has selected a root that holds the candidate of its own intent. |
| `NetworkTable.RunOk` | src/tb4/network_table_store.py:143-343 | The invariant over both stores, directories and unconfirmed claims of several processes is kept by every run, beside any other writer of the setup and any rollback of it. |
| `NetworkTableResults.ConfirmedHoldsCandidate` | src/tb4/network_table_store.py:310-335 | After any history, confirming selects a root that holds exactly the frozen candidate, one revision on, and a MOVE leaves its source as found. |
| `NetworkTableResults.CandidateSavedOnce` | src/tb4/network_table_store.py:271-308 | No operation's candidate is handed to a store twice; the source of a pending MOVE is unchanged. |
| `NetworkTableResults.InspectOnlyPromotes` | src/tb4/network_table_store.py:337-339 | Inspection creates no directory and saves no candidate; at most it promotes the whole staged candidate. |
| `NetworkTableResults.OneTransactionAtATime` | src/tb4/network_table_store.py:223-269 | Over all runs no second transaction is recorded before the one before it is finished, if and only if no rollback replaces a recorded intent by anything but its completion. |
| `NetworkTableResults.SecondCreate` | src/tb4/commissioning_state.py:377-397 | A run in which a rollback forgets a CREATE that was carried out, and a second CREATE is recorded beside its directory and candidate. |
| `NetworkTableResults.ResumeSucceedsExactly` | src/tb4/network_table_store.py:341-343 | An unharmed resume succeeds if and only if maintenance allows it (approval, role, not cancelled, nothing UNKNOWN) and the target is completable. |
| `NetworkTableResults.StrandedExactly` | src/tb4/network_table_store.py:271-308 | A completable transaction stays so after any attempt, if and only if that attempt did not tear the candidate or leave a created directory unwritten. |
| `Commissioning.RunOk` | src/tb4/commissioning_state.py:196-397 | Across restarts, lost saves and rollbacks: actions run once and only when recorded, at most one UNKNOWN, settled outcomes stand, nothing recorded is dropped, storage stands once anything is recorded. |
| `Commissioning.ActionsRunOnce` | src/tb4/commissioning_state.py:342-360 | From an empty store no action runs twice for one operation id. |
| `CommissioningRules.RanWasAuthorized` | src/tb4/commissioning_state.py:342-360 | In every run from an empty store each external action was started by an authorized call that had committed it as UNKNOWN, over complete choices, not cancelled, with nothing else UNKNOWN. |
| `CommissioningRules.OutcomeWasFound` | src/tb4/commissioning_state.py:362-375 | Each settled outcome, committed or staged, is what an inspection of that operation found while it was UNKNOWN. |
| `CommissioningRules.ReadyWasReviewed` | src/tb4/commissioning_state.py:298-319 | A setup saved as ready passed a review of these very choices and operations, complete and with nothing UNKNOWN. |
| `CommissioningRules.ChosenExactly` | src/tb4/commissioning_state.py:221-250 | When a choice is refused, for which reason, and what it saves otherwise. |
| `CommissioningRules.PerformedExactly` | src/tb4/commissioning_state.py:342-354 | When an action is accepted, why it is refused otherwise, and that nothing but its own entry is recorded. |
| `CommissioningRules.RolledBackExactly` | src/tb4/commissioning_state.py:377-397 | Exactly earlier choices over the very same record and storage can be taken back. |
| `Commissioning.ProposalOk` | src/tb4/commissioning_state.py:221-397 | Each proposed payload (choose, perform, reconcile, rollback, review, cancel) keeps these rules. |
| `Commissioning.Setup.Commit` | src/tb4/commissioning_state.py:196-200 | A save through the setup forgets the review and adopts the new snapshot only when confirmed. |
| `Commissioning.Setup.Choose` | src/tb4/commissioning_state.py:221-250 | One step of the store, or its exact refusal: a recorded operation freezes the storage, an UNKNOWN one every choice. |
| `Commissioning.Setup.PerformOnce` | src/tb4/commissioning_state.py:342-360 | The operation is durable before the action, and the action runs exactly when no error is reported. |
| `Commissioning.Setup.ReconcileOperation` | src/tb4/commissioning_state.py:362-375 | Only an UNKNOWN operation is settled, and only to what the inspector found. |
| `Commissioning.Setup.RollbackChoices` | src/tb4/commissioning_state.py:377-397 | A rollback is a new revision with the previous choices, and refuses while work is not stopped or when identity, operations or storage differ. |
| `Commissioning.Setup.ReviewSettings` | src/tb4/commissioning_state.py:298-319 | The verdict is one step of the store; after a confirmed review the settings are validated exactly if the check passed, nothing is missing and no operation is UNKNOWN. |
| `Discovery.Catalogue.Observe` | src/tb4/discovery_catalogue.py:255-328 | The in-place loop equals the fold of its observation step; a batch longer than its scope allows is refused, and a refusal part-way changes nothing; the catalogue's invariant is kept. |
| `Discovery.Catalogue.Seed` | src/tb4/discovery_catalogue.py:242-248 | Seeding succeeds exactly for a free slot and an unused identity and alias within bounds, and keeps the catalogue's invariant. |
| `Discovery.BatchKeeps` | src/tb4/discovery_catalogue.py:192-328 | An accepted batch keeps distinct identities, aliases and endpoints and the bound of eight; slots keep identity, endpoints never move, their times never fall, an enrolled device changes only by a proven observation, rows stay unique, overflow is sticky; the revision rises by one if and only if the image changed. |
| `Discovery.ObservedKeeps` | src/tb4/discovery_catalogue.py:276-320 | Each single observation keeps them. |
| `Discovery.OutcomeMeans` | src/tb4/discovery_catalogue.py:276-320 | OBSERVED: the observation is the newest record of one entry and nothing else changed. Quarantined: it is in its row, or a newer one is, or overflow is marked, and no entry changed. Otherwise nothing changed. |
| `DiscoveryRules.ScopeExactly` | src/tb4/discovery_catalogue.py:96-107 | An observation is in scope exactly when its method is allowed and its address is a unicast host of a network of its interface. |
| `DiscoveryRules.AnsweredExactly` | src/tb4/discovery_catalogue.py:276-320 | For OBSERVED and for each quarantine reason, the exact condition on entries, endpoints and trust. |
| `DiscoveryRules.RecordedExactly` | src/tb4/discovery_catalogue.py:292-320 | What is OBSERVED is recorded for the device that has the endpoint, else for the one it is proven to be, else for a new one in the first free slot; nothing else changes. |
| `DiscoveryRules.BatchHintsStand` | src/tb4/discovery_catalogue.py:299-301 | Over a batch a recorded hardware hint changes only by an observation proven to be that device. |
| `DiscoveryRules.BatchOnlySeen` | src/tb4/discovery_catalogue.py:276-320 | Everything recorded or quarantined by a batch is one of its observations, in scope and fresh. |
| `DiscoveryRules.HintsMeet` | src/tb4/discovery_catalogue.py:291-320 | One unproven observation after which two devices bear one hint: an endpoint first seen without a hint takes one on that another device already bears. |
| `Discovery.KeptRows` | src/tb4/discovery_catalogue.py:262-275 | Quarantining keeps one row for each reason and endpoint; rows stay in place and only get newer. |
| `Discovery.Proven` | src/tb4/discovery_catalogue.py:165-172 | A device is given exactly when it is the only one that the bindings prove; a refusal means that two are proven. |
| `Fencing.AtomicDomain.AcquireLease` | tools/experiments/storage_fencing.py:34-47 | Who may acquire, and the new domain. |
| `Fencing.AtomicDomain.MutateValue` | tools/experiments/storage_fencing.py:53-60 | What is accepted, and the new domain and trace. |
| `FencingRules.GrantedExactly` | tools/experiments/storage_fencing.py:34-47 | The domain is granted exactly when it is seen as it is, for a positive time, while nobody else holds an unexpired lease, first with a commission; the epoch stays exactly for a renewal in time. |
| `FencingRules.ValueWasWritten` | tools/experiments/storage_fencing.py:22-60 | In every run the value is the one written last, or the first. |
| `Fencing.RunFenced` | tools/experiments/storage_fencing.py:22-60 | In every run, whatever the clock does, accepted events never go back an epoch, an epoch has one owner, each write follows the grant of its epoch, and a replaced snapshot never recurs. |
| `Fencing.WriteBetweenGrants` | tools/experiments/storage_fencing.py:34-60 | Each accepted write lies after the grant of its epoch and before every grant of a later one. |
| `Fencing.StaleWriteRefused` | tools/experiments/storage_fencing.py:53-60 | A write that observed a replaced snapshot, or names a past epoch, is refused for ever. |
| `Fencing.LeaseProtects` | tools/experiments/storage_fencing.py:34-47 | With a non-decreasing clock a holder keeps domain and epoch until any time that its lease, and each renewal it is granted, lasts to. |
| `Fencing.ShortRenewalLoses` | tools/experiments/storage_fencing.py:34-47 | After any granted renewal that ends before that time, a run in which another actor is granted the domain before it. |
| `Fencing.RenewalIsExact` | tools/experiments/storage_fencing.py:34-47 | A renewal is harmless up to that time, in all runs that follow, if and only if it lasts to it. |
| `Fencing.EarlyRenewalShortens` | tools/experiments/storage_fencing.py:34-47 | A run in which a holder's own early renewal loses it the domain before its first lease would have ended. |
| `Timing.RunsFromStart` | src/tb4/timing_contract.py:185-237 | In every run of the clock set from its start a clock is due exactly when it has an interval, at most one interval after the last time seen, and that time never goes back. |
| `TimingRules.ProfileExactly` | src/tb4/timing_contract.py:56-74 | A profile is accepted exactly when its numbers are in range and nobody who keeps the agreed intervals can look dead under the delays and skews it allows: lease, heartbeat, fetcher, publication. |
| `TimingRules.TrustExactly` | src/tb4/timing_contract.py:108-121 | Over untrusted samples the clock stays known exactly while wall and monotonic clock stay within the skew since they were anchored: small drifts do not add up unnoticed. |
| `TimingRules.SampleExactly` | src/tb4/timing_contract.py:108-121 | By how much one sample ages the clock, and what it does to trust and anchors. |
| `TimingRules.ModesOkExactly` | src/tb4/timing_contract.py:136-226 | A refresh accepts exactly the tables that `modes` can compute. |
| `TimingRules.RefreshExactly` | src/tb4/timing_contract.py:213-237 | Which clocks run after a refresh, with which interval, and when each is due. |
| `TimingRules.RouteExactly` | src/tb4/timing_contract.py:159-171 | The wait in the budget is that of the fastest open route; without one the fetcher must be started by hand. |
| `Timing.AfterOk` | src/tb4/timing_contract.py:213-237 | A mode refresh that keeps a clock active never postpones it. |
| `Timing.DueCompletionsSpaced` | src/tb4/timing_contract.py:207-211 | Two due completions of a clock whose interval stands are at least an interval apart. |
| `Timing.ClockSet.Complete` | src/tb4/timing_contract.py:207-211 | What a completion accepts and does. |
| `Timing.ClockSet.Changes` | src/tb4/timing_contract.py:213-237 | The loop over the refreshed clocks gives each its wanted interval and due time and leaves the others. |
| `Timing.ClockSet.Refresh` | src/tb4/timing_contract.py:213-237 | The mode refresh as a whole equals the specified step. |
| `Timing.ModesAccepted` | src/tb4/timing_contract.py:136-156 | Whatever `modes` computes is accepted; SLOW and EXITED only for a known, long enough idle fetcher that nothing holds. |
| `Timing.IdleNeverUndercounted` | src/tb4/timing_contract.py:82-134 | Across restarts from the persisted image, idle age is at least the idle time that passed by the processes' own clocks and trusted absences, up to its cap, and repeated sequences change nothing. |
| `Timing.TrustNeedsWall` | src/tb4/timing_contract.py:88-129 | Lost trust in the clock returns only with a trusted wall clock, at a sample or at a restart. |
| `Timing.ActivityClock.Restore` | src/tb4/timing_contract.py:88-106 | Restoring an image: age, sequence and trust after the absence. |
| `Timing.ActivityClock.SampleClock` | src/tb4/timing_contract.py:108-121 | One sample of both clocks and the age it reports. |
| `Timing.BudgetIsExact` | src/tb4/timing_contract.py:159-171 | A claim time lets every delivery within the stated bounds be read before its deadline, if and only if it is at least the budget. |
| `Timing.PollWithinRoute` | src/tb4/timing_contract.py:159-237 | The wait for a poll that the budget assumes is the one the clock set guarantees. |
| `Layout.WorstCaseBound` | src/tb4/exchange_layout.py:63-69 | The worst case of a legal capacity is at most 524288 bytes, with equality exactly at the largest one. |
| `Layout.SlotsTotal` | src/tb4/exchange_layout.py:63-83 | The budgets of all slots are the worst case less 9216 bytes. |
| `Layout.BudgetsImplyDocumentBound` | src/tb4/exchange_layout.py:99-126 | Records within their budgets make the compact text of the whole document, by the grammar of section 4 of RFC 8259 and for any order of keys, fit the worst case of its capacity. |
| `Layout.EmptyDocumentOk` | src/tb4/exchange_layout.py:86-97 | The document that provisioning starts from has exactly the slots of its capacity and passes every check on records, for every legal capacity. |
| `Layout.CollectSlots` | src/tb4/exchange_layout.py:72-83 | The nested loops collect exactly the slots of the capacity, in order. |
| `Layout.ExpandDocument` | src/tb4/exchange_layout.py:149-166 | Refuses exactly a shrinking, equal or exhausted expansion; otherwise every old record is kept, new slots are empty, and the result is again valid. |
| `Layout.ProvisioningPlan` | src/tb4/exchange_layout.py:174-192 | Only keys not started are created, only doubtful ones inspected, ready exactly when all are confirmed; refused exactly when one object serves two keys. |
| `FetcherProfile.RoundTrip` | src/tb4/fetcher_profile.py:150-197 | `expand(compact(v, r), r) == v` for every valid report, and any other enrollment is refused. |
| `FetcherProfile.LastCheckIsRedundant` | src/tb4/fetcher_profile.py:163-197 | Whatever passes the earlier checks of the decoder is the one code of its report. |
| `FetcherProfile.ExpandExactly` | src/tb4/fetcher_profile.py:150-197 | A code expands to a report exactly when it is that report's code under this enrollment. |
| `FetcherProfile.PollingExactly` | src/tb4/fetcher_profile.py:87-144 | Every computed polling part is valid; a valid one can be computed exactly when an active fetcher knows its clock and one held by its clock does not. |
| `Codecs.DeviceRoundTrip` | src/tb4/ballpark_records.py:31-46 | A device expands from its code to itself. |
| `Codecs.DeviceCodeUnique` | src/tb4/ballpark_records.py:31-46 | An accepted code is the one code of a valid device. |
| `Ballpark.Changes` | src/tb4/ballpark_publication.py:22-68 | Succeeds exactly when the document is that of the storage, the base still fits, every device has its slot and the result keeps the document's own checks, and otherwise names the first of these that fails; on success `shared` gives back the candidate, and every row keeps its discovery and is either unchanged or one generation on. |
| `Ballpark.PublishThenShared` | src/tb4/ballpark_records.py:86-115 | Reading what was published gives back the candidate catalogue. |
| `BallparkRules.SharedExactly` | src/tb4/ballpark_records.py:86-115 | A document reads as a catalogue exactly when registry and settings name it under one decision and revision, and each named row shows its device: that identity and alias, and its one code. |
| `BallparkRules.SlotExactly` | src/tb4/ballpark_publication.py:45-57 | A device has a slot exactly when one row alone was discovered as it, under its alias, with a generation left; and which refusal it is otherwise. |
| `BallparkRules.WritesExactly` | src/tb4/ballpark_publication.py:55-65 | Publishing writes each device's code into its own row, one generation on, and the header that names them; no other row changes. |
| `BallparkRules.OnlyItsSuccessorFollows` | src/tb4/ballpark_publication.py:22-40 | After a publication exactly the drafts made from that very candidate can follow. |

## Left out

- The object move covers one transition at a time, and only the IDENTITY entry of the ledger: UNKNOWN entries of other actions would only block more steps (their rules are in `EffectLedger`, and `RootLedger` places the move beside any of them).
- Grants, clocks, capability checks, pins and force requests in the move: a grant is the document's owner and epoch at the proof. Leaving out refusals allows more runs, so the safety results are not weakened by it.
- The effect write-ahead record of an installation is over-approximated: a requested start may land at any later time while the document still equals what it was prepared from. The `Effects` class itself is otherwise modelled only through `Reconciliation.Reconcile`.
- Reads whose refusal a later read of the same call repeats are not steps of their own: the first of the two document reads of a proof, the early look at the plan in `begin`, and the two earlier rounds of proof in both settlements. Reservations, roles and the owner's clock checks are left out too.
- RootMoves.RootMoves.Advance: `_ensure_plan` is a step of its own in the machine and not part of the method, an advance that finds a pending cursor is the inspection it turns into, and the inspection after a send is a separate call; the old cursor form without a `dispatch` field is left out.
- RootMoves.RootMoves.Begin: the store of preserved evidence, and the plan step that follows the first save, which is a step of its own in the machine.
- RootMoves.RootMoves.Inspect: a cursor that is not INVOKING, where inspection only reports what it reads.
- RootMoves.RootMoves.RevokePrepared: for a cursor that is already REVOKED the source returns the evidence again; that read is part of `RootMoves.RootMoves.SettleRevoked`.
- Folder relocation, rebind, adoption, retained and promotion variants of the move repeat the same cursor and plan with more fields.
- Profile evidence, instruction pins and the descriptor recheck of a commit are not part of this model; the rows it publishes are in `Ballpark`.
- CommandLeaf.ResultLeafIsBound: status leaves, and the retention and byte budget of the record around a leaf.
- Settings.PrivateSettings.Save: the byte limit of a frame is a flag, a torn file is taken never to decode because a frame carries its digest, and the readback after a promotion is taken to succeed. Digests are injective throughout.
- The network table's `sync_observations`, `approve` and `record_addressing`, which compute a candidate for an update.
- NetworkTable.RunOk: what else a rollback compares, besides the operations, is a flag; the setup store and the stores at target roots are distinct objects, and a directory is created together with its empty store.
- Commissioning.Setup.RollbackChoices: the network table's selection, which a rollback also replaces, is in `NetworkTable`.
- Commissioning.Setup.ReviewSettings: credentials, activation, and the rules by which `choose` freezes discovery, ballpark and enrollment payloads are not modelled.
- Discovery's `shared`, `status` and freshness display, and the syntax of interfaces and addresses; new random identities are parameters assumed fresh.
- JSON and schema parsing of requests is a datatype of what decoding yields; the byte budget of a record is a flag.
- Seconds are exact reals instead of Python floats; `quota_budget` and `effective_profile` are left out.
- Layout.BudgetsImplyDocumentBound: a text is the sequence of bytes of its encoding, one character for each; the body of a record is any such text.
- Text syntax of build and version strings, identities and paths.
- Native file adapters, the Drive and Docs client, command line, diagnostics, instruction pinning and key policy: authorization and input/output without a further state machine.
