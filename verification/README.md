# Verification of the InSpace bootstrap controller

A Dafny model of the parts of the InSpace Kubernetes modules whose safety does not show in any
single function, and proofs about them. Check it with `dafny verify dfyconfig.toml`.

## What is modelled

**The mutation ledger.** The InSpace API has no idempotency keys, so the bootstrap controller keeps
a ledger in the cluster status: a receipt for every create, firewall assignment, address rename and
removal. `Ledger` holds the receipts and all status transitions, each a function from the status in
the controller's memory to the status it wants stored, or a refusal. `LedgerRuns` runs any number of
controllers over one stored ledger: they restart at any point with any memory, their swaps conflict,
fail, or commit and still report an error, and their cloud calls are blocked locally or sent. An
event that is not possible leaves the state as it is, so the theorems speak about every event
sequence. Inventory reads of removal targets are events too, with any answer: an absence can be recorded
only by the controller whose last event was a read that showed it, and `LedgerReads` adds the order of
the two reads.

Calls are counted per slot and *generation*. The generation of a ledger entry advances when the entry
is dropped: when all attempts are cleared, and also when a completed rollback clears the receipts of
its slot (`vm_delete_fence.go:922-963`). Counting only the first kind would be wrong: in `LedgerEpochs`,
`KeyIsCalledTwice` gives a run without a clear-all that creates one key twice. That is the only way:
`SecondCreateFollowsClearing` and `SecondCreateFollowsAbsence` say what must have been committed, and
read, between the two grants. The grants are the points in order; a controller may hold a right for
long before it sends the call.

**The procedures.** `StatusStore` is the status file and the compare-and-swap over it as objects.
`ControllerPass`, `CreateDrivers`, `RemovalDrivers`, `SlotOrder` and `Teardown` are the controller's
procedures over them, written as the source runs them. Cloud answers, faults, clocks and the writes
of other controllers are arbitrary. Every procedure leaves a trace of writes, calls and decisive
reads, and the trace explains the controller's copy of the ledger at every point. Every trace obeys a
discipline, and `TraceIsRun` takes a whole disciplined trace, interleaved with other controllers, to a
run: so `TracedCallIsTheOnlyOne` holds of every call the procedures make. The orderings (which VM may
be created before which, what may be torn down when) are contracts about traces.

**Rolling resize.** `ResizeJournal` is the crash-resumable journal with its in-place updates and the
playbook driver, which may be cut after any journal write. `ResizeDriver` is the power and size
driver of one VM.

**Policies and addresses.** `AddressPool` has IPv4 prefixes, ranges and the pool checks,
`PortPolicy` the canonical text of a port policy, `NodePolicy` the node policy's generator, validator
and comparison. `Bits` relates the code's bit operations to block arithmetic.

**Smaller pieces.** `Signer` (with `Modular`) is the deterministic ECDSA signer over any group of
prime order, `JsonCheck` the duplicate-key checker over a token stream, `FirewallLimit` the per-VM
firewall limit under a listing that lags.

## Where the code differs from what one might expect

- A removal may be issued while its first absence is already on record (`removal_fence.go:171-182`),
  so the two reads behind an absent receipt need not both follow the DELETE; the theorem does not say so.
- `sameFirewallPolicy` cannot tell a lone empty endpoint from none, even without separators. The
  theorem identifies the two; `SeparatorsAreConfused` gives the inputs.
- `begin` compares with a recorded size only. `BeginNeverShrinksIff` gives the exact condition under
  which no finished run shrinks the size, `BeginAloneCanShrink` an input that does.
- With check and attach as one step, the firewall limit can be exceeded in three ways: a listing that
  shows a detached relation, an attach without an answer, and a restart. Each has its lemma, and each its
  condition in `Ordinary`. Two attaches that race between check and request would be a fourth.

## Model

| member | source | states |
|---|---|---|
| `StatusStore.StatusFile.Swap` | modules/cloud-provider/cmd/inspace-cluster-controller/status_store.go:21-114 | The locked file swap succeeds exactly when identity and current status are the expected ones and no fault occurs; a fault after the replacement leaves the new status durable while reporting failure. |
| `StatusStore.Ledgerkeeper.Persist` | modules/cloud-provider/pkg/bootstrap/create_fence.go:160-194 | Memory, stored status and reported result move exactly as one compare-and-swap of the run model: a refused transition and a conflict change nothing, an unchanged status succeeds without touching the store. |
| `LedgerRules.RemovalSource` | modules/cloud-provider/pkg/bootstrap/removal_fence.go:108-255 | After any transition a removal receipt is the old one, the old one edited by that very transition, or a fresh one; none vanishes unless its entry is retired. |
| `LedgerRules.LiveIssueOrigin` | modules/cloud-provider/pkg/bootstrap/create_fence.go:292-365 | Among all status transitions, only an issue makes an issue identity live. |
| `LedgerRules.AccountsKept` | modules/cloud-provider/pkg/bootstrap/create_fence.go:375-524 | Among all status transitions, a receipt that accounts for an issued call keeps doing so unless its slot is handed back or its entry retired. |
| `LedgerRules.OpensFromUnaccounted` | modules/cloud-provider/pkg/bootstrap/create_fence.go:331-364 | An issue is granted only where the ledger accounts for no call of the slot, and the ledger then accounts for exactly this one. |
| `LedgerRuns.GrantCommits` | modules/cloud-provider/pkg/bootstrap/create_fence.go:160-194 | A grant that is reported as a success is a commit of that very transition to the stored ledger. |
| `LedgerRuns.ClosedIsNotPotent` | modules/cloud-provider/pkg/bootstrap/create_fence.go:410-471 | Handing a slot back (pre-dispatch reset, recorded local block) never leaves the identity it had sent, or in anybody's hands. |
| `LedgerRuns.GrantIsAlone` | modules/cloud-provider/pkg/bootstrap/create_fence.go:292-365 | When a slot is granted, no call of the same slot and generation was sent or can still be sent. |
| `LedgerRuns.RunKeepsSafe` | modules/cloud-provider/pkg/bootstrap/create_fence.go:160-524 | The authority invariant holds through every run of any number of controllers: crashes, restarts with any memory, conflicts, commits reported as failures, blocked and sent calls. |
| `LedgerRuns.AtMostOneCall` | modules/cloud-provider/pkg/bootstrap/create_fence.go:292-365 | In every run from the empty ledger, at most one call per slot and generation reaches the provider, for creates, assignments, renames and every removal action. |
| `LedgerRuns.ReopenableMeansUnsent` | modules/cloud-provider/pkg/bootstrap/create_fence.go:410-524 | In every run, a missing, intent, rejected or adopted create receipt, or a removal receipt before its issued phase, proves that in this generation nothing was sent and nobody can still send. |
| `LedgerRuns.RightIsExclusive` | modules/cloud-provider/pkg/bootstrap/create_fence.go:292-365 | In every run, while a controller holds a right, no call of the same slot and generation was sent and no other controller holds a right to one. |
| `LedgerEpochs.KeyIsCalledTwice` | modules/cloud-provider/pkg/bootstrap/vm_delete_fence.go:922-963 | Calls are counted per generation and not per key: a run from the empty ledger, without any clear-all, sends two create calls of one key. |
| `LedgerEpochs.SecondCreateFollowsClearing` | modules/cloud-provider/pkg/bootstrap/vm_delete_fence.go:922-963 | In every run, between the grants of two create calls of one key there is a committed clear-all of creates or mutations, or a committed rollback clearing of that very key. |
| `LedgerEpochs.SecondCreateFollowsAbsence` | modules/cloud-provider/pkg/bootstrap/vm_delete_fence.go:288-367 | In every run without a clear-all, between the grants of two create calls of one key the receipt of the first call was cleared by a settled rollback whose own VM two different inventory reads had shown gone, spaced; for a VM create that VM is the one it was anchored to. |
| `LedgerShape.EveryLedgerIsShaped` | modules/cloud-provider/pkg/bootstrap/create_fence.go:239-373 | Every reachable ledger holds only receipts that are valid for what they carry, and no two issued assignments target one firewall. |
| `LedgerShape.PerformKeepsOneAssignment` | modules/cloud-provider/pkg/bootstrap/create_fence.go:331-373 | Every transition keeps at most one unresolved assignment per firewall. |
| `LedgerShape.PerformKeepsCreatesValid` | modules/cloud-provider/pkg/bootstrap/create_fence.go:239-279 | Every transition leaves every create receipt valid for its own kind, name and intent. |
| `LedgerShape.PerformKeepsRemovalsValid` | modules/cloud-provider/pkg/bootstrap/vm_delete_fence.go:147-191 | Every transition leaves every removal receipt valid: target UUID, address and names as kind, purpose and phase demand, phase within kind and purpose, issue fields exactly in issued phases, absence evidence only where it may be held. |
| `LedgerShape.AnchorIsStable` | modules/cloud-provider/pkg/bootstrap/create_fence.go:375-503 | In every run, a materialized or adopted receipt keeps its UUID and is never sendable again within its generation. |
| `LedgerShape.AbsenceIsEvidenced` | modules/cloud-provider/pkg/bootstrap/removal_fence.go:197-341 | In every run, a removal is absent only on two different inventory reads of the receipt's own VM, firewall or address, each made before the write that records it, the writes at least the spacing apart: a VM and a firewall were gone at both, an address (also that of a rolled-back VM, besides the VM itself) was gone or unassigned at the earlier one and gone at the later. |
| `LedgerShape.FinishAbsenceEvidence` | modules/cloud-provider/pkg/bootstrap/vm_delete_fence.go:288-367 | The committed write that settles a receipt pairs the read its controller has just made with the different read behind the first absence on record, of the same target and spaced; the first showed an absence, and both or neither were of the VM. |
| `LedgerShape.StepKeepsReadsOwn` | modules/cloud-provider/pkg/bootstrap/removal_fence.go:257-291 | Every event keeps that a read belongs to the controller that made it until that controller acts, so no two recorded absences rest on one read. |
| `LedgerReads.DeleteRestsOnUnassigned` | modules/cloud-provider/pkg/bootstrap/removal_fence.go:313-320 | In every run, a receipt that went from an issued unassign to a delete phase has, throughout its generation, two different spaced reads of its own address, the earlier one showing it gone or unassigned and the later one unassigned. |
| `LedgerReads.DeleteStartsUnassigned` | modules/cloud-provider/pkg/bootstrap/vm_delete_fence.go:725-747 | Among all status transitions, a removal receipt enters a delete phase of an address only by a settled unassignment, by a rollback cleanup of an address found unassigned, or as a new receipt for an address that was listed unassigned. |
| `LedgerReads.SecondReadIsLater` | modules/cloud-provider/pkg/bootstrap/removal_fence.go:257-291 | When controllers start from the stored status and the clock does not repeat a time, of the two reads behind an absent removal or a settled unassignment the first was made before, and the second after, the first absence was put on record: the second is a separately fetched observation and not a wait over the first. |
| `LedgerReads.OrderlyAbsenceExists` | modules/cloud-provider/pkg/bootstrap/removal_fence.go:261-291 | Such runs do reach an absent removal. |
| `LedgerReads.ForetoldMemoryLooksEarly` | modules/cloud-provider/pkg/bootstrap/removal_fence.go:261-291 | Without the start from the stored status the order can fail: a memory that foretells the record settles an absence on a read made before it. |
| `ProtectionRollback.CandidateIsSound` | modules/cloud-provider/pkg/bootstrap/firewall_assignment_rollback.go:91-206 | A selected slot carries the ledger's own assignment, VM and firewall receipts, expired, matching and anchored, so its rollback would be accepted. |
| `ProtectionRollback.SkippedMeansAtRest` | modules/cloud-provider/pkg/bootstrap/firewall_assignment_rollback.go:108-168 | Unless its receipts are refused, a slot is passed over exactly when it has no issued assignment, time left, or a VM that this ledger did not materialize. |
| `ProtectionRollback.SelectExpired` | modules/cloud-provider/pkg/bootstrap/firewall_assignment_rollback.go:91-206 | Selection yields a candidate exactly when no slot is refused and exactly one is not at rest, and it is that slot's own; nothing exactly when no slot is refused and all are at rest; it refuses otherwise. |
| `ProtectionRollback.RollbackIsJustified` | modules/cloud-provider/pkg/bootstrap/firewall_assignment_rollback.go:212-276 | A rollback receipt is added only while the stored assignment is unchanged, still issued and past its deadline, the VM receipt is materialized (never adopted) with that UUID, and the firewall is anchored. |
| `ProtectionRollback.MaterializedFirstPreventsRollback` | modules/cloud-provider/pkg/bootstrap/firewall_assignment_rollback.go:212-276 | Once an assignment is anchored, no later write of any candidate for it stores anything in the same generation. |
| `ControllerPass.AllowedMarkIsPossible` | modules/cloud-provider/pkg/bootstrap/reconciler.go:1432-1530 | Every write, call and target read that the trace discipline allows is a possible event of the run model, and both agree on what the controller may do next. |
| `ControllerPass.TraceIsRun` | modules/cloud-provider/pkg/bootstrap/create_fence.go:160-194 | A whole disciplined trace, interleaved in any way with the events of other controllers: all its writes, calls and reads of removal targets happen in the run, its unblocked calls are one for one what the run records as sent by it, and it ends with the memory that the trace explains. |
| `ControllerPass.TracedCallIsTheOnlyOne` | modules/cloud-provider/pkg/bootstrap/create_fence.go:292-365 | Every call of a disciplined pass, in any run from the empty ledger, is in the run's list of sent calls, and no other call of that slot and generation is, by any controller. |
| `ControllerPass.PassRepeatsOnlyAcrossGenerations` | modules/cloud-provider/pkg/bootstrap/create_fence.go:292-365 | Two calls of one slot within one pass belong to different generations. |
| `ControllerPass.FreeSlotCanBeCalled` | modules/cloud-provider/pkg/bootstrap/create_fence.go:292-365 | Disciplined traces with calls exist: over any stored ledger a controller that holds it can record an intent, be granted the call and send it, for every free slot whose issue no unresolved assignment blocks. |
| `ControllerPass.Pass.Persist` | modules/cloud-provider/pkg/bootstrap/create_fence.go:160-194 | One ledger write inside a pass, against arbitrary writes of others and arbitrary faults: success moves memory by exactly that transition, failure leaves it, a change is what the file holds, and the trace goes on explaining the memory. |
| `ControllerPass.Pass.Call` | modules/client/client.go:247-250 | A call is made only with its grant in hand; a call blocked locally was not sent and leaves the right to record that. |
| `ControllerPass.Pass.ReadFirewall` | modules/cloud-provider/pkg/bootstrap/removal_fence.go:533-552 | A firewall read is unreadable, without the firewall, or shows it; exactly what it showed is noted in the trace. |
| `ControllerPass.Pass.ReadTarget` | modules/cloud-provider/pkg/bootstrap/removal_fence.go:301-307 | An inventory read of a removal target is unreadable or shows it gone, unassigned or as it was; exactly what it showed is noted in the trace. |
| `CreateDrivers.Authorize` | modules/cloud-provider/pkg/bootstrap/create_fence.go:292-365 | Intent is recorded first when there is no receipt; a grant is exactly a successful issue write under a minted identity, which the file then holds live; a valid receipt past its intent is read-only; a malformed assignment name writes nothing. |
| `CreateDrivers.Record` | modules/cloud-provider/pkg/bootstrap/create_fence.go:375-405 | A successful record leaves the receipt anchored to that UUID for exactly that intent. |
| `CreateDrivers.AnchorFound` | modules/cloud-provider/pkg/bootstrap/reconciler.go:1347-1375 | A listed object is adopted when nothing was issued, materialized when a call was, and otherwise must match the anchored UUID; nothing is ever called. |
| `CreateDrivers.CreateGranted` | modules/cloud-provider/pkg/bootstrap/reconciler.go:1437-1530 | With the grant in hand at most this slot's own call is made, and success means its receipt is anchored to the returned UUID. |
| `CreateDrivers.ResolveBlocked` | modules/cloud-provider/pkg/bootstrap/reconciler.go:1477-1503 | A locally blocked call is first recorded as rejected; nothing is called again, and success means what appeared is anchored. |
| `CreateDrivers.EnsureFirewall` | modules/cloud-provider/pkg/bootstrap/reconciler.go:2012-2171 | Only this firewall's own create is called, never when it is listed or its receipt is past intent, and success means its receipt is anchored to the firewall that was listed or read back. |
| `CreateDrivers.EnsureAssignment` | modules/cloud-provider/pkg/bootstrap/reconciler.go:2625-2760 | Only this assignment's own POST is sent, never past its intent; success means this pass read exactly this VM behind exactly this firewall and the ledger then held that relation as anchored. |
| `CreateDrivers.EnsureAddressName` | modules/cloud-provider/pkg/bootstrap/reconciler.go:2350-2488 | Only this address's own rename is sent, never past its intent; success means this pass read the address with its name and its receipt is anchored to the VM. |
| `RemovalDrivers.Observe` | modules/cloud-provider/pkg/bootstrap/removal_fence.go:293-341 | An absence is recorded only directly after a read in this call that showed it, of what the receipt is about; nothing is sent, at most the own receipt is edited, and settled means absent or past the rolled-back VM. |
| `RemovalDrivers.ObserveTwice` | modules/cloud-provider/pkg/bootstrap/removal_fence.go:261-291 | Each of the two observations that records anything does so directly after its own read of the target; nothing is sent and at most the own receipt is edited. |
| `RemovalDrivers.RecordRead` | modules/cloud-provider/pkg/bootstrap/removal_fence.go:197-234 | One absence write, directly after the read of the receipt's target that showed it. |
| `RemovalDrivers.SendRemoval` | modules/cloud-provider/pkg/bootstrap/removal_fence.go:488-524 | Only this receipt's own slots are called and only this receipt is edited; a firewall DELETE directly follows its granted issue and a read that listed the receipt's own firewall without assignments. |
| `RemovalDrivers.ReadFirewallAuthority` | modules/cloud-provider/pkg/bootstrap/removal_fence.go:526-574 | Authority after the issue is present only on a read that listed exactly this UUID with no assignments, and missing only when the listing did not show it. |
| `RemovalDrivers.DriveRemoval` | modules/cloud-provider/pkg/bootstrap/vm_delete_fence.go:434-497 | One step of a removal touches only its own receipt and calls only its own slots; an issued receipt is only observed, never sent again. |
| `RemovalDrivers.DriveRollback` | modules/cloud-provider/pkg/bootstrap/vm_delete_fence.go:965-1004 | A rollback works only on its own receipt, and is done only with the write that clears the VM, assignment, rename and removal receipts together. |
| `RemovalDrivers.FollowAddress` | modules/cloud-provider/pkg/bootstrap/vm_delete_fence.go:635-735 | While a rollback waits for its VM's address nothing is sent, and the only write records the address found; after the VM is gone nothing is sent either, the absence of the address is recorded only directly after a read that showed it, and its cleanup is scheduled exactly as the read showed it, attached or unassigned. |
| `Places.CreateKeysDiffer` | modules/cloud-provider/pkg/bootstrap/create_fence.go:90-131 | No two create-side keys coincide: VM, assignment and rename keys of any places, and the two firewall keys. |
| `Places.RemovalKeysDiffer` | modules/cloud-provider/pkg/bootstrap/removal_fence.go:15-23 | No two removal keys coincide: VM and address keys of any places, and the two firewall keys. |
| `SlotOrder.EnsureVM` | modules/cloud-provider/pkg/bootstrap/reconciler.go:1324-1531 | Only this place's own VM and assignment are called, nothing when the VM is listed, no VM call past its intent; success means the VM receipt was anchored to the returned VM, and for an unlisted one also that this pass read that VM behind that firewall and anchored their relation. |
| `SlotOrder.EnsureProtection` | modules/cloud-provider/pkg/bootstrap/reconciler.go:2538-2612 | Protection succeeds only when this pass read exactly this VM behind exactly this firewall and anchored their relation, also when the deadline has passed. |
| `SlotOrder.Contain` | modules/cloud-provider/pkg/bootstrap/firewall_assignment_rollback.go:281-302 | Containment creates nothing and persists only well-chosen rollbacks. |
| `SlotOrder.ResumeRollbacks` | modules/cloud-provider/pkg/bootstrap/vm_delete_fence.go:1006-1028 | Resuming a rollback creates nothing, writes no VM removal receipt and deletes no firewall. |
| `SlotOrder.EnsureBastion` | modules/cloud-provider/pkg/bootstrap/reconciler.go:434-475 | Only the bastion's own calls are made, and the pass goes on only with the bastion protected: its VM and firewall receipts anchored, that VM read behind that firewall, their relation anchored. |
| `SlotOrder.FillSlots` | modules/cloud-provider/pkg/bootstrap/reconciler.go:503-552 | The slot loop keeps the creation order and finishes only with every slot protected, each by the node firewall's own receipt and with its own VM. |
| `SlotOrder.Reconcile` | modules/cloud-provider/pkg/bootstrap/reconciler.go:234-610 | In every pass, a control-plane VM POST for slot j comes after this pass, for the bastion and for every slot below j, anchored that place's own VM and firewall, read the one behind the other and anchored exactly that relation; readiness means every place is protected so. |
| `Teardown.WaitBook.Pending` | modules/cloud-provider/pkg/bootstrap/reconciler.go:1180-1195 | The wait for a VM's address is pending until the bound has passed since the first call for that VM. |
| `Teardown.RemoveAddresses` | modules/cloud-provider/pkg/bootstrap/reconciler.go:811-869 | The pass goes past the addresses only when none is listed, and then has edited address receipts only. |
| `Teardown.RemoveVM` | modules/cloud-provider/pkg/bootstrap/reconciler.go:871-924 | A VM removal receipt is first written only with the address slot's removal receipt on record or the bounded wait over. |
| `Teardown.AwaitVMs` | modules/cloud-provider/pkg/bootstrap/reconciler.go:925-944 | The pass goes on to firewalls only when every VM removal receipt is absent. |
| `Teardown.RemoveFirewall` | modules/cloud-provider/pkg/bootstrap/reconciler.go:945-998 | A firewall DELETE directly follows its issue and a read that listed the receipt's own firewall without assignments; the pass goes on only when the firewall is not listed. |
| `Teardown.TearDown` | modules/cloud-provider/pkg/bootstrap/reconciler.go:734-1005 | One pass keeps the teardown order for VM receipts and firewall DELETEs, and is done only with an empty listing, absent VM receipts and a cleared ledger. |
| `Teardown.DestroyOnce` | modules/cloud-provider/pkg/bootstrap/reconciler.go:616-1006 | A whole destroy call drives an active rollback first, keeps the teardown order over the ledger that leaves, and is done only with an empty listing, absent VM receipts and a cleared ledger. |
| `ResizeJournal.Journal.Begin` | deploy/scripts/control_plane_resize.py:155-172 | Begins, resumes or refuses exactly as the journal function says; a refusal changes nothing. |
| `ResizeJournal.Journal.Clear` | deploy/scripts/control_plane_resize.py:175-183 | Drops a record exactly when no server was started or finished. |
| `ResizeJournal.Journal.SlotStart` | deploy/scripts/control_plane_resize.py:193-203 | Starts exactly a known, unfinished server while no other one is in progress. |
| `ResizeJournal.Journal.SlotDone` | deploy/scripts/control_plane_resize.py:206-216 | Finishes exactly a known server while no other one is in progress, without repeating it. |
| `ResizeJournal.Journal.Finish` | deploy/scripts/control_plane_resize.py:219-227 | Records the target exactly when every server is completed and none is in progress. |
| `ResizeJournal.RunsNeverShrink` | deploy/scripts/control_plane_resize.py:98-227 | Over every run whose begins use a decided target, completed servers are distinct and known, at most one other is in progress, and the recorded size never shrinks in either dimension. |
| `ResizeJournal.BeginNeverShrinksIff` | deploy/scripts/control_plane_resize.py:155-227 | After an accepted begin, every finished run, whatever server work comes between, records a size no smaller than before exactly when the target is no smaller than what the servers run at. |
| `ResizeJournal.BeginAloneCanShrink` | deploy/scripts/control_plane_resize.py:155-172 | Without a recorded size, begin alone accepts a target below the installed size that classify refuses. |
| `ResizeJournal.ResumableIsDecided` | deploy/scripts/control_plane_resize.py:98-152 | From every crash point the decision is not refused, keeps the target, and its pending servers are exactly those after the completed prefix; no need for work means the size is already right. |
| `ResizeJournal.Drive` | deploy/playbooks/tasks/apply-control-plane-resize.yml:30-71 | The in-order driver, cut after any number of journal writes, leaves a journal from which it is never refused; a run that is not cut short records the target and clears the progress. |
| `ResizeJournal.RepeatedNameIsRefused` | deploy/scripts/control_plane_resize.py:193-203 | With a repeated server name the second start is refused, so distinct names are needed. |
| `ResizeDriver.Resizer.PowerAndWait` | modules/cloud-provider/pkg/bootstrap/resize.go:370-398 | Every request directly follows a read of the source state, repeats are at least the resend interval apart, success is a read of the wanted state, and the wait ends. |
| `ResizeDriver.Resizer.WaitStatus` | modules/cloud-provider/pkg/bootstrap/resize.go:401-416 | Only polls, and succeeds only on a read of the wanted state. |
| `ResizeDriver.Resizer.WaitForAddress` | modules/cloud-provider/pkg/bootstrap/resize.go:316-341 | Only polls, and succeeds only on a VM that reports an address. |
| `ResizeDriver.Resizer.Inspect` | modules/cloud-provider/pkg/bootstrap/resize.go:231-304 | Nothing is sent; success means the journaled address (or none while stopped) and a size not above the request. |
| `ResizeDriver.Resizer.ApplyCompute` | modules/cloud-provider/pkg/bootstrap/resize.go:196-218 | One size change to the requested size and one read; success means the target size was read, or echoed when the read failed. |
| `ResizeDriver.Resizer.StartOnly` | modules/cloud-provider/pkg/bootstrap/resize.go:101-131 | Never stops and never changes the size; starts only after a read of stopped. |
| `ResizeDriver.Resizer.Resize` | modules/cloud-provider/pkg/bootstrap/resize.go:136-191 | For every cloud behaviour: at most one size change, directly after a read of stopped and never below the inspected size; stop directly after running, start directly after stopped, repeats spaced; success means the last read showed target size and journaled address. |
| `AddressPool.PrefixIsInterval` | modules/cloud-provider/pkg/bootstrap/reconciler.go:3825-3833 | A prefix is exactly the interval from its first to its last address. |
| `AddressPool.WordsMeanBlock` | modules/cloud-provider/pkg/bootstrap/reconciler.go:3766-3777 | The code's bit operations are the model's numbers: all ones shifted right by the length are the host bits, masking them out gives the first address, setting them the last, and membership is differing in no other bit. |
| `AddressPool.OverlapMeansShared` | modules/cloud-provider/pkg/bootstrap/reconciler.go:4083-4085 | Two prefixes of either family pass the overlap test exactly when they share an address. |
| `AddressPool.RangeOverlapMeansShared` | modules/cloud-provider/api/v1alpha1/types.go:452-461 | A range passes the overlap test with a prefix exactly when they share an address. |
| `AddressPool.AcceptedPoolIsSafe` | modules/cloud-provider/pkg/bootstrap/reconciler.go:3760-3838 | Every address of an accepted pool is private (section 3 of RFC 1918), a usable subnet host, not the virtual address, and outside the pod and service networks. |
| `AddressPool.SomePoolIsAccepted` | modules/cloud-provider/api/v1alpha1/types.go:403-429 | Accepted pools exist: a concrete one beside the default pod and service networks. |
| `PortPolicy.CanonicalEndpoints` | modules/client/node_load_balancer_firewall.go:191-220 | Accepts exactly no endpoints for any, or distinct canonical IPv4 prefixes, and returns them sorted. |
| `PortPolicy.CanonicalRule` | modules/client/node_load_balancer_firewall.go:145-170 | Accepts exactly an inbound TCP or UDP rule for one valid port with accepted endpoints, and returns its key. |
| `PortPolicy.Canonicalize` | modules/client/node_load_balancer_firewall.go:138-175 | Accepts exactly the non-empty lists of accepted rules on distinct ports, and returns their canonical text. |
| `PortPolicy.KeyMeans` | modules/client/node_load_balancer_firewall.go:164-170 | Two accepted rules have the same key exactly when they open the same port to the same endpoint set. |
| `PortPolicy.KeysAreDistinct` | modules/client/node_load_balancer_firewall.go:164-169 | An accepted policy never repeats a key, so the duplicate-key check cannot fire after the duplicate-port check. |
| `PortPolicy.GraphIsMapping` | modules/client/node_load_balancer_firewall.go:156-162 | An accepted policy opens each protocol and port to one endpoint set. |
| `PortPolicy.CanonicalTextMeansMapping` | modules/client/node_load_balancer_firewall.go:138-175 | Two accepted policies have the same canonical text exactly when they map the same protocol and port pairs to the same endpoint sets. |
| `PortPolicy.EndpointTextsAreFaithful` | modules/client/node_load_balancer_firewall.go:203-206 | Canonical endpoint texts of the same block are the same text. |
| `NodePolicy.Validate` | modules/cloud-provider/pkg/bootstrap/reconciler.go:3646-3742 | The validator accepts exactly the valid policies. |
| `NodePolicy.ValidHasOneEach` | modules/cloud-provider/pkg/bootstrap/reconciler.go:3646-3742 | An accepted policy holds exactly one inbound and one outbound rule per protocol. |
| `NodePolicy.ValidAdmitsExactly` | modules/cloud-provider/pkg/bootstrap/reconciler.go:3691-3718 | An accepted policy admits inbound traffic of each protocol exactly from the subnet and the pod network. |
| `NodePolicy.GeneratedIsValidIff` | modules/cloud-provider/pkg/bootstrap/reconciler.go:3441-3455 | The generator's rules for two IPv4 networks are accepted exactly when both base addresses are private. |
| `NodePolicy.GeneratedIsAccepted` | modules/cloud-provider/pkg/bootstrap/reconciler.go:3752-3758 | With a subnet that the callers accept and the fixed pod network, the generator's policy is always accepted. |
| `NodePolicy.SamePolicy` | modules/cloud-provider/pkg/bootstrap/reconciler.go:2867-2898 | The comparison is multiset equality of normalized rule texts. |
| `NodePolicy.NormalMeansCore` | modules/cloud-provider/pkg/bootstrap/reconciler.go:2873-2887 | Separator-free rules normalize alike exactly when they say the same apart from UUID and endpoint order. |
| `NodePolicy.ComparisonMeansSameRules` | modules/cloud-provider/pkg/bootstrap/reconciler.go:2867-2898 | On separator-free rules the comparison is multiset equality of what the rules say. |
| `NodePolicy.SeparatorsAreConfused` | modules/cloud-provider/pkg/bootstrap/reconciler.go:2884-2886 | A comma inside an endpoint reads as two endpoints, and a lone empty endpoint reads as none. |
| `Signer.DeriveKey` | modules/cloud-provider/pkg/bootstrap/cache.go:187-195 | Every seed gives a key from 1 to n-1, congruent to the seed plus one modulo n-1, and a public point other than zero. |
| `Signer.BelowOrderFits` | modules/cloud-provider/pkg/bootstrap/cache.go:218-222 | Values below the order fit the fixed octet width, so writing them out never fails. |
| `Signer.Octets` | modules/cloud-provider/pkg/bootstrap/cache.go:218-222 | Fixed-width big-endian octets have the width asked for and stand for the value. |
| `Signer.FirstSignature` | modules/cloud-provider/pkg/bootstrap/cache.go:243-268 | Nonces are drawn in stream order and the first one that gives a signature is used. |
| `Signer.SignaturesVerify` | modules/cloud-provider/pkg/bootstrap/cache.go:253-263 | Whatever nonce was used, a signature that comes out is in range and satisfies the verification equation in any group of prime order. |
| `Signer.Sign` | modules/cloud-provider/pkg/bootstrap/cache.go:215-269 | The signature is the one of the first usable nonce of section 3.2 of RFC 6979, in range, and verifies under the public point. |
| `Modular.InverseInverts` | modules/cloud-provider/pkg/bootstrap/cache.go:259 | Modulo a prime, every number from 1 to n-1 has the inverse that extended Euclid finds. |
| `JsonCheck.ReadMeansStartsWithValue` | modules/client/client.go:399-451 | A value is read exactly when the tokens start with those of a value without repeated keys, and exactly those tokens are consumed. |
| `JsonCheck.Decoder.CheckValue` | modules/client/client.go:399-451 | The recursive checker succeeds exactly when a value can be read, and consumes exactly its tokens. |
| `JsonCheck.Decoder.CheckMembers` | modules/client/client.go:407-433 | Object members are read up to the matching brace, with every key a string that was not seen before. |
| `JsonCheck.Decoder.CheckItems` | modules/client/client.go:434-447 | Array items are read up to the matching bracket. |
| `JsonCheck.Decoder.Check` | modules/client/client.go:382-397 | The input is accepted exactly when it is one value in which no object at any depth repeats a key, followed by the end of input. |
| `FirewallLimit.Tracker.Remember` | modules/cloud-provider/pkg/cloudprovider/node_loadbalancer_firewall_limit.go:58-69 | Records one acknowledged attachment with its time and changes nothing else. |
| `FirewallLimit.Tracker.Forget` | modules/cloud-provider/pkg/cloudprovider/node_loadbalancer_firewall_limit.go:72-80 | Drops one remembered attachment, and the VM's entry with its last one. |
| `FirewallLimit.Tracker.Recent` | modules/cloud-provider/pkg/cloudprovider/node_loadbalancer_firewall_limit.go:84-100 | Returns exactly the unexpired attachments of a VM and drops the expired ones. |
| `FirewallLimit.Scan` | modules/cloud-provider/pkg/cloudprovider/node_loadbalancer_firewall_limit.go:107-115 | Collects exactly the firewalls whose listing shows the VM, ignoring case. |
| `FirewallLimit.Tracker.Capacity` | modules/cloud-provider/pkg/cloudprovider/node_loadbalancer_firewall_limit.go:106-130 | Allows exactly a firewall that is listed or remembered for the VM, or one more within the limit. |
| `FirewallLimit.LimitIsNeverExceeded` | modules/cloud-provider/pkg/cloudprovider/node_loadbalancer_firewall_limit.go:44-130 | Over every sequence of answered attaches, detaches, clock advances and restarts with a faithful listing, a VM that starts within the limit never exceeds it, also when detaches fail or go unanswered; a restart needs every relation to be old enough to be listed. |
| `FirewallLimit.StaleListingExceeds` | modules/cloud-provider/pkg/cloudprovider/node_loadbalancer_firewall_limit.go:106-118 | A listing that still shows a detached relation lets its firewall back in above the limit. |
| `FirewallLimit.UnansweredAttachExceeds` | modules/cloud-provider/pkg/cloudprovider/node_loadbalancer_firewall_limit.go:56-69 | An attachment that committed without an answer lets the next one go above the limit. |
| `FirewallLimit.RestartExceeds` | modules/cloud-provider/pkg/cloudprovider/node_loadbalancer_firewall_limit.go:56-69 | A process restart forgets an acknowledged attachment that the listing need not show yet, and the next one goes above the limit although every listing is faithful. |

## Left out

- LedgerRuns.AtMostOneCall: issue identities are assumed fresh, because they are 128 random bits in the source.
- LedgerRuns.RunKeepsSafe: a controller's memory is replaced only on a restart, when it holds no right, because one pass works on one copy of the status; the status fields other than the two ledgers are one opaque value.
- LedgerShape.PerformKeepsRemovalsValid: the validators' comparison with the cluster's deterministic names, location and billing account is left out: those are fixed texts of the cluster that each call passes in anew. All conditions on a receipt's own fields are in.
- LedgerShape.EveryLedgerIsShaped: a receipt is valid for the kind, name and intent it carries; that the caller's intent hash is a hash of the request is left abstract.
- SlotOrder.Reconcile: listings and validations before the first mutation are one arbitrary decision to go on; ownership, billing, network and readiness reads are arbitrary answers.
- ControllerPass.TraceIsRun: reads other than those of removal targets are marks of the trace and not events of the run; what a read answers is arbitrary, because the model has no cloud state.
- LedgerShape.AbsenceIsEvidenced: the several requests behind one VM read (detail, listing, network membership) are one read.
- SlotOrder.Reconcile: says when a call may be sent, not that progress is made; the store and the cloud may refuse for ever.
- Teardown.DestroyOnce: the legacy resource names and the assignment-drift checks are part of the arbitrary decision to go on.
- RemovalDrivers.SendRemoval: the authority read before a VM, unassign or address call is an arbitrary answer; only the firewall's is read from a listing.
- RemovalDrivers.ReadFirewallAuthority: name, billing account, network and managed policy of the firewall are one arbitrary answer.
- RemovalDrivers.DriveRollback: the address of a rollback is any one the listing gives; its ownership checks are arbitrary answers.
- ResizeJournal.Drive: the resize of a server between two journal writes is not part of this driver; a start may be skipped, as the playbook does for a server that is already right.
- ResizeJournal.RunsNeverShrink: malformed JSON values in the journal file are left out, because the model's journal is typed; so is the report-only mode of classify.
- ResizeDriver.Resizer.Inspect: ownership, UUID and billing proofs are arbitrary answers.
- ResizeDriver.Resizer.Resize: says nothing about a size that somebody else changed after the inspection.
- AddressPool.AcceptedPoolIsSafe: text syntax of addresses is left out; prefix arithmetic is on integers, with the code's bit operations tied to it by AddressPool.WordsMeanBlock.
- PortPolicy.Canonicalize: CIDR parsing is any function to prefixes; only its formatting counterpart is concrete.
- NodePolicy.Validate: management access is left out, because every caller passes none; a subnet or pod network in IPv6 is treated as holding no address.
- Signer.Sign: the nonce loop is cut after a given number of draws, because nothing bounds it in the source; hash and curve arithmetic are arbitrary.
- JsonCheck.Decoder.Check: starts from the decoder's tokens; the lexical rules of JSON are left out.
- FirewallLimit.LimitIsNeverExceeded: checking and attaching are one step, and the hypotheses on listings, answers and restarts are needed, as the three counterexamples show.
- HTTP transport, timeouts, cloud-init and certificate rendering, Kubernetes wiring, and the shell and Ansible text: they would only add easy members.
- The bastion firewall's own policy: it would repeat the node policy with other constants.
- File-system durability below the status swap: the swap is atomic and may commit and still report an error.
