# Sandcube: a verified model

Sandcube runs sandboxes on one host. An API process keeps a journal of sandboxes in SQLite and drives a
containerd adapter that owns containers, disk quotas, networks and processes. Either side can be killed at any
moment, and a call from one to the other can fail after it took effect. This project models the parts that must
stay right through that, and proves what they promise.

- `Lifecycle.dfy` is the journal as a transition system: an `Event` is one committed transaction, one runtime call
  with its outcome, a crash, or something the environment does, and a run is a sequence of events. A lost or refused
  call may have had its effect or not. `LifecycleSafety.dfy` proves what holds in every reachable state,
  `LifecycleHistory.dfy` what holds along every run, and `CrashEquivalence.dfy` that interruptions do not change
  where an operation ends.
- `ApiProcess.dfy` is `Reliability` itself: `request`, `converge` and `reconcile`, capacity admission and the image
  store, as methods that change the tables and call the runtime step by step. Each step is recorded in a ghost run
  that is legal in the transition system, so killing a method anywhere is a prefix of its run followed by a crash
  (`Lifecycle.KilledAnywhere`), and every theorem about runs is a theorem about the code.
- `QuotaJournal.dfy` is the adapter's create, start, stop and delete with its disk quota journal. The API process
  holds an adapter and makes its runtime calls on it; what the journal sees of the runtime is what the adapter's
  store holds. That gives the bound across both layers without a hypothesis on the adapter.
- `Network.dfy` is the address allocator and the ownership journal of links, namespaces and firewall tables.
- `Processes.dfy` is durable process execution: the saved record, the entry in memory and the runtime's exec.
- `LogCapture.dfy` and `Bundle.dfy` are the bounded collectors and the executable bundle.
- `UstarFormat.dfy` says what a ustar archive is, as relations between bytes and members, with every spelling of names
  and numbers that the format allows. `UstarParser.dfy` is the extractor's reading of it, proved to agree in both
  directions, `BuildContext.dfy` the extraction itself, and `UstarPrinter.dfy` a printer of archives.

Commands, saves and calls that can fail do so nondeterministically, with or without their effect. A method that
returns at the first failure therefore passes through the state after every prefix of its steps, and its
postcondition on the failing exits speaks about each of them.

Assumptions: transactions are atomic; one API process holds the lock and the adapter serves one operation per
sandbox at a time; the effect of a lost call is not applied later; a task can stop by itself but not start; generated
identifiers are fresh, snapshot numbers are never reused, and digests, interface and table names are injective; the
capacity budgets never change, because `Capacity#configure` refuses budgets that differ from the saved ones.

A clause "undisturbed" means that every runtime call was answered and that no container changed by itself in the
meantime. Time may pass and images may be built and deleted. "Nothing fails" means that no foreign step of the adapter
and no exchange with it failed, and that no container changed by itself; it says nothing about answers, so that calls
are answered then is a theorem.

## Findings

- A refresh of a stopped sandbox is two commits, the status and the release of processors and memory. Killed between
  them, the sweep leaves a stopped sandbox that still holds both (`LifecycleHistory.RefreshCutShort`), and this is the
  only way a stopped sandbox comes to hold them (`LifecycleHistory.StoppedHoldsCompute`). The budgets still hold, and
  the next answered sweep releases them.
- An exit code that was saved can be lost. If the save replaced the file and was then reported as failed, the watcher
  goes on polling, and if the runtime loses the exec it saves an error over the exit (`Processes.ExitLost`). A saved
  exit is final exactly when no watcher is polling (`Processes.ExitIsFinal`).
- The cleanup sweep can drop the runtime's record of a process with only the start intent saved
  (`Processes.UnansweredStartUnsaved`). It does so exactly when the start failed, saving that failed before it took
  effect, and the adapter has not been restarted since (`Processes.DroppedUnsaved`).
- A replay of a stored definitive create failure raises that failure again exactly when its stored status is at least
  400 (`ApiProcess.Api.CreateTwice`). The adapter in this repository fails only with statuses of 400 and above, so it
  never sends a smaller one.
- Retrying a teardown can cut the connections of another sandbox. A teardown that deleted its firewall table but not its
  record leaves a record with an address that is free to be given away (`Network.SharedIsSafe`), and the retry clears
  the tracked connections of the recorded address. It spares every other sandbox exactly when no other table has that
  address, or the address has no connections (`Network.NetworkJournal.ClearFlows`).
- A packaged bundle with an empty payload, or with a manifest over 65536 bytes, is written without complaint and
  refused by its own launcher; `Bundle.RoundTrip` has the exact condition.

## Model

| member | source | states |
|---|---|---|
| LifecycleSafety.NoOvercommit | src/capacity.cr:21-27 | after every run with crashes, lost calls and sweeps, the reserved cpu, memory and disk each fit the budget; so do the cpu and memory of journalled sandboxes whose task is running, the disk of those whose container exists, and their quota records |
| LifecycleSafety.FitsExact | src/capacity.cr:21-27 | the admission test passes exactly when the table with the row written stays within all three budgets |
| LifecycleSafety.GrantedIsHeld | src/reliability.cr:151-157 | what the runtime has given to journalled sandboxes never exceeds what their rows have reserved, for each resource |
| LifecycleSafety.ReservationsByStatus | src/reliability.cr:154-157 | in every reachable state a running row holds its full limits, a deleted one nothing, a stopped one its disk and either all or none of its processors and memory, and disk is held in full until deletion begins |
| LifecycleHistory.StoppedHoldsCompute | src/reliability.cr:203-204 | after every run a stopped sandbox holds processors or memory if and only if the last write to its row is the status commit of a refresh whose release was not committed |
| LifecycleHistory.RefreshCutShort | src/reliability.cr:203-204 | for every acceptable sandbox that fits the host there is such a run: a sweep killed between the two commits |
| LifecycleSafety.PendingOrSettled | src/reliability.cr:58-68 | in every reachable state a row has no intent exactly when it is running, stopped, error or deleted, and an unanswered key always has a sandbox with an intent, so a retry whose converge returns finds a reply |
| LifecycleSafety.ImagesPinned | src/images/store.cr:32-71 | in every reachable state each image reference points to a READY image, and a journalled sandbox whose container exists still holds the reference to its image, so no image behind a live container is being deleted |
| LifecycleSafety.AcceptCreateKeeps | src/reliability.cr:79-122 | the create transaction, with its reservation, image reference and key, keeps every invariant, including the three budgets |
| LifecycleSafety.AcceptKeeps | src/reliability.cr:107-121 | recording start, stop, restart or a superseding delete keeps every invariant |
| LifecycleSafety.CallKeeps | src/reliability.cr:133-150 | a runtime call keeps every invariant whatever its outcome, with its effect or without |
| LifecycleSafety.SettleKeeps | src/reliability.cr:151-158 | settling keeps every invariant: capacity and the image reference are released only when the runtime has let go |
| LifecycleSafety.CompensateKeeps | src/reliability.cr:168-174 | turning a refused create into a deletion keeps every invariant |
| LifecycleSafety.RefreshKeeps | src/reliability.cr:199-207 | the status commit of a refresh keeps every invariant: a task that runs is always reserved for |
| LifecycleSafety.ReleaseKeeps | src/reliability.cr:204 | so does the release commit: only a halted task gives up its processors and memory |
| LifecycleSafety.OrphanKeeps | src/reliability.cr:214-222 | deleting an unaccounted container keeps every invariant, whatever the outcome |
| LifecycleSafety.ImageKeeps | src/images/builder.cr:111-135 | every step of a build or an image deletion keeps every invariant, though the store's own updates to ERROR and DELETED are unguarded |
| LifecycleSafety.StepKeeps | src/reliability.cr:52-235 | every one of the atomic steps keeps the whole invariant and the budget |
| LifecycleSafety.RunKeeps | src/reliability.cr:52-235 | so does every run, from any state in which the invariant holds |
| Lifecycle.KilledAnywhere | src/reliability.cr:6-7 | every prefix of a run followed by a crash is a run, and the crash loses only the process's own progress |
| LifecycleHistory.KeyStep | src/reliability.cr:158-173 | one step leaves a bound key alone or answers it for the first time, and then with the settled document or the definitive failure of its own sandbox |
| LifecycleHistory.KeyBound | migrations/002_reliability.sql:15-23 | along every run an accepted key stays bound to one fingerprint, sandbox and action, and its answer, once there, never changes |
| LifecycleHistory.DeletionAbsorbs | src/reliability.cr:107-118 | once a delete intent stands, on every run every later mutating call for the sandbox is DELETE, no capacity is reserved again, and disk and image reference are released only after a DELETE was acknowledged |
| LifecycleHistory.RestartBoundary | src/reliability.cr:142-145 | once the journal has moved a restart to its start, no stop call follows for the sandbox until a new stop or restart is accepted, through any crashes and retries |
| LifecycleHistory.RestartBounces | src/reliability.cr:142-145 | a restart that has settled, through any crashes and retries and without a newer request, had an acknowledged stop and after it an acknowledged start |
| LifecycleHistory.RowFixed | src/reliability.cr:86-106 | along every run the configuration and the expiry of a sandbox never change |
| LifecycleHistory.StoredDocuments | src/reliability.cr:151-161 | after every run a document stored under a key is that of the key's own sandbox: its identifier, its configuration and its expiry |
| CrashEquivalence.InterruptedStep | src/reliability.cr:128-162 | no step, crash, lost response or refused call in the course of an operation changes the end it is heading for; only the compensation of a refused create, expiry, a newer request and a change of this very container do |
| CrashEquivalence.InterruptedRun | src/reliability.cr:128-162 | nor does any run of them, with anything at all happening to other sandboxes |
| CrashEquivalence.CrashEquivalent | src/reliability.cr:128-162 | any two runs that settle an accepted operation through any number of crashes, lost responses and refused calls, without compensation, expiry, a newer request or a change of this very container, end with the same row, container, quota record, image reference and stored replies, and these are the ones the operation was for |
| ApiProcess.Api.CreateTwice | src/reliability.cr:58-69 | the same create under the same key a second time gets the first reply; after an accepted create that the runtime refused, it gets the same failure if and only if the status is at least 400 |
| ApiProcess.Api.Handle | src/reliability.cr:52-126 | a key used for another request is refused and nothing happens; an answered key is replayed without a runtime call; a returned reply is what every replay returns; the document returned has the identifier, configuration and expiry of the sandbox that was asked for, in the status asked for and without error, and a time to live counts from a moment within the request; a retry returns the sandbox of the first request; a failure is stored under a new key exactly when it is the definitive refusal of an accepted create; a refused request leaves the tables as they were, the reason given is so, unaccounted containers included, and a key is called bad exactly when it is not 1 to 200 printable characters; a request that is not refused, and a retry, returns if every runtime call is answered, and so it does if nothing fails and the runtime has the container that the action needs |
| ApiProcess.Api.Retry | src/reliability.cr:66-67 | a returned reply is the stored one and tells identifier, configuration and expiry of the key's sandbox, at the end of what was pending; it returns if every runtime call is answered, and if nothing fails and the runtime has what is needed; a failure is stored exactly when a pending create was refused definitively |
| ApiProcess.Api.Admit | src/reliability.cr:70-124 | a new request changes the tables only by being accepted, also when the inventory call fails; what it returns is the document of the sandbox asked for and is stored under its key, and what it raises exactly for an accepted create that was refused definitively; what a refusal says is so; undisturbed, new work is refused as unaccounted exactly when the runtime has a container that the journal does not account for, or knows the generated identifier |
| ApiProcess.Api.Enter | src/reliability.cr:79-124 | past the inventory a request is refused exactly when it is not acceptable, and otherwise carried out |
| ApiProcess.Api.Carry | src/reliability.cr:123-124 | an accepted request that returns gives the document of the row it was written to: that identifier, configuration and expiry, deleted, stopped or running as asked; it returns if nothing fails and the runtime has what the action needs |
| ApiProcess.Api.CheckInventory | src/reliability.cr:70-77 | work goes on only if the runtime's containers are all accounted for, is refused as unaccounted only if one is not, and a failed inventory call changes no table |
| ApiProcess.Api.CheckCreate | src/reliability.cr:79-106 | a create is turned down exactly when it is not acceptable, with the reason that applies first: limits, command and time to live, unknown image, image not ready, no room |
| ApiProcess.Api.CreateTransaction | src/reliability.cr:79-122 | all of row, reservation, image reference and key are committed, or nothing is |
| ApiProcess.Api.AcceptTransaction | src/reliability.cr:107-121 | a later action is recorded exactly when nothing is pending or it is a delete, the sandbox is not deleted and there is room; otherwise nothing changes and the reason given applies |
| ApiProcess.Api.Used | src/capacity.cr:22 | the loop over the table computes the sum of one reservation column over the other sandboxes |
| ApiProcess.Api.HasRoom | src/capacity.cr:21-25 | admission succeeds exactly when all three amounts fit beside the other reservations |
| ApiProcess.Api.Exchange | src/reliability.cr:133-150 | a call carried out by the adapter, with its answer or without, is one legal step of the journal with an effect that the journal allows; what the adapter accepts is answered well exactly when no step fails |
| ApiProcess.Api.Call | src/reliability.cr:133-150 | a runtime call advances the operation exactly if it was answered well, which it is if nothing fails and the adapter accepts it, and never touches journal, keys or references |
| ApiProcess.Api.Drive | src/reliability.cr:133-150 | the calls of an intent in order; they all succeed if nothing fails and the runtime has what the intent needs; answered without disturbance they leave the container as the intent demands and every other sandbox as it was |
| ApiProcess.Api.SettleTransaction | src/reliability.cr:151-161 | the settling commit is one legal step of the journal |
| ApiProcess.Api.CompensateTransaction | src/reliability.cr:171-174 | the compensating commit is one legal step of the journal |
| ApiProcess.Api.Converge | src/reliability.cr:128-183 | it succeeds exactly if every runtime call is answered, whatever containers do, and so it does if nothing fails and the runtime has what the intent needs; success leaves no intent and answers every waiting key with the document; a definitive create failure is stored as the answer and no other failure is; only this sandbox's row and keys are touched; undisturbed it reaches the operation's end |
| ApiProcess.Api.ReleaseTransaction | src/reliability.cr:204 | the release commit is one legal step of the journal, separate from the status commit |
| ApiProcess.Api.SettleDue | src/reliability.cr:190-198 | a sandbox whose expiry has passed is deleted when this succeeds, and it succeeds exactly if every runtime call is answered |
| ApiProcess.Api.SweepOne | src/reliability.cr:190-213 | if every call is answered nothing stays pending, whatever containers do, and a sandbox whose expiry has passed is deleted; every call is answered if nothing fails and the runtime has what is needed; undisturbed, expiry, pending work and refresh leave the sandbox settled with the runtime down to its reservation, and a settled one that does not expire meanwhile exactly as it was |
| ApiProcess.Api.SweepOrphans | src/reliability.cr:214-228 | undisturbed, every suspect the journal does not account for is gone and everything else is as it was |
| ApiProcess.Api.Reconcile | src/reliability.cr:185-235 | if every call is answered no intent is left, whatever containers do, and every sandbox whose expiry had passed at the start is deleted with nothing of it left in the runtime; undisturbed, every status and reservation equals what the runtime says, or error for a missing container, and no unknown container is left; over such a state, if nothing expires before it ends, it changes no row, key, reference or container; an operation that does not expire ends exactly where an uninterrupted one would; and it is undisturbed if nothing fails and the runtime has what the pending operations need |
| ApiProcess.Api.SweepAfterCrashes | src/reliability.cr:185-213 | an accepted operation, any number of crashes, lost responses and refused calls, and then one undisturbed sweep: the sandbox is exactly where every run that settles the operation takes it |
| ApiProcess.SweepConverges | src/reliability.cr:185-232 | the work on the rows and on the inventory together reach the converged state |
| ApiProcess.SweepReachesAll | src/reliability.cr:185-232 | the sweep as a whole takes every operation that is not overdue to the end it was for |
| LifecycleHistory.ImageDeletionAbsorbs | src/images/store.cr:61-82 | once the deletion of an image has begun, on every run it is never READY again and no sandbox ever refers to it |
| ApiProcess.Api.SubmitImage | src/images/store.cr:23-26 | a submitted image is BUILDING and in the hands of its worker, and nothing else changes |
| ApiProcess.Api.FinishBuild | src/images/builder.cr:111-135 | a finished build becomes READY or ERROR and no reference is affected |
| ApiProcess.Api.InterruptBuilds | src/images/store.cr:79-81 | after a restart every image that was BUILDING is ERROR and no other image changes |
| ApiProcess.Api.FinishImageDelete | src/images/builder.cr:154-159 | when an image deletion completes, still no sandbox refers to the image |
| QuotaJournal.Adapter.PrepareQuota | services/containerd-runtime/quota.go:193-208 | the ownership record comes before the limits; it succeeds exactly when no step fails and the size is between 16 and 1048576 MiB, and then the record is there and the verified limits are 2048 blocks and 256 inodes to the MiB |
| QuotaJournal.Adapter.ReclaimQuota | services/containerd-runtime/quota.go:209-265 | a record disappears only when the directory is gone, no blocks and no inodes were seen in use, and the limits were cleared; success means it is gone, and nothing but a failed step or the deadline prevents it |
| QuotaJournal.Adapter.Create | services/containerd-runtime/runtime.go:104-189 | an existing container with the requested limits is success and one with other limits a conflict, and either way nothing changes; otherwise it succeeds exactly when no step fails and the size is allowed; whatever fails on the way, the effect is one that the journal expects of a create call, and a container exists only with its record and matching limits |
| QuotaJournal.Adapter.Start | services/containerd-runtime/runtime.go:220-260 | a missing container is reported as such; an existing one is started exactly when no step fails, and then with its enforced limits; whatever fails, the effect is one that the journal expects |
| QuotaJournal.Adapter.Stop | services/containerd-runtime/runtime.go:261-306 | a missing container is reported as such; an existing one is stopped exactly when no step fails; whatever fails, the effect is one that the journal expects, and records, limits, snapshot and usage stay |
| QuotaJournal.Adapter.Delete | services/containerd-runtime/runtime.go:334-374 | it succeeds exactly when no step fails, and then leaves neither container nor record; a record goes only after zero usage was seen |
| QuotaJournal.Adapter.ReconcileQuotas | services/containerd-runtime/quota.go:266-291 | the sweep drops only records whose container and snapshot are both gone, and changes no other; it succeeds exactly when no step fails, and then every record left has a container or a snapshot |
| QuotaJournal.Adapter.Serve | services/containerd-runtime/runtime.go:104-374 | whether or not a request arrives and its answer comes back, every verb has an effect that the journal allows, and no other sandbox changes; a request that the adapter accepts is answered well exactly when no step fails |
| QuotaJournal.UsePaid | services/containerd-runtime/quota.go:126-163 | the blocks and inodes used under a record never exceed what its size allows |
| QuotaJournal.UseWithinRecords | services/containerd-runtime/quota.go:126-163 | summed over any set of sandboxes, use stays within the recorded sizes |
| ApiProcess.Api.DiskBound | docs/resources-networking.md:27-37 | wherever API process and adapter stand together, the recorded sizes of journalled sandboxes sum to at most the host's disk budget, and so do the blocks and inodes they use |
| ApiProcess.Api.DiskBoundThroughout | docs/resources-networking.md:27-37 | so at every moment of the run, and wherever within an operation the process is killed |
| ApiProcess.Api.Operate | docs/resources-networking.md:27-37 | so after every history of requests, sweeps, interference and kills between them |
| Network.AddressValue | services/containerd-runtime/network.go:128-143 | the four octets are valid and are the pool's first address plus four times the slot plus the host |
| Network.AddressInPool | services/containerd-runtime/network.go:28-32 | every address of every slot passes the check that teardown makes before clearing connections |
| Network.BlocksDisjoint | services/containerd-runtime/network.go:128-143 | no address belongs to two slots |
| Network.PoolIsSlots | services/containerd-runtime/network.go:28-32 | every address that passes the check belongs to a slot |
| Network.ProbeCovers | services/containerd-runtime/network.go:127-128 | from any start the wrapped probe visits every slot, and each only once |
| Network.FindSlot | services/containerd-runtime/network.go:126-149 | finds the first slot in probe order with neither route nor retained firewall, and reports exhaustion exactly when there is none |
| Network.SharedIsSafe | services/containerd-runtime/network.go:117-157 | a record left behind by a teardown does not reserve its address, so two sandboxes can come to record the same one |
| Network.NetworkJournal.ClearFlows | services/containerd-runtime/network.go:28-45 | success leaves no tracked connection of the guest, the address check never fails for a recorded guest, and the connections of other sandboxes are spared exactly unless one of them has the same address and connections on it |
| Network.NetworkJournal.Teardown | services/containerd-runtime/network.go:192-260 | from any partial state, success means everything of the sandbox is gone, and it succeeds exactly when no command fails; wherever it stops, objects have records, links have firewalls, the records and kernel objects of other sandboxes are untouched, and only connections of the recorded address were cut, which spares every other sandbox unless it shares that address |
| Network.NetworkJournal.Claim | services/containerd-runtime/network.go:117-154 | the address recorded belongs to no other firewall table and carries no connection of an earlier owner |
| Network.NetworkJournal.SetUp | services/containerd-runtime/network.go:105-180 | success means everything is in place at an address of its own; wherever it stops, objects have records, links have firewalls, and live tables have distinct guests |
| Network.NetworkJournal.Reconcile | services/containerd-runtime/network.go:261-282 | takes down what belongs to no running sandbox and leaves record, firewall, namespace, link and resolver of every running one; without failures no other record remains |
| Network.NetworkJournal.Operate | services/containerd-runtime/network.go:105-282 | any sequence of setups, teardowns, sweeps and host restarts, failing anywhere, keeps ownership, distinct guests and no stale connections |
| Processes.RunKeeps | services/containerd-runtime/processes.go:73-300 | the invariant tying saved record, memory and runtime together holds after every run |
| Processes.AtMostOnce | services/containerd-runtime/processes.go:79-145 | for one request, every run of retries, failed saves, crashes and recoveries issues the runtime's start at most once |
| Processes.SavedBeforeDropped | services/containerd-runtime/processes.go:278-294 | once a start was answered, watcher, recovery and cleanup ask the runtime to drop its record only when a terminal status is saved |
| Processes.DroppedUnsaved | services/containerd-runtime/reliability.go:253-284 | for any start, they do so with a terminal status saved if and only if it is not the case that the start failed, saving that failed before taking effect, and the adapter has lived on since |
| Processes.UnansweredStartUnsaved | services/containerd-runtime/processes.go:124-137 | such a run exists for every request and exit code: cleanup drops the record with only the intent saved |
| Processes.ExitIsTrue | services/containerd-runtime/processes.go:254-282 | a saved exit code is always the runtime's own |
| Processes.ExitIsFinal | services/containerd-runtime/reliability.go:184-246 | a saved exit is never changed again, through any later crashes and recoveries, if and only if no watcher is polling |
| Processes.ExitLost | services/containerd-runtime/processes.go:222-237 | while one is polling it can be lost: for every request and exit code there is a run in which an exit reaches the disk and is then overwritten |
| Processes.ErrorMeansLost | services/containerd-runtime/reliability.go:184-246 | on every run, a process whose start was answered is saved as an error only if the runtime lost its exec |
| Processes.ExitKept | services/containerd-runtime/reliability.go:184-246 | and if it did not, then once nobody works on the process its exit is saved with the runtime's own code, also if it exited while the adapter was down |
| Processes.RequestBound | services/containerd-runtime/processes.go:85-91 | the saved fingerprint of a request never changes |
| Processes.KilledAnywhere | services/containerd-runtime/reliability.go:147-148 | every prefix of a run followed by a crash of the adapter is a run |
| Processes.ProcessTable.StartProcess | services/containerd-runtime/processes.go:73-216 | a known request is answered from memory and issues nothing, another fingerprint conflicts, a new one is started exactly when the task runs and no step fails, with running saved, and at most one start has ever been issued |
| Processes.ProcessTable.Watch | services/containerd-runtime/processes.go:218-300 | the watcher ends only with a terminal status saved, and does so at the first poll if the process is not running and no step fails; a saved exit code is the runtime's |
| Processes.ProcessTable.Recover | services/containerd-runtime/reliability.go:143-249 | recovery starts nothing; it succeeds exactly when no step fails, and then every saved process is watched again or finished with a terminal status, and requests are served |
| Processes.ProcessTable.RecoverStopped | services/containerd-runtime/reliability.go:232-246 | a process that exited meanwhile keeps its record: if that is not terminal it is watched again, so that its exit code is collected, and if it is the runtime's record is dropped |
| Processes.ProcessTable.RecoverMissing | services/containerd-runtime/reliability.go:198-212 | a process unknown to the runtime keeps a terminal status, and is saved as an error otherwise |
| Processes.ProcessTable.Cleanup | services/containerd-runtime/reliability.go:253-284 | cleanup changes no saved record or entry; it succeeds exactly when no step fails, and then no finished process has a runtime record left |
| LogCapture.Collector.Capture | services/containerd-runtime/logger.go:60-108 | the stream is drained to the end whatever fails; it succeeds exactly without failures, and then keeps exactly what fits and marks exactly what was cut |
| LogCapture.LimitedBuffer.Write | services/containerd-runtime/runtime.go:383-394 | after any writes the buffer is the first mebibyte of all that was written, truncated exactly when there was more, and every write claims all of its bytes |
| LogCapture.Agree | services/containerd-runtime/runtime.go:383-399 | collector and buffer keep the same bytes and flag of the same stream, however each receives it |
| LogCapture.WholeThenWhole | services/containerd-runtime/logger.go:76-99 | capturing a stream piece by piece is capturing it at once |
| Bytes.LittleEndianRoundTrip | scripts/package.cr:17 | a number written in so many bytes is read back exactly when it fits |
| Bundle.CheckEntries | src/cli/bundle.cr:34-39 | the walk accepts exactly the entries with nonempty, ordered, disjoint ranges that end before the manifest, and well-formed digests |
| Bundle.Read | src/cli/bundle.cr:21-42 | reading succeeds on exactly the files that are a body, a manifest of at most 65536 bytes, its length and the magic, with an acceptable manifest, and returns that manifest |
| Bundle.OneReading | src/cli/bundle.cr:23-31 | a file is a bundle in at most one way |
| Bundle.Package | scripts/package.cr:4-19 | the file is the launcher, the payloads, the manifest and the trailer, and each entry records where its payload went |
| Bundle.RangeHoldsPayload | scripts/package.cr:10-14 | every recorded range slices out exactly its payload |
| Bundle.RoundTrip | scripts/package.cr:7-19 | reading a packaged file returns its manifest if and only if no payload is empty and the manifest fits; each range of the file holds its payload |
| BuildContext.HeadSafe | src/images/context.cr:36-40 | whatever a header says, the path taken from it has only components that lead down |
| BuildContext.Clash | src/images/context.cr:52-61 | a member that is refused for its path makes every archive that continues this way inconsistent |
| BuildContext.Destination.MakeDirs | src/images/context.cr:55-57 | directories are created exactly when no prefix is a file |
| BuildContext.Destination.CreateFile | src/images/context.cr:57-62 | a file is written in full with its mode exactly when nothing is in the way and the archive holds all of it; it is never opened twice |
| BuildContext.Destination.ReadPadding | src/images/context.cr:20-29 | the end is accepted exactly when it is two zero blocks and zeros within the limit |
| BuildContext.Destination.Extract | src/images/context.cr:12-70 | on every byte stream what is written stays below the destination, within 256 MiB and 10000 entries; it succeeds exactly when the stream is an archive, in any spelling the format allows, of consistent members within the limits, and then leaves exactly their tree |
| UstarParser.OctalRoundTrip | src/images/context.cr:76-81 | an octal field is read back as the number printed |
| UstarParser.NumberExact | src/images/context.cr:76-81 | a field is read as a number exactly when it writes that number: octal digits between white space, up to the first zero byte, or white space alone for zero |
| UstarParser.SplitJoin | src/images/context.cr:36-40 | splitting a joined path gives its components back |
| UstarParser.NameExact | src/images/context.cr:36-40 | a name is taken for a path exactly when it spells that path, with any empty and dot components, and is safe |
| UstarParser.HeadExact | src/images/context.cr:33-51 | a block is taken for a header exactly when it describes a member: checksum, name, kind 0, zero byte or 5, size and mode |
| UstarParser.ParseExact | src/images/context.cr:18-66 | the bytes are read as these members exactly when they are an archive of them |
| UstarPrinter.HeaderPrinted | src/images/context.cr:33-43 | a printed header describes its member, however its path is spelled and split over prefix and name |
| UstarPrinter.ArchivePrinted | src/images/context.cr:18-66 | a printed sequence of members, with any padding, is an archive of exactly them |
| UstarPrinter.ExtractPrinted | src/images/context.cr:12-70 | extracting a printed archive succeeds if and only if its members are consistent and within the limits, and then yields exactly those paths, modes and bytes |

## Left out

- HTTP routing, JSON decoding, error mapping, the CLI, the installer, metrics, logging and timers; timestamps and counters are not part of any row.
- SQLite and SQL text: transactions are atomic updates of maps.
- containerd, gVisor, BuildKit, nft, ip, conntrack, quotactl and ioctl: each call is one step that may fail with or without its effect.
- Delayed delivery of a lost call, and containers removed or created by an operator while an operation on that very sandbox is being compared with an uninterrupted one.
- `KillProcess`, timeouts, `settleProcesses` and `forgetProcesses`: they only signal, wait, or end the lifetime that the process model is about.
- Processes without a history directory, and process requests without an identifier, which get a fresh one each time.
- Foreground execution, the file API and the firewall rule text.
- Corrupt journal files: records are read back as they were written.
- `snapshotQuotaPath` and the mount checks: projects are identified by numbers.
- Gzip: extraction starts from the decompressed bytes. Stripping of numeric fields covers ASCII white space only.
- Which message a failed extraction raises: every failure is one refusal.
- Concurrency of the adapter's goroutines on different processes: each process is modelled by its own run, and the runs do not interact.
- Processes.ProcessTable.Watch: polls a given number of times instead of forever, so it promises nothing about when a process is noticed to have exited.
- QuotaJournal.Adapter.ReclaimQuota: polls a given number of times instead of until a deadline, so it promises nothing about when storage is reclaimed.
- CrashEquivalence.CrashEquivalent: for start, stop and restart the container must exist when the operation is accepted, because the runtime otherwise answers with a definitive error.
- ApiProcess.Api.Handle: the identifier generated for a new sandbox is taken to be in no row, as the generator promises.
