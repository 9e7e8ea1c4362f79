# Helpers control plane: verified model

A Dafny model of the control plane of a hosting platform: the capacity ledger of its compute nodes, the one-slot protocol
that clones virtual machines, the SQLite schema migrator, backups and clone restores, job state machines with their
workers, and the locale carried by URLs and a cookie. `dafny verify dfyconfig.toml` checks all of it.

| Files | What they model |
|---|---|
| `Resources`, `Capacity`, `Ledger`, `LedgerInvariants`, `LedgerRuns`, `LedgerPromises`, `LedgerStore`, `LedgerRace`, `LedgerSessions` | Node counters, Helper Compute reservations, checkouts and Proxmox claims drawing on them, as transactions of any clients; what callers may rely on; the same over a class with the rows as fields; sessions that write back what they read earlier |
| `CloneSlot`, `CloneSafety`, `CloneTheorems`, `CloneCleanup`, `CloneLate` | Approvals, intents, the global slot, VMID leases, processes that crash anywhere, the provider's machines, and their cleanup; what writes that come late do |
| `Lowest`, `VmidLease`, `VmidRace` | The scan for the lowest free VMID, alone and among rivals |
| `Schema`, `Rebuild`, `Migrate`, `MigrateRuns`, `MigratePrograms`, `MigrateStore` | SQLite tables with their rows, the rebuild that relaxes a NOT NULL, migrations as programs, and the helpers with their loops over a live database |
| `Query`, `Locale`, `LocaleSession` | Query strings on bytes, URL splitting, `with_locale`, the cookie over whole sessions |
| `Snapshot`, `SnapshotRuns`, `Archiver`, `ArchiveRuns`, `Drill` | Backups and restores as interleaved steps, filestores read directory by directory and file by file while tenants write, and the disaster-recovery drill |
| `JobRuns`, `JobService`, `CloudLease` | The two transition tables, what the services do to a provisioning job, and claims and leases of cloud requests |
| `UatLoop`, `WorkerLoops` | The worker loops |

A table is a sequence of rows in id order and a row is named by its index; node ids are ranks in their order. The clock,
generated ids, the provider's answers, health checks and crashes are parameters of the steps, so every statement over runs
holds for all of them. Digests (contract bindings, ownership markers, SHA-256 checksums) are injective by assumption: a
digest stands for what was hashed.

## Where the code and its description differ

- The capacity formula in the node table's description leaves out the committed bucket; the code subtracts it in one check
  of `reserve_capacity` and forgets it in the other. The second check is the real one exactly when nothing is committed.
- `reserve_capacity` is described as an atomic conditional update. It reads, decides and writes back; the statements of
  `LedgerRace` say exactly when that oversells. Release, expiry, checkout and payment do the same with the hold's row;
  `LedgerSessions` says exactly when that is harmless. The Proxmox path really is conditional.
- Release and expiry are written to work from any non-terminal state. No code creates a draft row, on which they would give
  back capacity never taken; the invariant includes that none exists.
- The real clone transport keeps the slot after success, so cleanup, which wants the slot free, is never possible for a
  real clone. A refusal between intent and call keeps the slot, too.
- A demo-clone claim sets the status that its worker's second eligibility test refuses.
- `enqueue_job` lets a failed job in again without looking at its attempts.
- A backup whose policy leaves out the filestore succeeds and never verifies. The row's database checksum is not compared
  on restore, and an artifact that the manifest does not list is not checked at all.
- The filestore is archived file by file while its tenant may write, so a backup can hold a filestore that never was.
- Cleanup is described as deleting only the exact VM of its job. Nothing is claimed between its check and its delete call,
  and the record afterwards frees the lease row whoever has it by then; reconciliation and the release of a VMID write
  such rows in the same way. `CloneCleanup` says exactly when that is harmless.
- The allocator is described as safe among concurrent callers. It is for different jobs; two calls for one job can leave it
  with two leases.
- The manual provisioner re-queues failed requests beyond max_attempts.
- The status failed is listed as terminal for cloud requests and has outgoing transitions; the transitions count here.

## Model

| member | source | states |
|---|---|---|
| `Capacity.Preferred` | control-api/app/services/helper_compute/capacity.py:157-166 | the chosen node fits and comes first in the order (most available CPU, then node id) among all that fit; none is chosen exactly when none fits |
| `Capacity.FitIsExact` | control-api/app/services/helper_compute/capacity.py:31-48 | on an active node without overcommit a request fits exactly when reserving it leaves no overcommit |
| `Capacity.SecondCheckIsImplied` | control-api/app/services/helper_compute/reservation.py:388-401 | the re-check of `reserve_capacity` adds nothing to the first check on the same row |
| `Capacity.SecondCheckIsRealIff` | control-api/app/services/helper_compute/reservation.py:388-401 | the re-check forgets the committed bucket: it implies the real check for every request exactly when nothing is committed |
| `Capacity.SecondCheckMissesCommitted` | control-api/app/models.py:1713-1721 | the documented formula without the committed bucket would sell a sold-out node again |
| `Capacity.WholeNodeFitsOnce` | control-api/app/services/helper_compute/capacity.py:31-48 | a concrete node that fits a request once and not twice |
| `LedgerInvariants.LedgerIsSound` | control-api/app/models.py:1713-1743 | after every run of every transaction by any clients: reserved and committed equal the opening value plus the sums over the rows of both tables, no node is overcommitted on any resource, keys are unique, checkouts and holds agree, and the event log replays to every row |
| `LedgerInvariants.StepKeepsInv` | control-api/app/models.py:1771-1789 | every single transaction keeps that invariant, rejected ones included |
| `LedgerInvariants.EndHoldKeepsInv` | control-api/app/services/helper_compute/reservation.py:494-574 | release and expiry give back exactly what the row holds; the floor at zero never bites |
| `LedgerInvariants.ReserveKeepsInv` | control-api/app/services/helper_compute/reservation.py:323-449 | a reservation takes exactly its quote from one node that has room, or changes nothing |
| `LedgerInvariants.ConfirmKeepsInv` | control-api/app/services/helper_compute/reservation.py:757-818 | a payment moves the amount from reserved to committed, and hold and checkout stay in step |
| `LedgerInvariants.AcquireKeepsInv` | control-api/app/services/helper_compute/proxmox/reservation.py:200-276 | the conditional UPDATE keeps the invariant whatever outdated snapshot the node was picked from |
| `LedgerInvariants.ConsumeKeepsInv` | control-api/app/services/helper_compute/proxmox/reservation.py:325-352 | consuming a Proxmox claim moves its amount to committed |
| `LedgerInvariants.ReserveCases` | control-api/app/services/helper_compute/reservation.py:336-401 | `reserve_capacity` does nothing, or adds one hold under a new key on a node that fits it |
| `LedgerInvariants.ReservedCoversHold` | control-api/app/services/helper_compute/reservation.py:528-530 | the reserved counter is never smaller than a live hold, so `max(0, …)` never loses capacity |
| `LedgerRuns.EndedHoldsNeverChange` | control-api/app/models.py:1785-1788 | in every run from any state a committed, released, expired or cancelled hold is never written again, and no hold changes its key |
| `LedgerRuns.RefusalsWriteNothing` | control-api/app/services/helper_compute/reservation.py:336-800 | a refused call changes no row, counter or event; only a late checkout expires the hold it found |
| `LedgerRuns.RetryReturnsFirstReservation` | control-api/app/services/helper_compute/reservation.py:339-352 | whatever ran in between, reusing an idempotency key returns the first reservation and writes nothing |
| `LedgerRuns.SweepExpiresItsRows` | control-api/app/services/helper_compute/reservation.py:577-601 | a sweep expires exactly the rows its query returned; every other hold, checkout, claim and quote is as before |
| `LedgerRuns.SweepOrderIsIrrelevant` | control-api/app/services/helper_compute/reservation.py:595-598 | in whatever order the rows come back, counters and rows end up the same, and equal to those recomputed from the surviving rows |
| `LedgerRuns.SweepsDrainBacklog` | control-api/app/services/helper_compute/reservation.py:577-601 | because of the LIMIT, k sweeps clear min(backlog, k·limit) holds, and from then on a sweep changes nothing |
| `LedgerRace.LateReserveIsExactIffUntouched` | control-api/app/services/helper_compute/reservation.py:379-406 | a reservation written back from an earlier read leaves counters and rows in agreement exactly when no counter it changes was changed in between |
| `LedgerRace.LateReserveFitsIffRowStillFits` | control-api/app/services/helper_compute/proxmox/reservation.py:200-213 | such a write keeps the node within its total exactly when the WHERE clause of the conditional UPDATE would have matched |
| `LedgerRace.SecondWriterHidesFirst` | control-api/app/services/helper_compute/reservation.py:379-406 | two clients that read the same row: the second write hides the first, and the node is oversold unless it had room for both |
| `LedgerRace.TwoClientsOversell` | control-api/app/services/helper_compute/reservation.py:379-406 | both clients pass both checks whenever the request fits once and not twice, and the node is oversold |
| `LedgerSessions.WriteIsExactIffRight` | control-api/app/services/helper_compute/reservation.py:379-818 | any write-back from an earlier read (reservation, release, expiry, checkout, payment, claim) is made whatever the row is by then, and leaves counters and rows in agreement exactly if it is right for what the row and the counters are at that moment |
| `LedgerSessions.LateEndIsExactIff` | control-api/app/services/helper_compute/reservation.py:494-601 | a release or expiry (a sweep loads up to 100 rows and asks for none again) is exact by what the hold is at the write: still held and no counter moved; ended by somebody else, and each counter moved by just its amount since it was read; or sold, and it asks for nothing |
| `LedgerSessions.LateBindIsExactIff` | control-api/app/services/helper_compute/reservation.py:640-750 | a checkout, which moves no counter, is exact only over a hold that still holds or asks for nothing |
| `LedgerSessions.LateConfirmIsExactIff` | control-api/app/services/helper_compute/reservation.py:757-818 | a payment is exact if both its counters are, each by whether the hold is still held and not yet sold at the write |
| `LedgerSessions.LateClaimEndIsExactIff` | control-api/app/services/helper_compute/proxmox/reservation.py:297-400 | a claim’s amount is computed in SQL, so ending an active claim is exact whatever has moved; a second end is exact only where nothing is left to take |
| `LedgerSessions.BalancedIffRight` | control-api/app/services/helper_compute/reservation.py:379-818 | in any interleaving of such sessions, counters and rows agree after every write exactly if every write is right in that sense |
| `LedgerSessions.CountersStayNonnegative` | control-api/app/services/helper_compute/reservation.py:528-530 | however late the writes, no reserved counter falls below zero |
| `LedgerSessions.DoubleEndGivesBackTwice` | control-api/app/services/helper_compute/reservation.py:524-574 | two sessions that both found a hold held give it back twice if the second reads the node row after the first has committed: wrong exactly if the node had more reserved of a resource it asked for |
| `LedgerSessions.SameSightIsHarmless` | control-api/app/services/helper_compute/reservation.py:524-574 | if both had read the node row before, the second write is the first again |
| `LedgerSessions.BoundAfterTheEnd` | control-api/app/services/helper_compute/reservation.py:700-818 | a checkout bound over a hold ended meanwhile holds capacity that no counter has, and is paid for all the same |
| `LedgerPromises.EndPromise` | control-api/app/services/helper_compute/reservation.py:494-574 | in a ledger that keeps its invariant, release and expiry subtract exactly the hold’s amount from its node, without the floor at zero |
| `LedgerPromises.ConfirmPromise` | control-api/app/services/helper_compute/reservation.py:757-818 | payment moves exactly the hold’s amount from one counter to the other, once |
| `LedgerPromises.BindPromise` | control-api/app/services/helper_compute/reservation.py:640-750 | one checkout per hold and per key; no counter moves |
| `LedgerStore.Store.ReserveCapacity` | control-api/app/services/helper_compute/reservation.py:323-449 | keeps the whole invariant; a new hold has a key that was free and a node that had room, and adds exactly its amount to that node’s counter; a used key returns its hold; a refusal changes nothing; every error code as in the transaction |
| `LedgerStore.Store.ReleaseReservation` | control-api/app/services/helper_compute/reservation.py:494-540 | keeps the invariant; a hold that still holds gives back exactly its amount to its own node, nothing else moves, and on any other hold the call does nothing |
| `LedgerStore.Store.ExpireReservation` | control-api/app/services/helper_compute/reservation.py:543-574 | the same, for expiry |
| `LedgerStore.Store.SweepExpired` | control-api/app/services/helper_compute/reservation.py:577-601 | keeps the invariant through the loop; exactly the first due rows end as expired, every other hold is as before, and the count is their number |
| `LedgerStore.Store.BindCheckout` | control-api/app/services/helper_compute/reservation.py:640-750 | keeps the invariant; binds the first checkout of a hold and moves no counter; a used key returns its checkout; refusals write nothing, except that a hold found too late is expired and gives back its amount |
| `LedgerStore.Store.ConfirmPayment` | control-api/app/services/helper_compute/reservation.py:757-818 | keeps the invariant; a pending checkout is paid, its hold committed, and exactly its amount moves from reserved to committed; any other call changes nothing |
| `LedgerStore.Store.FailPayment` | control-api/app/services/helper_compute/reservation.py:821-848 | keeps the invariant; a pending checkout fails and its hold, if it still holds, gives back exactly its amount |
| `LedgerStore.Store.Acquire` | control-api/app/services/helper_compute/proxmox/reservation.py:200-276 | keeps the invariant, so no node is overcommitted whatever outdated pick it is given; a new claim has a new key and a new request, and adds exactly its amount; otherwise nothing changes |
| `LedgerStore.Store.EndClaim` | control-api/app/services/helper_compute/proxmox/reservation.py:297-322 | keeps the invariant; an active claim gives back exactly its amount, for release, expiry and failure alike; any other is left alone |
| `LedgerStore.Store.ConsumeClaim` | control-api/app/services/helper_compute/proxmox/reservation.py:325-352 | keeps the invariant; an active claim’s amount moves from reserved to committed, exactly; any other is left alone |
| `CloneSafety.CloneRunsKeepInv` | control-api/app/services/helper_compute/proxmox/clone_control.py:295-453 | the whole invariant (intents, approvals, calls, processes, machines, slot, cleaning and reconciling processes, deletions) after every run of any processes, crashing anywhere between their reads, transactions and provider calls |
| `CloneSafety.StepKeepsInv` | control-api/app/services/helper_compute/proxmox/clone_control.py:295-471 | every single step keeps it |
| `CloneSafety.StartKeepsInv` | control-api/app/services/helper_compute/proxmox/clone_control.py:316-336 | the compare-and-set transaction claims slot, approval, job and intent together or nothing |
| `CloneSafety.UninterruptedReconcile` | control-api/app/services/helper_compute/proxmox/clone_control.py:362-401 | the five steps of a reconciliation (intent, provider, lease row, job, write), with nobody in between, are the whole call |
| `CloneSafety.WriteCases` | control-api/app/services/helper_compute/proxmox/clone_control.py:370-401 | its write asks nothing again: it notes the phase decided on, or verifies a contract whose marked machine the process has seen; that machine still stands or has been deleted since |
| `CloneTheorems.DispatchAtMostOnce` | control-api/app/models.py:2279-2303 | at most one clone call per job, each backed by an intent and an approval no other intent shares; with the real transport at most one clone call ever |
| `CloneTheorems.SlotOwnerIsTheCloningJob` | control-api/app/services/helper_compute/proxmox/clone_control.py:317-329 | with the simulator the slot is held exactly by the one job in clone_intent |
| `CloneTheorems.SlotFreedOnlyByVerification` | control-api/app/services/helper_compute/proxmox/clone_control.py:397-400 | an owned slot is freed by no step but the write of a reconciliation that has seen the owner’s machine, never by time, and never with the real transport |
| `CloneTheorems.AbandonedSlotBlocksForever` | control-api/app/services/helper_compute/proxmox/clone_control.py:334-342 | an owner that crashed or was refused before its call keeps the slot for ever: in no continuation is anything sent or any intent added |
| `CloneTheorems.RefusedRecheckAbandons` | control-api/app/services/helper_compute/proxmox/clone_control.py:337-342 | the re-read before the call leads there exactly when the stop is set, a gate fails or the approval has expired |
| `CloneTheorems.AfterStopAtMostOneMore` | control-api/app/services/helper_compute/proxmox/clone_control.py:474-482 | after the emergency stop, and until it is cleared, at most one more clone call goes out, and only by a process that had already re-read the control row |
| `CloneTheorems.ClearedProcessStillSends` | control-api/app/services/helper_compute/proxmox/clone_control.py:337-345 | that bound is reached |
| `CloneCleanup.CleanupDeletesOnlyItsOwnIff` | control-api/app/services/helper_compute/proxmox/clone_control.py:417-453 | in every run a delete call that hits a machine hits the one it is meant for, unless an earlier call did; so cleanup deletes only its own machines exactly if no contract has two delete calls that hit something; with the real transport nothing is ever deleted |
| `CloneCleanup.CallHitsOwnIffUndisturbed` | control-api/app/services/helper_compute/proxmox/clone_control.py:431-441 | from check to call: a process that checks while its machine stands deletes that machine exactly if no other delete call hits the VMID in between, whatever else runs; otherwise it deletes whatever is there by then, or nothing |
| `CloneCleanup.CallHitsOwnUnlessGone` | control-api/app/services/helper_compute/proxmox/clone_control.py:436-441 | at the call, in any reachable state: the process’s own machine is hit exactly if no call hit it before |
| `CloneCleanup.TwoCleanersDeleteForeign` | control-api/app/services/helper_compute/proxmox/clone_control.py:431-452 | two processes check, one deletes and records, someone else takes the VMID, and the other deletes that machine, although no call failed |
| `CloneCleanup.RetriedCleanupCanDeleteForeign` | control-api/app/services/helper_compute/proxmox/clone_control.py:436-445 | after a delete call that failed after deleting, the same approval and observation delete whatever has the VMID by then |
| `CloneCleanup.RecordKeepsLeasesIff` | control-api/app/services/helper_compute/proxmox/clone_control.py:447-449 | the record after a delete frees the lease row without asking whose it is: it keeps every live clone’s row exactly if the row is the job’s own or no live clone’s |
| `CloneCleanup.LeasesStayIff` | control-api/app/services/helper_compute/proxmox/vmid_lease.py:47-150 | live clones keep their lease rows through a whole run exactly if no cleaning process and no release writes to a row that has become a live clone’s, and no reconciliation verifies on a row that is not its own job’s any more |
| `CloneCleanup.LiveClonesHaveDistinctPlaces` | control-api/app/services/helper_compute/proxmox/vmid_lease.py:47-150 | in every such run two live clones never share a VMID, although adoption reclaims released rows without asking for intents |
| `CloneLate.LateRecordLetsTwoClone` | control-api/app/services/helper_compute/proxmox/clone_control.py:447-452 | otherwise a second clone can be started with the VMID of a live one |
| `CloneLate.RecordLateIsReached` | control-api/app/services/helper_compute/proxmox/clone_control.py:431-452 | a run from the opening state that comes to just before such a record |
| `CloneLate.LateVerifyRevives` | control-api/app/services/helper_compute/proxmox/clone_control.py:376-401 | of two reconciliations that have decided to verify, the second writes after a timely cleanup and an adoption: the job is verified again, its machine gone, on the other job’s row |
| `CloneLate.VerifyTwiceIsReached` | control-api/app/services/helper_compute/proxmox/clone_control.py:370-395 | a run from the opening state that comes to just before the two writes |
| `CloneLate.LateReleaseFreesLive` | control-api/app/services/helper_compute/proxmox/vmid_lease.py:267-284 | a release checked before the clone started, and written after, frees the row of a live clone |
| `VmidLease.Leases.Allocate` | control-api/app/services/helper_compute/proxmox/vmid_lease.py:153-242 | one call without interruption: the job’s own VMID if it has one, else the lowest that is neither occupied nor blocked by its row, else nothing; exactly one row is written in the second case |
| `VmidLease.AllocationsAscend` | control-api/app/services/helper_compute/proxmox/vmid_lease.py:195-237 | jobs allocating one after another get the lowest free VMIDs in ascending order until they are used up |
| `VmidLease.ExhaustedOnlyIfCovered` | control-api/app/services/helper_compute/proxmox/vmid_lease.py:239-242 | allocation fails only if rows and occupied VMIDs cover the whole range, and so are at least as many |
| `VmidRace.EveryScanEnds` | control-api/app/services/helper_compute/proxmox/vmid_lease.py:195-237 | whatever other allocators, adoptions and releases do between its statements, a call is over after three statements per VMID of the range and two more |
| `VmidRace.LowestOrExhausted` | control-api/app/services/helper_compute/proxmox/vmid_lease.py:195-242 | it passes over a VMID, and so takes a higher one or fails, only if that VMID was given as occupied or could not be given out at some instant of the call, lost inserts and lost compare-and-sets included |
| `VmidRace.WinnerHolds` | control-api/app/services/helper_compute/proxmox/vmid_lease.py:206-234 | the write that gives a call its VMID finds the row absent or released, and makes it the job’s |
| `VmidRace.GivenToOne` | control-api/app/services/helper_compute/proxmox/vmid_lease.py:3-15 | that VMID stays the job’s, and no other call gets it, until its row is released |
| `VmidRace.WinKeepsOneEachIff` | control-api/app/services/helper_compute/proxmox/vmid_lease.py:183-192 | such a write leaves every job with at most one live lease exactly if the job has none by then |
| `VmidRace.OneLeasePerJobIfOneByOne` | control-api/app/services/helper_compute/proxmox/vmid_lease.py:183-192 | if no job’s VMID is asked for twice at a time, no job ever has two live leases |
| `VmidRace.TwoCallsTwoLeases` | control-api/app/services/helper_compute/proxmox/vmid_lease.py:183-237 | otherwise it may: two calls for one job that both find none end with the two lowest VMIDs, and the next call raises |
| `VmidLease.Range` | control-api/app/services/helper_compute/proxmox/config.py:137-146 | the range is clamped and ordered, and a valid setting is kept |
| `Rebuild.ListingReadsBack` | control-api/app/migrate.py:151-169 | the PRAGMA listing gives every UNIQUE constraint and every index back, the indexes without their WHERE |
| `Rebuild.RebuildKeepsNamesAndKeys` | control-api/app/migrate.py:171-196 | names, defaults, other NOT NULLs, the primary key’s columns, UNIQUE constraints and index columns survive the rebuild |
| `Rebuild.RebuildIsExactIffPlain` | control-api/app/migrate.py:151-196 | the rebuilt schema differs in the relaxed NOT NULL alone exactly for tables without partial indexes, multi-column or target-less foreign keys, untyped columns or reordered primary keys |
| `Rebuild.PlainFksIff` | control-api/app/migrate.py:188-190 | the foreign keys come back exactly when each has one column and an explicit target |
| `Rebuild.CopyIsExactIffTyped` | control-api/app/migrate.py:178 | the copied rows are the same exactly when no untyped column holds a number (it would become text) |
| `Rebuild.RebuildAcceptsOneMoreNull` | control-api/app/migrate.py:135-140 | for a plain table the new schema accepts exactly what the old one accepted, and NULL in the relaxed column |
| `Rebuild.RelaxSucceedsIff` | control-api/app/migrate.py:198-208 | on a typed table the copy is rejected exactly when some partial unique index is not unique over all rows; otherwise the rows are the same |
| `Rebuild.DroppingWhereIsHarmlessIff` | control-api/app/migrate.py:204-208 | losing a WHERE changes no verdict on any instance exactly when there was none or it asks a key column to be set |
| `Rebuild.RelaxTwiceIsRelax` | control-api/app/migrate.py:147-149 | a second run of the rebuild is the identity |
| `Rebuild.RelaxationsCommute` | control-api/app/migrate.py:307-308 | two columns of a plain table can be relaxed in either order, and neither is rejected |
| `MigrateStore.ReadIndexes` | control-api/app/migrate.py:152-169 | the loop over the index list yields exactly the definitions and UNIQUE clauses of its specification |
| `MigrateStore.PrintColumns` | control-api/app/migrate.py:171-187 | the loop over the columns yields the new columns, primary key places included |
| `MigrateStore.PrintForeignKeys` | control-api/app/migrate.py:188-190 | the loop over the foreign key rows yields one clause per row |
| `MigrateStore.Engine.RelaxNotNull` | control-api/app/migrate.py:135-210 | the rebuild on a live database equals its operation; a rejected one leaves the database as it was |
| `MigrateStore.Engine.AddColumn` | control-api/app/migrate.py:20-30 | equals its operation |
| `MigrateStore.Engine.CreateIndex` | control-api/app/migrate.py:54-74 | equals its operation, the name test on the table and the database-wide one included |
| `MigrateStore.Engine.DropIndexIfExists` | control-api/app/migrate.py:44-51 | equals its operation |
| `Migrate.AddColumnKeepsWellFormed` | control-api/app/migrate.py:20-30 | ADD COLUMN breaks no key, default or NOT NULL of a sound table |
| `Migrate.ApplyKeepsSound` | control-api/app/migrate.py:20-128 | every migration step keeps every table sound |
| `MigrateRuns.ApplyDoes` | control-api/app/migrate.py:20-128 | every step that is not rejected reaches its purpose |
| `MigrateRuns.SafeKeepsDone` | control-api/app/migrate.py:213-551 | a later step undoes an earlier one only in the listed cases (a table created late, an index dropped late, a rebuild or UPDATE after an UPDATE it affects) |
| `MigrateRuns.MigrationReachesAll` | control-api/app/migrate.py:213-551 | from any legacy database, a program without such pairs that is not rejected has met every purpose at its end |
| `MigrateRuns.IndexIsBuilt` | control-api/app/migrate.py:54-74 | an index whose name was free, and that nothing earlier in the program brings, stands on its table in the end as it is listed |
| `MigrateRuns.MigrationIsIdempotent` | control-api/app/migrate.py:213-551 | running it again is not rejected and changes nothing |
| `MigrateRuns.MigrationKeepsData` | control-api/app/migrate.py:213-214 | no table, column or row is dropped and no cell changes outside the columns its UPDATEs name |
| `MigratePrograms.CatalogIsOrderly` | control-api/app/migrate.py:77-128 | the catalog migration, its six columns, three UPDATEs, two drops and two indexes, has no such pair |
| `MigratePrograms.SchemaProgramIsOrderly` | control-api/app/migrate.py:213-551 | the whole of `migrate_schema`, for any lists of nullable columns, has no such pair |
| `MigratePrograms.MigrateSchemaConverges` | control-api/app/migrate.py:213-551 | a successful `migrate_schema` leaves every listed column on every existing table, every listed index on its table if the name was free (and every index name taken in any case), every relaxed column nullable, all five tables created, and is the identity the second time |
| `MigratePrograms.MigrateSchemaKeepsData` | control-api/app/migrate.py:90-110 | it changes no cell of a typed database outside the three normalised catalog columns |
| `MigratePrograms.SubscriptionsFillBlanks` | control-api/app/migrate.py:568-616 | whatever cell of whatever table a classification changes was NULL or empty before |
| `MigratePrograms.TenantsAreClassified` | control-api/app/migrate.py:598-609 | after a classification every tenant row has the product line it had, else ready_solution if it has a customer subscription, else developer_platform if it has a trial, and is otherwise unchanged |
| `MigratePrograms.SubscriptionsAreIdempotent` | control-api/app/migrate.py:568-616 | a second classification changes nothing |
| `Query.UnquoteQuote` | control-api/app/i18n.py:50 | percent-encoding and decoding undo each other for every byte string (sections 2.1 and 2.3 of RFC 3986, + for a space) |
| `Query.ParsePrint` | control-api/app/i18n.py:45-50 | every list of pairs survives printing and parsing, order, duplicates and blanks included |
| `Query.LookupDict` | control-api/app/i18n.py:45 | a lookup in the dict gives the last value of the name |
| `Query.DictOfDict` | control-api/app/i18n.py:45 | a dict read from its own items is the same dict, order included |
| `Locale.SplitJoin` | control-api/app/i18n.py:44-50 | splitting a joined URL gives back query and fragment, and the path as `urlsplit` leaves it, with and without the slashes newer Python releases put before a path like a host |
| `Locale.CorePathIsIdentityIff` | control-api/app/i18n.py:44-50 | `urlsplit` leaves a path as it is exactly when it starts neither with a blank, nor like a host, nor like a scheme |
| `Locale.PathIsKeptIff` | control-api/app/i18n.py:44-50 | a path survives joining and splitting exactly when it starts neither with a blank nor like a scheme, nor, in older releases, like a host |
| `LocaleSession.LinkKeepsTheRest` | control-api/app/i18n.py:40-50 | a link keeps the fragment and the last value of every other parameter, carries lang exactly for Arabic, and keeps the path exactly if it is one that survives |
| `LocaleSession.WithLocaleIsIdempotentIff` | control-api/app/i18n.py:40-50 | `with_locale` is idempotent on a URL exactly when its path survives joining and splitting, for either kind of release |
| `LocaleSession.SecondLocaleWins` | control-api/app/i18n.py:40-50 | of two calls of `with_locale` the second wins: the link has the parameters and the fragment of the second alone |
| `LocaleSession.SecondLocaleWinsInPlaceIff` | control-api/app/i18n.py:40-50 | it is the very same link exactly if the path survives and not both English came first and lang had stood before another parameter |
| `LocaleSession.CookieIsWhatWasRendered` | control-api/app/i18n.py:121-139 | in every session the stored cookie, if it names a locale, names the one just rendered; if not, English was rendered |
| `LocaleSession.LocaleChangesOnlyWhenAsked` | control-api/app/i18n.py:30-37 | the locale changes only on a request with a supported lang, and to that |
| `LocaleSession.LinkKeepsLocale` | control-api/app/i18n.py:116-117 | a link from the page just rendered keeps the locale, English links without lang included |
| `LocaleSession.ChainsKeepLocale` | control-api/app/i18n.py:116-117 | so does any chain of links |
| `LocaleSession.SwitchSetsLocale` | control-api/app/i18n.py:53-60 | the language switch sets the locale whatever the cookie says and keeps every other parameter; the path is kept exactly if `urlsplit` keeps it |
| `ArchiveRuns.CloneIsTheSource` | control-api/app/services/restore_service.py:296-420 | in every run without tampering, a clone that becomes active has the source’s database of one instant of the backup’s run, and under every path, however deep, what the source had there at some later instant of the archiver’s reading; all of one instant if the reading is not torn; and no active tenant changes |
| `SnapshotRuns.CloneIsTheBackup` | control-api/app/services/restore_service.py:363-368 | it holds exactly what its backup read |
| `ArchiveRuns.DumpIsASnapshot` | control-api/app/services/backup_service.py:314-316 | a dump is the tenant’s database of one instant of the backup’s run |
| `Archiver.EntryIsOfAnInstant` | control-api/app/services/backup_service.py:277-284 | every path, at whatever depth, has in the archive what the source had there at one instant of the reading, its own: when it was looked at, or when the directory it is missing from was listed |
| `Archiver.OneInstantIffUntorn` | control-api/app/services/backup_service.py:277-284 | the archive is the source’s filestore of one instant exactly if no change of a path already passed comes before a change of one still to be come to, inside one directory as across several, in any stretch of the run in which no path goes back to an earlier content |
| `Archiver.UntornIsOneInstant` | control-api/app/services/backup_service.py:277-284 | one half of that needs no such stretch: an untorn archive is the filestore just before the first change it misses |
| `ArchiveRuns.ReadingSince` | control-api/app/services/backup_service.py:277-284 | every run of a backup is such a reading: the top is listed once, each directory when it is reached, each file is read at an instant of its own, and every other step leaves the archiver alone |
| `ArchiveRuns.TornArchive` | control-api/app/services/backup_service.py:277-284 | within one top-level directory: one file read, it and another written, the other read; the archive is the filestore of no instant, and the backup succeeds and verifies |
| `ArchiveRuns.TearIsReached` | control-api/app/services/backup_service.py:277-324 | a run from nothing that comes to just before that |
| `SnapshotRuns.RestoresLeaveActiveTenantsAlone` | control-api/app/services/restore_rollback.py:31-82 | no step of any restore, rollback included, changes an active tenant |
| `SnapshotRuns.UnverifiedRestoreTouchesNothing` | control-api/app/services/restore_service.py:309-311 | a restore whose backup does not verify when it begins is failed without a target in every continuation, and none of its steps ever makes or changes a tenant |
| `SnapshotRuns.RestorableIffArchived` | control-api/app/services/backup_service.py:322-347 | without tampering a restore that begins gets its tenant exactly if the backup’s folder is still there and its policy archived the filestore |
| `SnapshotRuns.OnlyArchivedBackupsAreRestored` | control-api/app/services/restore_service.py:309-311 | in no run without tampering does a restore of any other backup get a tenant or succeed |
| `Snapshot.VerifyManifest` | control-api/app/services/backup_service.py:436-452 | the loop over the listed entries answers yes exactly if something is listed and all that is listed matches |
| `SnapshotRuns.ArtifactChangesFoundIffListed` | control-api/app/services/backup_service.py:442-451 | changing, removing or adding artifacts of a folder that verified is found exactly if the manifest lists one of them |
| `SnapshotRuns.ManifestChangesFoundIff` | control-api/app/services/backup_service.py:442-452 | a changed manifest is found exactly if it lists nothing any more or an entry that is new or different does not match its artifact |
| `SnapshotRuns.UnlistedArchiveIsExtracted` | control-api/app/services/restore_service.py:313-368 | with the filestore entry taken out, any archive in place of the backup’s own verifies, and is what the restore extracts unless extraction refuses its names or links |
| `SnapshotRuns.ConsistentTamperingPasses` | control-api/app/services/backup_service.py:436-452 | an artifact replaced together with its entry passes; the checksum in the row, which is not compared, differs exactly when the database was changed |
| `SnapshotRuns.ReplayedKeyCreatesNothing` | control-api/app/services/restore_service.py:84-90 | in every run, asking again with a used key, with any white space about it, returns the same job and creates no job and no tenant |
| `Drill.TakeBackup` | control-api/app/dr_phase10_runner.py:226-252 | markers, backup and manifest check: the folder holds what the policy asks for, and verifies exactly with the filestore |
| `Drill.RestoreClone` | control-api/app/dr_phase10_runner.py:254-285 | the clone reads the original markers and the source the mutated ones |
| `Drill.FailControlled` | control-api/app/dr_phase10_runner.py:302-324 | the restore from a spoilt manifest fails and changes no tenant |
| `Drill.RunDrill` | control-api/app/dr_phase10_runner.py:175-343 | the verdict is positive exactly if the policy backs up database and filestore, extraction accepts every archived name and link, the clone comes up healthy, and it is still healthy at the drill’s own check; other tenants are as before |
| `Drill.ArchiveEntries` | control-api/app/services/backup_service.py:277-284 | with nobody writing, the loop over what has been listed and not looked at archives the whole filestore, top-level links aside, in whatever order, and ends |
| `JobRuns.RunLengthBound` | control-api/app/models.py:2075-2111 | a rank that falls between hub visits bounds the length of every run by its hub visits |
| `JobRuns.JobRunLength` | control-api/app/models.py:2075-2111 | a provisioning job makes at most 16 moves and 16 more per failure, and every cycle passes through failed |
| `JobRuns.CloudRunLength` | control-api/app/product_lines.py:117-192 | a cloud request makes at most 8 moves per visit of failed or suspended, beyond its first 8, and every cycle passes through one of them |
| `JobRuns.ReadyMeansWholeChain` | control-api/app/models.py:2080-2110 | every run from reserved to base_odoo_runtime_ready ends with the whole chain of 16 stages, entered from reserved or failed |
| `JobRuns.CloneLaneIsSealed` | control-api/app/models.py:2076-2079 | no run from reserved enters the clone lane |
| `JobService.LifeIsBounded` | control-api/app/services/helper_compute/proxmox/provisioning_job.py:209-625 | whatever the services do, the states follow the table, attempts are at most max_attempts (once if that is 0) plus the times the job was enqueued after a failure, and the whole life is bounded by that |
| `JobService.EnqueueDefeatsTheLimit` | control-api/app/services/helper_compute/proxmox/provisioning_job.py:209-225 | `enqueue_job` accepts a failed job whose reservation is active and asks for no attempts left: any number of attempts is reached with any limit |
| `JobService.RecoveryReachesTheLimit` | control-api/app/services/helper_compute/proxmox/provisioning_job.py:589-608 | without that the limit is reached by stale recovery alone |
| `JobService.EndsSettleTheHold` | control-api/app/services/helper_compute/proxmox/provisioning_job.py:297-457 | a ready job has consumed its reservation; a rolled-back or cancelled one holds none |
| `JobService.FailureMayKeepTheHold` | control-api/app/services/helper_compute/proxmox/provisioning_job.py:436-445 | a failure leaves the reservation active exactly on the worker’s plain failure paths and after a failed rollback |
| `JobService.CapacityCanBeStuck` | control-api/app/services/helper_compute/proxmox/provisioning_job.py:209-225 | for any limit a job can end failed, out of attempts and still holding its capacity, and then holds it whatever is done, until the reservation expires or somebody enqueues the job all the same |
| `CloudLease.Pick` | control-api/app/services/cloud_provisioning_service.py:881-899 | the claimed row is the claimable one with the smallest id |
| `CloudLease.AttemptsAndLanes` | control-api/app/services/cloud_provisioning_service.py:743-1101 | in every run, late writes included: attempts pass max_attempts (3 if it is 0) by the number of manual re-queues at most, a queued request has an attempt left by that count, and a request is claimed only in its own lane |
| `CloudLease.OnlyRequeuesPassTheLimit` | control-api/app/services/cloud_manual_uat_provisioner.py:79-87 | without manual re-queues attempts never pass max_attempts |
| `CloudLease.RequeueDefeatsTheLimit` | control-api/app/services/cloud_manual_uat_provisioner.py:79-87 | the manual provisioner re-queues a failed request without looking at its attempts: any number of claims is reached with any limit |
| `CloudLease.LeasesAreExclusive` | control-api/app/services/cloud_provisioning_service.py:772-785 | if every write comes from the claim in the row, or finds nobody at work there, of two open claims of one request one has expired, in every run |
| `CloudLease.WriteKeepsExclusiveIff` | control-api/app/services/cloud_demo_clone_worker_service.py:311-360 | a worker’s write, which does not ask whose the row is, is harmless exactly if it writes nothing (a retry at the limit) or the row is its own, nobody’s, or one whose worker has reported or lost its lease |
| `CloudLease.EndManuallyKeepsExclusiveIff` | control-api/app/services/cloud_manual_uat_provisioner.py:976-1021 | the manual provisioner’s last write, to a row it has not claimed, is harmless exactly if nobody is at work on the row |
| `CloudLease.LateWriteBreaksExclusion` | control-api/app/services/cloud_demo_clone_worker_service.py:330-342 | otherwise a third worker claims the request, as soon as it is due, while the second’s lease still runs |
| `CloudLease.LateWriteIsReached` | control-api/app/services/cloud_provisioning_service.py:1014-1073 | a run from nothing in which that happens |
| `CloudLease.LeaseIsLost` | control-api/app/services/cloud_provisioning_service.py:1014-1073 | five minutes without a report are enough to lose the claim to a second worker, in every lane |
| `CloudLease.CloneRunsOnlyWithoutItsClaim` | control-api/app/services/cloud_demo_clone_worker_service.py:193-229 | the worker’s second eligibility test wants a queued request, which its own claim has changed: with its claim in place every demo clone fails, and one is made only after the lease is lost |
| `Lowest.AscendingMembers` | control-api/app/manual_uat_worker_main.py:95-96 | taking the smallest again and again lists exactly the members |
| `Lowest.AscendingSorted` | control-api/app/manual_uat_worker_main.py:95-96 | and in ascending order |
| `UatLoop.Worker.ProcessOne` | control-api/app/manual_uat_worker_main.py:72-147 | one attempt at the smallest eligible request, unless disabled, at the cap or without any; no request succeeds twice |
| `UatLoop.Worker.RunBounded` | control-api/app/manual_uat_worker_main.py:161-183 | the attempts are exactly those of the definition: smallest first, until budget, cap or list is used up |
| `UatLoop.Worker.RunLoop` | control-api/app/manual_uat_worker_main.py:186-224 | it ends only at the cap or at the signal, and successes stay within the cap |
| `UatLoop.AllReadyIsSortedPrefix` | control-api/app/manual_uat_worker_main.py:161-183 | if every attempt succeeds, exactly the smallest requests are provisioned, in ascending order |
| `UatLoop.HeadOfLineBlocks` | control-api/app/manual_uat_worker_main.py:142-147 | if the smallest request keeps failing back to the queue, no other gets a turn |
| `UatLoop.TriesAreBounded` | control-api/app/manual_uat_worker_main.py:161-183 | attempts within the budget, successes within the cap, only eligible requests, none after its success |
| `WorkerLoops.BackupWorker.RunLoop` | control-api/app/backup_worker_main.py:84-145 | 60·retentions + tick is the number of idle passes with tick below 60; a restore is claimed only when no backup was; metering ran just when due |
| `WorkerLoops.BackupWorker.MaybeRunMetering` | control-api/app/backup_worker_main.py:53-65 | metering runs exactly if that keeps all metering times at least the interval apart; the time is noted before the work |
| `WorkerLoops.MeteringIsSpaced` | control-api/app/backup_worker_main.py:53-65 | metering passes are at least the interval apart, however the clock jumps |
| `WorkerLoops.MeteringInWindow` | control-api/app/backup_worker_main.py:53-65 | so a window of length L holds at most L/interval + 1 of them |
| `WorkerLoops.ProvisioningWorker.RunPass` | control-api/app/worker_main.py:93-185 | the first class with work is served and no other; a lower one is looked at only if every higher one had none, was off or raised; a pass uses an attempt unless its claim is rolled back |
| `WorkerLoops.ProvisioningWorker.RunUntilIdle` | control-api/app/worker_main.py:93-190 | with no arrivals, and once no claim is rolled back any more, the worker reaches a pass that claims nothing, and the lifecycle tick, within as many further passes as there are attempts left |
| `WorkerLoops.JobClaimUsesAttempt` | control-api/app/services/helper_compute/proxmox/provisioning_worker.py:173-311 | in any life of a job a claim takes one attempt, and whatever its worker then records, the job is queued again only with attempts left |
| `WorkerLoops.CloudClaimUsesAttempt` | control-api/app/services/cloud_provisioning_service.py:743-866 | the same for cloud requests in any run; a claim found ineligible gives its attempt back and puts the request out of reach for ten years |

## Left out

- LedgerIsSound: edits of a node's totals by an administrator; changes of `active` are modelled. Each service call is one transaction here, and `LedgerSessions` treats those that read and write a row at two instants.
- BalancedIffRight: what a session's own reads decide (which node, whether to refuse) is a free choice, so the statement holds for every outcome; the event log and the keys of late writers.
- CloneRunsKeepInv: template, node and storage allow-lists are one yes-or-no gate, chosen freely at each step; the staging coordinator's preparation and cancellation; audit rows; and the re-establishment of bindings (binding_reestablishment.py:481-512), which creates and overwrites the intents and approvals of machines an operator adopts, beside the adoption of their VMIDs, which is modelled.
- CleanupDeletesOnlyItsOwnIff: nobody but this protocol removes a machine that carries its marker.
- Allocate: other callers at work during the scan; they are in `VmidRace`.
- LowestOrExhausted: the rollback after a lost insert also undoes what the caller had not committed before the call; adoption is one step.
- RebuildIsExactIffPlain: CHECK, COLLATE, AUTOINCREMENT, generated columns, expression indexes, triggers, foreign key actions and parenthesised default expressions, which the PRAGMAs do not list or the rebuild does not print; the order in which PRAGMA index_list names the indexes.
- MigrationKeepsData: typed columns. In an untyped one a rebuild turns numbers into text; `CopyIsExactIffTyped` says exactly when rows stay the same.
- MigrateSchemaConverges: the lists of plain columns are parameters. An index whose name is taken before is skipped by SQLite, wherever the name is, so then the statement is only that it is taken.
- ParsePrint: text is bytes. Python replaces byte sequences that are not UTF-8 on first reading; afterwards nothing more is replaced.
- WithLocaleIsIdempotentIff: which Python release is deployed is a parameter, `guard`, for the one difference that matters here; the errors `urlsplit` raises for malformed IPv6 hosts and for hosts that change under Unicode normalisation.
- CookieIsWhatWasRendered: Unicode white space and case beyond ASCII in a lang value or cookie.
- RunDrill: nothing else runs meanwhile; the interleaved statements are in `SnapshotRuns`. Provisioning of the source tenant comes before it.
- CloneIsTheSource: the content of a single file is read at one instant, and a directory is listed at the instant it is looked at; a directory replaced by a link to another between its listing and the reading of what was in it; hard links, devices and file modes; partial effects inside a restore step (a half-loaded database is rolled back before anyone reads it); quotas, retention policy, in-place restore (disabled in the code) and backups of other environments, which are looked up under production on restore and so fail to verify.
- LifeIsBounded: plan compilation and the provider are a free choice of outcome. A worker's claim and its record are one transaction, during which SQLite admits no other writer, so its row is not outdated (provisioning_worker.py:173-311); only where the gate-4 path has committed in between could the failure it then records be late, and that write is not modelled.
- LeasesAreExclusive: the fallback to started_at for a row without a lease; the deprecated wrapper of the claims; rows are values each call replaces.
- RunUntilIdle: back-off times, which only let the worker be idle earlier; an exception in an unguarded claim ends the worker. Exceptions that roll a Proxmox claim back for ever keep the worker on that job; the statement is about runs in which they end.
- Placement scoring, prices beyond stored cents, dependency resolution and builds.
- Web routes, templates, translations, sign-in, secrets and tokens.
- The scripts around the services that drive Docker, PostgreSQL, browsers and SSH.
- The nginx configuration generator.
