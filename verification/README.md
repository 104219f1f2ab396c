# EVCloud: resource accounting of a VM manager

This project models the part of EVCloud that hands out and takes back resources: host vcpu and
memory, the VM counters, IP addresses, PCI devices, virtual disks and system images. It proves
that the accounts stay right over whole runs of interleaved commits and dying threads, and says
exactly when where the code does not manage that. The migration thread, creation, unshelving,
deletion and shelving are also proved as methods that other requests interrupt between any two
commits; the other methods run alone.

How it is built:

- `Tables` and `Ledger`: rows of the database, the arithmetic of one host row, and sums of
  charges over any finite set of owners.
- `Protocol`, `ProtocolInv`, `StepKeeps`, `Keeps`, `Runs`, `Guarantees`: every commit of creation, deletion,
  shelving, unshelving, resizing, live and static migration, attachment of addresses and of PCI
  devices, as a transition system over any number of hosts, VMs and tasks. A release and the
  record of it are two steps, and threads may die between any two. A ledger says who owes every
  allocated unit. Each of the 40 steps keeps the invariant if and only if it is not harmful, and
  the theorems are about every run.
- `Continuations`: what the invariant is worth. A state is sound as long as, however the tasks of
  a VM go on, the books balance and devices are with their VMs; a step is not harmful if and only
  if it leaves every VM sound in that sense.
- `Databases`, `Scheduler`, `Builder`, `VmBuilder`, `Unshelve`, `Instance`, `Resizing`,
  `MigrateThread`, `OldTasks`, `Migrate`, `StaticMigrate`, `Attach`: the imperative code with its
  undo paths, on a mutable database object. Each method states exactly when it succeeds and the
  whole state it leaves. Where a contract names a condition or a state, a lemma whose name ends in
  `OnFields` or `Exactly` says what that is on the fields of the rows. The compound operations are
  shown to be runs of the protocol, so they keep the invariant, under a condition that is proved
  to be the exact one.
- `Guards`: what the code tests before a step that takes something, on the fields of the rows.
- `Among`: starting and ending a VM, with other requests between any two commits.
- `Vdisks`, `DiskMount`, `SysDisk`, `Subnet`, `SharedUsers`: disk pools, device names, system
  disk replacement, address generation and shared users, each a class over its own tables.

Outside calls (the hypervisor, the RBD store, building XML) are parameters that say whether the
call works, returns False or raises. Random choice is an arbitrary permutation or choice.
Database writes may fail where a parameter says so. Totals, groups, networks and the existence
of hosts are fixed during a run.

Assumptions about the callers, which the code does not test:

- One request at a time works on a VM (`v !in ops`), and ids of new VMs are new.
- Other requests meanwhile (`Interfere`) take harmless steps.

No request looks at the migration tasks of its VM, except the one that starts a live migration.
This is not assumed away: what an operation does to a VM with unfinished migrations is part of
the model, and its exact condition is proved for each operation, on the invariant and, through
`StaysSound`, on the accounts that every continuation of the tasks leads to. `Expected` says that
a task may still move the VM, `BeingMoved` that a thread is about to, and `IsMeasured` that a
later step may release something at the size that is then in the row.

Where the code and its comments disagree the code is modelled: the filter on unfinished
migrations (vms/migrate.py:41-50) sees tasks older than five minutes, while its comment asks for
those within five minutes. Shelving and forced static migration call `umount` on device rows
(vms/migrate.py:375, vms/vminstance.py:1164), which have no such method: `UmountAll` is told which
devices cannot be taken off, and as the code stands these are all.

Where a property does not hold of the code, the exact condition is proved:

- a release whose record is lost, by a death or a failed store, is made again
  (`NextKeepsExactly`, `CleanUpExactly`, `FailedExactly`, `DeathAfterRelease`);
- the five-minute filter lets a second migration start (`OldTaskCheck`, `StartedExactly`,
  `SecondMigrationBreaksBooks`), and clean-up does not wait for a thread (`CleanUpUnderThread`);
- deleting (`BeingMoved`), shelving, static migration and mounting a device (`Expected`) and
  resizing (`IsMeasured`) while a migration of the VM is unfinished: `DeletedExactly`,
  `ShelvedExactly`, `MigratedExactly`, `MountedExactly`, `ResizedExactly`, and `StepExactly` for the
  single commits;
- a share that nobody gives back after the VM of its task was deleted (`DeletedUnderTask`,
  `OrphanLeaks`);
- the host of a moved VM that could not be stored (`MoveLostBreaks`), and the repair of a row by a
  later clean-up, which is right after just that and wrong otherwise (`RepairRestores`,
  `RepairBreaks`);
- the recount after a static migration (`RecountBreaksExactly`);
- the last address of a shelved VM, taken before a permission check (`UnshelveVm`);
- the rollback of a failed attachment row (`AttachIp`), and detaching through another VM
  (`DetachErrorUndoneExactly`, `DetachThroughAnotherVm`);
- sizes of disk pools that cannot be given back (`CreateVdisk`, `DoDelete`);
- system disk replacement when the new name is taken in the new pool (`ChangeSysDisk`).

## Steps

The steps of the transition system and the commits they stand for.

`BeginCreate` (vms/vm_builder.py:271-289); `BeginUnshelve` (vms/vm_builder.py:643-681);
`ClaimHost` (compute/managers.py:859-884); `SaveRow` (vms/vm_builder.py:459-466); `DropRow`
(vms/vm_builder.py:710-718); `CountVm` (vms/vm_builder.py:341); `DeleteRow`
(vms/vminstance.py:328-334); `BeginShelve` (vms/vminstance.py:1174-1181); `ShelveRow`
(vms/vminstance.py:1202-1206); `UncountVm` (compute/models.py:330-348); `ReleaseIp`
(network/models.py:190-211); `ReleaseHost` (compute/managers.py:887-906); `EndOp`
(vms/vm_builder.py:328-339); `Resize` (vms/vminstance.py:502-525); `ClaimDst`
(vms/migrate.py:152-158); `SaveTask` (vms/migrate.py:159);
`HandOver` (vms/migrate.py:164); `DropFree` (vms/migrate.py:161, 166);
`DropMark` (vms/migrate.py:167); `PickUp` (vms/migrate.py:190-201); `FailFree`
(vms/migrate.py:180); `FailMark` (vms/migrate.py:183-185); `SwitchHost` (vms/migrate.py:226-230,
vms/vm_builder.py:583-586); `CountDst` (vms/migrate.py:235, 420); `MarkTodo`
(vms/migrate.py:237-241); `SaveLog` (vms/migrate.py:422); `UncountSrc` (vms/migrate.py:246,
451-454); `FreeSrc` (vms/migrate.py:247, 459); `MarkSrc` (vms/migrate.py:248-249); `FinishTask`
(vms/migrate.py:257-260, 465-473); `CleanFree` (vms/migrate.py:297); `CleanMark`
(vms/migrate.py:298-299); `CleanDone` (vms/migrate.py:303-305); `Crash` (the thread or request
that works on a task dies); `ReserveAttach` (vms/manager.py:366-370); `SaveAttach`
(vms/manager.py:373-376); `FreeAttach` (vms/manager.py:391-395); `DropAttach`
(vms/manager.py:397-400); `MountDevice` (device/device.py:137-165); `UmountDevice`
(device/device.py:167-189).

## Model

| member | source | states |
|---|---|---|
| Keeps.NextKeepsExactly | vms/migrate.py:133-307 | For each of the 40 steps, in every state with the invariant where it can happen: the invariant holds after the step if and only if the step is not harmful, that is, neither uses or gives back once more what a task gave back already, nor takes away, resizes or ties down a VM that a migration still counts on |
| Continuations.StepExactly | vms/migrate.py:133-307 | The same condition measured on the accounts alone: a step is not harmful if and only if, however the tasks of any one VM go on by their own steps without giving anything back twice, the books balance and every mounted device is on the host of its VM |
| Continuations.CarelessBreaks | vms/vminstance.py:242-371 | Deleting, shelving, resizing, migrating or mounting a device on a VM that a migration still counts on leaves the books right for the moment, and some continuation by the tasks of that VM ends with unbalanced books or a device on another host |
| Continuations.InvStaysSound | vms/migrate.py:172-307 | From a state with the invariant every such continuation is sound |
| Continuations.SwitchExactly | vms/migrate.py:226-233 | Moving the row of a VM keeps the books if and only if the VM stands, at the claimed size and without an operation in flight, where the task took it from |
| Continuations.MoveBreaks | vms/migrate.py:190-233 | A task that may still move its VM, and does not find it in place or takes it away from a device, has a continuation with unbalanced books or a device left behind, from every stage of the task |
| Continuations.MoveOfNobodyBreaks | vms/migrate.py:226-233 | The thread of a VM that was deleted goes on and the books do not balance |
| Continuations.TwoMoversBreak | vms/migrate.py:41-50 | Two tasks that may still move one VM have such a continuation, from any two stages |
| Continuations.ResizeBreaks | vms/migrate.py:295-297 | A task that still has the source to release, and whose VM was resized, has one: its thread dies and a later request releases the size that is then in the row |
| Keeps.RunKeepsExactly | vms/migrate.py:206-260 | All states of a run have the invariant if and only if no step of the run is harmful |
| Keeps.ReachableInv | vms/migrate.py:133-307 | Every state that a harmless run reaches from an empty system, under any interleaving of steps of different VMs and with threads dying: each host counter equals what VMs, operations in flight and migration tasks owe to it and lies within the totals; each used address has exactly one owner; each NORMAL VM is in the group of its address; each mounted device is on the host of its VM |
| Keeps.RepeatHarms | vms/migrate.py:180-181 | A release that repeats one takes the size off the host again and breaks the books; it is never refused |
| Keeps.SwitchHarms | vms/migrate.py:226-230 | Moving the VM to a host whose claim was given back breaks the books |
| Runs.CarefulRunsAreHarmless | vms/migrate.py:172-307 | A run in which nobody dies, and no migration thread slips in, between a release and the store of its record, and no VM is taken away, resized or tied down under a migration, is harmless: threads may die anywhere else |
| Runs.DeathInWindowHarms | vms/migrate.py:164-187 | After every death in such a window (166/167, 180/185, 247/249, 297/299) the invariant still holds, and the next request that handles the task breaks it |
| Runs.DeathAfterRelease | vms/migrate.py:245-251 | The thread dies after `src_host.free` and before `src_is_free` is stored: the later clean-up ends COMPLETE with the source lower by twice the size |
| Runs.PickUpHarms | vms/migrate.py:190-203 | A thread that picks up a task whose claim was given back does harm whether its migration works or not |
| Runs.ReleasedExactlyOnce | vms/migrate.py:173-260 | Over every harmless run a FAILED task gave its destination claim back once and its source never; a COMPLETE one its source once and its destination never; no task gave back both |
| Runs.ReleasedAsTaken | vms/migrate.py:173-307 | Over every harmless run each release of a task happened as often as it is really gone: once or never |
| Runs.ReleasedTwiceExactly | vms/migrate.py:173-307 | After a harmless run one more step gives something back a second time if and only if it repeats a release |
| StepKeeps.ReleaseIsReal | vms/migrate.py:180-181 | A release by a task, harmful or not, takes its size off exactly one host and changes no other: the guard never refuses it |
| Runs.RankFalls | vms/models.py:720-727 | Every harmless step that changes a task lowers its rank |
| Runs.ChangesBounded | vms/models.py:720-727 | No harmless run changes a task more often than its rank |
| Runs.OrphanNeverFreed | vms/migrate.py:272-274 | Once the VM of a task that nobody works on is gone, no run, harmful or not, ever gives back what the task still owes; its thread finds no VM and dies |
| Runs.OrphanLeaks | vms/migrate.py:272-274 | In every later harmless run the counters of that host are above what all other owners owe by exactly the size that the task had claimed |
| Runs.LostThread | vms/vminstance.py:1183-1206 | When the thread of a creation, deletion, shelving or unshelving dies, the tables alone are right if and only if it had changed nothing yet |
| Runs.RecountKeepsExactly | compute/managers.py:955-977 | `update_host_quota` leaves a host unchanged if and only if nothing is in flight on it, and otherwise moves each counter by just what is in flight |
| Runs.RecountBreaksExactly | vms/api.py:635-637 | A recount keeps the ledger if and only if nothing is in flight on the host: else what will be given back later is no longer counted |
| Runs.QuietRecount | compute/managers.py:955-977 | On a host without operations, unfinished tasks or undeleted source domains the incremental counters refine the recount |
| Guarantees.FinishedTasksOweNothing | vms/migrate.py:245-260 | A live task that is COMPLETE has really freed its source although the worker stores COMPLETE without testing it; a FAILED one owes nothing on either side |
| VmBuilder.CreateVm | vms/vm_builder.py:207-347 | Refused or failed at any step, hosts, addresses, rows and images are as before; success adds exactly one charge, address, row and image; the host is the named one, or an enabled one of the named group, or of an enabled group of the user in the named center, always of a group of the user and of the group of its address, with room in all three respects; the change is a run of the protocol and keeps the invariant |
| Unshelve.UnshelveVm | vms/vm_builder.py:737-787 | Comes back at the old size on the named host or an enabled one of the named group, else in the group of the last address if that can be taken, else of the stored XML, always in the group of its address and with room in all three respects; otherwise the VM stays SHELVE without host and address and all is as before; the invariant holds afterwards if and only if the request was not on the one leaking path |
| Unshelve.LeakBreaksAddresses | vms/vm_builder.py:672-681 | On the automatic path an address whose group the user may not use stays used without an owner |
| Instance.Delete | vms/vminstance.py:242-371 | Deletes if and only if the VM is NORMAL, has no further address and the calls work; then row, charge, count and address are gone and devices are free; otherwise nothing has changed; the invariant is kept if and only if no thread is about to move the VM, which nobody tests |
| Instance.DeletedExactly | vms/vminstance.py:328-362 | A deletion keeps the invariant if and only if no thread is about to move the VM, and if and only if no continuation by its tasks unbalances the books or misplaces a device |
| Instance.DeletedUnderTask | vms/migrate.py:263-274 | Deleting a VM whose task waits, or is left SOME_TODO by a dead thread: in every later harmless run nothing is given back for it, and what was not given back before stays on that host above what all others owe, by exactly the size of the VM |
| Instance.Shelve | vms/vminstance.py:1143-1207 | Shelves if and only if the VM is NORMAL, off, without local disk and further address, and its devices are GPUs or network cards that can be taken off; host share, count and address go back, size stays, `last_ip` remembers; a refusal changes at most devices of that VM; the invariant is kept if and only if no task may still move the VM |
| Instance.ShelvedExactly | vms/vminstance.py:1143-1207 | Shelving keeps the invariant if and only if no task may still move the VM, and if and only if no continuation by its tasks unbalances the books or misplaces a device |
| Resizing.EditVcpuMem | vms/vminstance.py:428-525 | With the domain off and all calls working succeeds if and only if what grows fits below the total of its host, however many VMs the host has; host, row and domain move by exactly the difference, also when one resource grows and the other shrinks; any failure changes nothing but a domain that could not be defined anew; the invariant is kept if and only if the size stays or no task will release anything at the size in the row |
| Resizing.ResizedExactly | vms/vminstance.py:502-525 | A resize keeps the invariant if and only if the size stays or no task will release anything at the size in the row, and if and only if no continuation by its tasks unbalances the books or misplaces a device |
| Resizing.TryResize | vms/vminstance.py:470-525 | The two tests for room, each on the allocated amount and the total of one resource and neither on the VM limit, then the deduction of both resources at once |
| Resizing.ApplyResize | vms/vminstance.py:502-523 | A failure after the deduction restores host and row, and the domain if it can be defined anew |
| Resizing.RoomOnFields | vms/vminstance.py:494-500 | What is tested before a resize: allocated plus growth against the total, one resource at a time |
| Resizing.ResizeTaken | vms/vminstance.py:494-504 | A resize that passes both checks is never refused by the guarded update and can be undone |
| MigrateThread.LiveMigrateVmTask | vms/migrate.py:190-260 | However many harmless steps of other VMs come between any two commits, the task ends FAILED with its claim back and the VM where it was, or COMPLETE with the source released and the VM on the destination; where the flag or the status cannot be stored, what was done is the same and the row says so as far as it was stored |
| MigrateThread.Interfere | vms/migrate.py:206-260 | Any number of harmless steps of other VMs keep the invariant and this VM with its tasks |
| MigrateThread.Arrive | vms/migrate.py:226-243 | First half of the worker under interference |
| MigrateThread.Leave | vms/migrate.py:245-260 | Second half of the thread under interference, whatever stores of the flag and the status fail |
| MigrateThread.ReleaseSource | vms/migrate.py:247-249 | Release and record are two commits with others in between; the release succeeds; the record may fail |
| MigrateThread.Finish | vms/migrate.py:257-260 | The final store writes the whole row, a flag that could not be stored before as well |
| MigrateThread.MoveLostBreaks | vms/migrate.py:226-260 | A thread that cannot store the new host of the VM goes on to COMPLETE: the books do not balance, and no step of the task is left that could look at it again |
| MigrateThread.GiveUp | vms/migrate.py:173-187 | The claim goes back, then FAILED is stored; where that raises, the row says nothing of it |
| MigrateThread.EndedOnFields | vms/migrate.py:173-260 | How a task ends, on its stored columns and on what was really given back, for each store that may fail |
| OldTasks.DoTaskFailed | vms/migrate.py:173-187 | Gives the claim back, then stores FAILED or raises |
| OldTasks.FailedExactly | vms/migrate.py:173-187 | Failing a waiting task keeps the invariant, and the books, if and only if its claim was not given back before |
| OldTasks.HandleSomeTodo | vms/migrate.py:263-307 | True exactly when the VM exists, the domain is found where row or task say, the source domain is gone and the source is free or could be freed; raises, with nothing changed, exactly when the row names another host than the task and the domain is found at neither or cannot be looked for; a row may be pointed back to the destination; which of flag and status are stored is told apart |
| OldTasks.TodoReleases | vms/migrate.py:295-301 | A source release that is still to come succeeds, at the size that was claimed unless it was made already |
| OldTasks.CleanUpExactly | vms/migrate.py:272-305 | Clean-up keeps the invariant if and only if it does nothing, or leaves the row where it is, no thread is at work that will release the source itself, and the flag records what was really given back; it leaves a flag that does not, if and only if it had to release and could store neither flag nor status |
| OldTasks.RepairBreaks | vms/migrate.py:276-285 | Pointing the row of a VM in order back to the destination of an old task breaks the books: no counter follows |
| OldTasks.RepairRestores | vms/migrate.py:276-285 | Where only the new host of the VM could not be stored, which leaves the books unbalanced, the clean-up does exactly what it would have done with the host stored |
| OldTasks.CleanUpTwice | vms/migrate.py:263-307 | Cleaning up a second time a task that stays SOME_TODO changes nothing |
| OldTasks.CleanUpUnderThread | vms/migrate.py:237-307 | Clean-up under a thread at work on a SOME_TODO task, followed by the rest of the thread, keeps the invariant, and the books, if and only if the clean-up did nothing, or the thread had stored its release and the row stays |
| OldTasks.ThreadRuns | vms/migrate.py:245-260 | The rest of the thread, from any point of its work on a SOME_TODO task, is a run of the protocol that keeps the invariant and ends COMPLETE |
| OldTasks.FilterBlocksOldOnly | vms/migrate.py:41-50 | As long as no task of the VM was abandoned, a task that waits, or is in process and may still move the VM, blocks a second migration if and only if it is older than five minutes, the reverse of what the comment says |
| OldTasks.OldTaskCheck | vms/migrate.py:35-70 | Passes if and only if no task older than five minutes waits or is in process, waiting ones can be stored as FAILED, and there is at most one SOME_TODO task, whose source domain is gone and whose VM is found; an old task that waits or is in process gives a refusal that changes nothing; the invariant is kept if and only if nothing is given back a second time, no thread is at work on the SOME_TODO task and the row is not moved; when it passes, a task may still move the VM if and only if one was there that the filter passed over |
| OldTasks.SettledExactly | vms/migrate.py:41-70 | What may still move the VM afterwards is just what the check did not see |
| OldTasks.PassedOnFields | vms/migrate.py:52-70 | After a check that passes, a waiting task is FAILED with its claim back, a SOME_TODO one has its source back and is COMPLETE as far as that could be stored, all others are as before, and the row names another host only where the domain was found on that destination |
| OldTasks.ChecksOnFields | vms/migrate.py:35-70 | When the check passes, on status, age and flags of the tasks and the host in the row |
| OldTasks.FailedOnFields | vms/migrate.py:173-187 | A failed task took the size of the VM off its destination; status and flag change together or not at all |
| OldTasks.CleanedOnFields | vms/migrate.py:276-305 | A clean-up took the size of the VM off the source unless the flag says that it was done, and points the row back where the domain stands at the destination |
| OldTasks.CleanedTaskOnFields | vms/migrate.py:295-305 | What a clean-up makes of flag and status, for each store that may fail; nothing else of the task changes but who works on it |
| OldTasks.CancelWaiting | vms/migrate.py:52-60 | All waiting tasks of the VM are failed and every other task is untouched; where FAILED cannot be stored, one was given back and the rest left alone |
| OldTasks.CleanedOnCancelled | vms/migrate.py:52-70 | Cancelling and then cleaning up keep the invariant if and only if each of them does: what one gives back too often the other does not make good |
| OldTasks.SettleTodo | vms/migrate.py:61-70 | More than one SOME_TODO task is refused; a single one is cleaned up, and an error of that is a refusal |
| Migrate.LiveMigrateVm | vms/migrate.py:72-170 | Starts if and only if the check passes and, on the rows it leaves, the destination is another host of the same group below its VM limit and with room in both resources, the VM has no devices and no further addresses, and the calls work; an old task that waits or is in process gives a refusal that changes nothing; then the destination is claimed and a WAITING task stands; whichever step fails, counters and VMs are as before it; once started, the invariant holds if and only if no other task may still move the VM |
| Migrate.StartedExactly | vms/migrate.py:144-170 | Starting a migration keeps the invariant if and only if no other task may still move the VM, and if and only if no continuation by its tasks unbalances the books |
| Migrate.SecondMigrationBreaksBooks | vms/migrate.py:41-50 | Two migrations of one VM, the second one started while the first is in process: after the first has moved it the books still balance, after the second they do not, even if both go to one host |
| Migrate.QueueTask | vms/migrate.py:146-170 | Task stored and thread started, or the claim given back and the task gone |
| Migrate.MayMoveOnFields | vms/migrate.py:100-156 | When a VM may be moved to a host, on the rows of VM, hosts, devices and addresses |
| Migrate.StartedOnFields | vms/migrate.py:146-159 | A started migration charges the destination by the size of the VM and stores one WAITING task that says so |
| Migrate.DropTask | vms/migrate.py:158-168 | Gives the claim of a task back that never started; hosts as before |
| Migrate.DroppedInv | vms/migrate.py:158-168 | A dropped task leaves the invariant as it was, whatever other tasks do |
| StaticMigrate.StaticMigrate | vms/migrate.py:385-475 | Succeeds if and only if the VM is NORMAL, a running VM or an unreachable host is forced, the power state can be read, the destination is another host of the group below its VM limit and with room, further addresses are none, devices are none or forced off, and the calls work; on error all but devices of that VM is as before; on success the VM is charged on the destination only, the combined allocation of both hosts is conserved, and the log is SOME_TODO exactly when something was logged; the invariant is kept if and only if no task may still move the VM |
| StaticMigrate.MigratedExactly | vms/migrate.py:385-475 | A static migration, which does not look at other migrations, keeps the invariant if and only if no task may still move the VM, and if and only if no continuation by its tasks unbalances the books |
| StaticMigrate.PreStaticMigrate | vms/migrate.py:310-383 | Passes if and only if, on the rows, the VM is NORMAL, a running VM or an unreachable host is forced, the power state can be read, the destination is another host of the group, further addresses are none and devices are none or forced off; forcing takes the devices off, and only those of that VM |
| StaticMigrate.PassesOnFields | vms/migrate.py:310-383 | The checks before a static migration, the four power states included |
| StaticMigrate.MigratedOnFields | vms/migrate.py:405-473 | A finished static migration moves all three counters from host to host, except the VM counter of a source whose domain is still defined |
| Attach.DetachIp | vms/api.py:782-795 | Detaches whoever has the address; a domain error attaches it again to the VM that is named, if the address is enabled; whichever store fails, the state is told; the invariant breaks exactly when another request had just freed the address, and it was taken again in between or is taken by this one and then cannot be stored |
| Attach.DetachErrorUndoneExactly | vms/vminstance.py:1291-1301 | A domain error, with all stores working, leaves the tables as they were if and only if there was nothing to detach, or the row was this VM's own and the address is enabled |
| Attach.AfterDetachOnFields | vms/manager.py:384-402 | A detach does something if and only if the address has a stored row, of whatever VM, and is not the main one of the named VM; the address is freed first, the row deleted next |
| Attach.DetachErrorOnFields | vms/vminstance.py:1291-1301 | A domain error makes the row one of the named VM; where that cannot be stored the row is gone and the address is used if and only if it was not before |
| Attach.DetachThroughAnotherVm | vms/manager.py:384-402 | An address of another VM can be detached: a domain error hands it over to the named VM, anything else frees it, and the invariant holds whatever is stored |
| Attach.DetachIpToVm | vms/manager.py:384-402 | Address and row go together, found by the address alone; where the row cannot be deleted, the address is free already |
| Attach.DetachedExactly | vms/manager.py:391-400 | Taking a row away keeps the invariant except between the free and the delete of another request, when the address was taken again |
| Attach.RowLeftExactly | vms/manager.py:391-402 | Freeing the address without deleting the row keeps the invariant except when it was free already and taken again |
| Attach.MountToVm | device/manager.py:196-228 | Mounted exactly when the VM is off, the device is free, enabled, of a known kind and on its host, and the domain takes it; otherwise unchanged; the invariant is kept if and only if no task may still move the VM |
| Attach.MountedExactly | device/manager.py:196-228 | Mounting keeps the invariant if and only if no task may still move the VM, and if and only if no continuation by its tasks leaves a device on another host |
| Attach.UmountFromVm | device/manager.py:230-260 | Unmounted exactly when of a known kind and not mounted, or domain and database go along |
| Vdisks.VdiskStore.CreateVdisk | vdisk/manager.py:160-205 | Succeeds if and only if the given pool, or some pool of the groups, is enabled, allows disks of that size and has as much left, and all calls work; whatever fails, rows are as before; pools as well and `size_used` the sum over all rows, if and only if a claimed size could be given back |
| Vdisks.VdiskStore.BuildVdisk | vdisk/manager.py:193-205 | Row and image, or the claimed size given back |
| Vdisks.VdiskStore.Free | vdisk/models.py:118-136 | Subtracts exactly the size; a size of zero or less does nothing; a failed store changes nothing |
| Vdisks.VdiskStore.DoDelete | vdisk/models.py:253-260 | The row goes with its image; conservation is kept if and only if the size could be given back, which nobody tests |
| Vdisks.VdiskStore.SoftDelete | vdisk/models.py:361-374 | The row is marked and keeps its share; conservation is kept |
| DiskMount.Mounts.MountDisk | vms/vminstance.py:562-615 | Attached exactly when in one center, free, enabled and a device name is left; refused for lack of names if and only if vdb to vdz are all taken; the first free name is used; domain and rows agree afterwards; failures change nothing |
| SysDisk.SysDiskChanger.ChangeSysDisk | vms/vminstance.py:887-933 | Domain and row always roll back; a failure changes no image, except that past the clone step it loses the image under a name that was still taken; success gives a clone under the old name and keeps the old content under `x_`, the time and the old name, in other pools as well; a name with that prefix is kept |
| DiskMount.NewVdiskDev | vms/xml_builder.py:90-105 | The first of vdb to vdz not in the list; none exactly when all 25 are |
| Keeps.InitialInv | compute/models.py:127-150 | A system without VMs, with zero counters and free addresses, satisfies the invariant |
| Guarantees.NeverOutsideTotals | compute/models.py:264-295 | In every state that a harmless run reaches `0 <= allocated <= total` for vcpu and memory, although the guarded update tests only the upper side |
| Guarantees.AddressesAtRest | network/managers.py:442-502 | With no operation in flight `used` holds exactly when the address is the primary address of one NORMAL VM or has one attachment row; a shelved VM owns none |
| Guarantees.PlacementIsCoherent | vms/vm_builder.py:137-205 | In every reachable state a NORMAL VM sits in the group of its address and a mounted PCI device on the host of its VM |
| Guarantees.CountersAtRest | compute/models.py:350-385 | With nothing in flight and no source domain left behind, all three counters of every host are what counting the NORMAL rows gives |
| Runs.StatusForward | vms/migrate.py:422 | The status goes back exactly when a static log, first stored as COMPLETE, ends SOME_TODO; a live task never goes back |
| Runs.BooksAreRowsAndFlight | compute/models.py:350-385 | What is owed to a host is what the NORMAL rows show plus what is in flight |
| Runs.ConcernsOnFields | vms/migrate.py:206-260 | A step concerns the VM it names, the VM of its task, or the VM that has its address or device; any other may come in between |
| Runs.OthersAreFree | vms/migrate.py:206-260 | Hosts, addresses, devices and all that belongs to other VMs may be anything after an interference |
| Tables.ClaimIfMeetsIsExact | compute/models.py:192-238 | Test-then-claim succeeds exactly when limit, vcpu and memory allow it, adds exactly the request, and stays within the totals |
| Tables.GuardsOnFields | compute/models.py:192-295 | The VM limit counts only where it is asked for; the update tests just the resources it changes, and moves them by the deltas |
| Tables.FreeOutcome | compute/models.py:240-262 | A release is refused exactly when the row would stay above its total; otherwise it subtracts exactly, without testing the lower side |
| Tables.DeductThenUndo | compute/models.py:264-295 | `deduct_delta(d)` then `deduct_delta(-d)` is the identity exactly when each touched resource was within its total before |
| Guards.BeginCreateExactly | network/managers.py:442-473 | A creation can begin if and only if the id is new, the size positive and the address enabled and free |
| Guards.BeginUnshelveExactly | vms/vm_builder.py:643-681 | An unshelving can begin if and only if the VM is shelved and the address enabled and free |
| Guards.ClaimHostExactly | compute/managers.py:871-884 | A host can be claimed if and only if the request holds an address of its group and no share yet, the host is below its VM limit, and both resources fit below their totals; the claim adds exactly the request |
| Guards.ClaimDstExactly | vms/migrate.py:106-158 | A destination can be claimed if and only if it is another host of the group of a NORMAL VM without devices and further addresses, and passes the same three tests |
| Guards.LeavingExactly | vms/vminstance.py:242-371 | Deletion can begin if and only if the VM is NORMAL and has no further addresses; shelving if and only if it has no devices either |
| Guards.ResizeExactly | vms/vminstance.py:494-504 | A resize is possible if and only if what grows fits below the total of the host; the VM limit plays no part |
| Guards.FurtherExactly | device/device.py:137-165 | A further address must be enabled, free and without a row; a device enabled, free, of a known kind and on the host of the VM |
| Guards.OnWaitingExactly | vms/migrate.py:173-201 | A thread picks up a task by its status alone, and loads the VM as it is then or dies; a request fails one if and only if it waits, nobody is at work on it and its VM is there |
| Guards.OnTodoExactly | vms/migrate.py:263-305 | A request gives the source of a SOME_TODO task back, or closes the task, if and only if nobody is at work on it, its VM is there, and the flags ask for it |
| Guards.MarkedExactly | vms/migrate.py:180-185 | What is stored after a release, at the destination or, by a later request, at the source, is what the release returned |
| Guards.HarmfulOnFields | vms/migrate.py:172-307 | The harmful steps are those six kinds, on the flags of the task, the row and the tasks of the VM |
| ProtocolInv.ReleaseSucceeds | compute/models.py:240-262 | Every release still owed succeeds, subtracts what was charged and leaves the host within its totals |
| ProtocolInv.Covered | compute/models.py:216-262 | No single charge exceeds the counter of its host: the lower bound follows from matching frees to claims |
| ProtocolInv.Rebalance | compute/models.py:264-295 | Books stay balanced when the counters move by as much as the one VM and the one task that were touched owe |
| Databases.ClaimFromHost | compute/managers.py:859-884 | Unknown host, refusal and failed write are told apart, and each leaves all hosts alone; otherwise exactly that row is charged |
| Databases.DeductDelta | compute/models.py:264-295 | Both resources move or neither; a zero delta is neither tested nor written |
| Databases.FreeHost | compute/models.py:240-262 | Says whether the guard let the release through, and changes only that host |
| Databases.AddVmCreated | compute/models.py:310-348 | Moves the VM counter of that host and nothing else |
| Databases.ApplyForFreeIpInVlan | network/managers.py:442-473 | Finds none exactly when the network has no free enabled address; otherwise marks exactly one such |
| Databases.ApplyForIp | network/managers.py:442-473 | Takes the named address exactly when it exists, is enabled and free |
| Databases.FreeUsedIp | network/managers.py:476-502 | Frees the address; freeing a free one succeeds and changes nothing |
| Scheduler.HostMacIPScheduler.Schedule | vms/scheduler.py:12-47 | Succeeds if and only if the given host fits (or some listed group has a fitting enabled host) and, when an address is wanted, its group has a free one of the kind; the verdict is the same for every shuffle; success takes exactly one host share and at most one address of the same group; refusal leaves no residue |
| Scheduler.HostMacIPScheduler.ScheduleByHostVlan | vms/scheduler.py:49-78 | The same exact condition for one given host |
| Scheduler.HostMacIPScheduler.ScheduleByGroupVlan | vms/scheduler.py:117-147 | The same exact condition for one group |
| Scheduler.HostMacIPScheduler.ScheduleByGroupListVlan | vms/scheduler.py:149-180 | Succeeds if and only if some group of the list serves; groups tried in vain leave nothing behind |
| Scheduler.HostMacIPScheduler.FindHost | vms/scheduler.py:200-230 | Finds a host exactly when one of the list meets the needs |
| Scheduler.HostMacIPScheduler.ScheduleHostsVlan | vms/scheduler.py:200-247 | Takes host and address together or gives the address back |
| Scheduler.HostMacIPScheduler.TakeIp | vms/scheduler.py:220-232 | Takes an address of the given network, else of any network of the group, exactly when one serves |
| Scheduler.HostMacIPScheduler.GetMacIp | vms/scheduler.py:80-115 | Finds an address exactly when a network of the list is of the kind and has a free one |
| Scheduler.HostMacIPScheduler.HasFreeMacIpInGroup | vms/scheduler.py:249-295 | True exactly when an enabled network of the group is of the kind and has a free address |
| Scheduler.Shuffle | vms/scheduler.py:200-218 | Any permutation of the list may come out |
| Scheduler.FitsOnFields | compute/models.py:192-214 | A host fits if and only if it is below its VM limit and has room in both resources; only a search in a group asks whether it is enabled |
| Scheduler.IpOnFields | vms/scheduler.py:49-147 | A group has an address to give if and only if the named network is its own and, when one is needed, an enabled network of it has a free enabled address of the kind, and so has the named network, enabled or not |
| Scheduler.TakenOnFields | vms/scheduler.py:200-247 | A granted request moved just that host row by just the size, and marked just that address |
| Among.StartVm | vms/vm_builder.py:207-347 | Creating or unshelving while other requests take any number of harmless steps between any two commits: in the end the VM, its address and its charge are all there, or the VM has neither and its row is as before; the host taken was below its VM limit and had room in both resources when it was taken, every host passed over lacked that or was of another group when it was tried, and all hosts were tried before a refusal; the invariant holds either way |
| Among.ClaimSome | vms/scheduler.py:200-230 | Host after host is tried while others take and release shares; the first one that passes the three tests in the state of its try is taken, and no other |
| Among.TryHost | compute/managers.py:871-884 | One try: succeeds if and only if the host is of the group of the address, below its VM limit, and has room in both resources, in the state in which it is tried |
| Among.DeleteVm | vms/vminstance.py:328-371 | A deletion under interference ends with row, address and charge gone |
| Among.ShelveVm | vms/vminstance.py:1174-1207 | A shelving under interference ends with address and charge gone and the row shelved at its size |
| Builder.InCenter | vms/vm_builder.py:188-203 | The enabled groups of the user that lie in the center, no more and no less |
| Builder.ChoiceExactly | vms/vm_builder.py:137-205 | Which hosts a choice allows: the named one if the user may use its group, the enabled ones of the named group, or those of the groups of the named center, each narrowed to the group of the network |
| Builder.PlacedOnFields | vms/vm_builder.py:325-341 | A placed VM is one share and one VM more on its host, one used address and one row, and nothing else |
| Builder.ChoiceStaysInGroup | vms/vm_builder.py:137-205 | Every host a choice made for a network allows is in the group of that network |
| Builder.Started | vms/vm_builder.py:271-303 | Reservation then claim, as protocol steps, give exactly the state an operation holds |
| Builder.Finished | vms/vm_builder.py:325-341 | Storing and counting turn what is held into one row, one charge, one address |
| Builder.GivenBack | vms/vm_builder.py:328-339 | The compensation steps give back exactly what the operation holds |
| Builder.Undone | vms/vm_builder.py:328-339 | Compensation after a full allocation ends in the very state before |
| Builder.SaveUndone | vms/vm_builder.py:459-475 | Taking the stored row back ends in the very state before it was stored |
| VmBuilder.Allocate | vms/vm_builder.py:271-306 | Takes named or scheduled address and host, all or nothing; where they may be is told on the rows: user, group, center, network, kind, VM limit and both resources |
| VmBuilder.AllocatesOnFields | vms/vm_builder.py:91-205 | Host and address can be had if and only if the named address or network may be used and some host is allowed by host, group or center as named, by the user and by the network, has room in all three respects, and has the address that is wanted in its group |
| VmBuilder.CreatesOnFields | vms/vm_builder.py:235-341 | A creation succeeds if and only if the request is well-formed, every call works, the image name is free, and host and address can be had |
| VmBuilder.ServesWithoutIp | vms/vm_builder.py:296-298 | Taking the named address first does not change what the scheduler can serve |
| VmBuilder.BuildVm | vms/vm_builder.py:308-341 | Image, row, domain and counter, or everything allocated given back and the image removed |
| VmBuilder.CreateVm2 | vms/vm_builder.py:431-475 | The row stays exactly when the domain is defined |
| VmBuilder.GiveBack | vms/vm_builder.py:328-332 | Frees address and host share of the operation, and nothing else |
| VmBuilder.GiveBackRestores | vms/vm_builder.py:328-332 | Giving back after an allocation is its exact inverse, on a host within its totals |
| VmBuilder.Ceph.Clone | vms/vm_builder.py:308-314 | A clone is refused when the name exists, and then changes nothing |
| VmBuilder.Ceph.Remove | vms/vm_builder.py:333-337 | Removes that image only |
| VmBuilder.CreateRun | vms/vm_builder.py:207-347 | Both outcomes of a creation are runs of the protocol |
| Unshelve.Reallocate | vms/vm_builder.py:643-681 | Exactly when address and host can be had; the last address is re-checked and used only if free |
| Unshelve.Place | vms/vm_builder.py:754-778 | With the decided address taken: host or nothing |
| Unshelve.CreateVm3 | vms/vm_builder.py:683-720 | The row is NORMAL exactly when the domain is defined, else SHELVE again with no host and no address |
| Unshelve.RebuildVm | vms/vm_builder.py:770-780 | Row, domain and counter, or everything back |
| Unshelve.PlanStaysInGroup | vms/vm_builder.py:643-681 | A decided address lies in the group that is searched for a host, on every path |
| Unshelve.PlanExactly | vms/vm_builder.py:643-681 | Which hosts are allowed: the named one, or the enabled ones of the named group, else of the group of the last address or of the XML, each in a group of the user and in that of a named address |
| Unshelve.UnshelvesOnFields | vms/vm_builder.py:737-787 | A VM comes back if and only if it is shelved, the calls work, and some host is allowed, has room for its size, and has an address to give where none is decided |
| Unshelve.LastIpOnFields | vms/vm_builder.py:665-681 | The last address decides address and group if and only if it exists, is enabled, free and in a network; else the XML decides the group |
| Unshelve.LeaksOnFields | vms/vm_builder.py:672-681 | The last address is lost if and only if nothing is named, it can be taken, and its group does not exist or is closed to the user |
| Unshelve.KindIrrelevant | vms/vm_builder.py:758-761 | With the address decided the public/private flag cannot change the verdict |
| Instance.UmountAll | vms/vminstance.py:1162-1166 | All devices of the VM come off exactly when none is stuck; devices of other VMs are untouched |
| Instance.ShelveRowOf | vms/vminstance.py:1183-1206 | Address, share and count given back and the row stored as SHELVE, nothing else |
| Instance.DeletedOnFields | vms/vminstance.py:328-362 | A deletion takes the row away, frees address and devices, and lowers all three counters of the host, and nothing else |
| Instance.ShelvedOnFields | vms/vminstance.py:1183-1206 | Shelving frees the address, lowers all three counters, and keeps the row with its size and the last address |
| Instance.RowReleasable | vms/vminstance.py:1189-1193 | What a NORMAL row is charged can always be released |
| Instance.ShelveRoundTrip | vms/vminstance.py:1143-1216 | Shelve then unshelve gives the row back up to place and `last_ip`, and keeps total allocation; on the old place all counters and addresses are as before |
| StaticMigrate.ClaimAndMove | vms/migrate.py:405-422 | Claim, define and move, or the claim given back |
| StaticMigrate.MoveOver | vms/vm_builder.py:542-598 | Row and counter on the destination, then the source is left |
| StaticMigrate.LeaveSource | vms/migrate.py:449-473 | Source counter, source share and final status |
| StaticMigrate.UndefineSource | vms/migrate.py:449-456 | The source counter falls exactly when `undefine` returned True; only an exception is logged |
| StaticMigrate.CloseLog | vms/migrate.py:458-473 | The share is released and the status says whether anything was logged |
| StaticMigrate.ArrivedInv | vms/migrate.py:405-422 | Claim, switch, count and first save are steps of the protocol |
| StaticMigrate.MigratedInv | vms/migrate.py:405-473 | The finished migration is a run of the protocol, whatever `undefine` did |
| Attach.AttachIp | vms/api.py:768-780 | Attached if and only if the address is enabled, free and without a row, the row is stored and the domain takes it; otherwise unchanged; the invariant holds afterwards if and only if storing worked or nothing was taken |
| Attach.AddIpToVm | vms/manager.py:358-382 | Takes and stores; when storing fails the address stays taken exactly when the copy that is then freed reads free already |
| Attach.TakenWithoutOwner | vms/manager.py:373-381 | A used address without an owner breaks the invariant |
| Vdisks.VdiskStore.ScheduleQuota | vdisk/manager.py:241-290 | Finds a pool if and only if an enabled one of the groups fits both limits, whatever the order |
| Vdisks.VdiskStore.Allocate | vdisk/manager.py:174-192 | The given pool, or one found; refused exactly when none fits |
| Vdisks.VdiskStore.Claim | vdisk/models.py:89-116 | Adds exactly the size when pool and limits allow it |
| Vdisks.VdiskStore.RecountDiffers | vdisk/models.py:44-59 | The live recount is smaller than `size_used` by exactly the soft-deleted sizes |
| Vdisks.KeptAndDeleted | vdisk/models.py:44-59 | The sum over all rows splits into live and soft-deleted rows |
| Vdisks.SizeInOnFields | vdisk/models.py:44-59 | A row counts for its own pool, and for the recount only while it is not soft-deleted |
| DiskMount.Mounts.UmountDisk | vms/vminstance.py:617-652 | Domain and row lose the disk together or keep it, under its old name |
| DiskMount.Mounts.MountToVm | vdisk/manager.py:293-328 | A disk mounted elsewhere or disabled is refused |
| DiskMount.Mounts.UmountFromVm | vdisk/manager.py:331-358 | The row forgets VM and device name together |
| DiskMount.GetVmVdiskDevList | vms/xml_builder.py:59-87 | All virtual disks and all device names of the domain, those of other disks and buses included |
| DiskMount.MountedConsistent | vms/vminstance.py:581-613 | Agreement of all domains with all rows and distinct names survive a mount |
| DiskMount.UnmountedConsistent | vms/vminstance.py:631-652 | And an unmount |
| DiskMount.Replugged | vms/vminstance.py:643-650 | Plugging back in under the old name restores what the domain holds, with distinct names |
| DiskMount.WithoutKeeps | vms/vminstance.py:631-641 | Unplugging removes that disk only |
| DiskMount.MountedEntry | vms/vminstance.py:631-641 | A mounted disk is in its domain once, under the name of its row |
| DiskMount.ConsistentOnFields | vms/vminstance.py:581-652 | A disk is in a domain under a name if and only if its row names that VM and that name, no name comes twice, and a disk that is nowhere has none |
| DiskMount.DevOnFields | vms/xml_builder.py:90-105 | Device names of virtual disks are `vd` and one of 25 letters |
| SysDisk.SysDiskChanger.ResetImageCreateVm | vms/vm_builder.py:478-539 | Clone, define and row save, or domain and row as before and the clone removed |
| SysDisk.SysDiskChanger.RenameSysDiskDelete | vms/models.py:782-799 | Renames to the archive name; a name with the archive prefix is kept |
| SysDisk.SysDiskChanger.Rename | vms/models.py:39-54 | Moves the content to the new name, or changes nothing |
| SysDisk.AsideUndone | vms/vminstance.py:919-933 | Setting aside, then removing the clone and renaming back, is the identity on images exactly when the target name was free |
| SysDisk.TargetAfterAside | vms/vm_builder.py:489-510 | When the target name is still taken after the old disk was set aside |
| SysDisk.ArchiveNameIsNew | vms/models.py:782-799 | The archive name differs from the old name and carries the prefix |
| SysDisk.AsideOnFields | vms/models.py:782-799 | The archive name is `x_`, the time and the old name; a name that begins with `x_` is kept |
| Subnet.GenerateSubips | network/managers.py:185-224 | Refused exactly for a wrong order, ends outside the network or, when storing, a stored address or MAC of the range; storing is all or nothing |
| Subnet.SubipsOf | network/managers.py:204-218 | Every generated address is in the network although only the two ends are tested |
| Subnet.ListSubips | network/managers.py:210-216 | Strictly increasing, exactly the addresses with non-zero low byte, each at the position `n - (n + 255) / 256` gives, so the length is that difference |
| Subnet.EndpointsSuffice | network/managers.py:38-53 | A network is an interval: an address between two of its addresses is in it (section 3.1 of RFC 4632) |
| Subnet.NetworkIsInterval | network/managers.py:38-53 | Comparing masked addresses is the same as being in the interval |
| Subnet.MacRoundTrip | network/managers.py:213-215 | A MAC text decodes to an address if and only if it is the one generated for that address |
| Subnet.MacDigits | network/managers.py:213-215 | A generated MAC address is C8:00 and the eight upper-case hexadecimal digits of the address, the highest first |
| Subnet.SizeDoubles | network/managers.py:38-53 | A network of prefix 32 has one address, and each bit less doubles it (section 3.1 of RFC 4632) |
| Subnet.GeneratesOnFields | network/managers.py:210-224 | A stored row is in the way if and only if it has the address, or the MAC, of some address of the range with a non-zero low byte |
| Subnet.MacsDiffer | network/managers.py:213-215 | Different addresses have different MAC addresses |
| Subnet.EntriesDiffer | network/managers.py:210-216 | No two entries of a list share address or MAC |
| Subnet.WholeNetwork | network/managers.py:210-216 | A whole network of at least 256 addresses loses exactly one in 256 |
| Subnet.MacIpTable.Import | network/managers.py:218-224 | All rows or none; refused exactly when an address or MAC of the list is stored already or comes twice |
| SharedUsers.SharedUserTable.ReplaceSharedUsers | vms/manager.py:436-468 | Refused if and only if some role is neither readonly nor readwrite, or some user to be added is unknown, and then unchanged; otherwise who has which role equals the request, unchanged pairs keep their row id, other VMs keep all rows; an empty request removes all |
| SharedUsers.SharedUserTable.Compare | vms/manager.py:449-463 | Which stored rows stay and which rows are to be added |
| SharedUsers.SharedUserTable.BulkCreate | vms/manager.py:465-468 | All rows or none; refused exactly when (vm, user) would not be unique |
| SharedUsers.SharedUserTable.HasSharedPermOfVm | vms/manager.py:414-429 | Write needs readwrite, read needs either |
| SharedUsers.NoClash | vms/manager.py:461-468 | The bulk insert after the delete can never break the uniqueness of (vm, user) |
| SharedUsers.DeleteThenInsertReplaces | vms/manager.py:461-468 | Deleting the changed rows and inserting the requested ones leaves exactly what was requested |
| SharedUsers.ReplacingAgainChangesNothing | vms/manager.py:436-468 | The same request again touches no row at all |
| SharedUsers.OtherVmsUndisturbed | vms/manager.py:436-468 | No other VM is shared differently afterwards |
| SharedUsers.RefusedOnFields | vms/manager.py:449-460 | A request is refused if and only if a role is neither of the two, or an unknown user would have to be added |
| SharedUsers.ReplacedOnFields | vms/manager.py:436-468 | What is stored afterwards, row by row: one for each requested user, in that role, rows that said the same before, and all rows of other VMs |

## Left out

- Image VMs (vms/vm_builder.py:349-429), forced deletion, deletion of shelved VMs, later clean-up of archives, and edits of totals by an administrator: they charge or release outside the rows that the recount reads.
- Statistics, quota reports, permission checks inside views, serializers, VPN, noVNC, mirror images: no hard state. Permission tests of the operations are group membership or a boolean parameter.
- XML text and DOM handling: a domain is the list of its disks with their device names, its size, or which image it boots from.
- Integer columns are unbounded here; their 32-bit width is not modelled. IPv6 and the text form of IPv4 addresses and masks are left out: an address is its number, a mask its prefix length.
- `random.shuffle` and database order: any order.
- `vm_limit` is tested by every claim but not an invariant: migrations count the VM only after the claim, so concurrent claims may pass it.
- Databases.FreeHost: a failed store, which returns False, is left out; the undo calls of the operations are assumed to work.
- Databases.AddVmCreated: a failed store is left out.
- Databases.ApplyForFreeIpInVlan: any free address may be taken, not the first by id; a failed store is left out.
- Databases.ApplyForIp: a failed store is left out.
- Databases.FreeUsedIp: a failed store is left out.
- MigrateThread.LiveMigrateVmTask: a failed store of the VM row (vms/migrate.py:228-233) is left to `MoveLostBreaks`, and a failed store of SOME_TODO (vms/migrate.py:237-243), after which the row stays IN_PROCESS until the next store, is not modelled. A task whose claim was given back before is left to `PickUpHarms`: every continuation then breaks the invariant.
- MigrateThread.Arrive: a failed store of the VM row or of SOME_TODO is left out, as above.
- OldTasks.HandleSomeTodo: where the domain is found is a parameter; a failed store of the repaired row counts as not found, since both raise and change nothing.
- OldTasks.OldTaskCheck: one answer about where the domain is found serves for the one SOME_TODO task that is cleaned up; the content and time columns of a task are left out.
- Resizing.EditVcpuMem: a resize is one step of the protocol; between its deduction and its undo another VM could otherwise take the released units (vms/vminstance.py:503-517).
- Runs.QuietRecount: `update_host_quota` is a ghost function of the state, not a method, and is not a step of the protocol, since `RecountBreaksExactly`; that `migrate_vm` recounts only one of its two hosts (vms/api.py:635-637) is not modelled.
- Runs.LostThread: says what the tables are worth after the thread of an operation died; what later operations make of them is not followed further.
- Unshelve.UnshelveVm: disk rows are not in its tables; `mount_vdisks` attaches only the first disk (vms/vm_builder.py:722-735), of which only success or reported failure is modelled.
- Instance.ShelveRoundTrip: is about size, place and ledger; shelving and unshelving write no disk row and no image.
- Instance.Delete: unmounting virtual disks and renaming the archived image after the row is gone are not part of it, nor are failed stores after that.
- Among.DeleteVm: starts where the checks have passed and no thread is about to move the VM (`DeletedExactly` says what happens otherwise).
- Among.ShelveVm: starts where the checks have passed, devices are off and no task may still move the VM (`ShelvedExactly` says what happens otherwise).
- Among.StartVm: one address and one list of hosts are given; the choice among addresses, groups and shuffles is in `CreateVm`, `UnshelveVm` and `Schedule`, which run alone.
- Attach.AttachIp: the deletion of the row in its undo is assumed to work.
- Attach.UmountFromVm: plugging the device back into the domain after a failed row update is not in the state.
- StaticMigrate.StaticMigrate: attaching disks again after a rebuilt XML is one flag, "some disk failed".
- SysDisk.SysDiskChanger.ChangeSysDisk: ends with the row and the domain; deleting snapshots before and attaching disks and devices again after it are left out. The final rename back is assumed to work unless the name is gone.
- Vdisks.VdiskStore.Claim: sequential; the test on a possibly stale value before the unguarded addition (vdisk/models.py:107-112) is safe only without concurrent claims.
- Scheduler.HostMacIPScheduler.ScheduleHostsVlan: an address taken and given back within a refused attempt is inside the method and not two steps of the protocol.
- Protocol runs of methods are ghost values; only creation returns its run, the other operations use theirs in the proof that the invariant is kept.
