# A verified model of the hyperagents disk-introspection core

`libhyperagent` lets an agent on the hypervisor read a guest's disk. Two parts of it carry state that is hard to get
right, and both are modelled here together with three guest-memory readers from the actuators.

**The breakpoint hijack** (`do_sync` and its two event callbacks). Before a disk is mounted the guest's page cache is
flushed from outside: five bytes of guest code are replaced by 0xCC, a vCPU that arrives at `dwork` is diverted into
`sys_sync`, sent back with rdi, rsi and rdx restored, and the bytes are put back.

- `Options`, `GuestMemory`, `Probes`: memory, registers, the globals, and the callbacks, arming, disarming, the event loop,
  a whole call, and a process that makes calls for many guests, as functions on values.
- `ProbeEngine`: the same code as a class that updates globals and guest memory in place, proved against those functions.
- `Restoration`: what any interleaving of callbacks on any number of vCPUs does to memory; teardown restores it exactly,
  and exactly when two one-shot probes do not clash.
- `Returning`: exactly when a call returns, told by its events and listens.
- `TrapBudget`: the 51 traps and 50 steps of a process lifetime, and exactly when a call gets to listen.
- `OneVcpu`, `Simulation`: the instrumented guest on one vCPU over an abstract guest; cleanup implies flush, the
  single-step invariant, and the stuttering simulation by the unmodified guest.
- `RunAsCall`: such a run as the events of a `do_sync` call, so that a call that leaves through cleanup has flushed.
- `Walk`: a guest that meets all those hypotheses and whose run does reach cleanup.
- `Flushing`: exactly which calls of which processes can flush their guest.
- `SharedStep`: what several vCPUs do to each other through the one address a step re-arms.

Hypotheses of the one-vCPU results, all of them explicit preconditions: the five addresses are mapped and different and
their own bytes are not 0xCC (`ArmingLaunches`); the guest writes no probe byte and only the instruction at a probe
depends on the byte there (`Tame`); before it stands at `dwork` the guest reaches no other one-shot probe, from the front
of `sys_sync` the next one is its back, and from `dwork` it is `dwork_back` (`Flow`). Failed reads, writes and symbol
translations need no hypothesis: a failed read or translation leaves its variable, a failed write changes nothing.

**The mount manager** (`request_mount`, `release_mount`, `timeval_diff`, `HAMain::mount_disk`/`unmount_disk`). Sixteen
nbd slots with reference counts, lazy release, first-free allocation and stealing of the slot least recently requested.

- `Timevals`, `Slots`, `Devices`, `MountCache`: time differences, the scans, device and mount names, the atomic steps.
- `MountManager`: `syncmount`, `HAConfig` and `HAMain` as classes over an array of records, proved against those
  functions; the spin loop takes what other clients do between its passes as a parameter.
- `Clients`: a step relation for any number of clients, and the invariant every interleaving keeps.
- `Waiting`: bounded waiting, and the proof that `request_mount` with its interference is a run of `Clients`.
- `Pausing`: when a guest's VM stays paused while its mount is held.
- `Overlap`, `Handles`: the same step relation without the limit of one request per guest; when two slots get one guest,
  when the counts stop counting holders, and what holds until then.
- `Flushes`: both parts together, each connect making its call of `do_sync`.

Hypotheses: handles are never null (the type `Vmi`), at most one request per guest is in flight and a client releases
only what it holds (`Enabled`; `Overlap` and `Handles` drop the first), commands succeed, and pausing a paused VM or
resuming a running one changes nothing. A connect to a busy device, on which the program calls `exit(-1)`, is modelled and
proved unreachable. The atomic steps are the remount hit, the fresh grant, a failed pass, a deciding pass through to its
commit, and a release.

**The readers**: `DeviceList` (the circular device list of `13.c`), `Environment` (the environment block of `17.py`) and
`DentryPath` (the dentry walk of `6.py`), over `Splitting`, Python's `split`.

Some results are about where the code falls short of its intent, each with the exact condition.

- `interrupted` is never reset. A call that finds the work function takes a callback iff `interrupted` is 0 when it starts
  (`ListensIffNotInterrupted`), and can flush its guest iff moreover no probe is taken for another one (`FlushesIff`).
  It still is 0 iff no call since program start, for whichever guest, has left its event loop (`FlushesIffNoneLeftLoop`), so
  one mount at most in the life of a process is preceded by a flush (`OneConnectFlushes`, `ConnectFlushesIffFirst`).
- The return for a missing work function leaves the probes in guest code; memory survives iff every mapped probe byte was
  0xCC already (`EarlyReturnLeavesProbes`).
- All vCPUs share one `step_rewrite_loc`. A step re-arms the probe it was raised for iff the last trap before it was there
  and cleanup has not begun; two vCPUs can leave `qworko` lifted and `dwork` armed again (`TwoVcpusSwapProbes`).
- Overlapping requests for one guest can end with two slots for it (`OverlappingRequestsDuplicate`). A guest gets a second
  slot iff a pass decides although the table it scanned already has one (`DoubledIffPassMissesSlot`), never with one
  request per guest in flight (`EnabledNeverDoubles`).
- An agent keeps one handle per guest. Some count stops being the number of holders iff a client releases while the handle
  is not of the slot it holds (`CountsLostIffMisrelease`), which takes a guest with two slots (`CountsLostOnlyIfDoubled`).
  Until then held mounts are safe even with overlapping requests (`OverlappingHeldSlotIsSafe`); after it a mount can be
  stolen while a client holds it (`StolenWhileHeld`).
- A release resumes the guest whoever else holds its mount, and a remount hit does not pause it again. From a connect on
  the guest stays paused iff nobody else releases the mount (`PausedIffNotReleased`); see also `HitLeavesRunning`.
- The do-while reports the head of an empty device list as a device iff a hardware address is readable there
  (`EmptyRingReportsHead`).

## Model

| member | source | states |
|---|---|---|
| `ProbeEngine.Engine.constructor` | libhyperagent/syncmount.cc:46-85 | the globals at program start |
| `ProbeEngine.Engine.IntCbFront` | libhyperagent/syncmount.cc:116-234 | a trap's whole effect on globals, memory, single-step flag and vCPU, unknown addresses included |
| `ProbeEngine.Engine.StepCbFront` | libhyperagent/syncmount.cc:236-264 | a step's whole effect, re-arming or cleanup |
| `ProbeEngine.Engine.EventsListen` | libhyperagent/syncmount.cc:379-388 | a batch of callbacks in order, then the status check |
| `ProbeEngine.Engine.ArmProbes` | libhyperagent/syncmount.cc:297-348 | five separate translations; each site's byte is the one found after the earlier sites were patched |
| `ProbeEngine.Engine.ReplaceMemory` | libhyperagent/syncmount.cc:411-437 | the saved bytes go back in the order dwork, dwork_back, front, back, qworko |
| `ProbeEngine.Engine.DoSync` | libhyperagent/syncmount.cc:270-463 | a call is arm, loop until interrupted, disarm; it says when it returns |
| `Probes.ArmedAddresses` | libhyperagent/syncmount.cc:297-362 | each probe is at its own translation, or its previous address, plus 0, 0, 170, 0 and 156; the early return is taken iff dwork is 0 |
| `Probes.UnmappedKeepsSaved` | libhyperagent/syncmount.cc:297-348 | a failed read leaves the byte saved before |
| `Probes.TrapTakenForFirst` | libhyperagent/syncmount.cc:132-231 | a trap is taken for the first site tested that is there, with that site's byte, jump, saved registers, cleanup and single-step |
| `Probes.TrapTakenForNone` | libhyperagent/syncmount.cc:132-231 | a trap anywhere else writes a 0 at address 0 and single-steps |
| `Probes.CallStartsFromItsGuest` | libhyperagent/syncmount.cc:46-85 | a call starts from the globals all guests share and from its own guest's memory |
| `Probes.CallTouchesOneGuest` | libhyperagent/syncmount.cc:270-463 | a call leaves the memory of every other guest alone |
| `Returning.ReturnsIff` | libhyperagent/syncmount.cc:378-439 | a call returns iff interrupted was set, a listen fails, a trap is the 51st or a step comes in cleanup; without a failed listen interrupted is then 1 |
| `Returning.ReturnsIffInProcess` | libhyperagent/syncmount.cc:132-439 | the same after any calls since program start, the trap counted over the process |
| `Returning.FailedListenEnds` | libhyperagent/syncmount.cc:379-439 | a failed listen leaves interrupted at -1, tears down, and no listen after it is made |
| `Restoration.ArmEstablishes` | libhyperagent/syncmount.cc:297-348 | arming writes 0xCC at every mapped probe, nothing elsewhere, and saves what lay beneath |
| `Restoration.CallbacksKeepMemory` | libhyperagent/syncmount.cc:227-258 | under any interleaving on any vCPUs bytes off the probes are the guest's own and probe bytes are original or 0xCC |
| `Restoration.TeardownExact` | libhyperagent/syncmount.cc:411-437 | from any moment of a call teardown restores memory iff no two one-shot probes clash |
| `Restoration.ArmDisarmExact` | libhyperagent/syncmount.cc:297-437 | arm then disarm is the identity iff no two one-shot probes share an address that is not qworko's and whose byte is not 0xCC |
| `Restoration.DoSyncRestores` | libhyperagent/syncmount.cc:378-439 | a call that returns by cleanup, safety halt or failed listen leaves the guest's own memory iff no clash |
| `Restoration.EarlyReturnLeavesProbes` | libhyperagent/syncmount.cc:356-362 | the early return restores memory iff every mapped probe byte was 0xCC already |
| `Restoration.ManyCallsRestore` | libhyperagent/syncmount.cc:270-463 | over any sequence of calls for any guests, the guests running between them, every guest's memory is its own |
| `TrapBudget.LifetimeTraps` | libhyperagent/syncmount.cc:132-136 | over the process and all its guests at most 51 trap callbacks start with `interrupted == 0` |
| `TrapBudget.LifetimeSteps` | libhyperagent/syncmount.cc:236-264 | and at most 50 step callbacks, on any number of vCPUs |
| `TrapBudget.BudgetAttained` | libhyperagent/syncmount.cc:132-136 | both bounds are attained by one legal call |
| `TrapBudget.ListensIffNotInterrupted` | libhyperagent/syncmount.cc:378-388 | a call that finds the work function can take a callback iff `interrupted` is 0 at its start |
| `TrapBudget.ListensIffNoneLeftLoop` | libhyperagent/syncmount.cc:378-388 | after any calls from program start the next can take a callback iff none of them left its loop |
| `TrapBudget.OnlyOneCallListens` | libhyperagent/syncmount.cc:378-388 | after a call has left its loop no later call, for any guest, takes a callback |
| `OneVcpu.ArmingLaunches` | libhyperagent/syncmount.cc:297-376 | arming at five different mapped addresses with bytes other than 0xCC meets the hypotheses of the run results |
| `OneVcpu.MachineRaisesLegalEvents` | libhyperagent/syncmount.cc:116-264 | each one-vCPU transition is a legal event of the call-level results |
| `OneVcpu.RunInv` | libhyperagent/syncmount.cc:116-264 | the protocol invariant at every moment of every run |
| `OneVcpu.CleanupImpliesFlush` | libhyperagent/syncmount.cc:168-252 | cleanup iff the one-shot traps are dwork, front, back, dwork_back, once each in order; always a prefix of that |
| `OneVcpu.SingleStepInvariant` | libhyperagent/syncmount.cc:126-263 | single-step only over qworko, or dwork_back in cleanup; qworko armed whenever it is off |
| `OneVcpu.OneShotsStayLifted` | libhyperagent/syncmount.cc:168-263 | a lifted one-shot probe holds its original byte until teardown |
| `Simulation.GuestInClean` | libhyperagent/syncmount.cc:227-258 | an instruction the armed guest executes is one the unmodified guest executes |
| `Simulation.Simulates` | libhyperagent/syncmount.cc:146-264 | at every moment the run, with traps and steps erased, is a run of the unmodified guest diverted once through sys_sync, ending in the same registers and disarmed memory |
| `Simulation.StoryIsErasure` | libhyperagent/syncmount.cc:146-264 | that erased run takes exactly the instructions the armed run executed, in order |
| `Simulation.FlushedCall` | libhyperagent/syncmount.cc:168-252 | after cleanup the unmodified guest, by the run's own instructions, has run sys_sync front to back and come past dwork_back, and teardown leaves its memory |
| `RunAsCall.RunIsEvents` | libhyperagent/syncmount.cc:116-264 | a whole run, maps and unmaps included, is a legal event list with the same globals, single-step flag and memory |
| `RunAsCall.RunIsCall` | libhyperagent/syncmount.cc:270-463 | a run from where a call starts to listen is a legal call, however it is split into listens; it has returned iff the run has set `interrupted` |
| `RunAsCall.CleanupCallFlushes` | libhyperagent/syncmount.cc:270-463 | a do_sync that leaves through cleanup returns with the unmodified guest past dwork_back after one sys_sync, every byte its own |
| `Walk.CleanupReached` | libhyperagent/syncmount.cc:168-252 | from every launch off the probes some guest within the hypotheses reaches cleanup |
| `Walk.ReadyCallCleansUp` | libhyperagent/syncmount.cc:270-463 | so does some run of every call that is ready |
| `Flushing.FlushesIff` | libhyperagent/syncmount.cc:153-252 | a call can take the four one-shot traps in order and return iff it finds the work function, `interrupted` is 0 at its start and each one-shot address takes its own branch |
| `Flushing.FlushesIffNoneLeftLoop` | libhyperagent/syncmount.cc:378-388 | after any calls from program start the next can do so iff none of them left its loop and the other two conditions hold |
| `SharedStep.StepArmsLastTrap` | libhyperagent/syncmount.cc:227-263 | a step re-arms the probe it was raised for iff the last trap of any vCPU was there and cleanup has not begun |
| `SharedStep.RearmsIffLastTrap` | libhyperagent/syncmount.cc:227-263 | without a step between, this holds of every legal event list |
| `SharedStep.TwoVcpusSwapProbes` | libhyperagent/syncmount.cc:153-263 | three legal events on two vCPUs re-arm dwork and leave qworko lifted |
| `Timevals.DiffError` | libhyperagent/syncmount.cc:776-784 | less than 1 ms from the exact difference |
| `Timevals.DiffTruncates` | libhyperagent/syncmount.cc:776-784 | rounded down if no microseconds are borrowed, up if they are, which determines the value |
| `Timevals.DiffAntisymmetric` | libhyperagent/syncmount.cc:776-784 | swapping the times negates it |
| `Timevals.DiffMonotone` | libhyperagent/syncmount.cc:776-784 | monotone in the later time |
| `Timevals.DiffAdditive` | libhyperagent/syncmount.cc:776-784 | additive up to 2 ms |
| `Timevals.TenSecondsSuffice` | libhyperagent/syncmount.cc:619-619 | ten exact seconds reach the threshold despite truncation |
| `Slots.HitIsFirst` | libhyperagent/syncmount.cc:560-569 | the remount scan finds the first slot of the guest, or there is none |
| `Slots.FreeIsFirst` | libhyperagent/syncmount.cc:572-586 | the allocation scan finds the first free slot, or there is none |
| `Slots.DecidingPassIsRight` | libhyperagent/syncmount.cc:591-630 | with a stale candidate below the threshold a pass decides iff its table has a victim, and takes it |
| `Slots.DecidesOnAge` | libhyperagent/syncmount.cc:606-619 | a pass decides iff some unused slot is ten seconds old |
| `Slots.DecidesAtMicros` | libhyperagent/syncmount.cc:606-619 | in microseconds: 10 000 000, or more than 9 999 000 if the clock's microseconds are below the stamp's |
| `Slots.VictimUnique` | libhyperagent/syncmount.cc:607-618 | the victim is unique, lowest index on ties |
| `Slots.VictimNearlyOldest` | libhyperagent/syncmount.cc:607-618 | its `last_used` is less than 2 ms later than any unused slot's |
| `Devices.NamesInjective` | libhyperagent/syncmount.cc:520-523 | different slots have different devices and mountpoints |
| `Devices.NamesSpelled` | libhyperagent/syncmount.cc:744-770 | a device is "nbd" and the decimal number of its slot, its mount is base and that |
| `Devices.MountpointSpelled` | libhyperagent/syncmount.cc:520-523 | a string is the mountpoint of a slot iff it is base, "nbd", the decimal number of the slot and a slash |
| `MountCache.RequestShows` | libhyperagent/syncmount.cc:558-651 | the mountpoint of the slot a request gets shows the disk asked for, whatever others do meanwhile |
| `MountCache.BusyConnectExits` | libhyperagent/syncmount.cc:690-698 | a fresh grant whose device is taken ends the process with devices, mounts and pauses as they were |
| `MountManager.SyncMount.constructor` | libhyperagent/syncmount.cc:466-487 | the initial table |
| `MountManager.SyncMount.DoNbdMount` | libhyperagent/syncmount.cc:669-741 | connect, pause and mount, or exit on a busy device |
| `MountManager.SyncMount.DoNbdUnmount` | libhyperagent/syncmount.cc:744-773 | exactly this slot's mount and device are gone and the guest that asks is resumed |
| `MountManager.SyncMount.TryRemount` | libhyperagent/syncmount.cc:560-569 | the remount hit: one more reference and a new stamp at the first slot of the guest |
| `MountManager.SyncMount.TryFresh` | libhyperagent/syncmount.cc:571-586 | the fresh grant of the first free slot |
| `MountManager.SyncMount.ScanPass` | libhyperagent/syncmount.cc:606-618 | one pass of the victim scan with the carried candidate |
| `MountManager.SyncMount.TakeOver` | libhyperagent/syncmount.cc:632-648 | the commit of a deciding pass |
| `MountManager.SyncMount.ReleaseMount` | libhyperagent/syncmount.cc:654-666 | one reference less and the slot's guest resumed |
| `MountManager.SyncMount.RequestMount` | libhyperagent/syncmount.cc:558-651 | hit, fresh grant or spin loop with the other clients acting before each pass |
| `MountManager.HAMain.AddAgent` | libhyperagent/libhyperagent.cc:53-62 | the named agent is new, the others stay |
| `MountManager.HAMain.MountDisk` | libhyperagent/libhyperagent.cc:86-95 | the handle is the slot the request got, the string spells its mountpoint and shows the agent's disk |
| `MountManager.HAMain.UnmountDisk` | libhyperagent/libhyperagent.cc:98-103 | releases the slot of the stored handle |
| `Clients.StepKeepsInv` | libhyperagent/syncmount.cc:558-666 | every atomic step of every client keeps the invariant |
| `Clients.TableShape` | libhyperagent/syncmount.cc:476-586 | allotted slots are a prefix, locked iff allotted iff index set, all for different guests |
| `Clients.SpinnersSeeFullTable` | libhyperagent/syncmount.cc:588-604 | the steal phase is reached only with all sixteen slots allotted |
| `Clients.ReferencesConserved` | libhyperagent/syncmount.cc:561-658 | refcount is the number of holders; the sum is grants minus releases |
| `Clients.DevicesAgree` | libhyperagent/syncmount.cc:669-773 | device and mount of each slot show its guest's disk or nothing; no connect hits a busy device |
| `Clients.StealTakesVictim` | libhyperagent/syncmount.cc:591-641 | a pass steals iff its table has a victim, takes exactly it, and nobody holds it |
| `Clients.VictimLeastRecentlyRequested` | libhyperagent/syncmount.cc:564-644 | the victim's last grant is the oldest of all unheld slots up to 2 ms, and ten seconds back up to 1 ms |
| `Clients.HeldSlotIsSafe` | libhyperagent/syncmount.cc:558-666 | while a grant is held the slot stays its guest's, the handle points to it and the mountpoint string the client was given shows its disk |
| `Clients.MountedIsMountable` | libhyperagent/syncmount.cc:558-651 | in every reachable state a request for any guest meets the condition of RequestShows |
| `Clients.UnmountReleasesHeldSlot` | libhyperagent/libhyperagent.cc:98-103 | the stored handle releases exactly the slot held, one reference, and frees the client |
| `Clients.LazyRelease` | libhyperagent/syncmount.h:39-40 | a released mount stays; asking again at once gets the same slot with no device touched, the guest running on |
| `Overlap.StealKeepsDistinct` | libhyperagent/syncmount.cc:632-641 | a steal keeps the slots of different guests iff no other slot already is its guest's |
| `Overlap.DoubledIffPassMissesSlot` | libhyperagent/syncmount.cc:558-651 | over any run from a clean start a guest gets a second slot iff some pass decides on a table that has one |
| `Overlap.EnabledNeverDoubles` | libhyperagent/syncmount.cc:558-651 | with one request per guest in flight none does |
| `Overlap.OverlappingRequestsDuplicate` | libhyperagent/syncmount.cc:558-651 | from any clean start two overlapping requests can end with two slots for one guest |
| `Overlap.DuplicateLeaksBoth` | libhyperagent/syncmount.cc:632-666 | in that run releasing both leaves one count at -1 and one at 1, with no holder |
| `Handles.StepKeepsCounted` | libhyperagent/syncmount.cc:558-666 | a step of any client keeps counts equal to holders iff it does not release through the handle of another slot |
| `Handles.CountsLostIffMisrelease` | libhyperagent/libhyperagent.cc:86-103 | over any run from a clean start some count differs from the holders iff some client releases through the handle of another slot |
| `Handles.CountsLostOnlyIfDoubled` | libhyperagent/syncmount.cc:632-666 | and only if some guest has had two slots |
| `Handles.OverlappingHeldSlotIsSafe` | libhyperagent/syncmount.cc:558-666 | without such a release a held slot stays its guest's, referenced and mounted, whatever requests overlap |
| `Handles.StolenWhileHeld` | libhyperagent/syncmount.cc:606-666 | with one, from any clean start a mount can be stolen while a client holds it |
| `Pausing.StepPauses` | libhyperagent/syncmount.cc:558-773 | a connect pauses its guest, a release resumes it, no other step does either |
| `Pausing.PausedIffNotReleased` | libhyperagent/syncmount.cc:654-715 | from a connect until its client releases, the guest stays paused iff nobody else releases the mount |
| `Pausing.HitLeavesRunning` | libhyperagent/syncmount.cc:560-569 | after a remount hit the guest is paused iff it was before and nobody else releases |
| `Waiting.BoundedWaiting` | libhyperagent/syncmount.cc:602-630 | if a slot stays unused the loop decides within 11 passes |
| `Waiting.TenPassesMayNotDo` | libhyperagent/syncmount.cc:602-630 | ten passes are not always enough |
| `Waiting.SpinIsRun` | libhyperagent/syncmount.cc:602-650 | the spin loop with interference is a run of the step relation |
| `Waiting.RequestIsRun` | libhyperagent/syncmount.cc:558-651 | so is a whole request, and the handle ends on the granted slot |
| `Flushes.ConnectsIffSlotChanges` | libhyperagent/syncmount.cc:571-648 | a step connects a device iff some slot changes its guest |
| `Flushes.OneConnectFlushes` | libhyperagent/syncmount.cc:683-683 | over any run at most one connect's do_sync takes a callback |
| `Flushes.FlushIsCalledBack` | libhyperagent/syncmount.cc:378-388 | a do_sync that flushes takes a callback |
| `Flushes.ConnectFlushesIffFirst` | libhyperagent/syncmount.cc:378-388 | the next connect can flush its guest iff no connect before it has found the work function and it finds it with no probe taken for another |
| `Flushes.ConnectsShareBudget` | libhyperagent/syncmount.cc:132-136 | the connects of any run take at most 51 traps together |
| `Splitting.JoinOfSplit` | actuators/17.py:68-68 | splitting loses nothing and leaves no separator in an item |
| `Splitting.SplitOfJoin` | actuators/17.py:68-68 | joined items come back iff none contains the separator |
| `Environment.Parse` | actuators/17.py:66-84 | the loop is the fold of the items |
| `Environment.CutOfItem` | actuators/17.py:72-72 | the first '=' cuts |
| `Environment.EnvironmentRoundTrip` | actuators/17.py:66-84 | serialise then parse is the last-wins map, with user and shell from it |
| `Environment.LastWinsUnique` | actuators/17.py:66-84 | that map is the only one |
| `Environment.OnlyPairsCount` | actuators/17.py:79-84 | items without '=' change nothing |
| `Environment.ParseNormalises` | actuators/17.py:66-84 | any block parses as the clean serialisation of its pairs |
| `Environment.BriefAgrees` | actuators/17.py:73-78 | without `full` user and shell are the same and no list is kept |
| `DentryPath.Assemble` | actuators/6.py:40-42 | the path of the reversed names |
| `DentryPath.GetVmaFile` | actuators/6.py:25-49 | the path of the names up to the root, empty without a file, an exception on a failed read |
| `DentryPath.ChainWalked` | actuators/6.py:35-47 | every finite chain is walked to its end and gives exactly its names |
| `DentryPath.BrokenChainRaises` | actuators/6.py:35-47 | a failed read of a name or parent anywhere on the way gives no path |
| `DentryPath.PathRoundTrip` | actuators/6.py:35-49 | splitting the path gives the names back iff none contains '/' |
| `DeviceList.AtHeadIsHead` | actuators/13.c:137-137 | the loop test is equality with the list head, for all offsets and wrap-around |
| `DeviceList.Walk` | actuators/13.c:42-137 | the devices reported, with the break on a failed read |
| `DeviceList.NodesDistinct` | actuators/13.c:131-137 | a list that ends, at its head or at a failed read, repeats no node |
| `DeviceList.WalkVisitsList` | actuators/13.c:57-137 | every non-empty list is reported as the devices that embed its nodes, once each, in order, up to the head, a failed pointer or the first unreadable hardware address |
| `DeviceList.EmptyRingReportsHead` | actuators/13.c:57-137 | an empty list reports its head as a device iff a hardware address is readable there |

## Left out

- LibVMI, Xen, `qemu-nbd`, `kpartx`, `mount` and `system()` themselves: only their effect on memory, registers, the
  device table, the mounts and the clock is kept; attaching and detaching the ghost image is not.
- MountManager.SyncMount.DoNbdMount: the call of `do_sync` is the subject of Flushes; `kpartx` changes no modelled state.
- Liveness of the event loop: listens may bring no event for ever, so `DoSync` says when it returns, not that it does.
- `quiet_qwork`, `target_work_fn` as a separate variable, `kaslr_offset`, the 64-bit masked reads, RDTSC and all printing:
  they change nothing the results speak of (`target_work_fn` always equals `dwork`).
- The initialisation of `calls` and `valid`, `print_status` and `drop_all_mounts`: bookkeeping and debug output, and the
  destructor, which runs when no client is left.
- Races inside one atomic step: remount hits do not take `lk`, so the atomicity of the steps is an assumption.
- Timevals.DiffError: 64-bit overflow of the seconds times 1000 is not modelled; it needs times 290 million years apart.
- MountManager.SyncMount.ReleaseMount: the 32-bit width of `refcount` is not modelled, because it takes 2^31 holders.
- DentryPath.GetVmaFile: a dentry chain that never ends is excluded by its precondition, because the code loops on it.
- DeviceList.Walk: a list that never ends, at its head or at a failed read, is excluded by its precondition, because the code loops on it.
- DeviceList.Walk: names, hardware and IP addresses of the devices are not read, because they do not steer the walk.
- Environment.Parse: reading the block and `arg_block` are not modelled; the code fails before the loop if they fail.
- Actuators 3, 4, 5, 7, 12, 14, 15, 16, 19 and 20, `clam_spawn`, `testmain` and `nbd_test`: single reads and writes or driver plumbing.
