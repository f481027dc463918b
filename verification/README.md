# SwitchPilot verification models

Dafny models of the stateful cores of SwitchPilot's backend, and proofs about them. SwitchPilot manages network
switches over SSH and SNMP from any number of API replicas. What is modelled here is the part where correctness is a
matter of interleaving and state:

* **Commit-confirm** (`RevertDevice`, `CommitConfirm*`, `ConfigureLines`): the platform arms a revert timer on a
  device, applies a change line by line, probes the device over fresh sessions and only then disarms the timer and
  saves. A push, an operator's acceptance of a test-mode push, the device's clock, lost sessions and crashes interleave
  freely.
* **Other operations on that device** (`SharedDevice*`): lines and saves sent by port changes and the like while a
  timer runs. Every course with them is, for the programs, a run without them, so what is proved of runs carries over;
  what the device holds is proved anew.
* **The SSH session pool and its cluster lock** (`SshPool`, `PoolSessions`, `IdleSweep`, `ClusterLock`): calls queue on
  the promise chain of a pool entry, entries are evicted by failures, by `evictDevice` and by the idle sweep, and a
  Redis lock with a token and a TTL serializes replicas.
* **The job queue** (`JobQueue`, `JobQueueSafety`, `JobLateFinish`, `JobTiming`, `JobStore`): claim, heartbeat, finish,
  reap, retry, cancel and clear over one table and any number of workers, and what a finish does that comes too late.
* **Port VLANs** (`VlanLists`, `BridgeVlan*`, `BridgeDevice`, `ArubaBitmap`, `ArubaTrunk`, `ArubaInterleaving`,
  `ArubaRequests`, `TrunkIntent`): the RouterOS bridge scripts as programs over the VLAN table, the Aruba port-list
  bitmaps (PortList, section 5 of RFC 4363) and the read-modify-write loop over them, two such writes of one row at
  once and two whole such requests, the two VLAN list parsers, and what one trunk request means to both drivers.
* **The audit log** (`AuditChain`, `AuditEvidence`): appending to the hash chain, verifying it, and which changes
  show.
* **Smaller cores**: the batch writer (`Batcher`), the bounded worker pool (`WorkerPool`), Cisco port write and
  read-back (`CiscoPort`, `PortVerify`, `ReadBack`), the flap counter (`PortFlap`).

Protocols are state machines: a datatype of events, a step function that follows the source's branches, runs as
last-event-outermost datatypes, an inductive invariant, and theorems over all runs. Code that the source writes as
loops and updates is a method or a class here, proved against the same functions.

`dafny verify dfyconfig.toml` checks everything.

## Assumptions

* One SQL statement, one Redis command, one SNMP request and one device command are each one atomic step. A device
  command may be rejected, or lose its session before or after it took effect; either way its sender sees an error. An
  acknowledged command took effect.
* The theorems of `CommitConfirmSafety` are about a device that nobody else configures while a push is on it; those of
  `SharedDeviceSafety` are about any lines and saves that others send. Nobody else reboots the device or cancels its
  timer.
* A line of a push only appends to the running configuration. The route takes free CLI text, and a line such as
  `do write memory` or `do reload cancel` would act on the device besides: it would move the push's own rollback point,
  or stop its own timer.
* `ArubaTrunk` is about requests for a switch that run one after the other; `ArubaInterleaving` is about two writes of
  one row at once and `ArubaRequests` about two whole trunk requests at once, over the same list of configured VLANs.
* A push asks for at least one second (the API demands 60 to 600), and one push per device runs at a time;
  `CommitConfirmSafety.SecondArmBreaksTheFirst` shows why.
* RouterOS bridge-VLAN rows hold one VLAN id each, at most one row per bridge and id.
* The next run of a cron job is an arbitrary time, `publishEvent` does not throw, a running worker's job row is not
  deleted by other means than the clear.
* The audit hash is collision free and times render injectively and without a bar; both are parameters. So is the set
  of texts a `jsonb` column can hold, of which only what `JsonLike` says is used: quotes are paired, and bars and
  backslashes stand between them.

## What turned out false, and when exactly it is true

* *A change that is not confirmed is rolled back at the deadline.* Not if the apply call only starts after the timer
  went off: `LateApplyIsUnprotected`. The device is on its rollback configuration exactly if that did not happen:
  `DeadlineSafety`.
* *An armed timer rolls back to the configuration as it was.* On Cisco any other operation that saves meanwhile moves
  the rollback point onto the unconfirmed change (`SaveMovesTheRollbackPoint`), since nothing looks at the armed flag
  before `write memory`. It is kept exactly on RouterOS, or if nothing was saved, or the last save was of that very
  configuration: `RollbackPointKeptIff`.
* *`confirmed` means the change is live.* Not if the timer goes off while the first probe waits for its session:
  `ConfirmedAfterRevert`. The change is live when the disarm landed before the device's own deadline, which is exactly
  when the device never reverted: `ConfirmedTruth`.
* *An automatic push is disarmed only after a probe, and a test-mode push only once it is applied.* Of the platform's
  own disarm that holds always (`DisarmAuthority`), and of an operator's exactly on RouterOS (`AcceptAuthorityIff`):
  on Cisco no token is needed and the armed flag is set in both modes, so every push can be accepted before its first
  line (`EarlyAcceptance`). What the acceptance then saved is all of the change exactly if all of it had landed:
  `CiscoSettledIff`.
* *Session operations on one device exclude each other.* Exactly if no entry is evicted under a call:
  `EvictionInFlight`, and the next call then runs beside it (`NextCallRunsBeside`). After that even a failure of one
  closes the session of the other, exactly if the other is on the pooled entry (`FailureClosesIff`;
  `FailureClosesAnothersSession` is a run). The idle sweep evicts under a running `fn` exactly after 90 seconds
  (`SweepHitsRunningIff`), and under a call that still waits for the cluster lock exactly if the entry had been at rest
  for 90 seconds, however fresh the call (`SweepHitsWaitingIff`; `FreshCallIsSwept` is a run). Within leases that were
  really acquired two calls never overlap all the same: `ClusterExclusion`, `OneFnInTheCluster`.
* *A session that was opened is used again or closed.* Not one that is opened on an entry evicted while its call held
  the lock: nothing closes that (`EvictedBeforeConnecting`). Of all others it holds: `ForgottenIffOpenedLate`.
* *A job is run by one worker at a time.* Exactly as long as no reaped worker finishes while its job is running again:
  `LateFinishKeepsOwnersIff` (`ReapedWorkerFinishes` is a run). Such a late finish can do harm without that, too. It
  keeps the queue's invariant exactly if its outcome fits what the job has become (`LateFinishKeepsInvIff`): a spent
  one-shot it puts back to pending with no attempt left (`SpentJobGoesPending`). And it keeps the lifecycle exactly if
  the job is gone, unfinished, or would end the same way again (`LateFinishKeepsLifecycleIff`): a cancelled job it
  always takes out of `cancelled`. A finish statement fenced on `locked_by` and the attempt would need no hypothesis:
  `FenceStopsReaped`. And "recurring jobs always return to pending" (jobService.ts:172) does not hold of the reaper:
  `CronFailsExactlyWhenReapedSpent`.
* *A VLAN write leaves every other port alone.* Not if another request reads before it and writes after it: the bits
  of the port written first are lost (`LostUpdate`). Two writes of one row end as one after the other exactly under the
  condition of `RowSerialIff`. That does not make whole requests serial: two trunk requests for one port can leave it
  in neither of the VLANs they are about (`NeitherVlan`). Requests for different ports end as in some order exactly if
  on every VLAN nothing was lost (`DifferentPortsSerialIff`), and requests for one port exactly if one and the same of
  them wrote last wherever their lists disagree (`OnePortSerialIff`).
* *An Aruba trunk list means its VLANs.* A list that denotes no VLAN, such as `30-20` or `10-`, stands for all of them:
  `TrunkMeansItsListIff`.
* *A verifying audit chain has not been tampered with.* The verifier skips every row whose hash is blank, wherever it
  stands. So rows without a hash can be put in anywhere (`UnhashedRowsHide`); rows cut off at either end do not show
  (`DeletionUnnoticedIff`), nor rewritten ones there whose hashes are blanked, nor a rewritten and rehashed last row
  (`EditUnnoticedIff`). And a row's text determines the row, among rows whose
  addresses hold no bar, exactly if its user name, action and target hold none, whatever its detail holds
  (`AddressedRowIff`). An address comes from a request header: with any text there, it takes besides that no JSON text
  stands between two bars of detail and address (`TextDeterminesRowIff`).
* *What was written reads back as intended.* Line ends inside the description, VLAN 0, a native VLAN outside trunk
  mode, and configuration-like text after a U+2028 or U+2029 in a description that is kept are reported as mismatches:
  `ReadBackAgreesIff`.
* *`forEachLimit` handles every item.* Not with a limit of zero: `AllDoneIff`. *Overflow is shed only during an
  outage.* A buffer that filled during a flush stays full until the next tick: `FullBufferWaitsForTick`, under any
  limits (`FullBufferReached`).

## Model

| member | source | states |
|---|---|---|
| CommitConfirmInvariant.ArmKeepsWorld | backend/src/drivers/routeros.ts:273-288 | at every prefix of the arm sequence of either platform a timer that runs has its rollback point; the timer starts last and the Save prompt is answered no |
| CommitConfirmInvariant.LineKeepsWorld | backend/src/cisco/sshClient.ts:151-165 | a landed line goes on top of the configuration of the current boot and leaves timer and rollback point as they were |
| CommitConfirmInvariant.DisarmKeepsWorld | backend/src/services/deviceComms.ts:376-384 | the disarm turns the timer off before it saves or removes the snapshot, and after both commands the change is kept |
| CommitConfirmInvariant.StepInv | backend/src/services/deviceComms.ts:320-445 | every event of the system (commands, failures, crashes, time, acceptance, evictions) keeps the whole invariant |
| CommitConfirmSafety.RunInv | backend/src/services/deviceComms.ts:320-445 | the invariant holds after every run that starts before a push |
| CommitConfirmSafety.ArmedTimerHasRollback | backend/src/cisco/sshClient.ts:183-204 | on a device nobody else configures, for lines that only configure: whenever a timer runs, firing it restores startup-config (Cisco) or the snapshot (RouterOS) as they were before the push, and it is no shorter than the seconds asked for and less than a minute longer |
| CommitConfirmSafety.DeadlineSafety | backend/src/services/deviceComms.ts:335-390 | once the deadline has passed the timer is off and a disarm reached it exactly if the device never reverted; if it reverted it is on the rollback configuration exactly if no line was applied on a session opened after the revert |
| CommitConfirmSafety.BeforeDeadline | backend/src/services/deviceComms.ts:335-358 | before the deadline only a disarm turns the timer off, and the running configuration is the old one plus the lines that landed |
| CommitConfirmSafety.DisarmAuthority | backend/src/services/deviceComms.ts:364-384 | the platform disarms only an automatic push, after all lines and a successful probe on a later session; on RouterOS an operator disarms only a test-mode push that has returned with every line applied; `AcceptAuthorityIff` has the other platform |
| CommitConfirmSafety.ConfirmedTruth | backend/src/services/deviceComms.ts:371-390 | `confirmed`: the timer is off and the configuration kept; the disarm hit the running timer exactly if the device never reverted, and then all lines are live on the old configuration |
| CommitConfirmSafety.AcceptTruth | backend/src/services/deviceComms.ts:395-426 | the same of an acceptance begun after a test-mode push returned `armed` |
| CommitConfirmSafety.RevertsUnlessAccepted | backend/src/services/deviceComms.ts:352-372 | `reverting` or `armed` before the deadline: no disarm was sent and the timer runs, and in every continuation without an acceptance the device is back on its rollback configuration at the deadline |
| CommitConfirmSafety.LeftArmedStays | backend/src/services/deviceComms.ts:352-372 | nothing but an acceptance changes what an unconfirmed push left behind, over whole continuations |
| CommitConfirmSafety.SecondArmBreaksTheFirst | backend/src/drivers/routeros.ts:283-287 | a second arm sweeps the first one's snapshot: its timer then restores nothing and runs again a period later |
| CommitConfirmSafety.OtherFilesKept | backend/src/drivers/routeros.ts:283-300 | over every run, files on the device that are none of the platform's snapshots stay as they were |
| CommitConfirmHazards.LateApplyIsUnprotected | backend/src/services/deviceComms.ts:352-359 | a run in which a line is applied after the revert and stays, with no timer and no disarm |
| CommitConfirmHazards.ConfirmedAfterRevert | backend/src/services/deviceComms.ts:371-389 | a run that returns `confirmed` on a reverted device |
| CommitConfirmHazards.AcceptedBeforeApply | backend/src/services/deviceComms.ts:395-423 | a Cisco run in which an acceptance before the apply leaves a live, unsaved change without a timer |
| CommitConfirmAcceptance.EarlyAcceptance | backend/src/services/deviceComms.ts:348-358 | every Cisco push, in either mode and with any lines, can be accepted before its first line: a run to there from every start device |
| CommitConfirmAcceptance.EveryPushCanConfirm | backend/src/services/deviceComms.ts:335-390 | every automatic push, on either platform, with any lines and from every start device, can end `confirmed` with the disarm in time and all lines live and kept: a run to there |
| CommitConfirmAcceptance.TestAcceptance | backend/src/services/deviceComms.ts:395-424 | every RouterOS test-mode push, with any lines and from every start device, can return `armed` with its timer running and then be accepted: a run to the timer off and all lines live |
| CommitConfirmAcceptance.AcceptAuthorityIff | backend/src/services/deviceComms.ts:395-422 | "an operator disarms only a fully applied test-mode push" holds of all runs exactly on RouterOS |
| CommitConfirmAcceptance.CiscoSettledIff | backend/src/services/deviceComms.ts:408-414 | what startup-config holds after the last save, and that the device is settled exactly if no live line came after it |
| CommitConfirmTimes.AcceptGoesOnIff | backend/src/services/deviceComms.ts:399-423 | in every run an acceptance goes on to disarm exactly if the armed key, and on RouterOS the token, was stored less than `seconds` ago and not cleared since, by the times of the events; else it touches neither device nor keys, and drops the session exactly if only the token was missing |
| CommitConfirmTimes.ProbesOnIff | backend/src/services/deviceComms.ts:430-435 | the probe loop makes another attempt exactly while ten seconds of `seconds` are left from the end of the apply, or within ten seconds of it, three seconds later unless it is the first |
| CommitConfirmTimes.ProbeWindow | backend/src/services/deviceComms.ts:430-435 | so in every run no attempt is due later than that plus three seconds |
| CommitConfirmTimes.OneConnectionPerDrop | backend/src/cisco/sshPool.ts:104-121 | over every run the platform connects at most once more often than the pooled session was dropped |
| SharedDevice.StepAlike | backend/src/services/deviceComms.ts:141-149 | whatever others put into the configurations, the programs take the same step |
| SharedDevice.AloneLeads | backend/src/services/deviceComms.ts:141-149 | every course with others' lines and saves is, for the programs, a run without them |
| SharedDeviceSafety.RollbackPointKeptIff | backend/src/services/deviceComms.ts:141-149 | an armed timer restores the rollback point exactly on RouterOS, or if nobody saved meanwhile or the last save was of it; otherwise what was last saved |
| SharedDeviceSafety.SaveMovesTheRollbackPoint | backend/src/services/deviceComms.ts:147 | one save by another operation makes the unconfirmed configuration the one that is restored |
| SharedDeviceSafety.SharedDeadline | backend/src/services/deviceComms.ts:335-390 | the deadline theorem with others on the device: what was restored plus what landed since, none of it the push's unless it applied late |
| SharedDeviceSafety.SharedBeforeDeadline | backend/src/services/deviceComms.ts:335-358 | before the deadline the device holds its old configuration and all landed lines, the push's own in order |
| SharedDeviceSafety.SharedConfirmed | backend/src/services/deviceComms.ts:371-390 | `confirmed` with others on the device: timer off, and all the push's lines there exactly if the disarm hit the timer or they were applied after the revert |
| SharedDeviceSafety.SharedAccepted | backend/src/services/deviceComms.ts:395-426 | the same of an acceptance begun after `armed` |
| SharedDeviceSafety.SharedRevertsUnlessAccepted | backend/src/services/deviceComms.ts:352-372 | `reverting` or `armed` before the deadline, with others on the device: the timer runs, and in every continuation without an acceptance the device ends on what was restored plus others' later lines, none of them the push's |
| CommitConfirmProgram.SentLines | backend/src/cisco/sshClient.ts:151-165 | the loop sends what `ConfigLines` says, of which the rows of ConfigureLines say what it is |
| ConfigureLines.LinesAppend | backend/src/cisco/sshClient.ts:154-156 | what is sent of two lists one after the other is what is sent of each |
| ConfigureLines.SkippedIff | backend/src/cisco/sshClient.ts:154-155 | a line is skipped exactly if it is blank, or blanks and then the platform's comment mark |
| ConfigureLines.PlainLinesGoOut | backend/src/cisco/sshClient.ts:154-156 | lines that are not empty, without outer blanks, line breaks and comment mark all go out, in order, as they are |
| ConfigureLines.SilentLinesDoNot | backend/src/routeros/sshClient.ts:87-89 | a list of blank lines and comments sends nothing |
| ConfigureLines.OuterBlanks | backend/src/routeros/sshClient.ts:88-90 | of a command with blanks around it RouterOS gets the command, Cisco the line |
| ConfigureLines.BreaksGoOutAsOneSpace | backend/src/cisco/sshClient.ts:135-138 | a run of line breaks inside a command goes out as one space |
| ConfigureLines.OuterBreaks | backend/src/cisco/sshClient.ts:135-138 | of line breaks around a command RouterOS gets nothing, Cisco one space for each run |
| CommitConfirmProgram.SentLinesAreSingle | backend/src/cisco/sshClient.ts:135-138 | no line that is sent holds CR or LF |
| CommitConfirmProgram.OthersLeaveProgram | backend/src/services/deviceComms.ts:320-445 | events of the rest of the world do not move a program |
| CommitConfirmProgram.Live.SendAll | backend/src/cisco/sshClient.ts:151-165 | commands go out one by one until the first failure, and the error handler of the call decides where the program stands then |
| CommitConfirmProgram.Live.Call | backend/src/services/deviceComms.ts:338-344 | one `withDeviceSession` call ends with all its commands through or in its error handler |
| CommitConfirmProgram.Live.ReachableWithin | backend/src/services/deviceComms.ts:430-445 | the probe loop ends, by a successful probe on a fresh session or with the budget spent |
| CommitConfirmProgram.Live.ConfirmIfReachable | backend/src/services/deviceComms.ts:371-390 | the end of an automatic push returns `confirmed` only with the change kept, and `reverting` without having disarmed |
| CommitConfirmProgram.Live.PushConfigWithRevert | backend/src/services/deviceComms.ts:320-390 | the push as written, whatever events, lines and saves come in between: `confirmed` means the change is kept, in full if nobody else sends anything; `reverting` and `armed` mean that it sent no disarm and that before the deadline the timer still runs, unless an operator sent one |
| CommitConfirmProgram.Live.ConfirmArmedChange | backend/src/services/deviceComms.ts:395-426 | refused, without touching the device, exactly if a key it needs was not stored in time or has been cleared, by the events so far; a call that throws drops the session; accepted after the push returned means the change is kept |
| SshPool.StepSound | backend/src/cisco/sshPool.ts:100-151 | every pool event keeps chains, places and calls consistent, evictions under running calls included |
| SshPool.FifoPerEntry | backend/src/cisco/sshPool.ts:110-136 | on every entry the `fn`s start in the order in which their calls queued, in every run |
| SshPool.RunsOnceRestartsBounded | backend/src/cisco/sshPool.ts:111-124 | each call runs its `fn` at most once and restarts no more often than entries were evicted since it came |
| SshPool.NeverStuck | backend/src/cisco/sshPool.ts:110-136 | while a call is not over, some call can take its next step |
| SshPool.PoolExclusion | backend/src/cisco/sshPool.ts:100-137 | without evictions under a call, at most one call is past its identity check; it is on the pooled entry and drives that entry's open session |
| PoolSessions.OneSessionPerEntry | backend/src/cisco/sshPool.ts:121 | in every run at most one session is opened per entry |
| PoolSessions.SameEntrySameSession | backend/src/cisco/sshPool.ts:121-124 | two `fn`s on one entry, however far apart they run, drive one and the same session |
| PoolSessions.NoEvictionOneSession | backend/src/cisco/sshPool.ts:104-124 | as long as nothing was evicted every `fn` that ever ran was on the one session that was opened |
| PoolSessions.ForgottenIffOpenedLate | backend/src/cisco/sshPool.ts:121-151 | in every run each session opened is some entry's, and is pooled or closed, exactly but for those opened on an entry evicted before |
| PoolSessions.QuietForgetsNone | backend/src/cisco/sshPool.ts:121-151 | without evictions under a call every session opened is pooled or closed |
| PoolSessions.EvictedBeforeConnecting | backend/src/cisco/sshPool.ts:115-121 | from any run in which a call holds the lock and has not connected yet, an eviction leads on to one that forgets a session |
| SshPool.EvictionInFlight | backend/src/cisco/sshPool.ts:139-151 | from any pool with an entry: after an eviction the next call to come passes its identity check, and is alone past it exactly if no call was there already |
| SshPool.NextCallRunsBeside | backend/src/cisco/sshPool.ts:104-124 | and that call goes on to run its `fn` beside any running one, on a session of its own |
| SshPool.FailureClosesIff | backend/src/cisco/sshPool.ts:125-129 | in every run, the error branch evicts by key: a failing call closes the open session another call is running on exactly if that other's entry is the pooled one |
| SshPool.FailureClosesAnothersSession | backend/src/cisco/sshPool.ts:125-129 | one run from the empty pool in which that happens |
| IdleSweep.RunClocked | backend/src/cisco/sshPool.ts:105-133 | in every run an entry with a running `fn` was last used when that `fn` began |
| IdleSweep.SweepHitsRunningIff | backend/src/cisco/sshPool.ts:158-163 | a sweep takes the entry from under a running `fn` exactly if it has been running for more than 90 seconds |
| IdleSweep.SweepHitsWaitingIff | backend/src/cisco/sshPool.ts:107-133 | in every run, a sweep takes the entry from under a call that is past its check and not yet running exactly if more than 90 seconds have passed since a call on the entry was last over, or since it was made |
| IdleSweep.SettledEntryRests | backend/src/cisco/sshPool.ts:130-133 | after a call that ends well the entry stays pooled for exactly 90 seconds of rest |
| IdleSweep.TimedExclusion | backend/src/cisco/sshPool.ts:100-163 | exclusion over time, as long as no sweep finds an entry stale and no `evictDevice` comes while a call is past its check |
| IdleSweep.FreshCallIsSwept | backend/src/cisco/sshPool.ts:110-123 | one run: a call that came 1 s ago loses its session to the sweep while it waits for the lock, and another call goes past its check beside it |
| IdleSweep.Sessions.Evict | backend/src/cisco/sshPool.ts:144-151 | exactly the key's entry goes, and its session is closed |
| IdleSweep.Sessions.SweepIdle | backend/src/cisco/sshPool.ts:158-163 | exactly the entries unused for more than 90 seconds go, and exactly their sessions are closed |
| ClusterLock.Redis.SetNx | backend/src/cisco/sshPool.ts:55-61 | `SET NX PX`: stored only over a free key; a thrown command may have stored the token |
| ClusterLock.Redis.Eval | backend/src/cisco/sshPool.ts:32-33 | the release deletes the key exactly if it holds the caller's token, which leaves it free |
| ClusterLock.Redis.AcquireClusterLock | backend/src/cisco/sshPool.ts:49-78 | the retry loop ends within the wait budget plus one retry and one round trip; granted means the key has held the token since a known time, for the whole TTL; on a ready Redis it gives up only if a command threw or after 60 s, and a free or expired key that nobody else takes is granted by the first SET |
| ClusterLock.StepInv | backend/src/cisco/sshPool.ts:49-78 | every event of the cluster keeps "a grant in force owns the key" |
| ClusterLock.HolderOwnsKey | backend/src/cisco/sshPool.ts:29-33 | a holder within its TTL owns the stored token, and nobody else's release touches it |
| ClusterLock.ReleaseFreesTheKey | backend/src/cisco/sshPool.ts:67-70 | in every run, once a holder within its TTL is over its release can land, and then the key is free and the next caller can acquire it |
| ClusterLock.ClusterExclusion | backend/src/cisco/sshPool.ts:115-133 | over all replicas and all runs, two calls within leases they acquired never run at once |
| ClusterLock.OverlapExplained | backend/src/cisco/sshPool.ts:115-137 | two calls that run at once: one degraded or outlived its lease, and on one replica an entry was evicted under a call |
| ClusterLock.OneFnInTheCluster | backend/src/cisco/sshPool.ts:49-78 | if no acquisition of a run degraded and every running operation is within its TTL, no two `fn`s run on the device at once, on any replicas |
| JobQueueSafety.StepInv | backend/src/services/jobService.ts:102-240 | every statement keeps the job invariant, given that a reaped worker does not finish or the finish is fenced |
| JobQueueSafety.RunningJobIsOwnedOnce | backend/src/services/jobService.ts:102-119 | a claim that was not reaped is the running job's current attempt, by the worker the row names |
| JobQueueSafety.RunningIffOwned | backend/src/services/jobService.ts:102-200 | a job is running exactly if its current attempt is held by a worker that was not reaped |
| JobQueueSafety.AttemptsBounded | backend/src/services/jobService.ts:206-239 | a pending one-shot has attempts left; its claims never exceed its first maximum plus the manual retries |
| JobQueueSafety.DoneMeansDoneEverywhere | backend/src/services/jobService.ts:122-162 | a done job has, for its last attempt, exactly one successful row for each device, in list order |
| JobQueueSafety.DoneIffAllDevicesSucceeded | backend/src/services/jobService.ts:132-161 | a finished attempt of a one-shot makes the job done exactly if every row of that attempt is a success |
| JobQueueSafety.Lifecycle | backend/src/services/jobService.ts:166-239 | the transitions of every event: which states are left how, and by whom a cron job can fail |
| JobQueueSafety.EndStatesAreFinal | backend/src/routes/jobs.ts:22-28 | over whole runs a done or cancelled row stays as it is until it is deleted, and then for good |
| JobQueueSafety.CronFailsExactlyWhenReapedSpent | backend/src/services/jobService.ts:206-220 | a cron job fails exactly when the reaper takes it with no attempt left |
| JobQueueSafety.FenceStopsReaped | backend/src/services/jobService.ts:180-184 | a finish fenced on `locked_by` and attempt never touches a job for a reaped worker |
| JobQueueSafety.ReapedWorkerFinishes | backend/src/services/jobService.ts:180-184 | one run in which the unfenced finish marks a job done while another worker is running it |
| JobLateFinish.OwnersOwn | backend/src/services/jobService.ts:102-119 | under the invariant every claim that was not reaped has its job: running, its attempt, by its worker |
| JobLateFinish.LateFinishKeepsOwnersIff | backend/src/services/jobService.ts:166-200 | the unfenced finish of a reaped worker leaves every owner its job exactly if the worker's job is not running again |
| JobLateFinish.LateFinishKeepsInvIff | backend/src/services/jobService.ts:166-200 | it keeps the job invariant exactly if the job is gone, or not running again and the outcome fits: `done` if no later attempt was made or the last one succeeded everywhere, `retry` if an attempt is left |
| JobLateFinish.LateFinishKeepsLifecycleIff | backend/src/services/jobService.ts:166-200 | it keeps every job's lifecycle exactly if its own is gone, unfinished, or done or failed and to be so again: a cancelled job always leaves `cancelled` |
| JobLateFinish.SpentJobGoesPending | backend/src/services/jobService.ts:186-192 | a late `retry` puts a job with no attempt left back to pending, although no other worker runs it |
| JobStore.Store.ClaimNextJob | backend/src/services/jobService.ts:102-119 | one claim step of the system. The claimed row was pending and due by `run_after` and, if recurring, by `next_run_at`; it is running now, by this worker, one attempt further; no unlocked due row has an earlier `run_after`, or the same and an earlier creation; none means that every unlocked row is not due |
| JobStore.Store.ReapStaleJobs | backend/src/services/jobService.ts:206-220 | the loop over the rows is one reap step of the system |
| JobStore.Store.RetryJob | backend/src/services/jobService.ts:228-239 | one retry step of the system: exactly a failed job goes back to pending, due at once, with its maximum raised only as far as needed for a one-shot to have an attempt left |
| JobStore.Store.CancelJob | backend/src/routes/jobs.ts:76-79 | one cancel step of the system: a pending job is cancelled, and a cancelled job is never runnable again, and no worker that was not reaped holds it |
| JobStore.Store.ClearFinished | backend/src/routes/jobs.ts:22-27 | one clear step of the system: exactly the pending and running rows stay, unchanged, and the count is of those that went |
| JobStore.Store.RunClaimedJob | backend/src/services/jobService.ts:122-200 | with everybody else's statements between any two: one row per device in list order, then one finish step decided by the outcome of all devices, or the job is gone; the invariant is kept unless the worker was reaped |
| JobStore.BackoffDoublesThenCaps | backend/src/services/jobService.ts:39-41 | 2 s first, doubling up to the eighth attempt, never shrinking, five minutes from the ninth on |
| JobTiming.JobBegins | backend/src/services/jobService.ts:73-82 | a new job is pending, has all its attempts and is due at the times it was given; no other changes |
| JobTiming.AttemptEnds | backend/src/services/jobService.ts:51-60 | the end of an attempt by what its result rows say: a recurring job waits for its next date, a one-shot is done, waits out its backoff, or has failed for good |
| JobTiming.NotClaimedBefore | backend/src/services/jobService.ts:110-112 | over whole runs the next claim of a pending job comes no earlier than the times in its row, whatever happens meanwhile |
| JobTiming.PutOffIsKept | backend/src/services/jobService.ts:102-200 | so after an attempt that put its job off the next one comes no earlier than its backoff, or its next date |
| JobTiming.BeatingWorkerKeepsItsJob | backend/src/services/jobService.ts:126-129 | over whole runs with time going forward: no reap within two minutes of a worker's claim or beat takes its job |
| JobTiming.SilentWorkerLosesItsJob | backend/src/services/jobService.ts:206-220 | in every run a reap takes a job exactly if the last sign of life in its row is more than two minutes old, and puts it back to pending exactly if an attempt is left |
| VlanLists.RouterParseVlanList | backend/src/drivers/routeros.ts:28-38 | strictly increasing, without repeats, exactly the VLANs the list denotes |
| VlanLists.ArubaParseVlanList | backend/src/aruba/write.ts:260-275 | the parts' ids in order, ranges cut at 4094, unreadable parts dropped |
| VlanLists.WrittenListReadsBack | backend/src/drivers/routeros.ts:28-38 | any list of VLANs and ranges, written in decimal with commas and dashes, is read back as exactly the VLANs it names, by RouterOS all and by Aruba those of ranges up to 4094 |
| VlanLists.ParseIntReads | backend/src/aruba/write.ts:267-272 | what `parseInt` reads of a decimal number after blanks and at most one sign, with anything but a digit behind it |
| VlanLists.ParsersAgree | backend/src/aruba/write.ts:260-275 | every comma list of numbers, ranges that are empty or end by 4094, half ranges and empty parts denotes the same set to both parsers |
| VlanLists.RangesAgreeIff | backend/src/drivers/routeros.ts:33-34 | a range means the same to both exactly if it is empty or ends by 4094 |
| VlanLists.DigitsAndDashesAgreeIff | backend/src/aruba/write.ts:264-272 | the exact condition for a part of digits and dashes, all that the port route lets through |
| BridgeVlanMeaning.ScriptMeaning | backend/src/drivers/routeros.ts:60-74 | after a script the port is untagged in exactly the access or native VLAN, tagged in exactly the allowed ones, with the right pvid and frame types |
| BridgeVlanMeaning.RequestMeaning | backend/src/drivers/routeros.ts:188-194 | what a request makes of a port: access is untagged in its VLAN alone and admits only untagged frames; trunk is untagged in its native VLAN, 1 by default, tagged in the rest of its list, and admits all; without a VLAN an access request does nothing |
| BridgeVlanMeaning.OthersUntouched | backend/src/drivers/routeros.ts:41-55 | rows of other bridges, every other port's membership and its order, and rows added hold nobody else |
| BridgeVlanMeaning.RunPlaces | backend/src/drivers/routeros.ts:41-74 | the table after a script, row by row: the old rows with the port placed, then the rows that had to be added |
| BridgeVlanMeaning.RerunIsNoOp | backend/src/drivers/routeros.ts:9-15 | running a script twice is running it once, exactly |
| BridgeVlanMeaning.LastScriptWins | backend/src/drivers/routeros.ts:9-15 | after any series of scripts for any ports, a port's memberships and settings are those of its own last script, run alone |
| BridgeVlanMeaning.EnsureMeaning | backend/src/drivers/routeros.ts:49-55 | one statement makes the port a member of that VLAN in that list; every other membership, of any port, list and bridge, and every other row stay |
| BridgeVlanMeaning.PortsCommute | backend/src/drivers/routeros.ts:60-74 | scripts for different ports commute up to row and list order |
| BridgeDevice.Device.StripPort | backend/src/drivers/routeros.ts:41-46 | the emitted loop over the rows drops the port from both lists of every row of the bridge |
| BridgeDevice.Device.EnsureMember | backend/src/drivers/routeros.ts:49-55 | the emitted `if`: afterwards the port is in that list of that VLAN besides where it was, and no other membership or row has changed |
| BridgeDevice.Device.RunScript | backend/src/drivers/routeros.ts:57-74 | the script statement by statement ends in the table the functions describe; without a bridge port it does nothing |
| ArubaBitmap.BitmapSet | backend/src/aruba/write.ts:55-62 | a fresh copy, grown only as needed, with the port's bit written; the input stays |
| ArubaBitmap.PutChangesOneBit | backend/src/aruba/write.ts:45-62 | exactly the one port's bit becomes what was asked; every other port's stays, past the old end too |
| ArubaBitmap.PortsDetermine | backend/src/aruba/write.ts:42-50 | a bitmap is determined by its length and its ports: byte and mask cover every bit once |
| ArubaBitmap.PutTwice | backend/src/aruba/write.ts:55-62 | a second write to a port undoes the first, byte for byte |
| ArubaBitmap.PutsCommute | backend/src/aruba/write.ts:55-62 | writes to different ports commute, byte for byte |
| ArubaTrunk.Switch.SetVlanBitmapPort | backend/src/aruba/write.ts:171-188 | one VLAN's two port lists are rewritten together from what was read, on the table as it is by then |
| ArubaTrunk.Switch.PortConfig | backend/src/aruba/write.ts:221-257 | alias, pvid and rows after a request that has the switch to itself, on a link that fails after any number of writes; an unmapped port gets only its alias |
| ArubaTrunk.Switch.TrunkLoop | backend/src/aruba/write.ts:247-255 | with the switch to itself the loop writes the VLANs it reached, in order; it succeeds exactly if it reached all |
| ArubaTrunk.MemberWritten | backend/src/aruba/write.ts:167-181 | after a write the port is the member it should be in both lists and every other port is what it was in the row that was read |
| ArubaTrunk.UntaggedStaysWithin | backend/src/aruba/write.ts:167-188 | a write keeps untagged a subset of egress |
| ArubaTrunk.TrunkMeaning | backend/src/aruba/write.ts:247-255 | after the loop the port is an egress member of exactly the visited VLANs that are allowed (all, if the list is empty), untagged in none, every other bit unchanged |
| ArubaTrunk.TrunkKeys | backend/src/aruba/write.ts:251-254 | rows exist for exactly the old and the visited VLANs |
| ArubaTrunk.LengthsAfter | backend/src/aruba/write.ts:55-62 | the port lists of a visited VLAN keep their length, 64 ports where there was none, and grow only as far as the port's byte |
| ArubaTrunk.TrunkKeepsUntaggedWithin | backend/src/aruba/write.ts:171-188 | the whole loop keeps untagged within egress in every row |
| ArubaTrunk.LastTrunkWins | backend/src/aruba/write.ts:247-255 | a later trunk write leaves no trace of an earlier one over the same VLANs, byte for byte |
| ArubaTrunk.RetryCompletes | backend/src/aruba/write.ts:247-255 | retrying after a failure part of the way ends where an uninterrupted write would |
| ArubaTrunk.TrunksCommute | backend/src/aruba/write.ts:247-255 | trunk writes for different ports that run one after the other commute, byte for byte |
| ArubaInterleaving.RunKnown | backend/src/aruba/write.ts:171-188 | one VLAN's row at every point of every interleaving of two writes of it |
| ArubaInterleaving.RowSerialIff | backend/src/aruba/write.ts:171-188 | two interleaved writes of one row end as in the order they wrote exactly if one read after the other wrote, or they are about one port, or the port written first already had its bits |
| ArubaInterleaving.LostUpdate | backend/src/aruba/write.ts:178-187 | for any two ports of a VLAN, an interleaving in which the port written first ends as it was |
| ArubaRequests.Projects | backend/src/aruba/write.ts:247-255 | a step of one of two trunk loops is, on the VLAN it has reached, a step of the two single writes, and nothing on any other VLAN |
| ArubaRequests.ProjectedRun | backend/src/aruba/write.ts:247-255 | so every interleaving of two whole requests is, VLAN by VLAN, an interleaving of two single writes |
| ArubaRequests.DifferentPortsSerialIff | backend/src/aruba/write.ts:247-255 | whole requests for different ports end as in one of the two orders exactly if on every VLAN a read was late or the port written first already had its bits |
| ArubaRequests.OnePortSerialIff | backend/src/aruba/write.ts:247-255 | whole requests for one port end as in one of the two orders exactly if one and the same of them wrote last on every VLAN on which the lists disagree |
| ArubaRequests.NeitherVlan | backend/src/aruba/write.ts:251-254 | for any table, port and two VLANs, an interleaving of a request for the one and a request for the other after which the port is in neither |
| TrunkIntent.SameTrunkOnBoth | backend/src/drivers/routeros.ts:188-194 | one plain list makes a RouterOS port tagged in all it names but the native VLAN, and an Aruba port an egress member of all it names that exist |
| TrunkIntent.TrunkMeansItsListIff | backend/src/aruba/write.ts:252-253 | on Aruba a plain list, half ranges included, means what it says exactly if it denotes some VLAN or none is configured |
| AuditChain.AuditLog.Audit | backend/src/audit.ts:20-47 | one call appends one row or nothing; the row has the entry's user name, action, target, detail, address and time, the next id, the last row's hash as its link, and its own; a rolled back insert only uses up its id, and ids keep increasing |
| AuditChain.VerifyAuditChain | backend/src/audit.ts:73-101 | valid exactly if every hashed row links and rehashes; otherwise the first row that does not, and why; the right counts |
| AuditEvidence.AppendKeepsChainIff | backend/src/audit.ts:31-39 | an append keeps a valid log valid exactly if it has no hashed row yet or ends in one |
| AuditEvidence.GrownLogsVerify | backend/src/audit.ts:20-47 | every log grown by calls after legacy rows verifies, with the right checked and skipped counts |
| AuditEvidence.CanonicalInjective | backend/src/audit.ts:12-18 | the canonical text determines the row and its link, if only `detail` may hold a bar |
| AuditEvidence.BarsCollide | backend/src/audit.ts:12-18 | a row with a bar in any of its text fields has the text of the row with the bar moved into the next one |
| AuditEvidence.AddressedRowIff | backend/src/audit.ts:12-18 | among rows with a JSON detail and a barless address, the text of one determines it exactly if its user name, action and target hold no bar |
| AuditEvidence.TextDeterminesRowIff | backend/src/audit.ts:12-18 | the same among all rows with a JSON detail: exactly if, besides, no JSON text stands between two bars of its detail and address |
| AuditEvidence.AroundABar | backend/src/audit.ts:12-18 | neither what stands before a bar in a JSON text nor what follows it is a JSON text |
| AuditEvidence.UnhashedRowsHide | backend/src/audit.ts:80-81 | a row without a hash changes nothing for the verifier, wherever it is put |
| AuditEvidence.LastHashPinsTheLog | backend/src/audit.ts:80-100 | two verifying logs have the same last hash exactly if the hashed rows of one are the end of those of the other |
| AuditEvidence.DeletionUnnoticedIff | backend/src/audit.ts:86-91 | deleting a run of rows goes unnoticed exactly if none of them is hashed, or no hashed row stands before them or none after |
| AuditEvidence.EditUnnoticedIff | backend/src/audit.ts:92-98 | rewriting a hashed row goes unnoticed exactly if its hash is blanked and no hashed row stands before or none after it, or the hash cannot see the change, or it is the last hashed row, relinked and rehashed |
| Batcher.RunConserves | backend/src/util/batcher.ts:23-53 | in every interleaving the accepted items are, in push order, the ended batches, the batch in flight and the buffer; sizes are bounded and every item is written, reported, on its way or waiting |
| Batcher.OneFlushAtATime | backend/src/util/batcher.ts:26-38 | nothing but its end changes the batch in flight |
| Batcher.TickTakesTheBuffer | backend/src/util/batcher.ts:26-49 | with no flush in flight a tick takes out the whole buffer, however little is in it, and so does exactly the push that completes a batch |
| Batcher.PushesSplit | backend/src/util/batcher.ts:44-48 | an item is shed exactly when it meets a full buffer |
| Batcher.NoFlushInFlightNoLoss | backend/src/util/batcher.ts:44-48 | nothing is shed while pushes meet no flush in flight and a batch fits in the buffer |
| Batcher.FullBufferWaitsForTick | backend/src/util/batcher.ts:35-48 | a buffer that is full when a flush ends stays so: any pushes are shed with no flush in flight until the next tick takes it |
| Batcher.FullBufferReached | backend/src/util/batcher.ts:43-48 | under any limits a run gets there |
| Batcher.Closure.Push | backend/src/util/batcher.ts:44-48 | the push as written is one step of the machine |
| Batcher.Closure.FlushNow | backend/src/util/batcher.ts:26-32 | the start of a flush is one step of the machine |
| Batcher.Closure.FlushDone | backend/src/util/batcher.ts:31-37 | the end of a flush is one step of the machine, and reports the whole batch on failure |
| WorkerPool.RunOnce | backend/src/util/concurrency.ts:4-21 | in every interleaving each item taken is with exactly one of at most `limit` workers or over exactly once |
| WorkerPool.AllDoneIff | backend/src/util/concurrency.ts:10-20 | when all workers have returned every item is over exactly if the limit was positive or there was none |
| WorkerPool.StepUsesWork | backend/src/util/concurrency.ts:10-19 | every step uses up work, so no run goes on forever |
| WorkerPool.NeverStuck | backend/src/util/concurrency.ts:10-20 | a step is possible exactly while some worker has not returned |
| WorkerPool.AllAtOnce | backend/src/util/concurrency.ts:10-20 | as many items as the limit allows can be in flight at once |
| WorkerPool.RejectionsRecorded | backend/src/util/concurrency.ts:13-17 | over every run the items recorded as failed are exactly those whose `fn` rejected, in that order |
| WorkerPool.Workers.Look | backend/src/util/concurrency.ts:11-14 | a worker's turn at the top of its loop takes the next item of the shared queue or returns |
| WorkerPool.Workers.Settle | backend/src/util/concurrency.ts:13-17 | a failed item, and no other, goes to `onError`, and the worker goes on |
| CiscoPort.PortConfig | backend/src/drivers/cisco.ts:68-92 | the lines, sent to any interface block, leave exactly what the intent asks for and touch nothing else; no description line carries a line break |
| CiscoPort.VlansAfter | backend/src/drivers/cisco.ts:75-85 | mode and VLANs of the block afterwards: VLAN 1 is not shown, VLAN 0 and an empty list are not sent, access and trunk settings only where they apply |
| CiscoPort.SettingsAfter | backend/src/drivers/cisco.ts:86-90 | speed, duplex, portfast, guard and power key by key: what is asked for is set, every other key stays |
| PortVerify.VerifyPortIntent | backend/src/services/portVerify.ts:22-54 | confirmed are exactly the checked fields the block shows as intended, mismatches exactly those it shows otherwise, lines hidden in a description included |
| ReadBack.DescriptionComesBackIff | backend/src/drivers/cisco.ts:70-74 | a description reads back as intended exactly if, trimmed, it has no line end inside |
| ReadBack.ReadBackAgreesIff | backend/src/services/portVerify.ts:22-54 | the exact condition, on the intent and the block before, under which reading back what was written reports no mismatch, for every block |
| ReadBack.PlainReadBackAgreesIff | backend/src/services/portVerify.ts:22-54 | the same in plain words where the kept description is one line |
| ReadBack.PlainBlockChecked | backend/src/services/portVerify.ts:22-54 | on a block with a one-line description every field that is given is confirmed exactly if the block shows it, and a mismatch exactly if the block shows another value |
| ReadBack.UncheckedSettings | backend/src/services/portVerify.ts:16-21 | the comparison is blind to the allowed list, speed, duplex, portfast, guard and PoE |
| PortFlap.CounterIsTheChain | backend/src/services/monitorShared.ts:76-85 | over any series of sweeps the counter is the length of the latest chain of flaps at most an hour apart, or zero once that is stale |
| PortFlap.ReportedIffFlap | backend/src/services/monitorShared.ts:74-79 | each sweep reports a flap exactly if it found another status than the sweep before it, which knew one |
| PortFlap.NeverMissesAFlap | backend/src/services/monitorShared.ts:72-85 | the counter is never below the number of flaps in the trailing hour |
| PortFlap.ExactIffChainIsRecent | backend/src/services/monitorShared.ts:72-85 | it equals that number exactly if the latest chain is stale or began within the hour |

## Left out

- CommitConfirmSafety.ArmedTimerHasRollback: with other operations on the device, see SharedDeviceSafety.RollbackPointKeptIff; pushed lines that save or cancel by themselves (`do write memory`, `do reload cancel`) are not modelled as such.
- SharedDeviceSafety.SharedDeadline: commands of others other than configuration lines and saves, such as a reload of their own, are not modelled.
- CommitConfirmProgram.Live.Call: the entering and leaving of `configure terminal` and the output text are not modelled; a call is its effective commands.
- ClusterLock.Redis.AcquireClusterLock: the time of one round trip is bounded by a parameter; the source sets no bound on it.
- ClusterLock.ClusterExclusion: the release is fire-and-forget; when it lands is arbitrary, and nothing is said about how long others wait.
- SshPool.PoolExclusion: opening a session and starting `fn` on it are one step, and the keys of different devices are independent.
- JobQueueSafety.AttemptsBounded: says nothing about cron jobs, whose attempts are never reset and grow past their maximum.
- BridgeVlanMeaning.ScriptMeaning: scripts are lists of their statements, not RouterOS text.
- VlanLists.RouterParseVlanList: numbers are exact; JavaScript rounds ids above 2^53.
- AuditEvidence.LastHashPinsTheLog: rows agree up to the millisecond of `created_at`, all the hash sees; logs whose fields other than `detail` hold a bar are excluded.
- CiscoPort.PortConfig: lines are structured, but for the text of a description; interface name checks and the device's own limits on a description are not modelled.
- ArubaRequests.DifferentPortsSerialIff: two requests that see the same list of configured VLANs and both end well; more than two at once are not modelled.
- ArubaTrunk.Switch.PortConfig: a failing request is one that does not take effect; walking the tables and caching the port map are inputs.
- WorkerPool.AllDoneIff: an `onError` that throws, which would reject the whole call, is not modelled.
- HTTP routes, schemas, the web client and the WebSocket bridge: plumbing.
- ssh2, net-snmp, Postgres, Redis and MQTT internals: each command is one atomic step.
- SHA-256, AES-GCM, bcrypt, TOTP: the hash is a parameter, the rest is not part of this model.
- CLI and syslog parsers: their results hinge on regular expressions.
- Cron expressions: the next run is an arbitrary time.
- Onboarding, firmware upgrades, notifiers, analytics, topology, fleet health, roles and login: would only add easy members.
