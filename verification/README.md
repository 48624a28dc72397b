# LabGoblin: verified models

Dafny models of the parts of LabGoblin where a mistake is hardest to see in review, and proofs of what those parts promise.
`dafny verify dfyconfig.toml` checks everything.

| Component | Modules | What is proved |
|---|---|---|
| Durable operations | `OperationRecord`, `OperationHistory`, `OperationEngine`, `OperationGuarantees`, `OperationObserved`, `OperationCauses`, `OperationWorker`, `OperationProgress`, `OperationLease`, `LeaseQueue` | `execute_operation` and its worker, with an arbitrary hypervisor, a crash at any event and any number of attempts: what never happens, why an attempt fails, and when it succeeds; the queue under many workers |
| Updater agent | `UpdaterHost`, `UpdaterSaga`, `UpdaterActions`, `UpdaterProtocol` | update and rollback are all or nothing; the request loop and the worker thread never lose a state-file write |
| Guacamole relay | `Decimals`, `GuacdProtocol`, `GuacdFraming`, `GuacdStream`, `GuacdRelay`, `GuacdRules` | the incremental parser accepts exactly its grammar, whatever the chunking; the relay passes on exactly what the browser may say |
| RFB proxy | `RfbProxy`, `RfbHandshake` | byte conservation through the handshakes of sections 7.1 to 7.3 of RFC 6143 |
| Sessions and reconnect tokens | `ReplayStore`, `SessionMachine` | a token is honoured at most once although the store forgets; the activations of a session, counted by the tokens that paid for them |
| Login throttle | `LoginThrottle` | exactly which settings keep the failure count bounded, and how many failures an interval can hold |
| VM ids and cleanup | `VmidAllocator`, `CleanupQueue`, `CleanupRuns` | ids never collide or come back; exactly how many deletions a VM gets |
| Cloudflare provisioning | `CloudflareAccount`, `CloudflareRun` | a run converges or is undone, and publishes only behind its access boundary |

## How the models are built

**Durable operations.** `OperationEngine` follows `execute_operation` branch by branch. The hypervisor, the authorization queries,
the clock and the commits are an oracle indexed by the position in a log of events, and the process can die at any position.
`cur` is the session's copy of the records and `stored` the committed one; only `Save` moves one to the other, so a fault or a
crash leaves exactly the last commit. A commit makes the session forget what it has read; its next look at the guest
(`Reload`) shows what others have written meanwhile. `OperationHistory` judges the log independently of the program: it says, event by event,
which calls and commits are allowed. The engine's methods are proved to produce only logs the judge finds clean, and
`OperationGuarantees` derives from a clean log the statements a reader wants, in terms of the log alone. `OperationWorker.Serve`
puts the two together for any number of runs of the worker. `OperationCauses` says what can make an attempt fail, again
on the log alone, and `OperationProgress` that it succeeds where no such thing happens; `OperationLease` that it keeps its row meanwhile. `LeaseQueue` is the same row under interleaved workers.

**Updater agent.** `UpdaterHost` holds checkout, database, stack, agent, backups and state file; each command may fail, before
or after it took effect, and users write to the database whenever the stack is up. The database is a schema version and the
rows written, so that "nothing lost, nothing of the target in it" can be said exactly (`OnlyBy`). `UpdaterProtocol` takes the
actions as atomic and interleaves every read, write and lock operation of the request loop and the worker, and restarts.

**Framing.** Text is a sequence of code points. `GuacdFraming` gives the grammar, and the parser and the printer are related to
it in both directions. `Digits` stands for Python's `str.isdigit` and `int`, which accept more than ASCII; `int` also refuses
strings of more than 4300 digits.

**Sessions.** `SessionService` is the imperative service; its methods are proved equal to functions on the rows, and the
properties of runs are proved about those.

**Provisioning.** The account is a map from kind and id to a resource. A POST may be answered, refused or lost, and in the last
two cases may have created the resource all the same; a PUT and the write of the state file may fail after taking effect; each
DELETE may fail to remove anything.

## What the proofs found

- Where the hypervisor's answer has no `status` field, a power operation, and the start of a new guest, fall back to the stored status,
  which the reconciliation worker and the status routes write too. Every success is observed if and only if nobody else stores
  the state the operation is for while it is open and, but for a creation, the guest was not stored there before
  (`AlwaysObservedIff`). For each of these ways a run succeeds unobserved (`SucceedUnobserved`).
- `execute_operation` never reads `lease_owner` again, so a worker that ends after its deadline puts a row that another worker has
  completed into the state of its own ending (`LateFinishReopens`, `LateEnding`), and one that renews puts a lease on it
  (`LateRenewal`). Exclusivity holds for workers that do not act past their own deadline.
- After a failed recovery the agent reports that "the API remains stopped". The stack is down exactly when the stop took effect and
  `up` did not (`Recover`); a recovery that fails at the health gate leaves it up (`HealthGateLeavesApiUp`).
- A successful apply or rollback drops `operation` and `last_check` from the state file. A restart of the agent in that window loses the
  run's final status (`RestartCanLoseAStory`); it is the only way to lose one (`RestartCompletes`).
- Encoding no elements at all gives `;`, which the parser refuses: the round trip holds exactly for 1 to 256 elements that fit (`RoundTrip`).
- The in-memory replay store honours a token once if a presentation takes less than a second from its verification to the store
  (`HonouredAtMostOnce`). Two clock reads in the same second are not enough if the call then waits for the lock
  (`LateLockHonoursTwice`); exactly, a second use passes if and only if a purge in between read a clock past the expiry
  (`SecondUseIffPurged`). The Redis store is safe when no `SET` reaches the server at or after the token's expiry (`RedisAtMostOnce`),
  and a fifth of a second is enough to break that (`RedisHonoursTwice`).
- The sweep for lost reconnects never changes a row, because `RECONNECTING` has no edge to `EXPIRED` (`ReconnectSweepIsIdle`,
  `ReconnectingIsNeverSwept`).
- A heartbeat may name any state and so bring a session back without a token (`HeartbeatNeedsNoToken`). A reconnect commits twice and
  can stop in between; then the session is left RECONNECTING, and a heartbeat that names ACTIVE brings it back on the token that
  was spent (`HalfAReconnect`). `ActivationBalance` accounts for all of it, and `ActivationsArePaidIff` says exactly when every
  activation after the first has a token of its own.
- One VM can get several deletions: closing a lab run asks for one under its own key and leaves the assignment expired, so that a later
  sweep asks for another (`TwoDeletions`); bulk deletion has no key at all. `DeletionsAreCounted` gives the exact number.
- The login throttle keeps its bound exactly when the lockout is strictly longer than the window (`WithinIffLockoutOutlastsWindow`).
- Two scopes can give the same VM id before either row is inserted (`ScopesCanCollide`), exactly when the second stands at it
  (`ScopesCollideIff`). The creation route uses one scope a cluster.
- Operation ids of the updater have the resolution of a second: an id shows one legal story exactly when no two runs share it
  (`IdsAreLegalIffUnshared`).
- What a run leaves behind after an unanswered POST can be adopted by a later run, unless it is a Tunnel created without its
  configuration (`AmbiguousRunCanBeAdopted`).

## Assumptions

- Operations: while one is open, others write the guest's status, whenever the operation looks, and nothing else of the guest or its
  assignment. What they write after the operation's last look counts as written after its success.
- `LeaseQueue`: a holder acts only until the deadline it last wrote. `OperationGuarantees.AtMostOneClone`: an accepted clone
  shows in every later inventory.
- Updater: `write_state` and the removal of the worktree do not raise; starting the worker thread does not fail; versions
  differ in their first twelve digits, which name the backups; a restore is exact.
- Replay store: the clock does not go back and token ids are not reissued. Sessions: the operations on one row follow one another.
- Throttle: the row lock puts the attempts of one key one after the other.
- Provisioning: ids are not reused, an accepted POST is answered with the resource it created, and nobody else edits the account during a run.

## Model

| member | source | states |
|---|---|---|
| `OperationEngine.Save` | backend/app/services/operation_service.py:338-342 | A commit moves the session's records to the database whole or not at all, and is the last event of the log; a failed commit or a crash leaves the last committed records. |
| `OperationEngine.RenewLease` | backend/app/services/operation_service.py:338-342 | Renewing publishes the session's records with the deadline one lease from the clock at the commit, and nothing else changed. |
| `OperationEngine.PersistTask` | backend/app/services/operation_service.py:365-371 | The task id and the phase are committed together, for the call that has just answered; nothing else of the row changes. |
| `OperationEngine.SubmitTask` | backend/app/services/operation_service.py:404-410 | Authorization is asked again right before the call, and success means the answered task is committed under the phase that names its call. |
| `OperationEngine.KeepTask` | backend/app/services/operation_service.py:365-371 | The answered task is committed whatever it is, and only then does an answer without a task id fail the attempt. |
| `OperationEngine.SubmitAuthorized` | backend/app/services/operation_service.py:404-407 | A call is made only right after its own authorization was granted. |
| `OperationEngine.PollTask` | backend/app/services/proxmox.py:159-169 | A poll is for the committed task; it ends the wait only on an exit the operation accepts, and any other end fails the attempt. |
| `OperationEngine.Reload` | backend/app/services/operation_service.py:338-342 | After a commit the session's next look at its records shows what is stored, with what others have written of the guest's status; nothing else of them changes. |
| `OperationEngine.Submit` | backend/app/services/operation_service.py:405-407 | A call is made only when the judge allows it, and may be accepted even without an answer. |
| `OperationEngine.GetVmStatus` | backend/app/services/operation_service.py:388 | A status answer, or the HTTP error it raised, is what the judge has seen last. |
| `OperationEngine.VmExists` | backend/app/services/operation_service.py:400 | An inventory answer is taken as given and changes no record. |
| `OperationEngine.Authorize` | backend/app/services/operation_service.py:330-336 | Authorization is granted, or refused with an exception of its own; nothing else changes. |
| `OperationEngine.WaitForTask` | backend/app/services/operation_service.py:346-363 | Waiting changes nothing but the lease and ends well only when the committed task was seen to end acceptably. |
| `OperationEngine.PollOn` | backend/app/services/proxmox.py:141-172 | The polling loop renews the lease between polls and ends well only on an acceptable end of the committed task. |
| `OperationEngine.FirstPoll` | backend/app/services/proxmox.py:140-167 | The guest is looked at before the first poll, and a wait that ends there has seen nothing later. |
| `OperationEngine.PollAgain` | backend/app/services/proxmox.py:168-171 | Between two polls a commit of exactly what is stored puts the deadline one lease from now. |
| `OperationEngine.Settle` | backend/app/services/operation_service.py:411-417 | A committed task is awaited to an acceptable end before the status is asked. |
| `OperationEngine.StayOn` | backend/app/services/proxmox.py:168-171 | An unfinished poll commits a deadline one lease from now, and the wait goes on only if its time limit has not passed then. |
| `OperationEngine.CheckDeadline` | backend/app/services/proxmox.py:170-171 | A wait ends with a timeout exactly when its time limit has passed. |
| `OperationEngine.EnsureCloned` | backend/app/services/operation_service.py:380-417 | From every resume point of a create: a task was awaited and the guest's status is freshly seen; the attempt fails on a status only where a start that an earlier attempt submitted was not seen running. |
| `OperationEngine.SubmitClone` | backend/app/services/operation_service.py:399-410 | A clone is submitted only after an inventory without the VMID, and its task is committed. |
| `OperationEngine.EnsureStarted` | backend/app/services/operation_service.py:419-436 | A start inside a create ends well only with the guest seen running after the start task, or stored running where no status was given, and otherwise fails on what was seen. |
| `OperationEngine.StartIfAsked` | backend/app/services/operation_service.py:418-436 | A create with auto_start leaves the guest seen running; without it the status is the one seen, or stopped where none was given. |
| `OperationEngine.CreateVm` | backend/app/services/operation_service.py:373-441 | A create commits what it has earned, or leaves the row leased with the exact cause in the last event: a status fails it only with its start committed. |
| `OperationEngine.PowerVm` | backend/app/services/operation_service.py:448-473 | A start, stop or reboot commits success after its own task, or leaves the row leased with the exact cause in the last event. |
| `OperationEngine.SettlePower` | backend/app/services/operation_service.py:453-467 | The power action is submitted unless its task is already committed; then that task is awaited and the status asked. |
| `OperationEngine.FinishStop` | backend/app/services/operation_service.py:494-505 | The stop inside a deletion is over only when the guest was seen stopped, and that is committed with the task forgotten. |
| `OperationEngine.ResumeDelete` | backend/app/services/operation_service.py:481-505 | A later attempt first awaits the stop or deletion that was committed, and leaves no stop pending. |
| `OperationEngine.StopIfRunning` | backend/app/services/operation_service.py:507-534 | Before a deletion the latest status seen is not running, with no stop left pending. |
| `OperationEngine.StopGuest` | backend/app/services/operation_service.py:512-534 | The stop inside a deletion is authorized, committed, awaited and seen. |
| `OperationEngine.DeleteOnceStopped` | backend/app/services/operation_service.py:507-556 | With no stop pending, the guest is stopped if it runs, deleted unless it already is being, and looked for. |
| `OperationEngine.EnsureDeleted` | backend/app/services/operation_service.py:507-548 | With no stop pending, the guest is stopped if it runs and deleted unless it already is being; what is asked next is the question that confirms it. |
| `OperationEngine.SubmitDelete` | backend/app/services/operation_service.py:535-548 | A deletion is submitted only when the guest was last seen not running, and is awaited. |
| `OperationEngine.DeleteUntilGone` | backend/app/services/operation_service.py:480-556 | The body of the deletion ends normally only on a 404 as the last answer. |
| `OperationEngine.ConfirmGone` | backend/app/services/operation_service.py:549-556 | The confirming question: a 404 ends the deletion, a status answer fails it and any other error is passed on. |
| `OperationEngine.LookAgain` | backend/app/services/operation_service.py:557-567 | After a 404 or a 500, wherever in the deletion it came up, the inventory decides; any other error ends the attempt. |
| `OperationEngine.DeleteRemote` | backend/app/services/operation_service.py:478-567 | Deletion counts as done only when the VMID is missing from the inventory or the confirming question met a 404; it fails with a 404 or a 500 only if its last question was for the inventory. |
| `OperationEngine.DeleteVm` | backend/app/services/operation_service.py:474-580 | A successful deletion tombstones the guest at the time of the commit that succeeds the row. |
| `OperationEngine.ExecuteOperation` | backend/app/services/operation_service.py:327-602 | Every path ends in a committed success or in a row still leased, with the exact cause in the last event; every event on the way was allowed by the judge. |
| `OperationEngine.Dispatch` | backend/app/services/operation_service.py:373-581 | Each operation type has its own branch, and an unknown one fails. |
| `OperationEngine.Enter` | backend/app/services/operation_service.py:327-336 | The records are read and authorization is granted before anything else; a denied attempt gets no further. |
| `OperationEngine.Succeed` | backend/app/services/operation_service.py:584-602 | The final commit publishes the success and the guest together, and only what has been earned. |
| `OperationGuarantees.PowerIsNotRepeated` | backend/app/services/operation_service.py:448-473 | Once a start, stop or reboot has its task committed, no later attempt or reclaim calls the hypervisor's action again. |
| `OperationGuarantees.AtMostOneClone` | backend/app/services/operation_service.py:391-416 | If an accepted clone keeps its VMID in the inventory, at most one clone is ever accepted, however crashes fall around the commits. |
| `OperationGuarantees.DeletionIsNotFollowed` | backend/app/services/operation_service.py:507-548 | After the phase of the submitted deletion is committed no further stop or delete is sent. |
| `OperationGuarantees.CallsAreAllGuarded` | backend/app/services/operation_service.py:400-543 | Every call is authorized by the question right before it, fits the operation, is not one whose committed task is still to be awaited; a clone follows an inventory without the VMID and a delete a status other than running. |
| `OperationGuarantees.AttemptsAreAllAuthorized` | backend/app/services/operation_service.py:327-336 | An attempt asks, calls and waits, and an operation on a guest succeeds, only after its attempt was authorized and has not been denied since; a deletion asks nothing more once the guest was found gone. |
| `OperationGuarantees.TombstonesAreAllObserved` | backend/app/services/operation_service.py:549-580 | A guest is tombstoned only by a deletion's success, and only after an inventory without its VMID or a 404 to the question that confirms the submitted deletion. |
| `OperationGuarantees.SuccessIsAlwaysObserved` | backend/app/services/operation_service.py:373-591 | Success was seen in its own attempt, after an awaited task: a create with auto_start running, a deletion absent, and a power operation in the state it is for, unless the answer had no status and the guest was stored in that state at the last look. |
| `OperationObserved.AlwaysObservedIff` | backend/app/services/operation_service.py:417-472 | Beside others who write the guest's status, every success of a start, stop, reboot or creation with auto_start is observed if and only if none of them writes the state it is for while it is open and, but for a creation, its guest was not stored there when it was enqueued, or its records are not there to act on. |
| `OperationObserved.UnobservedIffFallback` | backend/app/services/operation_service.py:465-467 | A success is unobserved exactly if the answer had no status and the guest stood in the database, at the last look at it, in the state the operation is for. |
| `OperationObserved.UnobservedSuccessRests` | backend/app/services/operation_service.py:417-472 | Behind an unobserved success there is somebody else's write of that state while the operation was open, or, but for a creation, the status it was enqueued over. |
| `OperationProgress.SucceedUnobserved` | backend/app/services/operation_service.py:373-473 | For every power operation whose guest is stored in the state it is for, before it or by somebody else meanwhile, and for every creation with auto-start whose guest somebody else stores as running, a run of the worker that succeeds with nobody having seen that state. |
| `OperationObserved.EndIsFinal` | backend/app/services/operation_service.py:586-602 | Within the lease assumption a row that is over is never committed again. |
| `OperationGuarantees.LostTasksAlwaysEndAttempts` | backend/app/services/operation_service.py:346-363 | A task that ended badly, or in warnings for a clone or inside a deletion, ends the attempt: nothing more is asked or called, and the row can only be requeued, failed or cancelled. |
| `OperationGuarantees.StoredTaskWasAnswered` | backend/app/services/operation_service.py:365-371 | A committed task id is the answer to an earlier call of the kind its phase names. |
| `OperationGuarantees.PolledTasksAreAllOurs` | backend/app/services/operation_service.py:353-359 | Only the committed task is ever polled, and a call of this operation answered with it. |
| `OperationWorker.Claim` | backend/app/services/operation_service.py:123-150 | A row is claimed exactly when it is claimable and the commit succeeds; the claim is committed before anything is executed, and an error means that the process died or the commit failed. |
| `OperationWorker.Settle` | backend/app/services/operation_service.py:616-667 | After a rollback, denial cancels the row and any other fault retries or fails it from the committed records, as of the clock at the commit; a guest whose creation has failed for good shows an error and any other is left alone; only a crash or a failed commit leaves the row leased. |
| `OperationWorker.RunOnce` | backend/app/workers/operation_worker.py:15-38 | A run is idle exactly on an unclaimable row, succeeds only with the row succeeded, requeues while attempts are left, breaks off only on a crash or a failed commit, and fails only for a cause in its log (`Hindered`), cancelling exactly for a refusal. |
| `OperationWorker.Attempt` | backend/app/workers/operation_worker.py:23-38 | A claimed operation is executed to its success or to the handler of its fault. |
| `OperationWorker.EndRun` | backend/app/workers/operation_worker.py:26-38 | The row is given back after a fault, and the log shows the cause: a refusal cancels, anything else retries or fails. |
| `OperationCauses.EndIsHindered` | backend/app/services/operation_service.py:327-602 | Every fault that ends an attempt is justified by the last event and the records: a creation fails on a status only with its start committed, a power operation on one other than its goal, a deletion on a stop not seen stopped, on a status after it was deleted, or on an inventory that still shows the guest after a 404 or a 500, and never on a 404 or a 500 itself. |
| `OperationProgress.CreateGuest` | backend/app/services/operation_service.py:373-447 | In a world that grants and answers everything, ends every task well and lands every commit, a fresh creation whose VMID is free succeeds whatever status its guest is seen in, and stores that status; with auto_start it succeeds once the guest is seen running after its start. The assignment is ready then. |
| `OperationProgress.PowerGuest` | backend/app/services/operation_service.py:448-473 | In such a world a start, stop or reboot succeeds once its guest is seen in the state it is for, and stores that state. |
| `OperationProgress.DeleteGuest` | backend/app/services/operation_service.py:474-581 | In such a world a deletion succeeds whatever state the guest is found in, with 404s and 500s at any status question, unless the guest outlives its stop, its deletion, or its loss; the guest is tombstoned and its assignment free of it. |
| `OperationProgress.PhaseWasCalled` | backend/app/services/operation_service.py:365-371 | A phase is stored only after the call it is named after. |
| `OperationLease.PollsAreApart` | backend/app/services/proxmox.py:140-172 | Between two polls of one attempt there is a commit. |
| `OperationLease.DeadlineIsWritten` | backend/app/services/operation_service.py:338-342 | Every commit of an attempt that goes on writes a deadline one lease from the clock at that commit. |
| `OperationLease.WorkingKeepsTheRow` | backend/app/services/operation_service.py:123-150 | If the clock moves by at most a lease from one commit of an attempt to the next, nobody can claim the row whenever the attempt asks, calls or polls. |
| `OperationWorker.Serve` | backend/app/workers/operation_worker.py:15-38 | All guarantees above hold of the log of any number of runs, each with its own worker, answers and crash point, and the final records are those of the last commit. |
| `OperationWorker.CleanIsSafe` | backend/app/services/operation_service.py:327-602 | A log the judge finds clean has all the guarantees. |
| `LeaseQueue.StepKeepsOk` | backend/app/services/operation_service.py:123-150 | Every claim, renewal, ending, crash and clock step keeps the queue's invariant. |
| `LeaseQueue.LeaseIsExclusive` | backend/app/services/operation_service.py:123-150 | At any point of any interleaving at most one worker within its deadline is executing a row. |
| `LeaseQueue.TerminalIsForever` | backend/app/services/operation_service.py:123-150 | A succeeded, failed or cancelled row never changes again. |
| `LeaseQueue.StepsRunDown` | backend/app/services/operation_service.py:616-625 | A measure that no step gives back and every claim of a queued row and every ending uses up: retries terminate. |
| `LeaseQueue.ClaimsAreCounted` | backend/app/services/operation_service.py:143-148 | The counters of the model are the numbers of claim steps in the run. |
| `LeaseQueue.ClaimsAreBounded` | backend/app/services/operation_service.py:123-150 | Each row is claimed at most max-attempts times plus once for every expired lease taken over. |
| `LeaseQueue.RowsAreWellFormed` | backend/app/services/operation_service.py:616-655 | In every reachable state queued implies attempts are left, lease fields are set exactly while running and finished_at exactly when terminal. |
| `LeaseQueue.RetriesWait` | backend/app/services/operation_service.py:620-622 | A retry is never claimed before min(60, 2^attempts) seconds after the failure that queued it. |
| `LeaseQueue.RetryDelays` | backend/app/services/operation_service.py:620-622 | The delay is two seconds after the first attempt, doubles with each further one, and is a minute from the sixth on. |
| `LeaseQueue.LeasesAreWhole` | backend/app/services/operation_service.py:123-150 | A claim or a renewal gives its worker a whole lease from then on, in its own eyes and in the row. |
| `LeaseQueue.RowsComeDue` | backend/app/services/operation_service.py:124-138 | A row that is over is never claimable; a queued one is from the time it waits for; a running one exactly once its lease is over, so that no row is lost to a worker that died. |
| `LeaseQueue.FirstClaimIsTheStart` | backend/app/services/operation_service.py:144-148 | The start of a row is the time of its first claim, and stays that; every claim counts one attempt. |
| `LeaseQueue.LateFinishReopens` | backend/app/services/operation_service.py:616-625 | Without the deadline assumption a late worker reopens a row that another one has completed. |
| `LeaseQueue.LateEnding` | backend/app/services/operation_service.py:586-667 | What a worker past its deadline does to a row that is over: the row takes the state of its ending, stays as it was if and only if it ended so at the same moment, and stays fit for the queue if and only if it is not queued again. |
| `LeaseQueue.LateRenewal` | backend/app/services/operation_service.py:338-342 | A late renewal leaves the state alone and puts a lease on the finished row. |
| `LeaseQueue.AttemptsAreSerial` | backend/app/services/operation_service.py:123-150 | Once a row is claimed, whoever held it before is silent until it claims again: the events of a row are those of one attempt after the other, each cut off where its worker died or its lease ran out. |
| `UpdaterHost.RunDump` | deploy/updater_agent.py:145-166 | A backup exists only when it is complete, and holds the database at the moment of the dump under the version checked out. |
| `UpdaterHost.RunStop` | deploy/updater_agent.py:369 | A stop leaves the stack down or as it was; until it takes effect users may write. |
| `UpdaterHost.RunRestore` | deploy/updater_agent.py:169-189 | A restore that succeeds is exact; one that fails leaves no database exactly if it had taken effect, and otherwise the database as it was. |
| `UpdaterHost.RunInstall` | deploy/updater_agent.py:206-220 | The agent that is installed is the one of the checkout. |
| `UpdaterHost.RunHealth` | deploy/updater_agent.py:192-203 | The gate passes only on a stack that is up. |
| `UpdaterHost.RunUp` | deploy/updater_agent.py:378 | Starting the stack runs what is checked out on its migration of the database. |
| `UpdaterHost.RunCheckout` | deploy/updater_agent.py:377 | A checkout moves the working copy to the version or leaves it. |
| `UpdaterSaga.Recover` | deploy/updater_agent.py:278-286 | A recovery completes exactly when each of its commands works, and then serves the version, healthy and with its own agent, on the restored backup or on the database as it was; after one that fails the stack is down if and only if the stop took effect and `up` did not. |
| `UpdaterSaga.HealthGateLeavesApiUp` | deploy/updater_agent.py:289-299 | From any host, a recovery that fails at the health gate leaves the recovered version up, whatever the message says. |
| `UpdaterSaga.Prepare` | deploy/updater_agent.py:368-370 | Build, stop and dump run in this order up to the first that fails; a backup comes out exactly if all three work, over a database that is there, and then the stack is down and the backup is the database as it was left. |
| `UpdaterSaga.Launch` | deploy/updater_agent.py:378-380 | Success serves the checked-out version on its migration of the database, with only its own writes after it. |
| `UpdaterSaga.ApplySteps` | deploy/updater_agent.py:366-380 | The steps of an update succeed exactly if every command works, in the order build, stop, dump, checkout, up, health, install; then the target is served on the migrated backup. |
| `UpdaterSaga.RecoverAfterFailure` | deploy/updater_agent.py:289-299 | After a failure at any point the previous version comes back exactly when every recovery command works, on a database with nothing lost and nothing of the target in it. |
| `UpdaterActions.CheckUpdate` | deploy/updater_agent.py:244-264 | A check changes nothing but the recorded check, which names the tip it found. |
| `UpdaterActions.ApplyUpdate` | deploy/updater_agent.py:302-393 | An update commits exactly if it is approved and every command works. It moves the deployment from an ancestor to a strict descendant, which was checked for this checkout and within the time allowed, is still the tip of its branch, and is signed where it must be; its commands ran in the order build, stop, snapshot, checkout, up, health, install; it serves the target on the migrated database with a snapshot of the previous one recorded. Otherwise the host is as it was, recovered, or stranded after two commands failed. |
| `UpdaterActions.CheckAndApply` | deploy/updater_agent.py:326-366 | With working commands, a check and a later update to the tip it found commit exactly if the checkout is clean and a strict ancestor of the tip, and the tip is unchanged, signed where it must be, and checked recently. |
| `UpdaterActions.OnlyForward` | deploy/updater_agent.py:347-366 | A run of checks and updates, whatever fails in it and even where recovery fails, never moves the deployment back; after a committed update it is at a strict descendant of where it was. |
| `UpdaterActions.RollbackSteps` | deploy/updater_agent.py:409-418 | The steps of a rollback succeed exactly if every command works and the recorded backup is there; the current version is snapshotted before the recorded one is loaded. |
| `UpdaterActions.RollbackUpdate` | deploy/updater_agent.py:396-438 | A rollback commits exactly if its backup is there and every command works: it serves the previous version on its migration of the recorded backup, with a snapshot of the version it left recorded as the way back. Otherwise the host is as it was, recovered, or stranded after two of its commands failed, one after the other. |
| `UpdaterActions.RollBackTwice` | deploy/updater_agent.py:396-438 | Two successful rollbacks bring back the version they started from and its database, with nothing lost, migrated or written by the version between. |
| `UpdaterActions.Administer` | deploy/updater_agent.py:302-438 | Over any run of actions each one does what it is accepted for, the recorded backup is a snapshot taken while the recorded previous version was deployed, and until a recovery fails the host is left settled. |
| `UpdaterActions.Act` | deploy/updater_agent.py:302-438 | An action is refused exactly for its own reasons, leaves the host serving what it promises when it commits, and an update moves the checkout only to a descendant. |
| `UpdaterProtocol.StepKeepsOk` | deploy/updater_agent.py:477-592 | Every step of the request loop, the worker and a restart keeps the invariant that ties file, lock, positions and stories. |
| `UpdaterProtocol.OneActionAtATime` | deploy/updater_agent.py:477-514 | The server starts, fetches for a check and records nothing while a worker exists, including the window where apply has dropped the operation; there is at most one worker. |
| `UpdaterProtocol.IdleAgentAccepts` | deploy/updater_agent.py:499-525 | An agent with nothing to do takes an action on: it is queued as a new run and its worker is started. |
| `UpdaterProtocol.IdleAgentChecks` | deploy/updater_agent.py:267-275 | An agent with nothing to do checks, and the check ends with one write that keeps the operation shown. |
| `UpdaterProtocol.BusyAgentRefuses` | deploy/updater_agent.py:267-275 | While a worker has not ended its action no action is taken on, and a check gets no further than its first read. |
| `UpdaterProtocol.NoLostWrite` | deploy/updater_agent.py:502-563 | Every read-modify-write of the state file replaces exactly the file it read. |
| `UpdaterProtocol.StoriesAreLegal` | deploy/updater_agent.py:502-572 | Every accepted operation goes queued, running, then exactly one of succeeded or failed, and nobody leaves it unfinished without a restart. |
| `UpdaterProtocol.OverIsForever` | deploy/updater_agent.py:535-572 | A final status is never written over. |
| `UpdaterProtocol.AbandonedIsForever` | deploy/updater_agent.py:535-572 | No status is ever written again for a run that nobody works on and that the file does not show as queued or running. |
| `UpdaterProtocol.IdsAreLegalIffUnshared` | deploy/updater_agent.py:501 | An operation id shows one legal story if and only if a single run was given it. |
| `UpdaterProtocol.RestartCompletes` | deploy/updater_agent.py:583-592 | A restart leaves nothing queued or running and completes the interrupted operation if and only if the file still shows an operation. |
| `UpdaterProtocol.StatusTellsOutcome` | deploy/updater_agent.py:540-585 | A run is shown as succeeded only if its action returned and, but for a restart, as failed only if its action raised or never began. |
| `UpdaterProtocol.RestartCanLoseAStory` | deploy/updater_agent.py:583-592 | That exception is reachable, and the run it leaves has no final status and nobody to write one. |
| `Decimals.NumberOfDecimal` | backend/app/services/guacd_protocol.py:6-8 | Reading back a printed length gives the length. |
| `GuacdProtocol.InstructionParser.Feed` | backend/app/services/guacd_protocol.py:16-19 | Feeding appends, and fails exactly when the buffer then exceeds the limit. |
| `GuacdProtocol.InstructionParser.Pop` | backend/app/services/guacd_protocol.py:21-47 | A pop consumes exactly one complete instruction, or leaves the buffer untouched. |
| `GuacdProtocol.ParseText` | backend/app/services/guacd_protocol.py:21-47 | The loop over offsets computes the recursive parse of the whole buffer. |
| `GuacdFraming.ParsesExactlyFrames` | backend/app/services/guacd_protocol.py:21-47 | The parser completes on a text if and only if the text starts with a well-formed frame of those elements. |
| `GuacdFraming.ScanIsStable` | backend/app/services/guacd_protocol.py:21-47 | An instruction or an error is unchanged by more text; only "incomplete" can change. |
| `GuacdFraming.StrictPrefixIsIncomplete` | backend/app/services/guacd_protocol.py:21-47 | Every strict prefix of a frame is incomplete, never an error. |
| `GuacdFraming.RoundTrip` | backend/app/services/guacd_protocol.py:6-47 | Printing then parsing returns the elements and leaves exactly the suffix, if and only if there are 1 to 256 of them and each fits the limit and seven digits. |
| `GuacdFraming.ReencodingIsNoLonger` | backend/app/services/guacd_protocol.py:6-47 | Re-encoding what was parsed is never longer than the text consumed. |
| `GuacdStream.ChunkIndependence` | backend/app/services/guacd_protocol.py:16-47 | However a text is cut, the instructions and the way the stream ends are those of the whole text; up to the feed limit they are a prefix of it. |
| `GuacdStream.AnyTwoCuts` | backend/app/services/guacd_protocol.py:16-47 | Two ways of cutting one text cannot be told apart. |
| `GuacdStream.EncodedStreamParses` | backend/app/services/guacd_protocol.py:6-47 | A stream of encoded instructions parses to exactly those instructions with nothing left. |
| `GuacdStream.InstructionReader.Read` | backend/app/services/guacd_protocol.py:56-64 | Each read takes the next instruction off the stream and fails only when there is none, for the stream's own reason. |
| `GuacdRelay.Deliver` | backend/app/services/guacamole_console.py:285-298 | The inner loop answers, forwards or stops on everything the parser can give. |
| `GuacdRelay.FromBrowser` | backend/app/services/guacamole_console.py:280-298 | What is written to guacd and back to the browser is the encoding of the routed instructions, and the relay ends for the routed reason. |
| `GuacdRelay.RouteIsCut` | backend/app/services/guacamole_console.py:285-298 | The route is the permitted instructions and the pings, each in order, up to the first disconnect or refusal. |
| `GuacdRelay.RelayIsFaithful` | backend/app/services/guacamole_console.py:280-298 | For any messages, guacd parses exactly the browser's instructions without the pings, cut at the first disconnect or refusal, and each is one that the rules permit. |
| `GuacdRelay.RelayIgnoresBoundaries` | backend/app/services/guacamole_console.py:280-298 | Where the browser cuts its messages changes nothing. |
| `GuacdRelay.RelayIsNoLonger` | backend/app/services/guacamole_console.py:280-298 | The relay never writes more text than the browser sent. |
| `GuacdRules.KeysPass` | backend/app/services/guacd_protocol.py:86-93 | A key, sent by itself, reaches guacd as it is exactly if its code is a number up to 0xFFFFFFFF in at most 4300 digits and it goes up or down; otherwise nothing is written and the relay ends. |
| `GuacdRules.MouseMovesPass` | backend/app/services/guacd_protocol.py:94-100 | A mouse event passes exactly with both coordinates up to 8192 and the mask up to 31, a fourth number being any. |
| `GuacdRules.SizesPass` | backend/app/services/guacd_protocol.py:101-103 | A size passes exactly between 200 and 4096 either way. |
| `GuacdRules.SignalsPass` | backend/app/services/guacd_protocol.py:73-85 | A nop passes, a sync exactly with a number, an ack exactly with two numbers and a note of at most 256 characters. |
| `GuacdRules.PingsComeBack` | backend/app/services/guacamole_console.py:281-305 | A ping goes back to the browser and not to guacd; a disconnect ends the relay. |
| `GuacdRules.OthersAreRefused` | backend/app/services/guacd_protocol.py:67-104 | Every other opcode, and every other number of elements, ends the relay with nothing written. |
| `GuacdRules.OnlyInputArrives` | backend/app/services/guacd_protocol.py:67-104 | Whatever the browser sends, every instruction guacd parses is a nop, sync, ack, key, mouse or size of the right number of elements. |
| `GuacdRules.OnlyPingsComeBack` | backend/app/services/guacamole_console.py:281-305 | The browser gets nothing back but its pings. |
| `GuacdRules.LongMessageEndsRelay` | backend/app/services/guacd_protocol.py:16-19 | A message of more than 65536 characters ends the relay before anything in it is looked at. |
| `RfbProxy.ByteStream.Read` | backend/app/services/rfb_auth.py:20-30 | Exactly the bytes asked for, in order, whatever the pieces; what is beyond them stays, and never more than the limit is held. |
| `RfbProxy.ChooseSecurity` | backend/app/services/rfb_auth.py:47-70 | VeNCrypt is preferred to VNC authentication and no other type is accepted; it overruns the buffer only if there was more than its limit to read. |
| `RfbProxy.ReadSubtypes` | backend/app/services/rfb_auth.py:57-65 | Plain is looked for among the aligned 32-bit sub-types, and a missing user ends the handshake before anything is sent; it overruns the buffer only if there was more than its limit to read. |
| `RfbProxy.SpeakVenCrypt` | backend/app/services/rfb_auth.py:50-65 | The credentials are sent only after version, acknowledgement and an offer of the sub-type Plain; it overruns the buffer only if there was more than its limit to read. |
| `RfbProxy.SpeakVncAuth` | backend/app/services/rfb_auth.py:66-68 | The challenge is answered with its own response and nothing else; it overruns the buffer only if there was more than its limit to read. |
| `RfbProxy.ReadResult` | backend/app/services/rfb_auth.py:71-72 | Only a SecurityResult of zero is accepted; it overruns the buffer only if there was more than its limit to read. |
| `RfbProxy.AuthenticateUpstream` | backend/app/services/rfb_auth.py:41-73 | The result, the answers sent and the bytes left are those of the handshake read off the byte string, whatever the pieces it arrives in; it overruns the buffer only if there was more than its limit to read. |
| `RfbProxy.ReadServerInit` | backend/app/services/rfb_auth.py:90-94 | ServerInit is taken whole, with its name, and nothing after it; it overruns the buffer only if there was more than its limit to read. |
| `RfbProxy.GreetBrowser` | backend/app/services/rfb_auth.py:80-88 | The browser is offered no authentication, must choose it, and its ClientInit is the next byte; it overruns the buffer only if there was more than its limit to read. |
| `RfbProxy.AuthenticateBrowser` | backend/app/services/rfb_auth.py:76-98 | After success the browser gets every byte after SecurityResult exactly once and the hypervisor every byte from ClientInit on exactly once; a failure has shown the browser nothing but the greeting, and happens only if a handshake fails or a side sends more than the buffer limit. |
| `RfbHandshake.WireIsDone` | backend/app/services/rfb_auth.py:41-73 | Every handshake of the grammar of sections 7.1 to 7.3 of RFC 6143 that the proxy supports is accepted with its reply. |
| `RfbHandshake.AcceptsExactlyHandshakes` | backend/app/services/rfb_auth.py:41-73 | The proxy accepts a byte string if and only if it is such a handshake, and leaves exactly what follows. |
| `RfbHandshake.MoreBytesOnlyFollow` | backend/app/services/rfb_auth.py:41-73 | Later bytes never change an accepted handshake; they only join what is left. |
| `RfbHandshake.VersionIsText` | backend/app/services/rfb_auth.py:44 | The version exchanged is the text `RFB 003.008` with a line feed. |
| `RfbHandshake.NumbersAreBigEndian` | backend/app/services/rfb_auth.py:91 | A number of 32 bits and its four bytes determine each other, the greatest byte first. |
| `RfbHandshake.PlainIsOffered` | backend/app/services/rfb_auth.py:57-60 | Plain is on offer exactly if one of the sub-types, read as a number, is 256. |
| `RfbHandshake.LoginIsLaidOut` | backend/app/services/rfb_auth.py:61-65 | The login is the number 256, the two lengths, the user and the ticket, in this order and nothing else. |
| `ReplayStore.InMemoryReplayStore.MarkUsed` | backend/app/security/replay_store.py:21-30 | A token is unused exactly when the purged store does not hold it, and is then held until its expiry. |
| `ReplayStore.StepKeepsOk` | backend/app/security/replay_store.py:21-30 | Every step of every interleaving keeps: an honoured token is remembered or its expiry is past. |
| `ReplayStore.HonouredAtMostOnce` | backend/app/services/session_service.py:337-351 | Over all interleavings a token is honoured at most once ever, although the store forgets, if a presentation takes less than a second up to the store (section 4.1.4 of RFC 7519). |
| `ReplayStore.HonouredInItsTime` | backend/app/security/reconnect_tokens.py:18-27 | A token is honoured only from its issue on and less than a second past the end of its time. |
| `ReplayStore.SecondUseIffPurged` | backend/app/security/replay_store.py:21-30 | A second presentation that reaches the store is honoured if and only if a purge since the first, or its own, read a clock past the expiry. |
| `ReplayStore.LateLockHonoursTwice` | backend/app/security/replay_store.py:22-23 | A presentation whose two clock reads fall in one second but which then waits for the lock can honour a token twice. |
| `ReplayStore.RedisReplayStore.MarkUsed` | backend/app/security/replay_store.py:37-40 | The key is set only if it is not held, for max(1, expiry - now) seconds. |
| `ReplayStore.Ttl` | backend/app/security/replay_store.py:39 | The time to live is at least a second and reaches the expiry from the clock read. |
| `ReplayStore.IssuedForOne` | backend/app/security/reconnect_tokens.py:9-55 | A token verifies for exactly the session, user and protocol it was issued for, until its second is up. |
| `ReplayStore.RedisSecondUse` | backend/app/security/replay_store.py:37-40 | With Redis the next presentation of an honoured token is let through if and only if it arrives after the key's time to live. |
| `ReplayStore.RedisAtMostOnce` | backend/app/security/replay_store.py:37-40 | With Redis two uses of one token need a SET that arrives at or after its expiry. |
| `ReplayStore.RedisHonoursTwice` | backend/app/security/replay_store.py:37-40 | Such a run: a fifth of a second between verification and SET is enough. |
| `SessionMachine.SessionService.SetState` | backend/app/services/session_service.py:38-56 | The state moves exactly along an edge of the table, with the date and reason of the new state. |
| `SessionMachine.LaunchesDoNotLinger` | backend/app/services/session_service.py:371-387 | A new session is launching, dated from its creation: none outlives a sweep for stuck launches with a later cutoff, and one that has left LAUNCHING never launches again. |
| `SessionMachine.SessionService.MarkState` | backend/app/services/session_service.py:120-192 | A missing row or an edge outside the table changes nothing and reports so. |
| `SessionMachine.SessionService.Heartbeat` | backend/app/services/session_service.py:194-207 | A final session is refused untouched; another one gets its heartbeat even when the state it names is refused. |
| `SessionMachine.SessionService.VerifyReconnect` | backend/app/services/session_service.py:337-351 | A token passes exactly when signature, expiry, session, user and protocol agree and it is unused, and is then spent. |
| `SessionMachine.SessionService.ReconnectSession` | backend/app/services/session_service.py:251-280 | A reconnect goes through only from DISCONNECTED with a good unused token and ends ACTIVE if both its commits land, RECONNECTING if only the first does; a good token is spent in any case. |
| `SessionMachine.TokenOpensItsSession` | backend/app/services/session_service.py:251-280 | A token changes a session exactly if it was issued for that session, its user and its protocol, is in its time and unused, and the session is disconnected. |
| `SessionMachine.ReconnectIsTwoOps` | backend/app/services/session_service.py:251-280 | A reconnect is two operations, up to its first commit and the activation, and may stop before or between them. |
| `SessionMachine.SessionService.SweepRows` | backend/app/services/session_service.py:223-249 | A sweep moves exactly the selected rows that have the edge, whatever order the query lists them in, and counts them. |
| `SessionMachine.SessionService.MoveRows` | backend/app/services/session_service.py:241-244 | The loop moves the listed rows one by one and counts the moves that the table allowed. |
| `SessionMachine.SessionService.SettleSession` | backend/app/services/guacamole_console.py:360-365 | The end of a console disconnects the session or else fails it. |
| `SessionMachine.SettledIsOver` | backend/app/services/guacamole_console.py:360-365 | A settled session is never launching, active or reconnecting; one that was never active has failed with the reason. |
| `SessionMachine.StepFollowsTable` | backend/app/architecture/state_machines.py:45-60 | Every operation takes a session over at most one edge of the table. |
| `SessionMachine.FinalIsForever` | backend/app/architecture/state_machines.py:50-51 | An expired or failed row is never written again. |
| `SessionMachine.EveryRowIsDated` | backend/app/services/session_service.py:45-55 | Over all runs expired_at is set exactly on expired rows, failed_at exactly on failed ones, launched_at on every row that has been active. |
| `SessionMachine.SweepMoves` | backend/app/services/session_service.py:223-387 | Which rows each sweep changes: stale ones only from ACTIVE or DISCONNECTED, stuck ones from LAUNCHING, no others. |
| `SessionMachine.ReconnectSweepIsIdle` | backend/app/services/session_service.py:353-369 | The sweep for lost reconnects changes nothing and counts zero. |
| `SessionMachine.ReconnectingIsNeverSwept` | backend/app/services/session_service.py:353-369 | No run of sweeps ever changes a reconnecting session. |
| `SessionMachine.HeartbeatNeedsNoToken` | backend/app/services/session_service.py:194-207 | Two heartbeats bring a disconnected session back without a token. |
| `SessionMachine.SpentOnce` | backend/app/services/session_service.py:337-351 | In the service's own runs a spent token is never spent again. |
| `SessionMachine.ActivationBalance` | backend/app/services/session_service.py:251-280 | Over all histories: activations, failures while coming back and a session still coming back together are exactly the launch, one for every distinct token on which the session started to come back, and the starts made by name. |
| `SessionMachine.ActivationsArePaidIff` | backend/app/services/session_service.py:251-280 | Every activation after the first has a token of its own if and only if no more starts were made by name than were lost or are still open. |
| `SessionMachine.ComingBackWasAskedFor` | backend/app/services/session_service.py:157-173 | A session that is coming back was put there by an earlier reconnect whose first commit landed or by an earlier operation that named RECONNECTING, and has been coming back since. |
| `SessionMachine.HalfAReconnect` | backend/app/services/session_service.py:264-270 | A history in which a reconnect stops between its commits and a heartbeat that names ACTIVE then brings the session back, on the token that was spent. |
| `LoginThrottle.AuthService.CheckLoginAllowed` | backend/app/services/auth_service.py:41-50 | Refused exactly while a block lies ahead, with the whole seconds left as the time to wait. |
| `LoginThrottle.Wait` | backend/app/services/auth_service.py:45 | The time to wait is at least one second and otherwise the whole seconds left. |
| `LoginThrottle.AuthService.RecordLoginFailure` | backend/app/services/auth_service.py:53-69 | A failure is counted on a new row, on the open window or on a new window, and blocks at the maximum. |
| `LoginThrottle.SuccessStartsOver` | backend/app/services/auth_service.py:72-75 | A login that succeeds starts its key over: what follows runs as if nothing had come before. |
| `LoginThrottle.AuthService.LoginUser` | backend/app/services/auth_service.py:102-163 | A blocked attempt never looks at the credentials; a disabled account neither counts nor clears; no other key is touched. |
| `LoginThrottle.RunStaysWithin` | backend/app/services/auth_service.py:41-69 | Over every run of attempts with a lockout longer than the window, failures stay within the maximum and the row is blocked exactly at it. |
| `LoginThrottle.WithinIffLockoutOutlastsWindow` | backend/app/core/config.py:33-35 | That holds of all runs if and only if the maximum is at least 1 and the lockout is strictly longer than the window. |
| `LoginThrottle.FailuresAreBounded` | backend/app/services/auth_service.py:53-69 | Without a success an interval of length L records at most max * (L / window + 2) failures. |
| `LoginThrottle.DefaultsKeepTheBound` | backend/app/core/config.py:33-35 | The settings as shipped keep the bound: at most five failures in a row, and at most 1450 in a day. |
| `LoginThrottle.BlockedUntilTheEnd` | backend/app/services/auth_service.py:41-50 | Every attempt before the block ends is refused and leaves the row as it is. |
| `VmidAllocator.Largest` | backend/app/services/operation_service.py:79 | The largest id among the rows in scope, tombstones included. |
| `VmidAllocator.Database.AllocateVmid` | backend/app/services/operation_service.py:52-83 | The least id that is at least 200000, not given before in the scope and above every row in scope. |
| `VmidAllocator.AllocatesTheLeast` | backend/app/services/operation_service.py:79-81 | The id given is exactly the greatest of the first id, the next of the scope and one above the rows in scope. |
| `VmidAllocator.Database.CreateVm` | backend/app/api/routers/vms.py:320-339 | The creation route commits the id together with its row. |
| `VmidAllocator.IdsIncrease` | backend/app/services/operation_service.py:79-83 | The ids given for one scope strictly increase whatever happens in between, and are at least 200000. |
| `VmidAllocator.IdsAreNotSkipped` | backend/app/services/operation_service.py:81-83 | A creation's id is 200000, the next one of its scope, or one above a row of its own cluster. |
| `VmidAllocator.ScopeNamesCluster` | backend/app/services/operation_service.py:72-80 | The rows looked at are those of the cluster given, else of the cluster named after the last colon of the scope, else all. |
| `VmidAllocator.IdsExceedAllRows` | backend/app/services/operation_service.py:70-83 | An id exceeds every row its cluster ever had, tombstones included. |
| `VmidAllocator.NoTwoVmsShareAnId` | backend/app/api/routers/vms.py:320-339 | If rows come from the creation route alone, no two rows of a cluster ever share an id, whatever scopes are used. |
| `VmidAllocator.ScopesCanCollide` | backend/app/services/operation_service.py:58-67 | The default scope and the scope of cluster 1, both untouched, give the same id. |
| `VmidAllocator.ScopesCollideIff` | backend/app/services/operation_service.py:52-83 | Two allocations with no row in between give the same id if and only if their scopes differ and the counter and rows of the second stand exactly at that id beforehand. |
| `CleanupQueue.KeysAreInjective` | backend/app/workers/cleanup_worker.py:38 | Equal idempotency keys come from equal requests, within a family of keys and across all of them. |
| `CleanupQueue.Database.EnqueueOperation` | backend/app/services/operation_service.py:88-120 | A key that is taken returns its row and adds nothing; an absent or empty key is replaced by a random one. |
| `CleanupQueue.Database.ExpireAssignment` | backend/app/workers/cleanup_worker.py:28-40 | One assignment is expired, its deletion asked for under its own key, and counted if it is queued. |
| `CleanupQueue.Database.RunOnce` | backend/app/workers/cleanup_worker.py:17-41 | A sweep expires every listed assignment, asks for its deletion in order, and counts those still queued. |
| `CleanupRuns.AtMostOneFromTheSweep` | backend/app/workers/cleanup_worker.py:28-40 | However often the sweep runs, an assignment and its VM get at most one deletion from it. |
| `CleanupRuns.CausesAreAskedFor` | backend/app/services/operation_service.py:99-120 | A VM has a deletion for exactly the causes that a sweep, the closing of a lab run or a request without a key ever asked for. |
| `CleanupRuns.DeletionsAreCounted` | backend/app/api/routers/classroom.py:287-311 | The deletions of a VM are exactly one for every assignment the sweep found expired with it, one for every lab run closed while one of its assignments had it, and those asked for without a key. |
| `CleanupRuns.SweepAdds` | backend/app/workers/cleanup_worker.py:28-39 | A sweep adds a deletion to a VM exactly if it has not asked for that assignment and VM before, whatever other deletions there are. |
| `CleanupRuns.TwoDeletions` | backend/app/api/routers/classroom.py:296-311 | A lab run is closed and the sweep finds the same assignment expired: its VM gets two deletions. |
| `CleanupRuns.SweepAsksForEveryDeletion` | backend/app/workers/cleanup_worker.py:17-41 | After a sweep every assignment that was due has exactly one deletion from the sweep. |
| `CleanupRuns.AskedOnceForEver` | backend/app/services/operation_service.py:100-106 | A request once made stays and remains the only row with its key: it is never made again, not even after it failed. |
| `CleanupRuns.SweepTwice` | backend/app/workers/cleanup_worker.py:17-41 | Sweeping again adds nothing. |
| `CleanupRuns.ClosingEndsAssignments` | backend/app/api/routers/classroom.py:290-311 | Closing a lab run ends exactly its assigned and ready assignments, as expired or revoked, and asks for a deletion of each of their VMs. |
| `CleanupRuns.SweepEndsAssignments` | backend/app/workers/cleanup_worker.py:18-44 | A sweep ends exactly the assignments with a VM whose time is up and which were not revoked, and asks for a deletion of each of their VMs. |
| `CloudflareAccount.SearchKind` | deploy/provision_cloudflare.py:381-386 | Finds the one match or none, and refuses exactly when there are several. |
| `CloudflareAccount.VerifyOwnership` | deploy/provision_cloudflare.py:552-629 | Accepts exactly what is owned or adopted and fits the deployment. |
| `CloudflareAccount.Discover` | deploy/provision_cloudflare.py:455-550 | Discovery succeeds exactly when every kind has at most one match, nothing is foreign and all of it fits, and then returns those matches. |
| `CloudflareAccount.MatchesByName` | deploy/provision_cloudflare.py:455-550 | A search goes by the names of policy and Tunnel, and by the hostname in any case for the application and the CNAME. |
| `CloudflareAccount.PlanCreatesTheMissing` | deploy/provision_cloudflare.py:631-683 | The plan creates exactly the kinds that the account lacks, and configures the host unless it is set up for this application already. |
| `CloudflareAccount.AddingSettles` | deploy/provision_cloudflare.py:410-436 | What a run creates is what a discovery looks for and accepts. |
| `CloudflareAccount.LeaveIsGood` | deploy/provision_cloudflare.py:808-812 | A run that stops at a POST leaves an account that adoption accepts, unless the POST left a Tunnel without its configuration. |
| `CloudflareRun.EnsureBoundary` | deploy/provision_cloudflare.py:689-718 | Policy, application and a valid audience come before everything else, exactly when their requests succeed. |
| `CloudflareRun.EnsureResource` | deploy/provision_cloudflare.py:689-716 | A resource that was found is kept without a request; a missing one is created if and only if its POST is answered. |
| `CloudflareRun.EnsureTunnel` | deploy/provision_cloudflare.py:721-740 | The Tunnel is kept, or created and configured; a failure of either request stops the run with the account balanced. |
| `CloudflareRun.EnsureRoute` | deploy/provision_cloudflare.py:689-740 | Boundary and Tunnel are there exactly when the requests for what was missing succeed, before the host and the DNS record are touched. |
| `CloudflareRun.EnsureLocal` | deploy/provision_cloudflare.py:742-755 | A host that matches is left alone; another is configured exactly when the token is good and the helper succeeds. |
| `CloudflareRun.Publish` | deploy/provision_cloudflare.py:742-803 | The DNS record is made only once the host is configured, and the state file names what was published. |
| `CloudflareRun.Advance` | deploy/provision_cloudflare.py:689-806 | The steps in order complete when every request they make succeeds, and stop with the account balanced at the first that does not. |
| `CloudflareRun.Compensate` | deploy/provision_cloudflare.py:816-820 | The created resources are deleted last first; what a failed DELETE leaves is left. |
| `CloudflareRun.Apply` | deploy/provision_cloudflare.py:685-822 | Nothing that was there before is lost or changed, however the run ends; a success converges; an unanswered POST deletes nothing; with everything in place the account is not touched. |
| `CloudflareRun.Provision` | deploy/provision_cloudflare.py:924-961 | The same for discovery followed by apply: a run completes when every request succeeds and has then converged, a run on a converged account sends no POST, PUT or DELETE at all, and at no point of a cleanly undone run is the hostname published without what protects it. |
| `CloudflareRun.PublishedIsProtected` | deploy/provision_cloudflare.py:397-436 | What a successful run has published: the hostname leads, proxied, to the recorded Tunnel, the Tunnel to the web service and nowhere else, and in front stands the recorded application, which only those whom the policy admits can pass. |
| `CloudflareRun.NothingLeftToPlan` | deploy/provision_cloudflare.py:631-656 | After a success a discovery without adoption accepts the account and plans to keep everything. |
| `CloudflareRun.StoppedRunIsUndone` | deploy/provision_cloudflare.py:813-822 | A stopped run leaves the account exactly as it was if and only if no failed POST left anything and every DELETE took effect. |
| `CloudflareRun.UndoKeepsStart` | deploy/provision_cloudflare.py:816-820 | Undoing never deletes or changes anything that was there before. |
| `CloudflareRun.UndoIsGuarded` | deploy/provision_cloudflare.py:816-820 | The reverse order takes the DNS record away before what protects it. |
| `CloudflareRun.AmbiguousRunCanBeAdopted` | deploy/provision_cloudflare.py:808-812 | What an unanswered POST leaves can be adopted by a later run if and only if it is not a Tunnel without its configuration. |

## Left out

- OperationGuarantees.AtMostOneClone: says nothing of a create whose start answered without a task id: that commit forgets the create's task, and later attempts find the VMID taken. No liveness is claimed for it.
- LeaseQueue.LeaseIsExclusive: speaks of workers within their deadline, because the source does not check `lease_owner` after the claim.
- LeaseQueue.AttemptsAreSerial: what a worker does in an attempt is in `OperationWorker`, whose runs follow one another; that interleaved
  attempts cut off at a deadline are such runs is not itself a theorem.
- LeaseQueue: the order of claims and `skip_locked`; any claimable row may be claimed. One claim is one step.
- OperationEngine: audit rows, result and error texts, the warnings list, the event bus, and the node and template arguments of the calls. Authorization is an oracle that grants, denies or fails; one inventory request stands for `vm_exists` with its retries.
- OperationEngine.Reload: the route that archives a record whose VM is gone (backend/app/api/routers/vms.py:514-582) writes the deletion and the
  assignment as well; it is not among the other writers here.
- OperationEngine.WaitForTask: the time limit is an oracle consulted at every poll.
- UpdaterActions.ApplyUpdate: a failure of the final `write_state` inside the `try` is not modelled.
- UpdaterHost: what users write between commands is any sequence of rows of the running version; the database has no other structure than its schema version and its rows.
- UpdaterProtocol.StoriesAreLegal: speaks of runs in the order of acceptance; what an id shows is `IdsAreLegalIffUnshared`.
- UpdaterProtocol: actions are one step, with `UpdaterActions` saying what they do. HTTP, tokens and `do_GET` are left out.
- GuacdRelay: the guacd handshake, `to_browser`, the profile watch and the access watch; UTF-8 decoding.
- GuacdStream.InstructionReader.Read: the bytes are decoded beforehand; a decoding error is not modelled.
- RfbProxy.ByteStream.Read: the twenty-second limit is the queue of messages running out.
- RfbProxy: the DES response is an uninterpreted function of the challenge; bytes sent before a failure are recorded, a failing send is not.
- ReplayStore.HonouredAtMostOnce: holds under the promptness stated above, without which it is false (`LateLockHonoursTwice`).
- ReplayStore: signatures, the `iat` claim and the optional fingerprint of a token, which no caller passes.
- SessionMachine: concurrent requests on one row; each operation is one step. Queries, counts, telemetry and events.
- LoginThrottle: the hashing of keys, password hashing, sessions and audit rows; the clock does not go back.
- VmidAllocator.IdsIncrease: is about committed transactions; an allocation that is rolled back is given again. The integer width of the column is not modelled.
- VmidAllocator.Database.AllocateVmid: the numeral after the last colon of a scope is read by an uninterpreted function.
- CleanupQueue: the worker lock. A random key is one that no row has.
- CleanupRuns: the closing of a lab run is one step with its requests and its change of the assignments; the run's own states, its
  transaction's audit row and who may close it are left out.
- CloudflareAccount: identifiers are numbers, lower-casing is an uninterpreted function that fixes the hostname, and list requests return everything; fields that neither the bodies nor the checks mention.
- CloudflareRun: the local helper script beyond its outcome; retries of GET, PUT, PATCH and DELETE are part of one request's outcome; permissions of files.
- Placement, statistics, guest discovery, worker locks, the frontend and all ORM mechanics: no state that is hard to keep.
