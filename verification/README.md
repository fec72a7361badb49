# remote-ssh-mcp: a verified model

The repository is an asyncio server that keeps SSH sessions, runs commands
through them, moves files with rsync, and ships container payloads as plain tar
archives. This project models its cooperative concurrency and its streaming
algorithms in Dafny and proves what they are there for.

`dafny verify dfyconfig.toml` checks everything.

## How the model is built

Code between two suspension points is one atomic step. The concurrent parts are
transition systems whose runs are arbitrary sequences of enabled events, so every
interleaving, every cancellation point and every outcome of a child process or a
system call is covered, save what "Left out" names; the main results are about
every state of every run. They say what never happens, when exactly each decision
goes which way, and that what the system is for can happen: from its start, or
from any state it can be in.
The objects whose fields the source updates in place are classes. Where a
method is a step of the transition system it is proved against the same function
(`_set_state`, `_prune`, `_register`, `_close`, the stretches of `_shutdown`, the
runner's lock); the others state the old and new state outright. Loops over
streams are loops, proved equal to a meaning on the whole stream.

| part | modules |
|---|---|
| transfers of all sessions with their shared reservations | `PartialNames`, `TransferRecords`, `TransferManager` (classes), `TransferWorld`, `TransferInvariant`, `TransferSteps`, `TransferRuns`, `TransferBookkeeping`, `TransferProgress` |
| what transfers publish | `Publication`, `PublicationRuns`, `PublicationOutcomes`, `TransferWitnesses`, `DeliveryWitnesses` |
| sessions, with the transfers inside | `SessionManager` (classes), `SessionWorld`, `SessionInvariant`, `SessionSteps`, `SessionRuns`, `SessionOutcomes`, `SessionWitnesses` |
| command runner | `CommandRunner` (class), `RunnerWorld`, `RunnerAnswers` |
| remote supervisor, child and watcher | `Utf8`, `Framing`, `Supervisor`, `SupervisorInvariant`, `SupervisorCleanup`, `SupervisorRuns`, `SupervisorWitnesses` |
| capture, sudo marker | `Bytes`, `Capture`, `MarkerRemoval`, `Sudo` |
| inspection | `Paging`, `Splitting`, `Listing` |
| archives | `ArchivePaths`, `Canonical`, `ArchiveWriter`, `BoundedReader`, `ArchiveReader`, `ArchiveRoundTrip`, `ArchiveMerge` |

## Where the code does not keep a natural promise

Each is stated with its exact condition; failures of the concurrent parts come
with a run from the initial state.

- The marker-removal buffer is not bounded by one marker and one chunk: what
  follows the marker in its chunk is held until the next read. The bound holds
  over every input exactly when chunks are at most one byte longer than the
  marker (`MarkerRemoval.MarkerPlusChunkExactly`); the true bound is
  `MarkerRemoval.PeakBound`.
- Stripping the marker from a capture and from its spool keeps the two
  consistent exactly when the marker lies in the captured prefix or nowhere
  (`Capture.StripKeepsDescription`); `Sudo.Execute` only strips in that case.
- The watcher may leave the command's group although the command was sent only
  part of its script: `dd` exits 0 at the end of its input, so a channel that
  ends inside the payload arms the gate like a complete one. What is sent is
  whole exactly when as many bytes as announced follow the size line
  (`SupervisorRuns.WholePayloadExactly`, `FramedPayloadExactly`);
  `SupervisorWitnesses.CutPayloadRun` is such a run for every payload and every
  cut.
- An upload that must not overwrite publishes with `ln` without `-T`. If a
  directory appears at the destination during the copy, the file is linked
  inside it and the transfer is COMPLETED although its destination is that
  directory (`PublicationRuns.LinkedInsideExactly`,
  `TransferWitnesses.DirectoryRun`).
- A second cancellation while rsync is being killed finishes the operation with
  rsync still running (`PublicationRuns.RsyncOutlivesExactly`). A `cancel`
  followed by a disconnect of its session within the five seconds that rsync is
  given is such a second cancellation. The rsync writes to a partial that a
  later transfer may use, and a later verified download can publish those bytes
  (`TransferWitnesses.LeftoverRun`). `CompletedMeansDelivered`,
  `CompletedWasAtDestination` and `SessionRuns.NothingOutlivesSession` name this
  exception.
- A signal handled while the supervisor's EXIT action runs cuts it short:
  `exit` inside the trap ends the shell. It then removes no further file and
  stops no watcher. In any run the directory and FIFOs are gone in the end exactly
  if no signal met cleanup, or it met it with nothing left to remove, or the
  watcher swept afterwards (`SupervisorRuns.ExitIsClean`); a registered launcher
  or watcher outlives the supervisor exactly if nothing else ended it
  (`LauncherGoneExactly`); and a supervisor left alone leaves nothing exactly when
  there was nothing left to remove (`InterruptedCleansExactly`).
  `SupervisorWitnesses.InterruptedCleanup` leaves every file,
  `WatcherOutlivesRun` a live watcher, and `WatcherSweepsRun` is the same with the
  watcher's sweep.
- Once the command ended by itself, its background descendants are spared
  (`SupervisorRuns.ReleasedGroupIsSpared`, `SupervisorWitnesses.BackgroundRun`).
  Otherwise no process of its group is left in any run (`ExitIsClean`).
- `read_file_range` refuses a regular file whose reported size is 0: `stat` calls
  it a "regular empty file", and only "regular file" is accepted. So the pages
  of a file are the file exactly when its reported size is not 0
  (`Paging.ReadFileRange`).
- The writer accepts two entries of which one path leads through the other;
  the reader then refuses the archive (`ArchiveRoundTrip.AcceptedExactly`).

## Model

| member | source | states |
|---|---|---|
| PartialNames.TokenInputInjective | remote_ssh_mcp/transfers.py:220-226 | The NUL-terminated encoding fed to the digest determines direction, connection, remote and local path of a transfer |
| PartialNames.ResourceKeyMeaning | remote_ssh_mcp/transfers.py:240-248 | Two transfers have the same reservation key if and only if they write the same local path, or the same remote path over the same connection |
| PartialNames.SamePartialSameEndpoints | remote_ssh_mcp/transfers.py:249-287 | Equal partial files, local or remote, force equal endpoints when the digest separates the two encodings |
| PartialNames.PartialIsBeside | remote_ssh_mcp/transfers.py:284 | The partial of an upload is another file of the directory its destination is in, over the same connection |
| TransferManager.TransferReservations.Claim | remote_ssh_mcp/transfers.py:148-152 | Succeeds exactly for an unclaimed key; afterwards the key is claimed and nothing else changed |
| TransferManager.TransferReservations.Release | remote_ssh_mcp/transfers.py:154-155 | Removes exactly the key |
| TransferManager.TransferManager.SetState | remote_ssh_mcp/transfers.py:290-299 | Record and claims become what the specification says: a final state stamps the record and gives a held claim back once |
| TransferManager.TransferManager.Prune | remote_ssh_mcp/transfers.py:183-192 | The dictionary keeps exactly the records that have not expired |
| TransferManager.TransferManager.ActiveCount | remote_ssh_mcp/transfers.py:194-198 | The number of registered operations that are not final |
| TransferManager.TransferManager.Register | remote_ssh_mcp/transfers.py:200-218 | Outcome, dictionary and claims of a registration: refused when closed, at the limit after pruning, or when the destination is claimed, in this order, else registered and reserved |
| TransferManager.TransferManager.Start | remote_ssh_mcp/transfers.py:255-258 | Registration and task in one step: the operation has a task exactly when it is registered, so every registered operation has one |
| TransferManager.TransferManager.BeginCancel | remote_ssh_mcp/transfers.py:661-672 | Which operation is waited for; its task and its event are told; nothing else changes |
| TransferManager.TransferManager.FinishCancel | remote_ssh_mcp/transfers.py:673-676 | The fallback finishes an unfinished operation as cancelled, leaves a finished one alone, and answers a final state |
| TransferManager.TransferManager.BeginClose | remote_ssh_mcp/transfers.py:678-692 | Closed once; exactly the unfinished operations are waited for and told to stop |
| TransferManager.TransferManager.FinishClose | remote_ssh_mcp/transfers.py:693-697 | What close leaves behind: every operation waited for is final |
| TransferRecords.PruneKeepsActive | remote_ssh_mcp/transfers.py:183-198 | Pruning never drops an operation in progress |
| TransferRecords.RefusalExactly | remote_ssh_mcp/transfers.py:200-218 | Which refusal a registration gets: closed comes first, then too many operations in progress, then a claimed destination; it is registered exactly when none applies |
| TransferSteps.StepKeeps | remote_ssh_mcp/transfers.py:142-697 | Every event, of body, cancel, close, prune or anybody else, keeps the invariant and moves no operation backwards |
| TransferRuns.ClaimsAreExact | remote_ssh_mcp/transfers.py:142-218 | In every reachable state the claims are exactly the keys of the unfinished operations; these are exactly the reserved ones and all registered |
| TransferRuns.DestinationsAreExclusive | remote_ssh_mcp/transfers.py:212-218 | No two unfinished operations of any sessions write to the same destination, remote paths taken as they are spelled |
| TransferRuns.TransfersAreBounded | remote_ssh_mcp/transfers.py:205-211 | No manager ever has more than max_transfers unfinished operations |
| TransferRuns.FinalIsAbsorbing | remote_ssh_mcp/transfers.py:290-299 | States only advance; a final record never changes again; a claim is given back once |
| TransferRuns.CancelDecides | remote_ssh_mcp/transfers.py:669-674 | Once cancel waits for an operation it can only end cancelled |
| TransferRuns.CancelAnswers | remote_ssh_mcp/transfers.py:673-676 | A returning cancel reports CANCELLED, and that is the state, even if the body never ran |
| TransferRuns.ClosedIsIdle | remote_ssh_mcp/transfers.py:678-697 | After close returned the manager never has an unfinished operation again, whatever starts were suspended |
| TransferRuns.PartialsAreExclusive | remote_ssh_mcp/transfers.py:220-287 | No two unfinished operations use one partial file |
| TransferBookkeeping.StartExactly | remote_ssh_mcp/transfers.py:200-258 | In every run a transfer is registered exactly if its manager is open, below its limit, and nobody in the process still writes to that destination; it then waits for its first step and nothing else changed |
| TransferBookkeeping.PrunedExactly | remote_ssh_mcp/transfers.py:183-192 | In every run a lookup drops exactly the manager's operations that finished at least the time to live ago |
| TransferBookkeeping.FinishedWhen | remote_ssh_mcp/transfers.py:294-296 | That time counts from the step that finished the operation, for good |
| TransferBookkeeping.CancelExactly | remote_ssh_mcp/transfers.py:661-672 | In every run cancel answers at once with the state exactly if that is final, and changes nothing; otherwise it waits and tells this task alone to stop |
| TransferBookkeeping.CloseExactly | remote_ssh_mcp/transfers.py:678-692 | In every run the first close waits for exactly the unfinished operations and tells their tasks alone to stop; a second does nothing |
| TransferBookkeeping.GivingUpExactly | remote_ssh_mcp/transfers.py:673-693 | A cancelled cancel or close passes the cancellation on to every task it waited for, and to no other |
| TransferBookkeeping.CancelReturnsExactly | remote_ssh_mcp/transfers.py:673-676 | A waiting cancel can return exactly once the task is over |
| TransferBookkeeping.CloseReturnsExactly | remote_ssh_mcp/transfers.py:693-697 | A waiting close can return exactly once all it waits for is final |
| TransferProgress.CancelCanReturn | remote_ssh_mcp/transfers.py:661-676 | From every state of every run a waiting cancel can return within four more steps, whatever its task was doing, and answers CANCELLED |
| TransferProgress.CloseCanReturn | remote_ssh_mcp/transfers.py:678-697 | From every state of every run a waiting close can return |
| PublicationRuns.CompletedMeansDelivered | remote_ssh_mcp/transfers.py:482-512 | COMPLETED implies that what was put at the destination hashes to the source hash, unless it was linked inside a directory or a leftover rsync wrote the partial |
| PublicationRuns.CompletedWasAtDestination | remote_ssh_mcp/transfers.py:482-512 | COMPLETED and not inside a directory: at an earlier step of its own the destination held bytes that hash to the source hash, or a twice cancelled operation shares the partial |
| PublicationRuns.NothingIsReplaced | remote_ssh_mcp/transfers.py:495-584 | Without overwrite no step of any transfer replaces an existing destination, even one created during the copy; with it only its own and never a directory |
| PublicationRuns.PublishedAtDestination | remote_ssh_mcp/transfers.py:495-501 | What an operation counts as published was then at its destination |
| PublicationRuns.CancelledDownloadTouchedNothing | remote_ssh_mcp/transfers.py:478-516 | No step of a download that ends cancelled changed any destination |
| PublicationRuns.LinkedInsideExactly | remote_ssh_mcp/transfers.py:560-572 | The publication script lands inside a directory exactly when it acts without overwrite and finds a directory or a link to one |
| PublicationRuns.RsyncOutlivesExactly | remote_ssh_mcp/transfers.py:379-390 | An operation ends with rsync alive if and only if a cancellation arrives while rsync is being killed |
| PublicationOutcomes.ScriptExactly | remote_ssh_mcp/transfers.py:556-574 | The publication script succeeds exactly if it acts on a partial that is there, its status arrives, and the destination gives way: with overwrite unless it is a directory, without if it is free or takes the link inside; what lands is then at the destination, else that is unchanged |
| PublicationOutcomes.UploadCheckExactly | remote_ssh_mcp/transfers.py:616-623 | An upload goes on to publish exactly if its hashes agree, else it ends FAILED; no file changes |
| PublicationOutcomes.ReturnExactly | remote_ssh_mcp/transfers.py:573-625 | The script's status decides between COMPLETED and FAILED |
| PublicationOutcomes.UploadEndsExactly | remote_ssh_mcp/transfers.py:556-635 | Over runs: an upload whose script ran and was noted ends COMPLETED exactly under the condition of the script's step, else FAILED, with its bytes at the destination if they could land |
| PublicationOutcomes.DownloadExactly | remote_ssh_mcp/transfers.py:482-512 | A download ends COMPLETED exactly if its hashes agree, its destination may be replaced and the system calls succeed; its bytes are then there and its partial is gone; else nothing of it is there, save when only the last unlink failed, and its partial is kept |
| PublicationOutcomes.CancellationExactly | remote_ssh_mcp/transfers.py:379-384 | A requested cancellation reaches a task at every point, ends it CANCELLED but before its first statement and while rsync runs, and leaves every file alone |
| PublicationOutcomes.ErrorsExactly | remote_ssh_mcp/transfers.py:513-526 | An error ends the operation FAILED and the end of a killed rsync ends it CANCELLED, with every file, the partial among them, as it was |
| PublicationOutcomes.CopyExactly | remote_ssh_mcp/transfers.py:379-405 | A transfer goes on to verify exactly once its rsync is gone with exit status 0 and, for a download, has left a partial |
| PublicationOutcomes.PartialKept | remote_ssh_mcp/transfers.py:440-451 | What rsync can resume from survives every event but a publication and a check that finds it longer than the source |
| TransferWitnesses.LeftoverRun | remote_ssh_mcp/transfers.py:379-516 | Witness from the start, for any two contents: the source hashed to one, the transfer COMPLETED, and the destination holds the other, written by the rsync of a download cancelled twice |
| TransferWitnesses.DirectoryRun | remote_ssh_mcp/transfers.py:556-625 | Witness from the start: a directory appears while an upload copies, and the upload COMPLETES with the directory still there |
| DeliveryWitnesses.DownloadRun | remote_ssh_mcp/transfers.py:453-512 | Witness from the start, for any content, at a free path or with overwrite over a file: the download COMPLETES, its bytes replace what was there, its partial is gone |
| DeliveryWitnesses.UploadRun | remote_ssh_mcp/transfers.py:586-625 | Witness from the start, for any content, at a free path or with overwrite over anything but a directory: the upload COMPLETES and its bytes are at the destination |
| SessionManager.SessionManager.EnsureAccepting | remote_ssh_mcp/sessions.py:198-206 | Accepts exactly below the limit and before closing |
| SessionManager.SessionManager.Owner | remote_ssh_mcp/sessions.py:214-218 | A registered session of that server, or none exists |
| SessionManager.SessionManager.Check | remote_ssh_mcp/sessions.py:224-243 | From the owner check to registration in one step: waits for a closing owner, refuses a live one, refuses at the limit, else registers a new session and changes nothing else |
| SessionManager.SessionManager.Authorize | remote_ssh_mcp/sessions.py:282-301 | Services are granted exactly for the right key of a session that is ready and not closing |
| SessionManager.SessionManager.BeginClosing | remote_ssh_mcp/sessions.py:333-338 | The first call marks the session and makes its one shutdown task; later calls change nothing |
| SessionManager.SessionManager.BeginShutdown | remote_ssh_mcp/sessions.py:340-350 | Up to its first suspension, a done start task is passed, another is cancelled and waited for, as in the transition system |
| SessionManager.SessionManager.Proceed | remote_ssh_mcp/sessions.py:346-355 | After the start task: the services as they are now decide which close is begun first |
| SessionManager.SessionManager.TransfersReturned | remote_ssh_mcp/sessions.py:347-353 | The runner's close is begun whether or not the transfers' raised |
| SessionManager.SessionManager.RunnerReturned | remote_ssh_mcp/sessions.py:351-355 | The master's close is begun whether or not the runner's raised |
| SessionManager.SessionManager.MasterReturned | remote_ssh_mcp/sessions.py:354-357 | The session is dropped whatever was raised |
| SessionManager.SessionManager.Shutdown | remote_ssh_mcp/sessions.py:340-357 | All stretches together, whatever the start task turns out to do: a start that was not done is cancelled, every close is attempted in order, what raised is kept, the session is dropped |
| SessionManager.SessionManager.BeginClose | remote_ssh_mcp/sessions.py:359-365 | Closing waits for exactly the registered sessions |
| SessionSteps.StepKeeps | remote_ssh_mcp/sessions.py:187-368 | Every event of sessions and their transfers keeps the composed invariant, and no session moves backwards |
| SessionRuns.SessionsAreExclusive | remote_ssh_mcp/sessions.py:220-266 | In every reachable state at most one session per server, at most max_sessions, at most one authenticating |
| SessionRuns.ConnectHandsOverReady | remote_ssh_mcp/sessions.py:241-259 | A connect that returns hands over a registered, non-closing session with services |
| SessionOutcomes.ConnectBeginsExactly | remote_ssh_mcp/sessions.py:198-224 | A connect begins exactly while the manager is open and below its limit, and gives up if the owner it waited for failed to shut down |
| SessionOutcomes.CheckRegistersExactly | remote_ssh_mcp/sessions.py:223-243 | In every run the check registers a session exactly if the manager is open, below max_sessions, and no session owns the server; the call waits for an owner that is closing, and ends otherwise |
| SessionOutcomes.StartExactly | remote_ssh_mcp/sessions.py:261-280 | A queued start authenticates exactly if it was not cancelled and nobody else does; it then attaches its services and leaves the lock |
| SessionOutcomes.StartEndsExactly | remote_ssh_mcp/sessions.py:261-265 | A start fails only while it authenticates and is cancelled only on request; it is done then, and the lock is free if it held it |
| SessionOutcomes.ConnectReturnsExactly | remote_ssh_mcp/sessions.py:245-259 | In every run a connect whose start is done hands its session over exactly if that is not closing and its start succeeded, ready and unchanged; otherwise the session is closing with its one shutdown task made |
| SessionOutcomes.ConnectCancelledExactly | remote_ssh_mcp/sessions.py:244-248 | In every run a cancelled connect closes the session it waited for, and ends anywhere else |
| SessionOutcomes.ClosingBegins | remote_ssh_mcp/sessions.py:325-365 | In every run a disconnect, or a turn of close, leaves the session closing with one shutdown task; close waits for exactly the registered sessions |
| SessionOutcomes.ShutdownRunsExactly | remote_ssh_mcp/sessions.py:340-350 | The shutdown waits for a start that is not done, cancelling it, and then closes the transfers, or the master if nothing was attached |
| SessionOutcomes.ClosesExactly | remote_ssh_mcp/sessions.py:347-357 | Each close is followed by the next whatever it raised, what was raised is remembered, and after the master's the session is dropped |
| SessionOutcomes.CloseReturnsExactly | remote_ssh_mcp/sessions.py:359-368 | A close finishes exactly once none of the sessions it waits for is registered |
| SessionWitnesses.ConnectCanSucceed | remote_ssh_mcp/sessions.py:220-280 | From every state of every run, while the manager is open and below its limit, the server unowned and the prompt free, a new connect can go all the way and ends with its session handed over, ready, all others as they were |
| SessionWitnesses.DisconnectCanFinish | remote_ssh_mcp/sessions.py:325-357 | From every state of every run a ready session without unfinished transfers can be shut down: all three closes in order, nothing raised |
| SessionWitnesses.DisconnectWhileStarting | remote_ssh_mcp/sessions.py:241-259 | From every state of every run a session that is still starting can be disconnected: nothing is ever attached, and its connect gives up |
| SessionWitnesses.LifeRun | remote_ssh_mcp/sessions.py:220-368 | Witness from the start: a session is connected, handed over and disconnected, and close leaves nothing |
| SessionRuns.OneShutdown | remote_ssh_mcp/sessions.py:333-357 | At most one shutdown task is made for a session; its closes are begun in order |
| SessionRuns.ServicesDoNotOutliveSessions | remote_ssh_mcp/sessions.py:340-357 | A session that left the dictionary had its start finished and every close attempted in order, and never changes again |
| SessionRuns.NothingOutlivesSession | remote_ssh_mcp/sessions.py:346-357 | Every transfer of a session that is gone is final with its claim given back, and its rsync runs only if it was cancelled again while being killed |
| SessionRuns.ClosedForGood | remote_ssh_mcp/sessions.py:359-368 | After close finished no session is or ever will be registered, whatever connects were suspended |
| SessionRuns.ShutdownIsTotal | remote_ssh_mcp/sessions.py:359-368 | And nothing is claimed from then on, even with starting transfers suspended when closing began |
| SessionRuns.ClaimsLeftExactly | remote_ssh_mcp/sessions.py:340-357 | Were a shutdown task itself cancelled: with no session registered, a claim is held exactly if such a session has an unfinished transfer |
| SessionRuns.NormalCloseLeavesNothing | remote_ssh_mcp/sessions.py:362-368 | If close returned rather than raised, no session it waited for had a transfer shutdown raise |
| SessionRuns.TransfersMakeARun | remote_ssh_mcp/sessions.py:266-280 | The transfers inside any run of sessions are a run of TransferWorld, so all its theorems apply |
| CommandRunner.CommandRunner.Admit | remote_ssh_mcp/commands.py:366-377 | The closed-check under the lock, as in the transition system |
| CommandRunner.CommandRunner.Track | remote_ssh_mcp/commands.py:378 | Registration before the lock is left |
| CommandRunner.CommandRunner.BeginClose | remote_ssh_mcp/commands.py:443-448 | Closes once and takes the tracked processes as snapshot |
| RunnerWorld.NothingAfterClose | remote_ssh_mcp/commands.py:366-378 | After closing nothing is spawned, the snapshot is fixed, and no further run passes its closed-check |
| RunnerWorld.SnapshotCoversLive | remote_ssh_mcp/commands.py:443-453 | Every live process is in the terminated snapshot |
| RunnerWorld.ClosedLeavesNoProcess | remote_ssh_mcp/commands.py:449-453 | After close returned only processes whose termination raised can be alive |
| RunnerWorld.LateRunsLoseConnection | remote_ssh_mcp/commands.py:426-429 | A run that had not passed its final closed-check never answers |
| RunnerAnswers.ResultHasCause | remote_ssh_mcp/commands.py:366-441 | In every run each result has its cause: connection_lost a closed runner or a master found gone, an answer a passed check, and so on |
| RunnerAnswers.ConnectionLostExactly | remote_ssh_mcp/commands.py:426-440 | Nobody loses the connection of a runner that was not closed, unless the master is found gone after exit status 255 |
| RunnerAnswers.AnsweredExactly | remote_ssh_mcp/commands.py:426-441 | A run checked while the runner is open is answered exactly if its exit status is not 255 or the master is then found ready |
| RunnerAnswers.OrdinaryRun | remote_ssh_mcp/commands.py:366-441 | Witness from the start: a command that exits or times out is answered, a cancelled one ends cancelled, and no process is left |
| RunnerAnswers.CloseCanReturn | remote_ssh_mcp/commands.py:443-453 | From every state of every run in which a close has begun it can return with no process left alive |
| SupervisorInvariant.StepKeeps | remote_ssh_mcp/commands.py:68-191 | Every command of the supervisor, signal, or act of child, launcher, watcher and channel keeps the protocol invariant |
| SupervisorInvariant.WireStepKeeps | remote_ssh_mcp/commands.py:124-191 | And keeps what was read, sent and left in agreement with what came over the channel |
| SupervisorRuns.WatcherLeavesLast | remote_ssh_mcp/commands.py:49-54 | In every run the watcher is outside the command's group only after its pid is registered and the command was sent the whole payload, or all of it that came before the channel ended |
| SupervisorRuns.SentIsAccepted | remote_ssh_mcp/commands.py:124-185 | In every run what was sent to the command and what is left for the watcher is what Framing.Supervise says of the whole channel |
| SupervisorRuns.WholePayloadExactly | remote_ssh_mcp/commands.py:182 | The payload is whole exactly when as many bytes as announced follow the size line |
| SupervisorRuns.FramedPayloadExactly | remote_ssh_mcp/commands.py:353-391 | Of a framed payload, cut anywhere or followed by anything, the command is sent the payload exactly when all of the frame has come |
| SupervisorRuns.ExitIsClean | remote_ssh_mcp/commands.py:98-121 | In every run whose supervisor is gone no process of the group is left unless the command had ended by itself; directory and FIFOs are gone exactly if no signal met cleanup, or met it with nothing left to remove, or the watcher swept since; and then launcher and watcher are gone too |
| SupervisorRuns.LauncherGoneExactly | remote_ssh_mcp/commands.py:91-121 | In every run with a signal inside cleanup the launcher or watcher is gone in the end exactly if it was never registered, was gone at the signal, or was ended since by itself, its sweep, or SIGKILL to the group it was in |
| SupervisorCleanup.StepKeepsDirectory | remote_ssh_mcp/commands.py:133-191 | Every event keeps: the directory is there while it holds a FIFO and while a launcher, or a child yet to start one, is alive |
| SupervisorRuns.SignalInCleanupLeavesFiles | remote_ssh_mcp/commands.py:114-123 | A signal during cleanup ends the supervisor within three commands with every file still there |
| SupervisorRuns.InterruptedCleansExactly | remote_ssh_mcp/commands.py:98-123 | A supervisor left alone after a signal inside cleanup leaves no file and no launcher exactly when the signal found nothing left to remove |
| SupervisorRuns.ReleasedGroupIsSpared | remote_ssh_mcp/commands.py:186-190 | After the command was waited for, the supervisor never touches what is left of its group |
| SupervisorRuns.NothingOutlivesTheWatcher | remote_ssh_mcp/commands.py:34-38 | In every run nothing of the command's group, background processes included, is alive after the watcher's kill, ever |
| SupervisorCleanup.WatcherFiresExactly | remote_ssh_mcp/commands.py:34 | A watcher outside the group fires exactly if the channel has ended or an unread line has come over it |
| SupervisorCleanup.ChannelLossCleansUp | remote_ssh_mcp/commands.py:34-42 | Whatever the supervisor is doing, a watcher whose channel has ended can fire, kill and sweep; then the group is empty, the files are gone, and so is the watcher |
| SupervisorRuns.SignalEndsSupervisor | remote_ssh_mcp/commands.py:114-123 | A signal at any point, critical or not, ends a supervisor that is left alone within sixteen commands; nothing of the group is left unless the command had been let go |
| SupervisorWitnesses.CutPayloadRun | remote_ssh_mcp/commands.py:182-185 | Witness from the start, for every payload and every cut in it: the watcher is out and the command was sent only what came before the cut |
| SupervisorWitnesses.ChannelLossRun | remote_ssh_mcp/commands.py:34-42 | Witness from the start, for every payload: the channel is lost under a live command with a process of its own; after the watcher's three steps both are dead and every file is gone |
| SupervisorWitnesses.InterruptedCleanup | remote_ssh_mcp/commands.py:149-160 | Witness from the start: directory and all FIFOs left behind |
| SupervisorWitnesses.WatcherOutlivesRun | remote_ssh_mcp/commands.py:98-123 | Witness from the start: two signals, and the supervisor is gone while the watcher lives and the directory and payload FIFO stay |
| SupervisorWitnesses.WatcherSweepsRun | remote_ssh_mcp/commands.py:34-42 | Witness from the start: after that the watcher sweeps, and nothing is left |
| SupervisorWitnesses.BackgroundRun | remote_ssh_mcp/commands.py:186-190 | Witness from the start: the supervisor is gone, all its files too, and a background process of the command lives |
| Framing.DecimalValue | remote_ssh_mcp/commands.py:354 | The printed length reads back as the length |
| Framing.FramingRoundTrip | remote_ssh_mcp/commands.py:124-182 | Framed bytes reach the child exactly, and every later byte is left for the watcher, if and only if `dd` can count to the length |
| Framing.AcceptedIsFramed | remote_ssh_mcp/commands.py:124-182 | The supervisor accepts exactly channels that begin with a decimal line that `dd` can count to, and loses none of their bytes |
| Framing.ExitsExactly | remote_ssh_mcp/commands.py:124-182 | Which channels end the supervisor with 70, 71 or 74: no line, a line that is no number, a number `dd` cannot count to |
| Framing.CutFrame | remote_ssh_mcp/commands.py:182 | A payload cut short is accepted all the same, with what came of it |
| Utf8.DecodeExactly | remote_ssh_mcp/commands.py:277 | A decoder written from lead and continuation bytes, which refuses overlong forms, surrogates and anything cut short, reads bytes as a script exactly when they are its encoding |
| Utf8.AsciiIsItself | remote_ssh_mcp/commands.py:277 | A script of ASCII characters is encoded as itself, character by character |
| Framing.ValidateExactly | remote_ssh_mcp/commands.py:269-285 | Which scripts are accepted, and which refusal the others get: blank, NUL, or longer than the limit when encoded |
| Framing.ValidatedPayload | remote_ssh_mcp/commands.py:269-285 | The payload of an accepted script decodes to the script, with one newline added unless it ends in one; it holds no NUL and is at most one byte over the limit |
| Framing.ScriptReachesCommand | remote_ssh_mcp/commands.py:353-354 | Validation, framing and supervisor composed: what the command reads decodes to the script, with one newline added unless it ends in one, and the watcher reads none of it |
| Capture.Capture | remote_ssh_mcp/commands.py:287-326 | For every chunking and limit the capture is the bounded prefix of the spool, with exact total and truncation |
| Capture.ReadTail | remote_ssh_mcp/transfers.py:301-321 | For every chunking, the last 65536 bytes of the stream |
| Capture.StripKeepsDescription | remote_ssh_mcp/commands.py:221-231 | Stripping capture and spool keeps one describing the other if and only if the marker is in the captured prefix or nowhere |
| MarkerRemoval.RemoveMarkerFromFile | remote_ssh_mcp/sudo.py:18-55 | For every content, marker and chunking the file becomes the content without its first marker, and is replaced exactly when there is one |
| MarkerRemoval.ScanRemoves | remote_ssh_mcp/sudo.py:32-46 | The streamed loop as a function equals whole-file removal, markers across chunks included |
| MarkerRemoval.PeakBound | remote_ssh_mcp/sudo.py:32-46 | Memory held is at most a chunk and the larger of the marker and a chunk less one byte |
| MarkerRemoval.MarkerPlusChunkExactly | remote_ssh_mcp/sudo.py:32-46 | Marker plus chunk bounds every run if and only if the chunk size is at most one more than the marker's length |
| Sudo.Execute | remote_ssh_mcp/sudo.py:128-164 | Refused exactly when the marker was not captured; otherwise spool and capture lose the first marker and still describe one another |
| Paging.ReadFileRange | remote_ssh_mcp/inspection.py:111-146 | Every error case, offsets `dd` cannot skip to among them; otherwise the clipped window of the file, with eof exactly when nothing lies beyond it, even when the probe byte exceeds the capture limit |
| Paging.PagesAreTheFile | remote_ssh_mcp/inspection.py:137-146 | Following pages of any sizes until eof terminates and yields the rest of the file |
| Paging.PagesAreFull | remote_ssh_mcp/inspection.py:137-146 | Every page but the last is as long as asked |
| Listing.ListDirectory | remote_ssh_mcp/inspection.py:76-109 | Entries are the records of the output in order; refused exactly on failure or truncation, else on a wrong field count or number |
| Listing.FieldsMeaning | remote_ssh_mcp/inspection.py:85-87 | The parser finds exactly the NUL-free fields that spell its input |
| Listing.ListingRoundTrip | remote_ssh_mcp/inspection.py:72-91 | A printed listing comes back record by record, whatever bytes names hold |
| Listing.AcceptedIsListing | remote_ssh_mcp/inspection.py:85-91 | Whatever has whole records is a printed listing, save the last NUL |
| ArchivePaths.SafeMeaning | tools/container_payload.py:66-79 | Accepted names are exactly the joined ordinary components, each path in one spelling |
| Canonical.SortForgetsOrder | tools/container_payload.py:117 | Sorting by name gives one result for every order of the same distinct entries |
| Canonical.AscendingUnique | tools/container_payload.py:117 | There is one ascending arrangement of given elements |
| Canonical.BeforeMeaning | tools/container_payload.py:117 | A name comes first exactly if it is a proper prefix of the other or has the smaller byte where they first differ |
| ArchiveWriter.FreezeEntries | tools/container_payload.py:82-118 | Accepts exactly safe, distinct, singly linked regular files within both limits; otherwise names the first fault; the result is sorted |
| ArchiveWriter.FaultExactly | tools/container_payload.py:95-112 | Which fault of an entry is named, for each exactly when: unsafe, duplicate, missing, not regular, linked, too many, too long |
| ArchiveWriter.NormalModeMeaning | tools/container_payload.py:129 | Whatever an input permits, its member may be read and written by the owner, executed exactly if the owner could, and nothing is left to others |
| ArchiveWriter.WriteArchive | tools/container_payload.py:134-194 | Succeeds exactly if freezing does, every file opened is the one frozen, and every path still leads to it at the end; the archive is then the normalised members of the sorted entries as opened; otherwise which check refused |
| ArchiveWriter.StreamedIsFrozen | tools/container_payload.py:159-171 | On a file system where every change of an inode moves its change time forward, the check on opening makes what was streamed what was frozen |
| ArchiveWriter.StreamedFits | tools/container_payload.py:149-171 | What was streamed fits the reader's raw limit |
| ArchiveWriter.ArchiveForgetsOrder | tools/container_payload.py:134-148 | Acceptance and archive do not depend on the order of the entries |
| ArchiveWriter.ArchiveFits | tools/container_payload.py:271 | Every archive written under two limits fits the reader's raw limit under the same limits |
| ArchiveWriter.RawLengthMeaning | tools/container_payload.py:149-171 | The length has room for a header block and the content of each member and two end blocks, in whole blocks and records, and for less than one record more |
| BoundedReader.Reader.Read | tools/container_payload.py:54-63 | The stream's own read up to the maximum; past it every read fails, with at most one byte too many taken |
| BoundedReader.ReadAll | tools/container_payload.py:48-63 | Any sequence of reads gives the direct results, or fails exactly when these exceed the maximum |
| BoundedReader.TransparentExactly | tools/container_payload.py:48-63 | The reader is transparent for all sequences of reads if and only if the stream is within the maximum |
| ArchiveReader.Site.WriteMember | tools/container_payload.py:211-257 | Writes exactly good members that collide with nothing; otherwise the files are unchanged |
| ArchiveReader.Site.ExtractArchive | tools/container_payload.py:260-303 | Succeeds if and only if the site is free, every member is good, names are prefix-free, both limits, the end and the raw limit hold and nothing fails; then the destination is exactly the members' tree, else nothing changed |
| ArchiveReader.ReceiveNext | tools/container_payload.py:281-291 | A member either fits after those before it or spoils the whole archive |
| ArchiveRoundTrip.AcceptedExactly | tools/container_payload.py:134-303 | What the writer accepted the reader accepts under the same limits exactly when no path leads through another |
| ArchiveRoundTrip.TakenIsWritten | tools/container_payload.py:121-228 | The members the reader takes are exactly those the writer makes, but for mode bits that are no permissions |
| ArchiveRoundTrip.RoundTrip | tools/container_payload.py:121-303 | Extracting what was written yields every entry's bytes and normalised mode at its path, and nothing else |
| ArchiveRoundTrip.DigestsRoundTrip | tools/container_payload.py:281-303 | The digests answered are those of the entries' contents, by their names, and no others |
| ArchiveMerge.Destination.Check | tools/container_payload.py:333-341 | Safe exactly when every parent is absent or a directory and the target absent or a regular file |
| ArchiveMerge.Destination.MergeArchive | tools/container_payload.py:306-350 | Merges exactly when extraction and every check succeed; a refusal changes nothing; no replacement ever meets a type conflict; the result is a tree |
| ArchiveMerge.MergedMeaning | tools/container_payload.py:343-345 | Path by path: the payload is there, nothing else changed or went, and anything new is a directory on the way to it |
| ArchiveMerge.ReceivesExactly | tools/container_payload.py:331-341 | A tree passes the checks exactly if nothing but a regular file is where a payload file goes and nothing but a directory on the way there |
| ArchiveMerge.StillReceives | tools/container_payload.py:331-345 | No replacement gets in the way of a later one |

## Left out

- The SSH master and its wrapper, rsync, sudo and `ssh -G` are nondeterministic outcomes of the step that waits for them; a callee that swallows a cancellation is not modelled.
- The bodies of `_run_download`, `_run_upload` and `_start` are steps of transition systems, not methods: Dafny has no suspension inside a method.
- SessionManager.SessionManager.Shutdown: what other tasks do between its stretches; SessionWorld interleaves them.
- SessionRuns.ShutdownIsTotal: assumes that nobody cancels a shutdown task, as the teardown of the event loop would; nothing in the source does. SessionRuns.ClaimsLeftExactly says what would be left then.
- The managers' own locks are not modelled; no stretch of source suspends while it holds one. The runner's lock and the authentication lock, which are held across suspensions, are.
- SHA-256 is a function; where names or contents must be told apart, its collision freedom on them is a hypothesis (`DigestSeparates`, `NoCollision`). Random ids and tokens are fresh values.
- PartialNames.SamePartialSameEndpoints: a remote destination deliberately named like another transfer's partial, and two connection keys that reach the same host, count as different files.
- TransferRuns.DestinationsAreExclusive: remote paths are compared as they are spelled, as the reservation key does; `/tmp/x` and `/tmp//x`, or a path through a symbolic link, are different destinations here and in the source, although both name one file.
- PublicationRuns.CompletedMeansDelivered: the source is what it was when hashed; a download's destination path is resolved again before publishing, which is not part of this model.
- PublicationOutcomes.ScriptExactly: status and destination only; when `ln` fails inside a directory the source removes the partial and the model keeps it, and when `rm` fails after `ln` it is the other way round.
- A remote command whose `run_script` was cancelled is taken to have no effect later; a second cancellation while `run_script` terminates its process is excluded.
- When the local rsync of an upload has ended or was killed, no remote rsync is taken to write its partial any longer.
- Failures inside exception handlers, and `killpg` raising while an rsync is being killed, do not occur.
- Progress counters, timestamps, exit codes and output tails in transfer status; the clock is a counter that never goes back.
- SupervisorRuns.ExitIsClean: safety only; the arming byte may be lost if the supervisor closes the gate first, and SIGKILL of the supervisor is left out.
- Framing.ScriptReachesCommand: scripts hold no lone surrogates, which `str.encode` would refuse.
- The classification of sudo refusals: a chain of text tests.
- Listing.ListDirectory: starts where the listing command was run, after the path was found to be a directory; `int` and `float` on bytes are parameters.
- Paging.ReadFileRange: the file does not change between `stat` and `dd`.
- ArchiveWriter.WriteArchive: a file does not change between `fstat` and the reading of its content; what was already written of a failed archive is not modelled.
- Framing.FramingRoundTrip: the largest count of `dd` is that of a 64-bit system.
- ArchiveWriter.ArchiveFits: lengths only; header bytes, names and sizes beyond what USTAR can represent, and tarfile's parsing are left out.
- ArchiveReader.Site.ExtractArchive: directories exist only on the way to files; nobody else touches the destination meanwhile.
- ArchiveMerge.Destination.MergeArchive: an operating system failure between two replacements, and a payload path that guesses the scratch directory's random name, are left out.
- NUL-delimited file lists, the command line, configuration, machine identity, path resolution, schemas and server dispatch would add only easy members.
