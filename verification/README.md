# Verification of the capture protocol and of the accelerometer relay

This project models two programs of the repository as state machines and proves what they promise, for every
run. `dafny verify dfyconfig.toml` checks the whole project.

## The capture protocol

`bbuadm_tcpdump_capture.sh` starts tcpdump in its own process group; tcpdump rotates raw files and starts one
`bbuadm_gzip.sh` handler per closed file; each handler runs one xz. Signals drive the main script through its
running, graceful and immediate modes; it waits for the group, recovers leftover files, deletes the staging
directory and exits.

* `CaptureModel.dfy` is the machine: tcpdump, any number of handlers and xz processes and the main script, each
  advancing one command at a time in any order. Any process but the main script may be killed at any point, a
  handler may get a TERM at any point, signals reach the main script at any point, waits may be interrupted.
* `CaptureInvariant.dfy`, `CaptureSteps.dfy`, `CaptureMain.dfy`, `CaptureFrames.dfy`: the invariant and its proof.
* `CaptureEffects.dfy`: the whole state after every step from a state of a run, written out. `CaptureLimit.dfy` and
  `CapturePartFiles.dfy`: the last file stops the capture, and which partial files no handler cares for.
* `CaptureTheorems.dfy`: what follows for every run. `CaptureHistory.dfy` and `CaptureResults.dfy`: what the steps of
  a run say about its end: which process is left behind, the exit code, the missing files, a handler started late.
  `CaptureTermination.dfy`: the shutdown ends. `CaptureHandler.dfy`: an undisturbed handler publishes its file.
* `CaptureRuns.dfy`: three concrete runs (below). `CaptureNames.dfy`: file names and indices.
* `CaptureSchedule.dfy`, `CaptureScript.dfy` and `HandlerScript.dfy`: the two scripts as they are written, as objects
  whose methods update the script variables, with the wait loops, the recovery loop, `compress_file` and the trap handlers. A schedule
  says turn by turn what all other processes do before the next command (any steps of the machine, in any order,
  killing and signalling included) and how that command turns out; `Play` is what it makes the machine do. Every
  method keeps `Valid()`: the script has made exactly the steps of the turns it has taken, so that no turn is dropped
  and the theorems about runs hold of the scripts under every schedule (`Capture`, `Postrotate`). Long enough
  schedules lead to the exit (`LongSchedulesEnd`).

Assumptions: trap handlers run between commands; each request handler, the blocks at lines 496-499 and 583-590 of
the main script, its check at 428-431, and starting a process together with recording its id are atomic; `mv`
within the dumps tree is an atomic rename; only a live member of the process group adds members to it; process ids
are not reused; tcpdump names its files as `raw_name` does and does not reopen one; an xz that exits with status 0
has written the complete compression of its input, which is not changed once tcpdump has closed it; the output
directory starts empty; the masks hold no `%`. A wait can be interrupted in the main script only by a trapped
signal. USR1 reaches the main script from its handlers only (what is said about a stop for `max_files` rests on it),
and an `mv` or `rm` of a handler does not outlive that handler when it is killed. No signal reaches the main script
between the reset of its traps and its exit (lines 516-518), where it would end with the status of that signal.

## The relay

Node A sends accelerometer packets to a server, which drops repeated samples and forwards the others to Node B;
Node B answers each with a module, which the server forwards to Node A, which logs it.

* `RelayModel.dfy` is the server as an event machine with any number of sessions. One thread runs all completion
  handlers (`src/server/main.cpp:21`), so a handler is one step; an asynchronous operation is a pending read or
  write that completes later, with success or error, also after its session was closed.
* `RelayInvariants.dfy`, `RelayTheorems.dfy`: the invariant and what holds in every run. `RelayEffects.dfy`: the whole
  server after every event from a state of a run, written out. `RelayHistory.dfy`: what the events of a run say about
  late reads and forwarding.
* `ServerClasses.dfy`: `ClientSession` and `ServerState` as objects that update themselves in place. Every method
  is proved to change the whole server as its function in the model says, and the event loop to be a run of it.
* `AccelPackets.dfy`, `DuplicateFilter.dfy`, `JsonProtocol.dfy`, `Framing.dfy`, `TcpClient.dfy`, `Nodes.dfy`:
  rounding, the filter, messages, lines, and the loops of both nodes. `Sequences.dfy`, `Basics.dfy`: small tools.
* `Pipeline.dfy`, `PipelineTheorem.dfy`: the whole data path byte by byte, up to `module.log`. `PipelineProgress.dfy`:
  it can always drain. `PipelineAbsence.dfy`: Node B leaves and comes back. `PipelineRestart.dfy`: Node A does.

Assumptions: doubles are reals, and `llround` rounds halves away from zero (section 7.12.9.7 of ISO/IEC 9899:2011);
the square root is an arbitrary function; a JSON value is an abstract value, printing it gives one non-empty line
without a newline or a final carriage return, and parsing that line gives the value back with non-negative integers unsigned (required of the
messages at hand, where used); counters do not wrap. A session lives while an operation of it is pending or its
handler runs.

## Where the code does not do what one might expect

* The specification says that the script waits until every process that may write into the staging directory has
  stopped (`tcpdump-sh/TCPDUMP_CAPTURE_SPECIFICATION.md:102`). It does not for the xz of a recovery handler: a TERM
  handled during recovery is sent to that handler by the signal handler and again by the wait loop
  (`tcpdump-sh/bbuadm_tcpdump_capture.sh:266-270`, `:392-394`; `WaitRound`), the handler resets its trap on the first
  (`tcpdump-sh/bbuadm_gzip.sh:42`), and the second ends it while it waits for its xz. `WriterLeftAtCleanup` is such a
  run. `RunningAtCleanup` and `NothingRunsAtCleanup` give the condition over the steps: a process runs at the
  deletion if and only if some step killed the recovery handler that waited for it and it has not ended since.
* The specification says that no recovery work starts after a SIGTERM (`:101` there). One handler may: the recovery
  loop looks at the mode only before it looks at the files, so a TERM handled between that test and the start of the
  handler does not stop it (`HandlerStartedAfterTerm`). That is exactly when it happens (`WhenAHandlerStartsLate`),
  and it happens at most once (`AtMostOneLateStart`).
* Exit code 14 does not mean that a file is missing: a wait interrupted as the handler ends, or a failed removal of
  the raw file, counts as a failed recovery of a published file (`CompressionErrorWithoutLoss`), and tcpdump may end
  with status 14 itself. The code is 14 if and only if a recovery failed or tcpdump did so
  (`WhenTheCodeIsCompressionError`), and a file is missing if and only if its recovery failed before it was published
  (`WhenAFileIsMissing`).
* A session of Node A that was closed by a write error may still handle one line that had already arrived
  (`LateReadsHappen`), and its packet is forwarded (`LateReadsAreForwarded`). A closed session has such a line exactly
  if a write error closed it and its read has not completed since (`LateReadsFollowWriteErrors`). The pipeline
  theorems therefore start in a state where no earlier node session has such a line.
* The filter remembers a packet before it is forwarded, per session: an accepted packet is forwarded if and only if a
  Node B is registered (`AcceptedPacketIsForwarded`), and its repetition is dropped in any case
  (`RepetitionIsDropped`).
* Two packets may be arbitrarily close and yet not duplicates (`ClosenessIsNotDuplication`).

## Model

| member | source | states |
|---|---|---|
| `CaptureTheorems.NoLossBeforeCleanup` | tcpdump-sh/bbuadm_gzip.sh:71-104 | in every run, under any interleaving and any kills, each file tcpdump opened still has its raw file with all bytes written to it, or its complete compressed file, until the staging directory is deleted |
| `CaptureTheorems.CapturedIsWritten` | tcpdump-sh/bbuadm_tcpdump_capture.sh:562-570 | the content the other theorems speak of is the concatenation of what the run writes to each file, read off the steps alone |
| `CaptureTheorems.OnlyCompleteFilesArePublished` | tcpdump-sh/bbuadm_gzip.sh:132-168 | in every reachable state a file in the output directory has an index below the limit, belongs to a file tcpdump has finished, and decompresses to everything written to that file |
| `CaptureTheorems.PublishedFilesNeverChange` | tcpdump-sh/bbuadm_gzip.sh:95-97 | over any stretch of a run, a published file stays and keeps its content |
| `CaptureTheorems.PublishFindsTheNameFree` | tcpdump-sh/bbuadm_gzip.sh:154-159 | when a handler is about to move its partial file, that file is complete and the destination does not exist |
| `CaptureTheorems.OneWriterPerIndex` | tcpdump-sh/bbuadm_tcpdump_capture.sh:367-376 | two live processes on one index are a handler and the xz it waits for, so no partial file ever has two writers |
| `CaptureTheorems.AbortBranchesAreUnreachable` | tcpdump-sh/bbuadm_gzip.sh:136-159 | no run takes the "Cannot get dump index" or the "Destination already exists" branch |
| `CaptureTheorems.StagingIsDeletedLast` | tcpdump-sh/bbuadm_tcpdump_capture.sh:501-514 | when the staging directory is about to be deleted tcpdump is reaped, its group is empty and no handler runs: what may still run is an xz whose recovery handler was killed |
| `CaptureRuns.WriterLeftAtCleanup` | tcpdump-sh/bbuadm_tcpdump_capture.sh:390-397 | a concrete run in which such an xz is alive at the deletion: TERM reaches the recovery handler twice and its trap waits only once |
| `CaptureRuns.CompressionErrorWithoutLoss` | tcpdump-sh/bbuadm_tcpdump_capture.sh:385-432 | a concrete run that ends with code 14 because a recovery failed, with no file lost and every file published and complete |
| `CaptureRuns.HandlerStartedAfterTerm` | tcpdump-sh/bbuadm_tcpdump_capture.sh:410-426 | a concrete run in which a recovery handler is started after the TERM was handled |
| `CaptureHistory.OrphansAreLeftBehind` | tcpdump-sh/bbuadm_tcpdump_capture.sh:390-397 | in every run, the xz counted as orphans are exactly those whose recovery handler some step killed while it waited for them and that have not ended since |
| `CaptureHistory.RunningAtCleanup` | tcpdump-sh/bbuadm_tcpdump_capture.sh:501-514 | when the staging directory is deleted, a process runs if and only if it is such an xz: the condition is over the steps of the run |
| `CaptureHistory.NothingRunsAtCleanup` | tcpdump-sh/bbuadm_tcpdump_capture.sh:458-473 | nothing runs at the deletion if and only if every xz whose recovery handler was killed has finished or was killed later in the run |
| `CaptureTheorems.EmptyGroupStaysEmpty` | tcpdump-sh/bbuadm_tcpdump_capture.sh:244-247 | once kill -0 on the group fails it fails for ever |
| `CaptureTheorems.NoRecoveryHandlerInImmediateFinish` | tcpdump-sh/bbuadm_tcpdump_capture.sh:469-472 | FINAL_GZIP_PID is empty whenever immediate_finish runs, and every handler then alive is in the group |
| `CaptureTheorems.StagingIsGoneAtExit` | tcpdump-sh/bbuadm_tcpdump_capture.sh:183-187 | after the exit no raw and no partial file is left |
| `CaptureTheorems.GracefulRunPublishesEverything` | tcpdump-sh/bbuadm_tcpdump_capture.sh:405-455 | a run that ends gracefully, not for low disk space and not with code 14, has published exactly the files opened below the limit, each complete; after max_files exactly 0 to MAX_DUMP_FILES-1 |
| `CaptureResults.ExitCodeSaysWhy` | tcpdump-sh/bbuadm_tcpdump_capture.sh:274-329 | the exit code of every run: 143 with reason sigterm in the immediate mode; otherwise 14 exactly if some recovery failed, and else the code of the graceful reason (130, 0, 15, or the status of tcpdump); low disk space gives exactly 15 |
| `CaptureResults.SignalsGiveTheCode` | tcpdump-sh/bbuadm_tcpdump_capture.sh:303-329 | from the handled signals alone: 143 if one is TERM; otherwise 14 after a failed recovery, and else 130, 0 or 15 as the first is INT, USR1 or USR2, unless tcpdump had ended by itself before |
| `CaptureResults.WhenTheCodeIsCompressionError` | tcpdump-sh/bbuadm_tcpdump_capture.sh:426-432 | a graceful end has code 14 if and only if the run noted a failed recovery, or tcpdump itself ended with status 14 and nobody asked to stop |
| `CaptureResults.PublishedFilesOfARun` | tcpdump-sh/bbuadm_tcpdump_capture.sh:405-455 | a graceful end, low disk space aside, has published index i if and only if i is opened, below the limit, and no step noted a failed recovery of i with i unpublished |
| `CaptureResults.WhenAFileIsMissing` | tcpdump-sh/bbuadm_tcpdump_capture.sh:426-432 | after such an end a file is missing if and only if some recovery failed before its file was published |
| `CaptureResults.WhenAHandlerStartsLate` | tcpdump-sh/bbuadm_tcpdump_capture.sh:410-426 | at the start of a recovery handler for i the mode is immediate if and only if a TERM was handled after the test of the recovery loop for i |
| `CaptureResults.AtMostOneLateStart` | tcpdump-sh/bbuadm_tcpdump_capture.sh:410-426 | at most one recovery handler of a run is started in the immediate mode |
| `CaptureTheorems.ModeNeverMovesBack` | tcpdump-sh/bbuadm_tcpdump_capture.sh:279-285 | between any two states of a run the mode does not move back, the immediate mode is final, and the first graceful reason is kept |
| `CaptureTheorems.SignalsDecideTheReason` | tcpdump-sh/bbuadm_tcpdump_capture.sh:303-329 | from the steps alone: the mode is immediate if and only if a TERM was handled; otherwise the reason is that of the first handled signal, unless tcpdump ended before any |
| `CaptureTheorems.OwnStatusOnlyWithoutRequests` | tcpdump-sh/bbuadm_tcpdump_capture.sh:583-587 | the status of tcpdump is the result only if no stop request was handled before it was examined |
| `CaptureTheorems.LowDiskStartsNoRecovery` | tcpdump-sh/bbuadm_tcpdump_capture.sh:449-452 | in a run stopped for low disk space the recovery loop is never entered |
| `CaptureMain.StepKeepsInv` | tcpdump-sh/bbuadm_tcpdump_capture.sh:345-519 | every step of every process keeps the invariant of the protocol |
| `CaptureMain.RunKeepsInv` | tcpdump-sh/bbuadm_tcpdump_capture.sh:345-519 | so does every run |
| `CaptureMain.MainStepKeepsInv` | tcpdump-sh/bbuadm_tcpdump_capture.sh:405-519 | every command of the main script keeps it |
| `CaptureSteps.HandlerStepKeepsInv` | tcpdump-sh/bbuadm_gzip.sh:59-168 | every command of a handler keeps it |
| `CaptureSteps.HandlerTermKeepsInv` | tcpdump-sh/bbuadm_gzip.sh:39-56 | so does a TERM that reaches a handler anywhere outside its trap |
| `CaptureMain.KillKeepsInv` | tcpdump-sh/bbuadm_gzip.sh:77-87 | so does the death of any process at any point |
| `CaptureSteps.XzDoneKeepsInv` | tcpdump-sh/bbuadm_gzip.sh:71-75 | so does the end of a compression |
| `CaptureMain.RotateKeepsInv` | tcpdump-sh/bbuadm_tcpdump_capture.sh:562-570 | so does a rotation, which starts a handler for the closed file |
| `CaptureFrames.HandlerAdvances` | tcpdump-sh/bbuadm_gzip.sh:59-168 | a command of a handler moves it forward, ends it or starts its xz, and touches neither tcpdump nor the main script |
| `CaptureFrames.MainFollows` | tcpdump-sh/bbuadm_tcpdump_capture.sh:345-519 | the control flow of the main script |
| `CaptureTermination.StepCosts` | tcpdump-sh/bbuadm_tcpdump_capture.sh:367-434 | after tcpdump has stopped every step lowers the measure, but for an arriving signal, which raises it by at most one |
| `CaptureTermination.ShutdownIsBounded` | tcpdump-sh/bbuadm_tcpdump_capture.sh:437-473 | the length of a shutdown is bounded by its measure and twice the signals that arrive |
| `CaptureTermination.NeverStuck` | tcpdump-sh/bbuadm_tcpdump_capture.sh:345-403 | after tcpdump has stopped and until the main script exits, some process can take a step of its own accord: without a kill, a signal, a failed command or an interrupted wait |
| `CaptureTermination.ShutdownEndsInExit` | tcpdump-sh/bbuadm_tcpdump_capture.sh:486-519 | a shutdown, with whatever kills and signals, in which no process can go on of its own accord has exited: the waits of the script never wait for each other |
| `CaptureTermination.ExitIsReachable` | tcpdump-sh/bbuadm_tcpdump_capture.sh:486-519 | from every reachable state after the end of tcpdump there is a run to the exit of such steps only |
| `CaptureSchedule.LongSchedulesEnd` | tcpdump-sh/bbuadm_tcpdump_capture.sh:486-519 | the script has exited after every schedule that, once tcpdump has stopped, has more turns in which something moves than the measure and twice the signals that still arrive |
| `CaptureSchedule.ATurnCanMove` | tcpdump-sh/bbuadm_tcpdump_capture.sh:345-403 | until the exit some next turn moves something, so such schedules exist |
| `CaptureSchedule.PlayReaches` | tcpdump-sh/bbuadm_tcpdump_capture.sh:345-519 | what a schedule makes the machine do is a run of the machine |
| `CaptureSchedule.SchedulesReachEverything` | tcpdump-sh/bbuadm_tcpdump_capture.sh:345-519 | conversely every state of every run is met in some turn of some schedule, so what is proved for all schedules misses nothing |
| `CaptureHandler.UndisturbedHandler` | tcpdump-sh/bbuadm_gzip.sh:59-107 | from any state, a handler nobody disturbs can run to its end: the raw file is replaced by its complete published file and no partial file is left |
| `CaptureLimit.LastFileStopsTheCapture` | tcpdump-sh/bbuadm_gzip.sh:161-167 | in every run, while a handler compresses the last allowed file or that file is published, a stop was requested or a USR1 waits to be handled: the limit is never passed over |
| `CapturePartFiles.PartialFilesLeftAlone` | tcpdump-sh/bbuadm_gzip.sh:39-99 | in every run, a partial file has no handler that will move or remove it if and only if some step killed its handler or failed to move it and no later handler of that file has named it since: TERM and failed compressions leave none |
| `CaptureEffects.StartSays` | tcpdump-sh/bbuadm_gzip.sh:132-147 | the whole state after the first command of a handler: its name decodes to its index; beyond the limit it ends with 0 and USR1 is sent |
| `CaptureEffects.PostrotateSays` | tcpdump-sh/bbuadm_gzip.sh:150-167 | in every state of a run the destination is not there, and USR1 is sent exactly for the last allowed index |
| `CaptureEffects.CompressSays` | tcpdump-sh/bbuadm_gzip.sh:59-107 | in every state of a run, the whole state after each command of compress_file: the raw file is there, xz gets all that was written to it, the moved file is complete, the removed one published |
| `CaptureEffects.TrapSays` | tcpdump-sh/bbuadm_gzip.sh:39-56 | the whole state after each command of the TERM trap |
| `CaptureEffects.TermSays` | tcpdump-sh/bbuadm_gzip.sh:39-56 | a TERM enters the trap from everywhere else, with the xz waited for and whether the partial file is named |
| `CaptureEffects.HandlersMayGoOn` | tcpdump-sh/bbuadm_gzip.sh:77-87 | a handler waits for nothing but the end of its xz, whose status is then there; any wait, move or removal may fail |
| `CaptureEffects.ProcessesSay` | tcpdump-sh/bbuadm_gzip.sh:71-75 | any process may be killed at any time; an xz that has read all has the complete output |
| `CaptureEffects.TcpdumpSays` | tcpdump-sh/bbuadm_tcpdump_capture.sh:562-570 | what tcpdump may do and the whole state afterwards: files are opened empty and in order, a rotation starts a handler in the group for the closed file |
| `CaptureEffects.SignalsSay` | tcpdump-sh/bbuadm_tcpdump_capture.sh:274-329 | the control after each handled signal, with its exit code |
| `CaptureEffects.WaitsSay` | tcpdump-sh/bbuadm_tcpdump_capture.sh:345-403 | what each command of the main script waits for, in every state of a run |
| `CaptureEffects.MainSaysFirst` | tcpdump-sh/bbuadm_tcpdump_capture.sh:486-509 | in every state of a run, the whole state after each command up to the choice between the two ways to finish |
| `CaptureEffects.MainSaysGracefully` | tcpdump-sh/bbuadm_tcpdump_capture.sh:437-455 | the same for graceful_finish around recovery |
| `CaptureEffects.MainSaysInTheLoop` | tcpdump-sh/bbuadm_tcpdump_capture.sh:410-426 | the same for the tests of the recovery loop and the start of a handler |
| `CaptureEffects.MainSaysOfResults` | tcpdump-sh/bbuadm_tcpdump_capture.sh:379-432 | the same for the wait for the recovery handler, whose status is then there, and what its result leads to |
| `CaptureEffects.MainSaysLast` | tcpdump-sh/bbuadm_tcpdump_capture.sh:458-518 | the same for immediate_finish, the deletion and the exit |
| `CaptureNames.IndexOfRawName` | tcpdump-sh/bbuadm_gzip.sh:110-130 | get_index of the name of file i is i, for every natural i |
| `CaptureNames.NamesThatDecode` | tcpdump-sh/bbuadm_gzip.sh:114-129 | exactly the mask, and the mask followed by digits, decode; leading zeros included |
| `CaptureNames.NamesAreInjective` | tcpdump-sh/bbuadm_tcpdump_capture.sh:209-224 | different indices have different raw, partial and final names, also from 100 on where "%02d" stops padding |
| `CaptureNames.PartNamesDoNotDecode` | tcpdump-sh/bbuadm_gzip.sh:64 | the name of a partial file never decodes as the index of a raw file |
| `CaptureNames.NamesOfAFile` | tcpdump-sh/bbuadm_tcpdump_capture.sh:209-224 | the raw name of file i is the mask, for i > 0 followed by digits without a leading zero whose value is i; the final name has at least two digits |
| `CaptureNames.DigitsAreZerosAndANumber` | tcpdump-sh/bbuadm_gzip.sh:123-127 | a string of digits has value i if and only if it is the number i behind zeros, so leading zeros do not matter to get_index |
| `CaptureScript.MainScript.RequestGraceful` | tcpdump-sh/bbuadm_tcpdump_capture.sh:274-288 | changes mode, reason and code only in the running mode; sends the signal to a live tcpdump unless the mode is immediate |
| `CaptureScript.MainScript.RequestImmediate` | tcpdump-sh/bbuadm_tcpdump_capture.sh:291-300 | sets mode, reason and code whatever they were; one TERM goes to the group exactly if something of it is alive, one to the recovery handler exactly if there is one and it is alive, and nothing else is sent |
| `CaptureScript.MainScript.StopProcessGroup` | tcpdump-sh/bbuadm_tcpdump_capture.sh:261-271 | these signals, counted without reference to how they are put together |
| `CaptureScript.StopReachesEverybody` | tcpdump-sh/bbuadm_tcpdump_capture.sh:261-271 | the same of the function that gives them |
| `CaptureScript.TrapsSendExactly` | tcpdump-sh/bbuadm_tcpdump_capture.sh:303-329 | TERM stops the group and the recovery handler; INT sends one INT, and USR1 and USR2 one TERM, to tcpdump exactly if it lives and the mode is not immediate; nobody gets anything else |
| `CaptureScript.MainScript.Trap` | tcpdump-sh/bbuadm_tcpdump_capture.sh:303-329 | a trap handler is the Handle step of the machine, and what it sends to whom is counted signal by signal as above |
| `CaptureScript.MainScript.Other` | tcpdump-sh/bbuadm_tcpdump_capture.sh:303-329 | a step of the others happens if and only if the machine allows it; a pending signal runs its trap handler, which is the Handle step |
| `CaptureScript.MainScript.WaitTcpdump` | tcpdump-sh/bbuadm_tcpdump_capture.sh:345-364 | makes exactly the steps that the turns it takes make the machine do; it goes on only when tcpdump is gone and runs out of turns only while tcpdump is alive |
| `CaptureScript.MainScript.TakeTcpdump` | tcpdump-sh/bbuadm_tcpdump_capture.sh:352-360 | TCPDUMP_RC is the status of tcpdump, or that of an interrupted wait |
| `CaptureScript.MainScript.WaitPostrotateProcesses` | tcpdump-sh/bbuadm_tcpdump_capture.sh:367-376 | makes exactly the steps that the turns it takes make the machine do; it goes on with success only when the group is empty and with failure only in the immediate mode, and runs out of turns only while neither holds |
| `CaptureScript.MainScript.WaitRound` | tcpdump-sh/bbuadm_tcpdump_capture.sh:385-397 | a recovery handler that is alive after a wait got one TERM for each TERM handled meanwhile and one more if the mode is immediate, so a TERM handled during the wait reaches it at least twice |
| `CaptureScript.MainScript.TakeResult` | tcpdump-sh/bbuadm_tcpdump_capture.sh:387-401 | the result is the exit status of the handler, or the status of an interrupted wait; FINAL_GZIP_PID is reset |
| `CaptureScript.MainScript.RunGzipHandler` | tcpdump-sh/bbuadm_tcpdump_capture.sh:379-403 | makes exactly the steps that the turns it takes make the machine do, from the start of the handler to its result or to the end of the schedule |
| `CaptureScript.MainScript.NoteResult` | tcpdump-sh/bbuadm_tcpdump_capture.sh:426-432 | a failed recovery sets code 14 and goes on, or ends the loop in the immediate mode |
| `CaptureScript.MainScript.RecoverFile` | tcpdump-sh/bbuadm_tcpdump_capture.sh:412-432 | one index of the recovery loop makes exactly the steps that the turns it takes make the machine do, to the next index or out of the loop |
| `CaptureScript.MainScript.RecoverFiles` | tcpdump-sh/bbuadm_tcpdump_capture.sh:405-434 | the recovery loop makes exactly the steps that the turns it takes make the machine do, whatever happens between its commands |
| `CaptureScript.MainScript.GracefulFinish` | tcpdump-sh/bbuadm_tcpdump_capture.sh:437-455 | first of all a live tcpdump gets a TERM; then it makes exactly the steps that the turns it takes make the machine do |
| `CaptureScript.MainScript.ImmediateFinish` | tcpdump-sh/bbuadm_tcpdump_capture.sh:458-473 | first of all the group and a live recovery handler get one TERM each; then it makes exactly the steps that the turns it takes make the machine do, with the wait for a recorded recovery handler |
| `CaptureScript.MainScript.ExitHandle` | tcpdump-sh/bbuadm_tcpdump_capture.sh:486-519 | makes exactly the steps that the turns it takes make the machine do, up to the exit with FINAL_EXIT_CODE |
| `CaptureScript.MainScript.Capture` | tcpdump-sh/bbuadm_tcpdump_capture.sh:580-592 | for every schedule the script makes exactly the steps the schedule makes the machine do and ends in the same state; it is done if and only if the machine has exited; then staging is empty, the exit code is 143, 14 exactly after a failed recovery, or the code of the reason, and exactly the opened files below the limit that were not lost are published |
| `HandlerScript.Handler.GetIndex` | tcpdump-sh/bbuadm_gzip.sh:110-130 | INDEX is the decoded index, and untouched when the name does not decode |
| `HandlerScript.Handler.TakeIndex` | tcpdump-sh/bbuadm_gzip.sh:136-147 | leaves with status 0 and USR1 to the main script if and only if the index is not below the limit |
| `HandlerScript.Handler.TakeName` | tcpdump-sh/bbuadm_gzip.sh:154-159 | leaves with status 1 and TERM to the main script if and only if the destination exists |
| `HandlerScript.Handler.Announce` | tcpdump-sh/bbuadm_gzip.sh:161-165 | USR1 to the main script exactly for the last allowed index |
| `HandlerScript.Handler.StartXz` | tcpdump-sh/bbuadm_gzip.sh:71-75 | xz starts on an empty partial file exactly if the raw file is there; otherwise the status is 1 |
| `HandlerScript.Handler.TakeStatus` | tcpdump-sh/bbuadm_gzip.sh:77-87 | rc is the exit status of xz, or the status of an interrupted wait; GZIP_PID is reset |
| `HandlerScript.Handler.WaitXz` | tcpdump-sh/bbuadm_gzip.sh:77-87 | makes exactly the steps that the turns it takes make the machine do; it goes on when xz is gone, is cut short by the TERM trap or a kill, and runs out of turns only while xz is alive |
| `HandlerScript.Handler.DiscardPart` | tcpdump-sh/bbuadm_gzip.sh:89-93 | after a failed compression the partial file is gone, the other files are as before, and the handler has exited with the status of xz |
| `HandlerScript.Handler.PublishPart` | tcpdump-sh/bbuadm_gzip.sh:95-99 | the move publishes the partial file as it is, or fails and leaves all files alone |
| `HandlerScript.Handler.RemoveInput` | tcpdump-sh/bbuadm_gzip.sh:101-106 | the raw file is removed, or the status is 1; the file stays published |
| `HandlerScript.Handler.CompressFile` | tcpdump-sh/bbuadm_gzip.sh:59-107 | makes exactly the steps that the turns it takes make the machine do, to the end of the handler or of the schedule; exit status 0 only with the file published and its raw file removed |
| `HandlerScript.Handler.Postrotate` | tcpdump-sh/bbuadm_gzip.sh:132-168 | for every schedule the handler makes exactly the steps the schedule makes the machine do; it has ended, by exit, trap or kill, if and only if the machine says so; exit status 0 means the index is not below the limit, or the file is published and its raw file removed |
| `HandlerScript.Handler.StopXz` | tcpdump-sh/bbuadm_gzip.sh:44-48 | TERM to xz exactly if there is one that is alive, which is then waited for |
| `HandlerScript.Handler.LeaveTrap` | tcpdump-sh/bbuadm_gzip.sh:51-55 | exit 143; the partial file is removed exactly if TMP_COMPRESSED_FILE is set, and no other file is touched |
| `HandlerScript.Handler.SigtermHandle` | tcpdump-sh/bbuadm_gzip.sh:39-56 | the trap makes exactly the steps that the turns it takes make the machine do; it ends with exit 143 and without the partial file the handler has named, unless it is killed or the schedule ends |
| `RelayTheorems.SlotsNameTheOpenNodes` | src/server/client_session.cpp:164-216 | in every reachable state the A slot holds session i if and only if i is open with role A; the same for B; such a session is alive |
| `RelayTheorems.OneOpenSessionPerRole` | src/server/server_state.cpp:7-37 | two open sessions with one role are the same session |
| `RelayTheorems.WriteQueuesAreFifo` | src/server/client_session.cpp:23-44 | at most one write is in flight and its buffer is the head of the queue; while open, one is in flight exactly when the queue is non-empty, and written messages followed by the queue are the accepted ones; afterwards the written ones are a prefix |
| `RelayTheorems.LateReadsComeFromNodes` | src/server/client_session.cpp:375-404 | a closed session has at most one read to come, and only if it has a role |
| `RelayHistory.LateReadsFollowWriteErrors` | src/server/client_session.cpp:387-395 | in every run, a session is closed with a read to come if and only if a write error closed it and its read has not completed since |
| `RelayHistory.LateReadsHappen` | src/server/client_session.cpp:387-395 | a concrete run to a closed session of Node A with a read to come, Node B being registered |
| `RelayTheorems.LateReadsAreForwarded` | src/server/client_session.cpp:76-90 | the packet of such a read is filtered and queued for Node B as if the session were open |
| `RelayHistory.AcceptedPacketIsForwarded` | src/server/client_session.cpp:256-261 | a packet that is no repetition is accepted and remembered in any case; it is forwarded if and only if a Node B is registered |
| `RelayHistory.RepetitionIsDropped` | src/server/client_session.cpp:242-254 | a repetition of the remembered packet is dropped, also if that packet was never forwarded |
| `RelayTheorems.SessionsCountCorrectly` | src/server/client_session.cpp:240-261 | received is accepted plus dropped, accepted counts the packets that differ from their predecessor, and the forwarded ones are a subsequence of these |
| `RelayTheorems.QueuesHoldTheRightKind` | src/server/client_session.cpp:312-372 | the queue of an A session holds module messages only, that of a B session packet messages only |
| `RelayTheorems.NothingForwardedIsLost` | src/server/client_session.cpp:312-372 | summed over all sessions ever, forwarded packets are the messages taken into B queues and forwarded modules those taken into A queues |
| `RelayTheorems.HistoriesOnlyGrow` | src/server/client_session.cpp:218-404 | no event takes back a message written or a packet handled |
| `RelayTheorems.BothNodesCanRegister` | src/server/client_session.cpp:187-213 | two hellos lead to the state with both nodes registered |
| `RelayInvariants.EventKeepsInv` | src/server/client_session.cpp:55-92 | every completion handler keeps the invariant |
| `RelayInvariants.RunKeepsInv` | src/server/main.cpp:21 | so does every run of the event loop |
| `RelayEffects.HellosTakeFreeSlots` | src/server/client_session.cpp:164-216 | a hello for A on a session without a role gives it the role and the A slot if and only if the A slot was empty, whoever holds the B slot; the same for B; everything else stays |
| `RelayEffects.ErrorsCloseTheSession` | src/server/client_session.cpp:59-74 | after a read or a write error the session and its socket are closed, its slot is empty, a slot of another session is kept and no other session changes |
| `RelayEffects.RejectedLinesChangeNothing` | src/server/client_session.cpp:95-162 | a line that is no message, or not one for a session in this role, changes nothing |
| `RelayEffects.PacketsAreFilteredAndForwarded` | src/server/client_session.cpp:218-274 | the whole server after a packet of the A session: a repetition is counted as dropped; anything else is remembered and joins the write queue of Node B if there is one |
| `RelayEffects.ModulesAreForwarded` | src/server/client_session.cpp:276-310 | the whole server after a module of the B session |
| `RelayEffects.WritesGoThroughTheQueue` | src/server/client_session.cpp:375-404 | a finished write takes the head off the queue and the next one starts unless the session is closed |
| `RelayEffects.NewClientsAreRead` | src/server/tcp_server.cpp:73-97 | a new session has no role and one read to come |
| `RelayEffects.WhatMayComplete` | src/server/client_session.cpp:47-92 | in every state of a run an open session waits for exactly one line and writes if and only if its queue is not empty, and every pending operation may fail |
| `DuplicateFilter.AcceptedIsConsecutive` | src/server/client_session.cpp:242-259 | the stateful filter keeps exactly the packets that differ from their immediate predecessor in the input |
| `DuplicateFilter.AcceptedConcat` | src/server/client_session.cpp:256-257 | filtering a concatenation is filtering its parts with the carried state |
| `DuplicateFilter.AcceptedHasNoAdjacentDuplicates` | src/server/client_session.cpp:242-259 | no two neighbours in the output are duplicates |
| `DuplicateFilter.FixedPointsOfTheFilter` | src/server/client_session.cpp:242-259 | the filter changes nothing if and only if the input has no two neighbouring duplicates |
| `DuplicateFilter.FilterIsIdempotent` | src/server/client_session.cpp:242-259 | filtering twice is filtering once |
| `DuplicateFilter.RepetitionsRoundAlike` | src/server/client_session.cpp:242-254 | a packet repeats the remembered one if and only if on each axis one integer is nearest, halves away from zero, to a thousand times both |
| `AccelPackets.RoundingIsTheNearestInteger` | include/common/accel_packet.hpp:25-28 | the rounding is the nearest integer, halves away from zero, and nothing else is |
| `AccelPackets.RoundingIsMonotoneAndOdd` | include/common/accel_packet.hpp:25-28 | rounding is monotone and odd |
| `AccelPackets.DuplicatesRoundAlike` | include/common/accel_packet.hpp:17-28 | two packets are duplicates if and only if on each axis one integer is nearest, halves away from zero, to a thousand times both values |
| `AccelPackets.DuplicatesAreClose` | include/common/accel_packet.hpp:17-22 | duplicates differ by less than 0.001 on every axis |
| `AccelPackets.ClosenessIsNotDuplication` | include/common/accel_packet.hpp:17-22 | the converse fails at every distance, and the bound of 0.001 cannot be improved |
| `JsonProtocol.PacketRoundTrip` | src/common/json_protocol.cpp:122-131 | a packet read back from its printed message is that packet |
| `JsonProtocol.ModuleRoundTrip` | src/common/json_protocol.cpp:133-140 | the same for a module |
| `JsonProtocol.HelloRoundTrip` | src/common/json_protocol.cpp:249-278 | a hello is read back with its role if and only if the role is A or B |
| `JsonProtocol.AtMostOneKind` | src/common/json_protocol.cpp:316-334 | no message is accepted by two of the parsers |
| `JsonProtocol.ValuesThatArePackets` | src/common/json_protocol.cpp:154-205 | exactly these values parse as packet p: an object with version 1, as far as an int holds it, type "accel", an integer timestamp within int64 and three numbers; other fields do not matter |
| `JsonProtocol.ValuesThatAreModules` | src/common/json_protocol.cpp:207-242 | the same for modules |
| `JsonProtocol.ValuesThatAreHellos` | src/common/json_protocol.cpp:249-278 | the same for hellos of a role |
| `JsonProtocol.MessagesAreInjective` | src/common/json_protocol.cpp:122-140 | different packets or modules have different messages, and no packet shares one with a module |
| `JsonProtocol.FaithfulCodecsExist` | src/common/json_protocol.cpp:142-152 | what is required of the JSON library can be met for any messages at once |
| `Framing.ChunkingIsInvisible` | src/common/tcp_client.cpp:77-93 | reading with carry-over yields the lines of the whole stream, however it is cut into chunks |
| `Framing.LinesConcat` | src/server/client_session.cpp:55-83 | what was read and what is left over determine the lines to come |
| `Framing.WriteThenRead` | src/common/tcp_client.cpp:44-49 | a written line is read back as itself if and only if it is free of newlines and does not end in a carriage return |
| `Framing.ReadBackExactly` | src/common/tcp_client.cpp:77-93 | what stands before the first newline is the next line, without one carriage return at its end, and a stream without a newline holds no line |
| `Framing.OneNewlineIsWritten` | src/common/tcp_client.cpp:44-49 | a written line ends in the newline it has already or in one that is added |
| `Framing.LinesArriveInOrder` | src/common/tcp_client.cpp:44-93 | the lines written are the lines read, in order, whatever the chunks |
| `TcpClients.TcpClient.ReadLine` | src/common/tcp_client.cpp:67-96 | the first line of everything unread, which is then no longer unread; fails without effect on the text exactly when closed or when no line is left |
| `TcpClients.TcpClient.WriteLine` | src/common/tcp_client.cpp:34-60 | the bytes sent, also when the connection breaks |
| `TcpClients.TakesAPrefix` | src/common/tcp_client.cpp:51-60 | of what is to be sent the connection takes a prefix, the whole or as much as it has room for |
| `Nodes.NodeB.Serve` | src/node_b/main.cpp:54-111 | one turn of the loop takes one line; a packet is answered by one module with its timestamp and root(x*x + y*y + z*z), root being the square root, and nothing else is answered |
| `Nodes.NodeB.Run` | src/node_b/main.cpp:52-111 | the bytes sent are one such answer to each packet of the input, in order, as far as the connection took them |
| `Nodes.RepliesAnswerThePackets` | src/node_b/main.cpp:95-105 | the replies to any lines are the modules of the packets among them, each with the timestamp and the length of its packet |
| `Nodes.LinesThatAreMessages` | src/node_b/main.cpp:63-93 | Node B takes exactly the packet messages and Node A exactly the module messages |
| `Nodes.NodeA.ReceiveModules` | src/node_a/main.cpp:34-93 | the log grows by the modules of the lines read while the shared flag is up, in order; the loop takes the flag down exactly when a read fails |
| `Nodes.NodeA.SendPackets` | src/node_a/main.cpp:149-175 | the bytes sent are the messages of the packets, in order |
| `Pipeline.ServerTakesPacket` | src/server/client_session.cpp:218-261 | what one packet line of Node A does to the server while both nodes are registered |
| `Pipeline.ServerTakesModule` | src/server/client_session.cpp:276-302 | the same for a module line of Node B |
| `Pipeline.OthersDoNotInterfere` | src/server/server_state.cpp:7-37 | no event of any other session touches the two node sessions |
| `PipelineTheorem.PipelineHolds` | src/server/client_session.cpp:240-261 | the byte-level invariant of the data path holds in every run, from any state with both nodes registered, also with bytes and messages already under way |
| `PipelineTheorem.PipelineIsInOrder` | src/node_b/main.cpp:85-105 | module.log, the modules in flight and the modules of the packets in flight are, in this order, what they were at the start followed by the modules of the packets forwarded since, which are the de-duplicated packets read from Node A |
| `PipelineTheorem.DrainedPipelineHasLoggedEverything` | src/node_a/main.cpp:71-83 | with nothing in flight module.log is what was to come at the start followed by one module for each de-duplicated packet sent: entry i has the timestamp of packet i and root(x*x + y*y + z*z) of it |
| `PipelineTheorem.PipelineCanStart` | src/server/client_session.cpp:187-213 | two hellos lead to a start of the pipeline, whatever packets Node A has sent by then and however much of them has arrived |
| `PipelineProgress.PipelineCanDrain` | src/server/client_session.cpp:375-404 | from every state of every run the pipeline can drain without anything new being sent, and then module.log holds one module for each de-duplicated packet sent, in order, with its timestamp and length |
| `PipelineProgress.WhenNothingMoves` | src/server/client_session.cpp:55-92 | in every state of a run no byte, line or write can move on if and only if nothing is under way: nothing gets stuck |
| `PipelineProgress.MovesComeCloser` | src/server/client_session.cpp:55-92 | every move, with bytes in pieces of any size, leaves less to be done, so moves alone always end |
| `PipelineProgress.ServerEventsAreSteps` | src/server/client_session.cpp:55-92 | the runs of the pipeline leave no event of the server out but the errors of the two node sessions |
| `PipelineAbsence.AwayHolds` | src/server/client_session.cpp:59-90 | while Node B is away, with Node A sending, its packets filtered and lost, its modules written and logged, late lines of the old Node B and any events of others, the invariant of the other connections holds and nothing is forwarded |
| `PipelineAbsence.ServerEventsGoOn` | src/server/client_session.cpp:55-92 | nor do the runs without Node B, but for the errors of Node A and the return of a Node B |
| `PipelineAbsence.NodeBMayReturn` | src/server/client_session.cpp:187-213 | when any client registers as Node B after that, the pipeline starts anew: the log and what is on its way are the modules the server had read from the old Node B, what that one had not answered is lost, and the filter has gone on |
| `PipelineAbsence.NodeBCanReturn` | src/server/client_session.cpp:187-213 | from every state of a pipeline run Node B can leave and a new client can take its place |
| `PipelineRestart.NodeACanReturn` | src/server/client_session.cpp:59-74 | from every state of a pipeline run Node A can leave and a new client take its place while Node B stays, and the pipeline starts anew: its log goes on with the modules the server had not read from Node B yet, what was on its way to the old Node A is lost, and the filter begins afresh |
| `ServerClasses.ClientSession.SendJson` | src/server/client_session.cpp:23-44 | refused on a closed session, else queued, and written at once if the queue was empty |
| `ServerClasses.ClientSession.WriteNextMessage` | src/server/client_session.cpp:375-404 | starts a write of the head of the queue of an open session |
| `ServerClasses.ClientSession.PopWritten` | src/server/client_session.cpp:397-402 | the finished message leaves the queue and the next write starts |
| `ServerClasses.ClientSession.ReadNextLine` | src/server/client_session.cpp:47-53 | starts a read on an open session |
| `ServerClasses.ClientSession.RegisterRole` | src/server/client_session.cpp:164-216 | the whole server state after a hello is that of the model, which HellosTakeFreeSlots gives |
| `ServerClasses.ClientSession.FilterPacket` | src/server/client_session.cpp:240-259 | a packet is refused if and only if on each axis one integer is nearest to a thousand times its value and that of the packet accepted last; counters and filter state follow |
| `ServerClasses.ClientSession.HandleAccelPacket` | src/server/client_session.cpp:218-274 | the whole server state after a packet message, also when Node B is another session |
| `ServerClasses.ClientSession.HandleModulePacket` | src/server/client_session.cpp:276-310 | the whole server state after a module message |
| `ServerClasses.ClientSession.ForwardAccelPacketToNodeB` | src/server/client_session.cpp:312-341 | the message joins the queue of Node B and the counter of the sender, or nothing changes |
| `ServerClasses.ClientSession.ForwardAccelModuleToNodeA` | src/server/client_session.cpp:344-372 | the same towards Node A |
| `ServerClasses.ClientSession.HandleLine` | src/server/client_session.cpp:95-162 | the whole server state after any line |
| `ServerClasses.ClientSession.OnRead` | src/server/client_session.cpp:76-90 | the read handler is the ReadOk event of the model |
| `ServerClasses.ClientSession.OnReadError` | src/server/client_session.cpp:59-74 | a failed read is the ReadError event of the model, which ErrorsCloseTheSession gives |
| `ServerClasses.ClientSession.OnWritten` | src/server/client_session.cpp:397-402 | a completed write is the WriteOk event of the model |
| `ServerClasses.ClientSession.OnWriteError` | src/server/client_session.cpp:387-395 | a failed write drops the queue and closes the session |
| `ServerClasses.ClientSession.Close` | src/server/client_session.cpp:406-432 | closes once, and gives up exactly the slots that name this session |
| `ServerClasses.ServerState.Lock` | src/server/server_state.cpp:11 | weak_ptr::lock: null exactly when the session has no pending operation and does not run |
| `ServerClasses.ServerState.SetNodeA` | src/server/server_state.cpp:7-21 | takes the slot if and only if it is empty, already this session's, or its session has no operation pending |
| `ServerClasses.ServerState.SetNodeB` | src/server/server_state.cpp:23-37 | the same for the B slot |
| `ServerClasses.ServerState.GetNodeA` | src/server/server_state.cpp:39-43 | the session of the A slot while it is alive |
| `ServerClasses.ServerState.GetNodeB` | src/server/server_state.cpp:45-49 | the session of the B slot while it is alive |
| `ServerClasses.ServerState.RemoveSession` | src/server/server_state.cpp:63-80 | each slot is empty afterwards if it named the session, and as before otherwise |
| `ServerClasses.ServerState.Accept` | src/server/tcp_server.cpp:73-97 | a new session that waits for its first line |
| `ServerClasses.ServerState.Complete` | src/server/client_session.cpp:55-92 | a completion handler of any session is the corresponding event of the model |
| `ServerClasses.ServerState.Run` | src/server/main.cpp:21 | the objects go through a run of the model, and the invariant holds of them |

## Left out

- RelayTheorems.WriteQueuesAreFifo: says what was handed to the library completely; how many bytes of a failed write had left is not modelled.
- Signals that arrive before tcpdump is started, SIGKILL of the main script, and preemption inside the blocks named atomic above.
- The reaction of tcpdump to signals: it may stop at any time, so that it stops after a stop request is the assumption under which the shutdown theorems (which start from a stopped tcpdump) apply.
- The contents of compressed files: a complete one is identified with what it decompresses to.
- Names of final files in the machine, where files are keyed by index; that different indices have different names is proved beside it.
- Configuration checks, directory preparation, the disk monitor and its parsing of df, and log texts.
- Connecting, resolving and accepting; the accept loop beyond one new session per accepted connection.
- JSON text, number formatting, and range claims for integers no node of this system sends.
- The sine emulator, clocks, sleeps and console output.
- Partial reads of the server: a line is handled when it is complete, and the stream buffer of a session appears in the pipeline model only.
