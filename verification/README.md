# Verified model of the Botster actuator

The actuator is a Go program that keeps a WebSocket open to a broker, runs the commands the broker
delivers, and reports results. This project models its concurrent core and its pure cores in Dafny
and proves what they guarantee.

- **Command lifecycle** (`ExecLifecycle`, `ExecInvariant`, `ExecSteps`, `ExecTheorems`,
  `ExecProgress`, `ExecOutput`, `ExecSignals`, `ExecStdin`, `ExecTrace`, `ExecExits`, `ExecReplies`,
  `ExecStarts`, `ExecKills`, `ExecWitness`, `ExecPtyWitness`). Every delivered command has a handler goroutine; every spawned process has two readers, a wait goroutine, a yield timer and, with a PTY, a timeout timer. `Stop`, `KillSession`
  and the delayed SIGKILL goroutines run beside them. A state holds all their program counters, the
  sessions, `activeCommands`, and a log of results, exits and signals. A step is one mutex-held
  block, one unlocked access or one system call; what the environment decides is a parameter of the
  step. The theorems speak about `After(Init(brain), run)` for every legal `run`, that is, about
  every interleaving.
- **Connection protocol** (`Connection`, `ConnectionTheorems`, `ConnectionProgress`,
  `ConnectionTrace`, `Reconnect`, `Tokens`): goroutines in
  connect or readLoop, armed timers and `Stop`, with the backoff manager and the token file.
- **Registry** (`ProcessRegistry`, `RollingBuffer`, `Sessions`, `Slugs`): classes with the source's
  fields; each session carries its unbounded output history as a ghost field that the capped buffers
  refine. `Sessions` holds the critical sections as functions, used both by the classes and by the
  step system.
- **File and process capabilities** (`FileExecutors`, `Paths`, `PathLaws`, `Paging`, `Lines`, `ProcessHandlers`, `Keys`).
- **Locks** (`Locks`): the lock operations of every block of code, and why no set of goroutines
  running them can deadlock.
- **Result router of the mock broker** (`ResultRouting`).
- **Actuator object** (`Actuators`): `Stop`, token rotation and rescheduling as methods on the heap.

Bytes are `seq<byte>`; paths and tokens are `string`; delays are `real`.

## Where the code falls short of the obvious promise

Each of these is proved, with a concrete run or input or with the exact condition under which the
promise holds, and mostly with both.

- A "running" result may follow the terminal one; this can happen exactly for commands that ask for
  a yield interval, with a PTY or without (`RunningMayFollow`).
- A result may carry less than was read from the process (`EarlyResultThenRunning`). While the wait
  goroutine runs, the results still to come are sure to be complete exactly when both readers are
  done, or idle on a closed pipe, and nothing stale has been read from the builders
  (`CompleteExactly`).
- `Stop` covers a live session, signalled before or not, exactly when its handler has inserted the activeCommands entry before
  `Stop` takes the lock (`StopCoversExactly`); a later one survives (`LateCommandSurvivesStop`).
- With a repeated command id, one command can remove another's entry (`RepeatedIdUncovers`). Every run
  that delivers a given sequence of ids keeps all live registered commands covered exactly when the
  ids are distinct (`CoverageNeedsDistinctIds`).
- A PTY timeout yields a second terminal result, exactly when the callback ran (`PtyResults`), and
  either of the two can come first (`TimeoutReportsFirst`, `WaitReportsFirst`).
- SIGTERM can reach the recorded pid after the session has exited (`TermAfterExit`): exactly when the
  process was started and `Stop` or a kill request is past its unlocked test of Exited
  (`LateTermExactly`).
- A write to a session can meet a nil stdin, and panic, when the process exits between the two
  unlocked reads of session.Stdin (`WritePanics`): exactly when the request is past its nil test, or
  stdin is open or may still be opened (`PanicExactly`).
- A command can be stuck for ever: exactly when it has still to register a session and all 36^8
  identifiers are in use (`ProgressExactly`).
- One dial may still start after `Stop` (`OneDialAfterStop`); none does exactly when no goroutine is
  between its check of `destroyed` and the dial (`DialsEndExactly`).
- The connection may be installed again after `Stop`; it stays nil exactly when it is nil and no
  goroutine is between its check of `destroyed` and the install (`StaysDownExactly`).
- In the mock broker a waiting call misses its result once another waiter has parked it
  (`ParkedResultMissed`, `ServedExactly`).
- Names that begin with two dots are refused although they stay inside the root (`DottedNameRefused`).
- A negative limit makes the slice expressions panic (`ReadBounds`, `LogPanics`); a limit of zero
  marks a complete page as truncated (`ZeroLimitMarksTruncated`); these are the only cases in which
  the flag cannot be trusted (`TruncatedExactly`).
- A rotated token with surrounding whitespace does not survive a restart (`RestartRoundTrip`).

## Model

| member | source | states |
|---|---|---|
| ExecSteps.StepKeeps | internal/actuator/actuator.go:196-342 | one step of any goroutine, `Stop` or delayed kill keeps the whole invariant, and touches only its own command's record, session, entry and log events |
| ExecSteps.ReachableInv | internal/executor/shell.go:31-177 | the invariant holds after every run from the start, for both executors |
| ExecTheorems.NothingRevoked | internal/process/registry.go:103-115 | over any continuation of any run an exit is never reverted, a pid is assigned at most once, sessions and registrations stay, and the log only grows |
| ExecTheorems.OneTerminalResult | internal/actuator/actuator.go:283-342 | any command that has not armed a PTY timeout, so also a PTY command that never starts, has sent at most one completed or failed result at any moment and exactly one once its wait goroutine or its spawn-failure branch has ended; at most one running result, and only with a yield interval; every other capability exactly one result |
| ExecTheorems.PtyResults | internal/executor/shell_pty.go:63-123 | a PTY process has one terminal result for the wait goroutine and one more if and only if the timeout callback ran; the wait goroutine never ends with the timer armed |
| ExecPtyWitness.TimeoutReportsFirst | internal/executor/shell_pty.go:64-69 | a run with two terminal results, failed from the timeout callback and then completed from the wait goroutine |
| ExecPtyWitness.WaitReportsFirst | internal/executor/shell_pty.go:103-123 | a run with two terminal results, completed and then failed: timer.Stop does not stop a callback already running |
| ExecTheorems.TerminalAfterExit | internal/executor/shell.go:147-174 | a terminal result is sent only after MarkExited on that session, and is "completed" exactly when the exit code it follows is 0 |
| ExecTheorems.SessionLifecycle | internal/process/registry.go:103-115 | exited if and only if some MarkExited ran; before, there is no code and no signal; then the exit code is set, stdin closed, and code and signal come from one of the callers; pid, backgrounded and stdin agree with how far the goroutines got |
| ExecExits.ExitCodeIsReported | internal/executor/shell.go:147-173 | over every run: what cmd.Wait returns is recorded and then reported, as code 1, SIGTERM and failed after a non-PTY deadline, else as the process's own code, no signal, and completed exactly for code 0; the record stays unless a PTY timeout also marks the session |
| ExecExits.FailuresAreReported | internal/executor/shell_pty.go:50-69 | a failed start is recorded with code 1 and reported failed; a PTY timeout sends SIGKILL, is recorded with code 1 and SIGKILL, and reported failed, in that order |
| ExecExits.FiresExactly | internal/executor/shell_pty.go:63-107 | over every run the timeout callback has started if and only if its timer ran out, and then nothing stops it; a stopped timer stays stopped |
| ExecExits.EndedInTime | internal/executor/shell_pty.go:103-107 | when the wait goroutine of a PTY process gets to timer.Stop before the timer has fired, the timeout never runs |
| ExecTrace.ReadsRecorded | internal/executor/shell.go:112-145 | over every run: what a stream is recorded to have produced is the concatenation of all its reads returned, and its reader ends exactly after a read with an error or end of file |
| ExecTrace.StartedPidRecorded | internal/executor/shell.go:91-99 | the pid the system gave is the one the session gets, and keeps |
| ExecTrace.FailedStartHasNoProcess | internal/executor/shell.go:63-97 | when a pipe or the process cannot be had, the session never gets a pid |
| ExecReplies.RepliesAreRight | internal/actuator/actuator.go:196-287 | every result of a command without a session is the right one and carries no output; only a non-empty exec command outside brain mode gets a session, and it is never refused |
| ExecReplies.KillAnswersSyscall | internal/executor/process.go:152-170 | a kill request that reaches the system call sends SIGTERM to the pid it read and is answered by what the call returned |
| ExecReplies.BrainExecutesNothing | internal/actuator/actuator.go:197-200 | in brain mode no session is created, no signal sent, and every command is answered with failed |
| ExecKills.KillFollowsThrough | internal/process/registry.go:148-168 | one SIGKILL goroutine for each delivered SIGTERM; one that has run found the session exited or sent SIGKILL; one that has not run can, and then signals exactly a live session |
| ExecKills.KillsCounted | internal/process/registry.go:148-168 | a session is sent at most one SIGKILL for each SIGTERM delivered to it, and while it lives exactly one for each goroutine that has run |
| ExecKills.RunningExactly | internal/executor/shell.go:102-110 | once everything is started, no continuation sends a running result if and only if the yield timer was not armed, its callback has ended, or it has yet to fire and the session has exited |
| ExecStarts.StartedExactly | internal/executor/shell_pty.go:63-101 | once the wait goroutine runs, so does the reader of stdout, that of stderr exactly without a PTY, the timeout exactly with one, and the yield timer exactly for a positive interval |
| ExecStarts.AnythingCanBeRead | internal/executor/shell.go:112-145 | whatever a process writes while its pipe is open, in chunks of at most 8192 bytes, has a continuation that reads it and hands it all to the stream's builder |
| ExecStarts.FailsExactly | internal/executor/shell.go:63-97 | over every run a command takes the branch for failed starts if and only if opening one of its pipes or starting its process failed |
| ExecStarts.KillReachesProcess | internal/executor/process.go:152-170 | a kill request for an unknown or exited session, or one without a process, is answered with failed and signals nothing; one that passes its test of a session with a pid sends SIGTERM to that pid before it answers, in every continuation |
| ExecTheorems.KillOrder | internal/process/registry.go:148-168 | a delayed SIGKILL follows a delivered SIGTERM to the same session and is never sent once it has exited |
| ExecTheorems.SignalsAimed | internal/process/registry.go:148-168 | every SIGTERM and SIGKILL sent by KillSession goes to the recorded, non-zero pid of the session it was called for, which never changes afterwards |
| ExecTheorems.StopCoverage | internal/actuator/actuator.go:335-341 | until `Stop` has cleared the map, a live session of a command with its own id is bound to that id if and only if its handler has inserted it |
| ExecSignals.StaleEntriesAreInert | internal/actuator/actuator.go:294-342 | every entry belongs to a registered command; once a callback of a command has run its delete, the session has exited and, in every continuation, `Stop` never signals it, whether an entry inserted afterwards is still there or not |
| ExecSignals.FinishedIsRemoved | internal/actuator/actuator.go:294-333 | once a callback of a registered command with its own id has run its delete, its entry is gone in every continuation |
| ExecWitness.EntryLeftBehind | internal/actuator/actuator.go:294-341 | a run that ends with the entry of an exited, fully reported command still in the map |
| ExecProgress.ProgressExactly | internal/actuator/actuator.go:283-342 | from every reachable state a command has a continuation in which its handler, wait goroutine and timeout have ended, if and only if it is not waiting to register a session while no identifier is free |
| ExecStdin.PanicExactly | internal/executor/shell.go:180-186 | for a write or send-keys request that has found its session live: some continuation uses a nil stdin, if and only if the request is past its nil test, or stdin is open or may still be opened |
| ExecStdin.WritePanics | internal/executor/shell.go:180-186 | a run in which a write meets the nil stdin of a session that has just exited |
| ExecStdin.Projects | internal/executor/process.go:103-150 | write and send-keys requests only look on: every run with them is, without them, a run of the command lifecycle |
| ExecStdin.AnswerCountsKeys | internal/executor/process.go:126-150 | a write or send-keys request is answered with success only if the pipe takes every one of its keys, and with failure only before that |
| ExecStdin.ExitedRefuses | internal/executor/process.go:114-139 | a request for an exited session, or without keys, is refused in every continuation and writes nothing |
| ExecSignals.StopLeavesExited | internal/actuator/actuator.go:336-340 | once a session has exited and `Stop` is not past its test for it, `Stop` never signals it in any continuation |
| ExecSignals.LateTermExactly | internal/executor/process.go:160-164 | no continuation sends SIGTERM to an exited session if and only if its process was never started or no sender is past its unlocked test of Exited |
| ExecWitness.TermAfterExit | internal/executor/process.go:160-164 | a run in which a kill request sends SIGTERM after the session has been marked exited |
| ExecSignals.StopEmptiesMap | internal/actuator/actuator.go:74-77 | `Stop` leaves `activeCommands` empty, and in every continuation an entry belongs to a command registered after `Stop` had ended |
| ExecTheorems.StopNeverBlocks | internal/actuator/actuator.go:70-80 | once `Stop` holds the lock it always has a next step, whatever has been interleaved |
| ExecTheorems.StopKillsAll | internal/actuator/actuator.go:70-80 | when `Stop` has finished, every command registered before it began has exited, or `Stop` itself has called KillSession for it since, whatever was signalled earlier |
| ExecTheorems.StopCoversExactly | internal/actuator/actuator.go:70-80 | for a live session, signalled before or not: it is sure to have exited or been signalled by `Stop` under every interleaving if and only if it was registered when `Stop` took the lock |
| ExecOutput.ThreeBuffers | internal/executor/shell.go:112-145 | the session's history is an order-preserving merge of the two streams' chunks; the capped buffers are its suffixes; each stream's share equals its builder plus at most one chunk of 8192 bytes in flight |
| ExecOutput.PiecesMerge | internal/executor/shell.go:112-145 | any sequence of tagged chunks is an order-preserving merge of its stdout chunks and its stderr chunks |
| ExecOutput.ReportedOutput | internal/actuator/actuator.go:289-332 | every result reports prefixes of the two streams as read, in every later state as well |
| ExecOutput.DrainedIsComplete | internal/actuator/actuator.go:289-332 | once the readers are done, or idle on a closed pipe, and the callbacks hold nothing stale, every result sent in any continuation carries all that is ever read |
| ExecOutput.CompleteExactly | internal/executor/shell.go:147-174 | while the wait goroutine runs, all results still to come are complete in every continuation if and only if both readers are done, or idle on a pipe that Wait has closed, and the callbacks hold nothing stale |
| ExecWitness.EarlyResultThenRunning | internal/executor/shell.go:102-110 | a run in which the completed result omits a chunk already read and a running result follows it |
| ExecPtyWitness.RunningMayFollow | internal/executor/shell_pty.go:71-79 | with a PTY or without, a running result can follow a terminal one exactly for commands with a positive yield interval |
| ExecWitness.LateCommandSurvivesStop | internal/actuator/actuator.go:335-341 | a run in which an entry inserted after `Stop` leaves its process alive, with no signal ever sent |
| ExecWitness.RepeatedIdUncovers | internal/actuator/actuator.go:312-315 | a run in which a second command with the same id removes the entry of a live first one |
| ExecWitness.CoverageNeedsDistinctIds | internal/actuator/actuator.go:312-341 | for every sequence of delivered ids: every run delivering just those keeps each live registered session bound before `Stop` clears the map, if and only if the ids are distinct |
| RollingBuffer.AppendRefines | internal/process/registry.go:126-132 | appending to buffers that refine a history gives buffers that refine the longer history |
| RollingBuffer.BuffersRefineHistory | internal/process/registry.go:118-134 | after any sequence of appends the buffers are the last 200,000 and the last 4,000 bytes of everything appended |
| RollingBuffer.ChunkingIsInvisible | internal/process/registry.go:118-134 | how the output was cut into chunks does not show |
| RollingBuffer.CapsAreExact | internal/process/registry.go:16-19 | the caps in numbers: the newest 200,000 and 4,000 bytes, or all of a shorter history |
| Slugs.FreeSlugExists | internal/process/registry.go:207-219 | while fewer than 36^8 identifiers are in use, some draw of the generator spells a free one |
| ProcessRegistry.Session.Append | internal/process/registry.go:126-132 | the critical section keeps the buffers a suffix of the extended history |
| ProcessRegistry.Session.UpdateTail | internal/process/registry.go:198-205 | the tail becomes the last 4,000 bytes of the buffer |
| ProcessRegistry.Session.WriteStdin | internal/executor/shell.go:180-186 | with no MarkExited between its two reads of the field: fails on a closed stdin or a refusing pipe; otherwise exactly the data is passed on |
| ProcessRegistry.Registry.CreateSlug | internal/process/registry.go:207-219 | the first of the random draws that collides with no session, an 8-symbol slug; the loop ends whenever there is one |
| ProcessRegistry.Registry.AddSession | internal/process/registry.go:55-69 | a fresh session under the first free slug drawn; every existing session is untouched |
| ProcessRegistry.Registry.MarkBackgrounded | internal/process/registry.go:91-100 | sets one flag of one session, or reports that it is unknown |
| ProcessRegistry.Registry.MarkExited | internal/process/registry.go:103-115 | records code and signal and closes stdin of one session, keeping its output |
| ProcessRegistry.Registry.AppendOutput | internal/process/registry.go:118-134 | extends one session's history and keeps its buffers the suffixes of it; no other session changes |
| ProcessRegistry.Registry.Tail | internal/process/registry.go:137-145 | the last 4,000 bytes of everything ever appended |
| ProcessRegistry.Registry.GetOutput | internal/process/registry.go:188-196 | the last 200,000 bytes of everything ever appended |
| ProcessRegistry.Registry.KillSession | internal/process/registry.go:148-168 | signals exactly a known session with a pid, and reports success exactly when the signal was delivered |
| ProcessRegistry.Registry.DelayedKill | internal/process/registry.go:158-165 | SIGKILL exactly when the session has a pid and has not exited |
| Connection.StepKeeps | internal/actuator/actuator.go:87-142 | every step of connect, readLoop, a timer or `Stop` keeps the protocol invariant |
| ConnectionTheorems.OneConnection | internal/actuator/actuator.go:87-142 | goroutines in connect or readLoop plus armed timers never exceed one |
| ConnectionProgress.CarrierKeptAlive | internal/actuator/actuator.go:87-142 | until `Stop` there is exactly one goroutine or armed timer, and none exactly when one asked for another attempt at a positive cap |
| ConnectionProgress.KeepsDialing | internal/actuator/actuator.go:109-142 | until `Stop`, some continuation dials if and only if a timer is armed or a goroutine is anywhere but at an attempt the cap refuses; always so without a positive cap |
| ConnectionTrace.DialSucceeds | internal/actuator/actuator.go:109-127 | a successful dial is installed, the backoff is reset, and that connection is read |
| ConnectionTrace.DialFails | internal/actuator/actuator.go:109-114 | after a failed dial there is no connection until another dial, whatever happens |
| ConnectionTrace.ConnectionIsCurrent | internal/actuator/actuator.go:119-137 | the connection field holds the connection being read, from the install to the handling of its loss, and nil otherwise |
| ConnectionTrace.AttemptsCounted | internal/actuator/reconnect.go:45-68 | over every run of the protocol the counter is the number of timers armed since a connection was installed or `Stop` cleared it |
| ConnectionTrace.StopDisarms | internal/actuator/actuator.go:70-73 | `Stop` leaves no timer armed and the counter at zero |
| ConnectionTrace.StopExcludes | internal/actuator/actuator.go:67-85 | while `Stop` holds the mutex, over every run, the connection, the token and the flag stay as they are and whoever needs the mutex waits |
| ConnectionTrace.ArmsExactly | internal/actuator/actuator.go:444-456 | once destroyed is set, no continuation arms a timer if and only if no goroutine is between its check of destroyed and its call of Schedule, unless the cap refuses it |
| ConnectionTrace.FileFollowsWrites | internal/actuator/actuator.go:433-442 | the token file holds the token and a newline after a successful write, and what a failed one left otherwise |
| ConnectionTrace.NoTokenFileUntouched | internal/actuator/actuator.go:428-431 | without a configured token file nothing is ever written |
| ConnectionTheorems.DialsEndWithStop | internal/actuator/actuator.go:87-128 | at most one dial starts after `Stop` sets destroyed, and every dial has a check of its own, by the goroutine that dials and used by no earlier dial, from before that |
| ConnectionTheorems.DialsEndExactly | internal/actuator/actuator.go:87-109 | once destroyed is set, no continuation starts a dial if and only if no goroutine is between its check and the dial |
| ConnectionTheorems.OneDialAfterStop | internal/actuator/actuator.go:87-109 | a run in which one dial starts after `Stop` has returned |
| ConnectionTheorems.DialsAreFresh | internal/actuator/actuator.go:98-102 | every dial uses the last non-empty rotated token received before it, else the initial one |
| ConnectionTrace.DialsUseLastMessage | internal/actuator/actuator.go:175-181 | the same against the run: every dial uses the last non-empty token the broker had sent before it |
| ConnectionTrace.RestartFindsLastMessage | internal/actuator/actuator.go:415-442 | after a take-over whose last write succeeded, a restart finds the last token the broker sent, if and only if it survives trimming |
| ConnectionTheorems.RestartUsesLatest | internal/actuator/actuator.go:415-442 | after a completed rotation whose write succeeded, a restart starts with the latest token if and only if that token survives trimming |
| ConnectionTheorems.StopWindsDown | internal/actuator/actuator.go:70-85 | once destroyed is set, at most fourteen steps remain besides messages still read |
| ConnectionTheorems.StaysDownExactly | internal/actuator/actuator.go:109-121 | after `Stop`, the connection stays nil in every continuation if and only if it is nil and no goroutine is between its check and the install |
| ConnectionTheorems.ConnectionMayReturnAfterStop | internal/actuator/actuator.go:109-121 | a run in which a dial under way installs its connection after `Stop` |
| Reconnect.AttemptCounts | internal/actuator/reconnect.go:45-68 | over any run, attempt is the number of timers armed since the last Reset, never above a positive cap |
| Reconnect.RunFits | internal/actuator/reconnect.go:45-59 | over any run, the k-th delay since a Reset lies between its bounds, and a call is refused exactly at the cap |
| Reconnect.BoundsMonotone | internal/actuator/reconnect.go:50-53 | the delay bounds never decrease if and only if the base is not negative |
| Reconnect.Saturates | internal/actuator/reconnect.go:50-53 | with a positive base, from some attempt on every delay is the maximum |
| Reconnect.DefaultsSaturateAtSix | internal/actuator/reconnect.go:27-42 | with the defaults that is the sixth attempt, and there is no cap |
| Reconnect.OptionsKept | internal/actuator/reconnect.go:27-42 | options that are given are kept; zero ones become one second, thirty seconds and no cap |
| Reconnect.DefaultDelays | internal/actuator/reconnect.go:50-53 | the first five default delays are 1, 2, 4, 8 and 16 seconds plus the jitter |
| Reconnect.ReconnectManager.constructor | internal/actuator/reconnect.go:27-42 | zero options are replaced by the defaults, nothing armed |
| Reconnect.ReconnectManager.Schedule | internal/actuator/reconnect.go:45-59 | refines the backoff step; a timer with that delay is armed exactly when it is not refused |
| Reconnect.ReconnectManager.Reset | internal/actuator/reconnect.go:62-68 | counter back to zero and the pending timer stopped |
| Tokens.TrimResult | cmd/actuator-g/main.go:113-122 | a trimmed token file is tidy, empty exactly for a blank token, and the token itself when that was tidy |
| Tokens.RestartRoundTrip | cmd/actuator-g/main.go:113-122 | a persisted token is loaded back if and only if it has no surrounding whitespace, or is blank and equals the environment's |
| Tokens.LoadExactly | cmd/actuator-g/main.go:113-122 | a printable token is found between any blanks and line ends; with none, or no file, the environment's is used |
| Paths.ValidateExactly | internal/executor/files.go:28-40 | for every root and input: access is granted exactly when the cleaned join extends the cleaned root's components and the next component does not begin with two dots, and the granted path is the cleaned join |
| Paths.GrantedIsPlain | internal/executor/files.go:28-40 | a granted path has the root as a component prefix and no ".." component below it |
| Paths.RelativePartIsGranted | internal/executor/files.go:28-40 | the relative part of a granted path is granted again with the same result |
| Paths.CleanIdempotent | internal/executor/files.go:29-30 | cleaning a cleaned path changes nothing |
| Paths.DottedNameRefused | internal/executor/files.go:36-38 | a name inside the root that begins with two dots is refused |
| PathLaws.CleanDown | internal/executor/files.go:29-30 | cleaning a path with a plain name behind it writes the name behind the cleaned path |
| PathLaws.CleanDownUp | internal/executor/files.go:29-30 | going down into a name and up again changes nothing |
| PathLaws.CleanStays | internal/executor/files.go:29-30 | dots and empty components change nothing |
| PathLaws.CleanUpPast | internal/executor/files.go:29-30 | a step up stays at the root, and is written out where a relative path cannot go up |
| PathLaws.CleanBase | internal/executor/files.go:29-30 | the empty path, the dots, the root and single names |
| PathLaws.RelExactly | internal/executor/files.go:32-35 | the relative path fails exactly for different kinds or a base that steps up where the target does not, and otherwise leads from the base to the target |
| PathLaws.ParentRefused | internal/executor/files.go:28-40 | below an absolute root other than "/", a path up and into another name is refused |
| PathLaws.ChildExactly | internal/executor/files.go:28-40 | a single name is granted, as the cleaned join, exactly when it does not begin with two dots |
| PathLaws.RootGranted | internal/executor/files.go:28-40 | the empty path and the dot are granted as the cleaned root |
| Lines.JoinSplit | internal/executor/files.go:57 | joining the split of a text gives the text |
| Lines.SplitJoin | internal/executor/files.go:82 | splitting a join of separator-free parts gives the parts |
| Lines.WindowsRejoin | internal/executor/files.go:81-82 | joining all windows of k parts gives the join of the parts |
| Lines.IndexFrom | internal/executor/files.go:133 | the least match from a position on, none exactly when there is none |
| Paging.ReadBounds | internal/executor/files.go:57-95 | at most 51,200 bytes and 2,000 lines; a panic exactly for a negative limit on an existing line |
| Paging.PageExactly | internal/executor/files.go:57-95 | in numbers, for every offset and limit: the start line, at most 2,000 lines, the text cut at 51,200 bytes, the flag, the empty page past the end, and the panic |
| Paging.LogExactly | internal/executor/process.go:74-97 | for every offset and limit: everything without arguments, else the lines from the offset on, no more than the limit, nothing past the last line, and the panic |
| Paging.UntruncatedIsComplete | internal/executor/files.go:84-95 | whatever the limit, an untruncated page is everything from the start line to the end |
| Paging.TruncatedExactly | internal/executor/files.go:67-95 | for every start line inside the file and every limit: the read does not panic and truncated is right, if and only if the limit is not negative and not a zero limit on a complete empty rest |
| Paging.ZeroLimitMarksTruncated | internal/executor/files.go:67-84 | the shortest such case: an empty file read with limit zero is complete but marked truncated |
| Paging.PageCountCovers | internal/executor/files.go:57-81 | the page count is the least number of windows that reaches the last line |
| Paging.ReadPagesRebuild | internal/executor/files.go:57-95 | for every file and page size up to 2,000, the joined pages give the file back if and only if no window exceeds 51,200 bytes |
| Paging.LogPanics | internal/executor/process.go:76-97 | a log request panics exactly for a negative limit on an existing line |
| Paging.LogPagesRebuild | internal/executor/process.go:76-97 | successive log windows of any size joined with newlines give the whole output |
| Paging.EditReplacesFirst | internal/executor/files.go:132-141 | fails exactly when there is no match; otherwise the least match is replaced and everything around it is unchanged |
| Paging.ReverseEditRestores | internal/executor/files.go:132-141 | the reverse edit restores the file if and only if the new text first occurs where it was put |
| FileExecutors.FileExecutor.Read | internal/executor/files.go:43-96 | error branches in order, and otherwise the page of the one file the path leads to; without arguments that is its first 2,000 lines, cut at 51,200 bytes |
| FileExecutors.FileExecutor.Write | internal/executor/files.go:99-115 | only the resolved file may change, only inside the root, and to the given contents exactly when there is no error |
| FileExecutors.FileExecutor.Edit | internal/executor/files.go:118-144 | each error exactly under its condition; on success the first occurrence is replaced and every other file is unchanged |
| ProcessHandlers.ProcessHandler.GetSessionLog | internal/executor/process.go:65-101 | of the last 200,000 bytes ever appended to that session: everything without arguments, else the lines from the offset on, no more than the limit |
| ProcessHandlers.ProcessHandler.SendKeys | internal/executor/process.go:126-150 | the converted keys reach stdin in order up to the first refused write, and nothing else of the session changes |
| Keys.ControlIsLowBits | internal/executor/process.go:223-233 | Ctrl with a letter of either case is the letter's low five bits |
| Keys.NamesStand | internal/executor/process.go:193-239 | every name of the key map stands for its sequence, and none is taken for a Ctrl combination |
| Keys.OthersPass | internal/executor/process.go:235-238 | text that is no key name and no Ctrl combination is sent as it is |
| Keys.CtrlOther | internal/executor/process.go:225-238 | Ctrl with a anything but one letter, or the two other characters whose lower case is one, is sent as it is |
| Keys.CtrlOfFolded | internal/executor/process.go:225-233 | the Kelvin sign and the capital I with a dot act as the letters they are lower-cased to |
| ProcessHandlers.ProcessHandler.Kill | internal/executor/process.go:152-170 | each error exactly under its condition; signals exactly a live session with a pid |
| Actuators.Actuator.Insert | internal/actuator/actuator.go:335-341 | binds the command id to its session |
| Actuators.Actuator.Remove | internal/actuator/actuator.go:294-297 | deletes exactly that entry |
| Actuators.Actuator.RunClosure | internal/actuator/actuator.go:336-340 | signals exactly a session with a pid that has not exited |
| Actuators.Actuator.KillAll | internal/actuator/actuator.go:74-76 | whatever the map order, the sessions sent SIGTERM are exactly the killable ones of the entries |
| Actuators.Actuator.Stop | internal/actuator/actuator.go:70-85 | the killable active sessions are signalled, the reconnect timer is stopped, the map emptied, and the connection handed out to be closed |
| Actuators.Actuator.HandleTokenRotated | internal/actuator/actuator.go:415-442 | an empty token changes nothing; otherwise it is taken over and, when written and tidy, loaded again by any restart |
| Actuators.Actuator.ScheduleReconnect | internal/actuator/actuator.go:444-456 | arms nothing once destroyed; otherwise one timer, with the manager's delay for the jitter drawn, exactly when it is not at its cap |
| Locks.BlockOrdered | internal/actuator/actuator.go:389-395 | every block of code takes its locks in the order sendMu, Actuator.mu, Registry.mu, Session.mu and releases all of them |
| Locks.ProgramOrdered | internal/process/registry.go:55-134 | so does every sequence of blocks |
| Locks.DeadlockFree | internal/actuator/actuator.go:70-80 | with any number of goroutines in any interleaving, while one is unfinished some goroutine can step |
| Locks.AllFinish | internal/actuator/actuator.go:70-80 | from every reachable state all goroutines can finish, in exactly as many steps as there are operations left |
| Locks.ProgramsAreRun | internal/process/registry.go:55-134 | over every run each goroutine started has done one operation of its program for each of its steps, in order, and holds exactly the locks it took and has not released |
| Locks.BlocksExclude | internal/process/registry.go:55-134 | in every interleaving two goroutines hold the same lock only for looking something up in the registry |
| Locks.SessionWorkIsLocked | internal/process/registry.go:55-134 | registering is done under the registry's lock alone, a session's block under that session's lock alone |
| Locks.SendWorkIsLocked | internal/actuator/actuator.go:389-413 | a message is written under sendMu alone, after the connection was read under Actuator.mu |
| Locks.StopWorkIsLocked | internal/actuator/actuator.go:70-80 | `Stop` makes one KillSession call for each entry and holds Actuator.mu throughout |
| Locks.WritersFirst | internal/process/registry.go:71-76 | a lookup waits while another goroutine waits to register |
| ResultRouting.ResultsConserved | internal/testutil/mock_broker.go:94-117 | each received result is as often in the channel, the map, a hand, a return value or overwritten as it was received; the channel holds at most 64 |
| ResultRouting.ExactlyOnePlace | internal/testutil/mock_broker.go:94-117 | with distinct ids each received result is in exactly one place |
| ResultRouting.ReturnedOnce | internal/testutil/mock_broker.go:94-117 | a call returns a received result of its own id, and no id is returned twice |
| ResultRouting.SentIsReceived | internal/testutil/mock_broker.go:180-204 | over every run, what was received is what the connections delivered, in the order of the reads |
| ResultRouting.HandsCanEmpty | internal/testutil/mock_broker.go:103-204 | from every state all readers and calls can put what they hold into the map, without a delivery and without touching the channel |
| ResultRouting.ParkedResultMissed | internal/testutil/mock_broker.go:103-116 | a run in which a call times out although its result was received |
| ResultRouting.ServedExactly | internal/testutil/mock_broker.go:103-116 | without further deliveries, a call past its look into the map can return if and only if the channel holds a result for it |
| ResultRouting.MockBroker.Deliver | internal/testutil/mock_broker.go:194-204 | a result goes to the end of the channel, or into the map when the channel is full |
| ResultRouting.MockBroker.WaitForResult | internal/testutil/mock_broker.go:94-117 | alone, a call returns the stored result or the first match in the channel, and everything in front of it ends up in the map |

## Left out

- WebSocket framing, HTTP wake delivery, JSON: a dial succeeds or fails, a read gives a message or an error, and a sent result is a log entry, whether or not there is a connection to carry it.
- Operating system processes, pipes, PTYs and signal delivery: success, pid, exit code, data read and end of file are chosen by the environment in each step.
- The real file system, directories and symbolic links: files are a map from cleaned path to bytes, and path joining is lexical.
- Wall-clock time: timers fire at any moment after they are armed; a delay is an exact real and is not cut to whole milliseconds.
- Go's memory model: an unlocked access is one atomic step.
- ProcessRegistry.Session.WriteStdin: one call with nobody else running; the race between its two reads of the field is in `ExecStdin`.
- Lookups by GetSession are merged with the block under the session's mutex that follows, because sessions never leave the registry.
- Calls on ReconnectManager are atomic steps, although its fields have no lock in the source.
- The random generator: createSlug's draws are an infinite sequence given as a parameter, with a free slug somewhere in it; without one the source never returns. `FreeSlugExists` shows that one is left to draw.
- A PTY read that is inside the system call while ptmx is being closed: in the model it returns data before the close, or only an error after it.
- Overflow of `startLine + limit` and of a minimal offset: line numbers are unbounded integers.
- Strings are bytes, and tokens are characters; invalid UTF-8 in a token file is not modelled.
- ExecTheorems.StopCoverage: needs a command id that no other command carries; `RepeatedIdUncovers` shows why.
- ResultRouting.ExactlyOnePlace: needs distinct result ids, because a repeated id overwrites a stored result; `ResultsConserved` covers the rest.
- Timeout clamping, resizing a PTY, the list, poll and write actions, argument parsing, ping and pong, and the desktop application: they would add only easy members.
