# zwhisper: a verified model of the recording protocol, its clients and the model downloader

This project models the parts of zwhisper in which many things happen at once, or may be cut short at any step,
and proves in Dafny what its documentation and tests promise of them.

**The recording protocol.** The daemon runs any number of recording sessions through one slot. `Protocol` is a step
machine: every session has a program counter, one step runs a task from one `await` to the next, and every fallible
call has both outcomes. Slot ownership is implicit in the code (`release` and `install_stop_hook` take no session id)
and the slot is freed before transcription, so sessions overlap. `ProtocolProofs` has the inductive invariant;
`SignalOrder` and `StopsAndShutdown` what follows from it for every run. `SessionManagers` and `DaemonTasks` are the same
code as it is written, objects whose methods mutate the slot, the task list, the state files and the signal log in place.
At every `await` of a method any other tasks may take any number of steps (`Daemon.Others`), and each method is proved to
take steps of the machine and no others.

**The clients.** `Toggle` has the time gate of the hotkey. `NoOverlap` composes the daemon with one sequential toggle
client, in which three things can go wrong: the daemon's write of the active-session file, the client's read of it,
and a start call the client gives up on. `Overlaps` builds the runs that show each of them matters, and
`TogglePresses` is the press as it is written, proved to take moves of that composition and no others. `Tray` has the
tray's reducers and its message loop, and `TrayPump` composes the daemon with a tray that subscribes, takes a snapshot
and handles three signal streams while the daemon moves; `TrayExceptions` has the runs after which it shows a
recording that is over, and `TrayLastSession` what its last session comes to. `Walks` has building blocks for concrete
runs.

**The state files in every run.** `ActiveFiles` and `LastFiles` give the history of each state file, sessions overlapping
or not: which write or removal it shows, by which steps a session loses it, and when it cannot. `FilesBeforeSignals` says
what can happen to the last-session file between a session's save and the signal that announces it.

**State files and recovery.** `StateFile` is the atomic writer, with a record of every state its directory passes
through. `Recovery` is the startup recovery, run after a crash at any step of any run, any number of times.

**The downloader.** `Download` says what a run returns and what it may leave on disk, `ModelDownloader` is the run itself,
loop by loop, `DownloadEnds` reads every way a run can end off the server's replies and the arrivals, and
`DownloadTheorems` is what holds over any sequence of runs, cancelled or killed anywhere. `Hexadecimal` relates a
checksum's text to the digest, which is an arbitrary function of the bytes.

**Text.** `UrlTemplate` is the `{model}` template, `RpcErrors` the typed-error codec, both over arbitrary strings.

Where the code and its comments differ, the model follows the code:

- `emit_terminal_state` removes `active-session.json` whatever session it names, so a session that records while another
  is transcribing can lose its file (`crates/zwhisperd/src/lifecycle.rs:389-406`). `ActiveFiles.FileHoldsExactly` says
  when it cannot, `RecordingLosesItsFile` is a run in which it does, and then no press can stop the recording
  (`NoPressStopsIt`) and no recovery picks it up (`PickedUpExactly`, `SomeRecordingIsNotPickedUp`).
- The interface lookup after the "recording" signal returns early without releasing the slot
  (`crates/zwhisperd/src/recorder_service.rs:269-270`). Such a session is `Leaked` in the model, and the results it
  matters to name it.
- On a recorder error `RecordingComplete` is emitted, although the header comment of `lifecycle.rs` omits it, and
  "stopping" is not.
- Entering "recording" starts the tray's timer only if none is running, and neither an idle snapshot nor a reconnect that
  missed the daemon's departure stops one (`Tray.TimerRestartsIff` has the exact condition).
- The last-session file is written before each completion signal, as `last_session.rs` demands, but when sessions overlap
  one session's transcript write can replace what another has just saved: `FilesBeforeSignals.FileHoldsExactly` says when
  it cannot, and `TranscriptReplacesFile` is a run in which it does. That the tray never shows another session's audio
  holds of all runs.
- The toggle's draining check keeps sessions from overlapping only while the active-session file is written and read and
  no start call is abandoned; its reader takes a read error for an absent file. `AdmittedBesideExactly` and
  `OverlapNeedsAFault` have the exact condition, and `Overlaps` a run for each fault.
- Startup recovery takes an error in asking for the recording's length for a missing recording, and then removes the only
  file that names it; and it removes the file once the job is submitted, though the queue is in memory and dies with the
  daemon (`TranscribedExactly`, `LostForGood`).
- The tray's two completion streams are served in any order, so its last session can be an older one than the newest
  recording, or lack a transcript that was announced: `LastSessionConverges` says exactly when, and
  `OlderSessionIsShown` is such a run.
- A state file that is written is durable only if the best-effort sync of its directory succeeds
  (`WriteSurvivesIffSynced`).

`dafny verify dfyconfig.toml` checks the whole project.

## Model

| member | source | states |
|---|---|---|
| SessionManagers.SessionManager.TryReserve | crates/zwhisperd/src/session.rs:117-135 | A free slot is taken for the given session with no hook; a held one is left alone and the error names its holder |
| SessionManagers.SessionManager.InstallStopHook | crates/zwhisperd/src/session.rs:143-148 | The hook goes to whatever session is in the slot, and nowhere if there is none |
| SessionManagers.SessionManager.CloneActiveHook | crates/zwhisperd/src/session.rs:155-171 | The hook shutdown will fire is the slot's, if the slot is held and has one |
| SessionManagers.SessionManager.TryStop | crates/zwhisperd/src/session.rs:185-200 | The three answers, and that a hook is handed out exactly with `Stopped` |
| SessionManagers.SessionManager.Release | crates/zwhisperd/src/session.rs:206-209 | The slot is emptied, whoever holds it, and nothing else changes |
| SessionManagers.SessionManager.BeginStart | crates/zwhisperd/src/session.rs:228-233 | A start call counts itself before anything else |
| SessionManagers.SessionManager.DropGuard | crates/zwhisperd/src/session.rs:285-289 | Dropping the guard takes exactly one off the counter |
| SessionManagers.SessionManager.RegisterLifecycle | crates/zwhisperd/src/session.rs:246-253 | The pruning loop keeps every unfinished handle, in order, and adds the new one last |
| SessionManagers.SessionManager.TakeLifecycleTasks | crates/zwhisperd/src/session.rs:259-265 | Every registered handle is handed out and none is kept |
| SessionManagers.PruningKeepsUnfinished | crates/zwhisperd/src/session.rs:246-253 | A handle survives pruning if and only if it was registered and has not finished |
| Protocol.OutputPathIsInjective | crates/zwhisperd/src/recorder_service.rs:97-99 | Two sessions never share an audio path |
| ProtocolProofs.InstrSpeaks | crates/zwhisperd/src/lifecycle.rs:120-339 | Every instruction, on every outcome, extends what the session has said by exactly what it says |
| ProtocolProofs.StepKeepsInv | crates/zwhisperd/src/recorder_service.rs:107-311 | Every step of every interleaving keeps the invariant: slot, hook, guard counter, handles, stop reasons, words, log and paths |
| ProtocolProofs.ReachableIsInv | crates/zwhisperd/src/session.rs:117-265 | Every state of every run satisfies that invariant, whatever state files the daemon started with |
| ProtocolProofs.HookNamesOwner | crates/zwhisperd/src/lifecycle.rs:98-117 | An installed hook writes to the recorder of the session that holds the slot |
| SignalOrder.SlotFollowsLog | crates/zwhisperd/src/session.rs:117-135 | The slot names a session if and only if that session has reserved and not released it |
| SignalOrder.ReleaseIsOwn | crates/zwhisperd/src/session.rs:206-209 | Every release empties the caller's own slot, and every hook is installed into the caller's own session, although neither takes an id |
| SignalOrder.SignalsInOrder | crates/zwhisperd/src/lifecycle.rs:151-338 | One session's entries come in a fixed order and each at most once: one reserve, one release, one terminal state |
| SignalOrder.SignalLanguage | crates/zwhisperd/src/lifecycle.rs:151-338 | Projected to one session every run is a prefix of one of six words, said in full when the session has ended, with a transcript only in the first |
| SignalOrder.WordLanguage | crates/zwhisperd/src/lifecycle.rs:151-338 | The same of each program counter |
| SignalOrder.EndingSaysFullWord | crates/zwhisperd/src/lifecycle.rs:389-406 | Each of the five ways a lifecycle ends has said its own full word |
| SignalOrder.RecordingsAreExclusive | crates/zwhisperd/src/lifecycle.rs:178-197 | Between a session's "starting" and its RecordingComplete, another session's entry can only be a transcript or a terminal state |
| SignalOrder.RecordingIntervalsDisjoint | crates/zwhisperd/src/lifecycle.rs:178-197 | The recording intervals of two completed sessions are disjoint, across any overlap of their transcriptions |
| StopsAndShutdown.StopAnswers | crates/zwhisperd/src/session.rs:185-200 | `Stopped` and `NotReady` exactly: the session holds the slot with, or without, a live lifecycle |
| StopsAndShutdown.StopAimsAtItsSession | crates/zwhisperd/src/recorder_service.rs:323-354 | A stop call aims at the recorder it names and no other; the other answers deliver nothing |
| StopsAndShutdown.HookReachesItsSession | crates/zwhisperd/src/lifecycle.rs:103-106 | Whoever holds the slot when the hook is at last called, only the recorder asked for hears it |
| StopsAndShutdown.StopPrecision | crates/zwhisperd/src/session.rs:185-200 | Over whole runs: an answered `Stopped` reached its recorder, and a recorder told to stop was named or was drained by shutdown |
| StopsAndShutdown.ShutdownMissesOnlyTheStarter | crates/zwhisperd/src/main.rs:181-188 | Shutdown is handed every unfinished lifecycle if and only if no call is inside the start lock; that call's session is the only one it can miss |
| StopsAndShutdown.ShutdownIsComplete | crates/zwhisperd/src/main.rs:167-188 | If the drain loop leaves on a zero counter, no call is queued, every unfinished lifecycle is taken and a session still recording has been told to stop |
| StopsAndShutdown.OnlyLatecomersAreLeft | crates/zwhisperd/src/main.rs:188-215 | After a drained shutdown has joined the handles it took, every session ever reserved has come to its end if and only if those admitted after the take have |
| StopsAndShutdown.QuietDrainHaltsAll | crates/zwhisperd/src/main.rs:188-215 | With no call admitted after the take, a clean drain leaves every session at its end |
| StopsAndShutdown.LatecomerIsLeft | crates/zwhisperd/src/main.rs:188-229 | A run in which a call admitted after the take is still at work when the clean drain is over |
| DaemonTasks.StepByAnother | crates/zwhisperd/src/lifecycle.rs:120-339 | What a suspended task relies on, every step of every other task leaves alone |
| DaemonTasks.Daemon.Others | crates/zwhisperd/src/recorder_service.rs:136 | At an `await` any other tasks take any steps; the state stays reachable and the suspended task's own is undisturbed |
| DaemonTasks.Daemon.RunLifecycle | crates/zwhisperd/src/lifecycle.rs:120-339 | The lifecycle task, interrupted anywhere, takes only steps of the protocol. What it has said in the end, signal by signal, what it has written to the last-session file, field by field, and whether it removed the active-session file, each as an equivalence with what its recorder, profile, job and writes came to |
| DaemonTasks.Daemon.Drain | crates/zwhisperd/src/lifecycle.rs:151-338 | Which outcome of the recorder and of the job gives which ending, and which of its two saves are made: none after a panic, the audio after a recorder error too |
| DaemonTasks.Daemon.CompleteRecording | crates/zwhisperd/src/lifecycle.rs:185-197 | Persist, announce, release, in that order, each a step of the protocol; the audio-only file is written unless its write fails |
| DaemonTasks.Daemon.FinishRecording | crates/zwhisperd/src/lifecycle.rs:167-303 | A clean recording ends audio-only, transcribed or failed by the profile and the job, with the saves that belong to it |
| DaemonTasks.Daemon.PersistLast | crates/zwhisperd/src/lifecycle.rs:433-462 | The file is the one for that step, or as it was if the write fails; either is one step |
| DaemonTasks.Daemon.EmitTerminalState | crates/zwhisperd/src/lifecycle.rs:389-406 | The terminal signal, then one step that removes the active-session file, whoever's it is, or leaves it if the removal fails |
| DaemonTasks.Daemon.StartRecording | crates/zwhisperd/src/recorder_service.rs:107-311 | Under the start lock: a bad profile, or a held slot with its holder's id, is refused and touches nothing but the queue. A free slot starts a new session of that profile, which runs if and only if initialisation, recorder and interface lookup succeed; what it has said by then, and whether its file was written |
| DaemonTasks.Daemon.ReserveSession | crates/zwhisperd/src/recorder_service.rs:159-162 | A reserved session is new and has its own output path; the refusal names the holder and changes nothing |
| DaemonTasks.Daemon.StartReserved | crates/zwhisperd/src/recorder_service.rs:169-310 | From the reservation to a registered lifecycle if and only if initialisation, recorder and interface lookup succeed, and else to the way of giving up of the first that fails, with exactly what has been said; a failed write of the file changes neither |
| DaemonTasks.Daemon.SpawnLifecycle | crates/zwhisperd/src/lifecycle.rs:98-117 | The hook is installed and the handle registered before the guard is dropped |
| DaemonTasks.Daemon.ReleaseAndReturn | crates/zwhisperd/src/recorder_service.rs:169-186 | A failed GStreamer init or directory releases the slot and returns with no signal |
| DaemonTasks.Daemon.RejectStart | crates/zwhisperd/src/recorder_service.rs:224-237 | A recorder that does not start releases the slot and says "failed" |
| DaemonTasks.Daemon.WriteActive | crates/zwhisperd/src/recorder_service.rs:246-259 | The active-session file names this session and its profile before "recording" is said |
| DaemonTasks.Daemon.StopRecording | crates/zwhisperd/src/recorder_service.rs:323-354 | The answer is the one decided under the lock, and an `Ok` means the named recorder has been told, though others run before the hook is called |
| DaemonTasks.Daemon.Shutdown | crates/zwhisperd/src/main.rs:159-188 | The drain loop gives up undrained only after all its polls, and leaves drained exactly if the counter is zero; a drained exit leaves nothing missed and the recording told to stop, a timed-out one misses at most the session inside the start lock |
| RpcErrors.SplitIsUnique | crates/zwhisper-ipc/src/error.rs:173-177 | Splitting at the first separator is the only split whose left part has none |
| RpcErrors.ParseExactly | crates/zwhisper-ipc/src/error.rs:173-193 | A message parses to a name if and only if it is the literal prefix, one of the ten names, a colon and anything |
| RpcErrors.EncodeThenParse | crates/zwhisper-ipc/src/error.rs:86-118 | Each of the ten variants arrives under its own name whatever text the payload carries, colons and prefixes included |
| RpcErrors.OnlySessionInUseIsBenign | crates/zwhisper-hotkey/src/toggle.rs:145-179 | In both transport shapes, a daemon error is the benign race if and only if it is SessionInUse |
| RpcErrors.ClassifiedExactly | crates/zwhisper-hotkey/src/toggle.rs:145-179 | What the client makes of every bus error: exactly the unreachable ones are a daemon that is down, exactly those that name SessionInUse the benign race |
| Toggle.Debouncer.TryAccept | crates/zwhisper-hotkey/src/toggle.rs:214-235 | Cooling down exactly within a cooldown of a stop, whatever else; otherwise debounced exactly within a debounce of the last accepted press; only an accepted press moves the gate, in nanoseconds |
| Toggle.Debouncer.NoteStop | crates/zwhisper-hotkey/src/toggle.rs:240-242 | A stop arms the cooldown from its own clock reading |
| Toggle.AcceptsAreSpaced | crates/zwhisper-hotkey/src/toggle.rs:214-242 | In any time-ordered history accepted presses are a debounce apart, and a cooldown after every earlier stop |
| Toggle.RejectedByHistory | crates/zwhisper-hotkey/src/toggle.rs:214-235 | A press is rejected if and only if the history holds a stop, or an accepted press, too recent; no reference to the gate's state |
| Toggle.WindowHoldsFew | crates/zwhisper-hotkey/src/toggle.rs:214-235 | A window of length w holds at most w / debounce + 1 accepted presses |
| TogglePresses.RecorderClient.GetStatus | crates/zwhisper-hotkey/src/toggle.rs:279-308 | An answered status call is idle if and only if the slot was free when it was asked, and otherwise names the session the file named when it was then read, or is an error if it could not be |
| TogglePresses.RecorderClient.ReadActive | crates/zwhisper-hotkey/src/active_session.rs:109-163 | The file counts as present if and only if it was there, of this version, and could be read |
| TogglePresses.RecorderClient.StartRecording | crates/zwhisper-hotkey/src/toggle.rs:317-322 | The answer the daemon gave is the one heard: a session id, the benign race exactly when the slot was held, or another error; the client gives up without one only after all its waiting |
| TogglePresses.RecorderClient.StopRecording | crates/zwhisper-hotkey/src/toggle.rs:324-331 | If the session held the slot with its lifecycle live when the call was sent, an `Ok` exactly if its recorder has been told by the end; otherwise an error |
| TogglePresses.ToggleOnce | crates/zwhisper-hotkey/src/toggle.rs:361-419 | One press takes moves of the machine only, whatever the daemon does in between. From where it looked at the daemon, the answers that failed and the profile: the calls it makes, and which of started, stopping, each no-op or which error it ends in; only an answered stop arms the cooldown |
| NoOverlap.ArisesIsInv | crates/zwhisper-hotkey/src/toggle.rs:370-398 | In every run with one toggle client, whatever goes wrong, and until two sessions overlap: at most one is open, the file is its own if it was written, and what the client has read stays true but for the recorded faults |
| NoOverlap.NoFaultsNoOverlap | crates/zwhisper-hotkey/src/toggle.rs:370-398 | If the file is always written and read and no start call is abandoned, no two sessions are ever open at once |
| NoOverlap.NoFileMeansExcused | crates/zwhisper-hotkey/src/toggle.rs:370-384 | With any faults: a session still open after a free slot and an absent file was started by an abandoned call, or its file was not written |
| NoOverlap.NoFileMeansNoneOpen | crates/zwhisper-hotkey/src/toggle.rs:370-384 | Without a fault, a free slot seen before and no file now mean that every session has ended, although the daemon moved between the two readings |
| NoOverlap.StartsOnlyAfterAllEnded | crates/zwhisper-hotkey/src/toggle.rs:386-398 | Without a fault a start is asked for only when every earlier session has said all it will |
| NoOverlap.CheckPassesBeside | crates/zwhisper-hotkey/src/toggle.rs:373-384 | Until sessions overlap, and with every earlier removal of the file having succeeded (a stale file stops the client too): the check lets it pass beside an open session it did not abandon if and only if the read failed or that session's file was not written |
| NoOverlap.AdmittedBesideExactly | crates/zwhisperd/src/session.rs:117-135 | In a run that has not overlapped, a call reserves the slot beside an open session if and only if the call was abandoned, the check of the file failed, that session's file was not written, or its own start was abandoned |
| NoOverlap.SessionsNeverOverlap | crates/zwhisperd/src/recorder_service.rs:246-264 | Until two sessions have overlapped, whenever one reserves the slot every other that began has said its terminal state |
| NoOverlap.FileNamesTheSession | crates/zwhisperd/src/recorder_service.rs:246-264 | Until two sessions have overlapped: from before "recording" until after the terminal state the active-session file, if it was written, names the session, which is the only open one. `ActiveFiles.NamedExactly` is the statement for every run |
| Overlaps.FileFaultOverlaps | crates/zwhisperd/src/recorder_service.rs:246-259 | Runs of daemon and client, move by move: one failed write, or one failed read, and two sessions overlap |
| Overlaps.AbandonedCallOverlaps | crates/zwhisper-hotkey/src/toggle.rs:392-398 | A run in which every write and read succeeds, one start call is given up on, and two sessions overlap |
| Overlaps.OverlapNeedsAFault | crates/zwhisper-hotkey/src/toggle.rs:370-398 | For any set of the three faults: some run whose faults are among them overlaps if and only if the set is not empty |
| Overlaps.RecordingLosesItsFile | crates/zwhisperd/src/lifecycle.rs:389-406 | A run in which every write succeeds, the file names a recording, and another session's end leaves that recording going on with no file |
| ActiveFiles.ActiveFileStops | crates/zwhisperd/src/lifecycle.rs:389-406 | In every run: a file that names a session stops naming it if and only if somebody removes or writes it; while the session holds the slot that can only be another session's removal |
| ActiveFiles.FileHoldsExactly | crates/zwhisperd/src/lifecycle.rs:389-406 | In every continuation the file names the session for as long as it holds the slot, if and only if no other session is between its release and its end |
| ActiveFiles.GoneForGood | crates/zwhisperd/src/recorder_service.rs:246-259 | A file removed under a recording stays gone for as long as that recording holds the slot |
| ActiveFiles.NamedExactly | crates/zwhisperd/src/lifecycle.rs:389-406 | In every run the file names a session that wrote it if and only if nobody has written or removed it since; while the session holds the slot, if and only if no other session has removed it since |
| ActiveFiles.ArisesIsReachable | crates/zwhisper-hotkey/src/toggle.rs:370-398 | Every run of daemon and toggle client is a run of the daemon, so these results hold of it |
| ActiveFiles.NoPressStopsIt | crates/zwhisper-hotkey/src/toggle.rs:279-308 | While a recording whose file is gone holds the slot, no press, whatever the daemon does, comes to ask for a stop |
| LastFiles.SavedFileExactly | crates/zwhisperd/src/last_session.rs:9-34 | In every run the file is what a session has saved if and only if nothing was saved since; before its RecordingComplete only another's transcript can have been, before its TranscriptComplete only another session's save |
| FilesBeforeSignals.RecordingFileStops | crates/zwhisperd/src/lifecycle.rs:181-192 | In every run: between a recording's save and its RecordingComplete the file stops naming the session if and only if another session writes its transcript |
| FilesBeforeSignals.TranscriptFileStops | crates/zwhisperd/src/lifecycle.rs:256-274 | Between a transcript's save and its TranscriptComplete the file stops naming the session if and only if another session saves |
| FilesBeforeSignals.FileHoldsExactly | crates/zwhisperd/src/last_session.rs:9-34 | The file names the session at its RecordingComplete in every continuation if and only if no other session is between its release and its transcript's write |
| FilesBeforeSignals.TranscriptReplacesFile | crates/zwhisperd/src/lifecycle.rs:181-192 | A reachable state in which a saved recording is about to be announced and the file names another session |
| FilesBeforeSignals.ArisesKeepsLast | crates/zwhisperd/src/last_session.rs:9-34 | In every toggle-driven run that has not overlapped and whose writes succeed, the last-session file is what the open session has written of itself, in the phase it is in |
| FilesBeforeSignals.FileIsThereBeforeTheSignal | crates/zwhisperd/src/lifecycle.rs:181-192 | In such runs, when RecordingComplete, TranscriptComplete or "idle" is emitted the file already names that session, with its transcript from TranscriptComplete on |
| Recovery.Host.Recover | crates/zwhisperd/src/orphan_recovery.rs:64-121 | Field by field, what one recovery does to the file, the last session and the jobs for every combination of outcomes of its reads, writes, submission and removal; the recordings are not touched |
| Recovery.SubmitsExactly | crates/zwhisperd/src/orphan_recovery.rs:64-121 | A job is submitted if and only if the file is read, of this version, and names a session whose recording is seen to be longer than zero and whose profile loads; its id, source, profile, model and title, field by field |
| Recovery.RecoversOnce | crates/zwhisperd/src/orphan_recovery.rs:117-121 | A second recovery submits nothing more exactly when there was nothing to find, the first removed the file, or the second has no job to submit |
| Recovery.TranscribedExactly | crates/zwhisperd/src/orphan_recovery.rs:64-121 | Through any number of starts, any of which may die before its job ends: an interrupted recording with audio and a profile is transcribed if and only if some start goes through and in no life before it the file was removed or replaced |
| Recovery.LostForGood | crates/zwhisperd/src/orphan_recovery.rs:68-121 | A start loses such a recording to transcription for good if and only if the file is removed or replaced in its life while the length could not be had, the queue refused, or the daemon dies before the job ends |
| Recovery.PickedUpExactly | crates/zwhisperd/src/orphan_recovery.rs:64-121 | Crash at any step of any run, sessions overlapping: an interrupted session that wrote the file is the one picked up if and only if no other session has touched the file since, which while it holds the slot is: none has removed it; with the exact outcomes that submit its job |
| Recovery.SomeRecordingIsNotPickedUp | crates/zwhisperd/src/lifecycle.rs:389-406 | A run in which every active-session file was written, after which a crash leaves an interrupted recording that no recovery picks up |
| Recovery.InterruptedIsRecovered | crates/zwhisperd/src/orphan_recovery.rs:64-121 | Crash at any step of any run that has not overlapped: the session that said "recording" and no terminal state, if its file was written, is the one picked up, on the path its recorder was given, with the exact outcomes that submit it and remove the file |
| Recovery.OnlyTheHolderIsPicked | crates/zwhisperd/src/active_session.rs:207-254 | With removals succeeding, a session is picked if and only if it has written the file and not yet removed it |
| Recovery.NextLifeStartsClean | crates/zwhisperd/src/active_session.rs:242-254 | A recovery whose removal succeeds leaves the next start with no file |
| Recovery.EveryLifeArises | crates/zwhisperd/src/main.rs:108-114 | Through any number of crashes and restarts every life is such a run, so the above holds at each crash |
| StateFile.WriteAtomic | crates/zwhisperd/src/active_session.rs:132-193 | The write succeeds if and only if every call before the directory's sync does, and fails as the first that does not. At every recorded moment the canonical file is the whole old or the whole new one; `Ok` is the new one with all its bytes synced and no temporary left, and survives a crash if and only if the directory was synced; an error never published it |
| StateFile.WriteAll | crates/zwhisperd/src/last_session.rs:183-186 | Partial writes add up to the payload if and only if there is room for it, touching nothing but the temporary file |
| StateFile.Prepare | crates/zwhisperd/src/last_session.rs:173-191 | Success, a fully written and synced temporary file, exactly if creation, write and sync succeed; after a failed write or sync the temporary file is removed unless that fails too |
| StateFile.InterruptedWriteHappens | crates/zwhisperd/src/active_session.rs:132-193 | Wherever the writer is stopped, its directory is one a write may leave |
| StateFile.ReaderSeesWholePayloads | crates/zwhisperd/src/last_session.rs:152-217 | Through any number of interrupted writes, removals and crashes that lose unsynced bytes and undo unsynced renames, a reader sees nothing, the first file whole, or one payload whole |
| StateFile.WriteSurvivesIffSynced | crates/zwhisperd/src/last_session.rs:196-214 | In any history of writes, removals, syncs and crashes: a published payload not replaced since is there after every crash that may follow if and only if the directory has been synced, or read back after a crash, since |
| Tray.TrayState.ApplyStateChanged | crates/zwhisper-tray/src/state.rs:282-325 | The new icon, session, timer and pending command for every state string and id |
| Tray.TrayState.ApplyRecordingComplete | crates/zwhisper-tray/src/state.rs:329-342 | The last session becomes the audio-only one signalled |
| Tray.TrayState.ApplyTranscriptComplete | crates/zwhisper-tray/src/state.rs:359-386 | The audio path is the file's, else the cache's if it is the same session's, else empty |
| Tray.TrayState.ApplySnapshot | crates/zwhisper-tray/src/pump.rs:416-481 | The file's id only mid-recording, the stale id cleared otherwise, the last session only if one was read |
| Tray.TrayState.Multiplex | crates/zwhisper-tray/src/pump.rs:238-413 | The loop is the fold of the reducers over what wakes it, up to the first thing that ends it, and says whether to reconnect |
| Tray.NeverAnothersAudio | crates/zwhisper-tray/src/state.rs:344-386 | From an owned cache and an owned file the audio path is the session's own or empty, and its own if the file names it |
| Tray.StreamsAreIndependent | crates/zwhisper-tray/src/pump.rs:238-413 | The panel is what the state stream and the daemon's departure alone make of it, with the last session the completion streams alone make |
| Tray.StreamOrderIsIrrelevant | crates/zwhisper-tray/src/pump.rs:239-240 | How the loop interleaves the state stream with the others does not affect the panel it ends with |
| Tray.TimerRestartsIff | crates/zwhisper-tray/src/state.rs:286-293 | After a reconnect onto an idle daemon, "recording" starts the timer afresh if and only if no timer was left running |
| TrayPump.EmergesIsInv | crates/zwhisper-tray/src/pump.rs:192-230 | In every run of daemon and tray the panel shows the last state signal taken since the subscription, or the snapshot |
| TrayPump.PanelShowsTheSession | crates/zwhisper-tray/src/state.rs:282-325 | On a live lossless connection: which icon each last signal gives, that the session in flight is shown and the timer runs while it records, and that neither is left after it ended; before any signal, the snapshot's |
| TrayPump.ReconnectShowsTheSession | crates/zwhisper-tray/src/pump.rs:416-481 | A tray that connects mid-recording shows the session the file names |
| TrayPump.TicksAreMessages | crates/zwhisper-tray/src/pump.rs:289-397 | What the composition does with a signal is what the tray's own loop does with its message |
| TrayPump.TranscriptNeverOpensAnothersAudio | crates/zwhisper-tray/src/pump.rs:370-397 | After TranscriptComplete is handled, with any overlap, loss and reconnects, the last session is that session with its own audio path or none, and its own if the file or the panel had it |
| TrayPump.RecordingShowsOwnAudio | crates/zwhisper-tray/src/pump.rs:311-338 | After RecordingComplete is handled, the last session is that session with exactly its own path |
| TrayPump.LastSignalIsTerminal | crates/zwhisperd/src/lifecycle.rs:389-406 | When every session has come to its end, the last state signal is a terminal one unless a leaked session said it |
| TrayPump.SeenIsStuck | crates/zwhisperd/src/recorder_service.rs:169-185 | A session seen in the slot and not heard of since gave up silently or leaked the slot |
| TrayPump.TrayConverges | crates/zwhisper-tray/src/pump.rs:192-230 | Quiescent daemon, lossless connection, drained stream: the tray shows idle or failed with no session, but for two exact exceptions; a leaked session is the one it shows |
| TrayExceptions.SilentIsShownRecording | crates/zwhisperd/src/recorder_service.rs:169-185 | A run in which the first exception arises: the snapshot saw the slot held by a session that then gave up without a signal |
| TrayExceptions.LeakedIsShownRecording | crates/zwhisperd/src/recorder_service.rs:269-270 | And the second: the last signal taken is the "recording" of a session that then leaked the slot |
| TrayLastSession.LastSessionConverges | crates/zwhisper-tray/src/pump.rs:311-397 | Completion streams drained and lossless: the last session is the last recording's or the last transcript's, whichever was handled later; it is the newest recording's unless another session's transcript was handled after it, and the transcript shows if and only if it was handled later |
| TrayLastSession.OlderSessionIsShown | crates/zwhisper-tray/src/pump.rs:311-397 | A run with nothing lost after which the tray shows a session whose transcript came late, and not the newest recording |
| Hexadecimal.FormatHex | crates/zwhisper-settings/src/download.rs:719-728 | The loop prints two lower-case digits for each byte, which read as a number, the high one first, are that byte |
| ModelDownloader.Downloader.PrepareResume | crates/zwhisper-settings/src/download.rs:419-462 | The hasher has been fed exactly the bytes of `.part` and the count is their number, in whatever pieces they were read |
| ModelDownloader.Downloader.StreamChunks | crates/zwhisper-settings/src/download.rs:525-586 | The hasher has been fed what the file was handed; on an early exit the file has grown by some prefix of it, all of it after a flush |
| ModelDownloader.Downloader.StreamBody | crates/zwhisper-settings/src/download.rs:467-607 | When the GET is skipped, refused or streamed, and what each leaves in `.part` |
| ModelDownloader.Downloader.FinaliseRename | crates/zwhisper-settings/src/download.rs:612-619 | The model file appears with the content of `.part`, or nothing changes |
| ModelDownloader.Downloader.Run | crates/zwhisper-settings/src/download.rs:279-374 | The state returned is the last one sent and the one the attempt calls for; the disk it leaves, and every disk on the way, is one allowed; progress is reported out of the manifest's size and never goes back, and what is judged has been reported in full |
| Hexadecimal.HexIsInjective | crates/zwhisper-settings/src/download.rs:719-728 | Different digests print differently |
| Hexadecimal.ComparedExactly | crates/zwhisper-settings/src/download.rs:349-350 | The printed digest equals the lower-cased checksum if and only if the checksum, read digit by digit in either case, is the digest |
| DownloadTheorems.MatchesExactly | crates/zwhisper-settings/src/download.rs:349-350 | For a manifest whose checksum spells a digest, in either case of letters: the text comparison that is the gate holds if and only if the content has that digest |
| DownloadEnds.AllowedTypesExactly | crates/zwhisper-settings/src/download.rs:655-676 | A content type is allowed if and only if, blanks around it and parameters after it aside, it is one of the three in any case of letters; an absent one is not |
| DownloadEnds.RefusedExactly | crates/zwhisper-settings/src/download.rs:393-411 | Which replies are refused and why: no reply, 429 with its wait capped at 600 seconds, any other status outside 2xx, any other content type |
| DownloadEnds.ProbeRefusedExactly | crates/zwhisper-settings/src/download.rs:393-411 | The probe is refused for the same reasons, and for a length other than the manifest's |
| DownloadEnds.StreamStopsExactly | crates/zwhisper-settings/src/download.rs:525-586 | The stream stops at the first arrival it cannot go past, for the reason that arrival gives, having handed over everything up to it; a flush is due every 4 MiB |
| DownloadEnds.CancelledExactly | crates/zwhisper-settings/src/download.rs:309-344 | A run is cancelled if and only if its probe is accepted and it is cancelled before the body or comes to a cancel while streaming |
| DownloadEnds.EarlyEndsExactly | crates/zwhisper-settings/src/download.rs:285-337 | Every way a run ends before the body |
| DownloadEnds.StreamEndsExactly | crates/zwhisper-settings/src/download.rs:467-607 | Every way it ends while the body is fetched |
| DownloadEnds.JudgedExactly | crates/zwhisper-settings/src/download.rs:346-373 | What it ends in once there is nothing left to fetch |
| DownloadTheorems.InstalledIsGenuine | crates/zwhisper-settings/src/download.rs:285-373 | Over any runs against any server, killed anywhere: a model file has the manifest's digest, and once there is never touched |
| DownloadTheorems.RunKeepsTracking | crates/zwhisper-settings/src/download.rs:467-607 | Against a server that honours ranges `.part` stays a prefix of the body at every step, and no progress is lost |
| DownloadTheorems.CompletedRunInstalls | crates/zwhisper-settings/src/download.rs:318-374 | The first run whose stream reaches its end installs exactly the body; the one exception is a model of no bytes with no `.part` |
| DownloadTheorems.ResumeRefinesOneShot | crates/zwhisper-settings/src/download.rs:318-374 | After any number of cancelled, stalled, failed or killed runs, the run that completes installs what a single download would |
| DownloadTheorems.FirstRunJudges | crates/zwhisper-settings/src/download.rs:349-359 | From anything in `.part` an uninterrupted run installs if and only if it is a prefix of the body, and otherwise fails its checksum and removes it |
| DownloadTheorems.SelfHeals | crates/zwhisper-settings/src/download.rs:349-359 | Two uninterrupted runs install the body from any `.part`; a wrong or oversized one costs exactly one checksum failure |
| DownloadTheorems.IgnoredRangeIsCaught | crates/zwhisper-settings/src/download.rs:480-484 | Against a server that ignores the range a run installs exactly when nothing or everything was there, and otherwise fails and removes `.part` |
| UrlTemplate.ValidExactly | crates/zwhisper-settings/src/config.rs:127-160 | A base URL is accepted if and only if it has the scheme and one placeholder in brace-free text |
| UrlTemplate.RefusedExactly | crates/zwhisper-settings/src/config.rs:114-160 | Which of the five errors a refused template gets, the first that applies |
| UrlTemplate.SplitIsUnique | crates/zwhisper-settings/src/config.rs:127-160 | The split around the placeholder is unique |
| UrlTemplate.ResolveFillsTheHole | crates/zwhisper-settings/src/config.rs:114-120 | Resolution fills the hole and nothing else, keeps the scheme, and agrees with the downloader's substitution |
| UrlTemplate.ResolveIsInjective | crates/zwhisper-settings/src/config.rs:114-120 | Two model names never resolve to one URL |
| UrlTemplate.NoCountMeansAbsent | crates/zwhisper-settings/src/config.rs:127-160 | Leftmost matching misses no occurrence |
| UrlTemplate.SubstituteAccepts | crates/zwhisper-settings/src/download.rs:707-717 | The downloader's own guard accepts exactly URLs with the scheme and some placeholder, and agrees with resolution wherever that succeeds |
| UrlTemplate.SubstituteFillsEveryHole | crates/zwhisper-settings/src/download.rs:707-717 | The downloader fills every hole, however many there are, and says what is wrong otherwise |

## Left out

- D-Bus and zbus, the portal, FLTK, ksni, notifications: foreign code. An RPC is its outcome, and a signal is an entry of the log at the moment it is emitted; an emission that fails is still an entry.
- GStreamer, the transcription backends, the job queue and the history writer: each is an arbitrary outcome (success, error, panic or a dropped channel). The recorder's report is taken to carry the path it was given, and a backend to be named `backend` and to write its transcript next to the audio.
- serde: state files are values that round-trip; only the schema version and the empty-field checks are kept. Time stamps in the files are not modelled, and neither is the parsing of a session id's UUID: ids are strings, and a new one is fresh.
- HTTP, TLS and SHA-256 internals, the `.part.meta.json` sidecar (written and never read back), write-back caching of the model files, and two downloaders on one model. Byte counts are unbounded where the source saturates at 64 bits.
- Tray menu commands as a second way to start, in `NoOverlap`: that path has no draining check.
- Liveness of the tray's pending command: a recorder error after a stop says only "failed", which leaves a pending stop in place.
- Calls that arrive before startup recovery has run: recovery is one step before the first call.
- Profile lists, hotkey status, backoff, version handshakes, menus, tooltips, duration limits and device names: single-branch facts.
- TrayPump.TranscriptNeverOpensAnothersAudio: the state file is read at the step that handles the signal; the read and the update are separate in the source, but nothing else touches the tray between them.
- DaemonTasks.Daemon.AwaitStartLock: the body plays one schedule in which the lock's holder returns; callers rely only on the lock being free and their call still being queued.
- TogglePresses.ToggleOnce: a client that waits for an answer looks a bounded number of times and then gives up, the bound being a parameter. The file is read once for the status of a busy daemon; the second read, whose result that branch does not use, is left out.
- DaemonTasks.Daemon.RunLifecycle: a stop channel that wakes the task without a reason does so a bounded number of times, the bound being a parameter; the same holds of the polls in `Shutdown`.
